/** How an undisturbed reconcile of a request ends, for every stored request and every store.  Each case is spelled out in
    terms of the stored objects alone. */
module RequestEnds {
  import opened Resources
  import opened JobTemplates
  import opened Protocol
  import opened PlainTerms
  import opened EventLogs
  import opened Rounds

  // ---------- the cases, in terms of the stored objects ----------

  /** Younger than the limit, and in no terminal state. */
  ghost predicate Live(s: Store, k: Key) {
    && k in s.requests && s.now - s.requests[k].created < s.ttl
    && s.requests[k].status.state in {NoState, Pending, Approved, Rejected, Started}
  }

  /** A live request from which a Job could be built. */
  ghost predicate Ready(s: Store, k: Key) {
    Live(s, k) && Named(s.requests[k].spec.requestedBy) && Targeted(s, k, s.requests[k].spec)
  }

  /** The reconcile records these events on the request, and no others. */
  ghost predicate Records(w: World, w': World, k: Key, more: seq<RequestState>) {
    Events(w', k) == Events(w, k) + more
  }

  // ---------- from the cases to the calls ----------

  /** A status write ends the reconcile. */
  lemma WriteEnds(w: World)
    requires w.request.ReqSetState? && w.request.key in w.store.requests
    requires w.store.requests[w.request.key] == w.request.base
    ensures var w' := RunRequest(w);
            Writes(w.store, w'.store, w.request.key, w.request.st) && w'.log.events == w.log.events
  {
    assert RunRequest(w) == RunRequest(RequestCall(w, Ok)) == RequestCall(w, Ok);
  }

  /** The reconcile after its first read, and after its list of Deployments. */
  lemma FirstRead(w: World, k: Key)
    requires k in w.store.requests
    ensures var w1 := RequestCall(w.(request := ReqGet(k)), Ok);
            && ReconcileRequest(w, k) == RunRequest(w1)
            && w1 == w.(request := AfterGet(w.store, k, w.store.requests[k]))
  {
    hide AfterGet;
    RunUnfolds(w.(request := ReqGet(k)));
  }

  // ---------- before the reviews are listed ----------

  /** An expired request is deleted, whatever its state; and no other is. */
  lemma PrunedExactly(w: World, k: Key)
    requires k in w.store.requests
    ensures var s := w.store; var w' := ReconcileRequest(w, k);
            && (k !in w'.store.requests <==> s.now - s.requests[k].created >= s.ttl)
            && (k !in w'.store.requests ==> w'.store == s.(requests := s.requests - {k}) && Records(w, w', k, []))
  {
    hide UserOf, RunRequest, ReconcileRequest;
    FirstRead(w, k);
    var w1 := RequestCall(w.(request := ReqGet(k)), Ok);
    if w1.request.ReqDelete? {
      DeletionEnds(w1);
    } else {
      StaysThroughRun(w1, k);
    }
  }

  lemma DeletionEnds(w: World)
    requires w.request.ReqDelete?
    ensures RunRequest(w) == w.(request := ReqIdle, store := w.store.(requests := w.store.requests - {w.request.key}))
  {
    assert RunRequest(w) == RunRequest(RequestCall(w, Ok)) == RequestCall(w, Ok);
  }

  lemma {:induction false} StaysThroughRun(w: World, k: Key)
    requires Past(w.request) && k in w.store.requests
    ensures k in RunRequest(w).store.requests
    decreases Stage(w.request), ToGo(w.request)
  {
    hide RequestCall, Stage, ToGo;
    if !w.request.ReqIdle? {
      CallGrows(w);
      StageDrops(w);
      StaysThroughCall(w, k);
      StaysThroughRun(RequestCall(w, Ok), k);
    }
  }

  lemma StaysThroughCall(w: World, k: Key)
    requires Past(w.request) && k in w.store.requests
    ensures k in RequestCall(w, Ok).store.requests
  {
  }

  /** A finished request is left as it is. */
  lemma FinishedIsLeft(w: World, k: Key)
    requires k in w.store.requests && w.store.now - w.store.requests[k].created < w.store.ttl
    requires w.store.requests[k].status.state in {Complete, Failed, Malformed, Conflicted}
    ensures ReconcileRequest(w, k).store == w.store && Records(w, ReconcileRequest(w, k), k, [])
  {
    hide UserOf, RunRequest, ReconcileRequest;
    FirstRead(w, k);
    RunIdle(RequestCall(w.(request := ReqGet(k)), Ok));
  }

  /** Without a requester, a Deployment or its container, a live request becomes Malformed. */
  lemma UnreadyIsMalformed(w: World, k: Key)
    requires Live(w.store, k) && !Ready(w.store, k)
    ensures var w' := ReconcileRequest(w, k);
            && Writes(w.store, w'.store, k, w.store.requests[k].status.(state := Malformed))
            && Records(w, w', k, [])
  {
    hide UserOf, RunRequest, ReconcileRequest, Named, Targeted, TargetContainers, ListTargets;
    var r := w.store.requests[k];
    FirstRead(w, k);
    NamedIsUser(r.spec.requestedBy);
    TargetedIsListed(w.store, k, r.spec);
    var w1 := RequestCall(w.(request := ReqGet(k)), Ok);
    if w1.request.ReqSetState? {
      WriteEnds(w1);
    } else {
      RunUnfolds(w1);
      WriteEnds(RequestCall(w1, Ok));
    }
  }

  // ---------- the list of reviews ----------

  /** A ready request comes to the list of its reviews, with this Job at hand. */
  lemma ReadyIsListed(w: World, k: Key, o: Outcome) returns (t: Job)
    requires Ready(w.store, k)
    ensures ReconcileListing(w, k, o) == RunRequest(RequestCall(w.(request := ReqListReviews(k, w.store.requests[k], t)), o))
    ensures t == JobTemplate(w.store.deployments[Key(k.ns, w.store.requests[k].spec.deployment)], k, w.store.requests[k].spec)
  {
    hide UserOf, RunRequest, Named, TargetContainers;
    var r := w.store.requests[k];
    NamedIsUser(r.spec.requestedBy);
    TargetedIsListed(w.store, k, r.spec);
    var w1 := RequestCall(w.(request := ReqGet(k)), Ok);
    assert w1.request.ReqListTargets?;
    var w2 := RequestCall(w1, Ok);
    assert w2.request.ReqListReviews?;
    t := w2.request.template;
    assert w2 == w.(request := ReqListReviews(k, r, t));
  }

  /** A failed or empty list makes a ready request Pending, whatever it was; only the empty list of a new one is recorded. */
  lemma UnreviewedIsPending(w: World, k: Key, o: Outcome)
    requires Ready(w.store, k) && (!o.Ok? || !Reviewed(w.store, k))
    ensures var w' := ReconcileListing(w, k, o); var st := w.store.requests[k].status;
            && Writes(w.store, w'.store, k, st.(state := Pending))
            && Records(w, w', k, if o.Ok? && st.state == NoState then [Pending] else [])
  {
    hide UserOf, RunRequest, Reviewed, HasReview, ReconcileListing;
    var t := ReadyIsListed(w, k, o);
    ReviewedIsListed(w.store, k);
    var w3 := RequestCall(w.(request := ReqListReviews(k, w.store.requests[k], t)), o);
    assert [Pending] + [] == [Pending];
    RecordedElsewhere(w.log.events, k, [Pending]);
    WriteEnds(w3);
  }

  /** A new, Pending or Rejected request with a review is left as it is; each time, a Rejected one is recorded. */
  lemma ReviewedIsLeft(w: World, k: Key)
    requires Ready(w.store, k) && Reviewed(w.store, k) && w.store.requests[k].status.state in {NoState, Pending, Rejected}
    ensures var w' := ReconcileRequest(w, k); var state := w.store.requests[k].status.state;
            && w'.store == w.store && Records(w, w', k, if state == Rejected then [Rejected] else [])
  {
    hide UserOf, RunRequest, Reviewed, HasReview, ReconcileListing, ReconcileRequest;
    ListingWell(w, k);
    var t := ReadyIsListed(w, k, Ok);
    ReviewedIsListed(w.store, k);
    var w3 := RequestCall(w.(request := ReqListReviews(k, w.store.requests[k], t)), Ok);
    RecordedElsewhere(w.log.events, k, [Rejected]);
    if w3.request.ReqSetState? {
      WriteEnds(w3);
    } else {
      RunIdle(w3);
    }
  }

  // ---------- an Approved request ----------

  lemma ApprovedIsLookedUp(w: World, k: Key) returns (t: Job)
    requires Ready(w.store, k) && Reviewed(w.store, k) && w.store.requests[k].status.state == Approved
    ensures ReconcileRequest(w, k) == RunRequest(RequestCall(w.(request := ReqGetNewJob(k, w.store.requests[k], t)), Ok))
    ensures t == JobTemplate(w.store.deployments[Key(k.ns, w.store.requests[k].spec.deployment)], k, w.store.requests[k].spec)
  {
    hide UserOf, RunRequest, Reviewed, HasReview, ReconcileListing, ReconcileRequest, JobTemplate;
    ListingWell(w, k);
    t := ReadyIsListed(w, k, Ok);
    ReviewedIsListed(w.store, k);
    var w3 := RequestCall(w.(request := ReqListReviews(k, w.store.requests[k], t)), Ok);
    assert w3 == w.(request := ReqGetNewJob(k, w.store.requests[k], t));
    RunUnfolds(w3);
  }

  /** An Approved request that finds a Job of its name becomes Conflicted. */
  lemma ApprovedMeetsJob(w: World, k: Key)
    requires Ready(w.store, k) && Reviewed(w.store, k) && w.store.requests[k].status.state == Approved && k in w.store.jobs
    ensures var w' := ReconcileRequest(w, k);
            && Writes(w.store, w'.store, k, w.store.requests[k].status.(state := Conflicted))
            && Records(w, w', k, [])
  {
    hide UserOf, RunRequest, Reviewed, ReconcileRequest, Named, Targeted;
    var t := ApprovedIsLookedUp(w, k);
    WriteEnds(RequestCall(w.(request := ReqGetNewJob(k, w.store.requests[k], t)), Ok));
  }

  /** An Approved request without a Job of its name gets one, and is Started with its name. */
  lemma ApprovedIsStarted(w: World, k: Key) returns (indices: seq<nat>)
    requires Ready(w.store, k) && Reviewed(w.store, k) && w.store.requests[k].status.state == Approved && k !in w.store.jobs
    ensures var s := w.store; var w' := ReconcileRequest(w, k); var r := s.requests[k];
            && k in w'.store.jobs
            && BuiltFrom(w'.store.jobs[k], s.deployments[Key(k.ns, r.spec.deployment)], k, r.spec, indices)
            && Writes(s.(jobs := s.jobs[k := w'.store.jobs[k]]), w'.store, k, r.status.(jobName := k.name, state := Started))
            && Records(w, w', k, [Approved, Started])
  {
    hide UserOf, RunRequest, Reviewed, ReconcileRequest, Named, JobTemplate, BuiltFrom;
    var t := ApprovedIsLookedUp(w, k);
    indices := TemplateIsBuilt(w.store.deployments[Key(k.ns, w.store.requests[k].spec.deployment)], k, w.store.requests[k].spec);
    var w4 := RequestCall(w.(request := ReqGetNewJob(k, w.store.requests[k], t)), Ok);
    RecordedElsewhere(w.log.events, k, [Approved]);
    RecordedElsewhere(w4.log.events, k, [Started]);
    assert [Approved] + [Started] == [Approved, Started];
    assert w4.request.ReqCreateJob? && w4.store == w.store;
    RunUnfolds(w4);
    WriteEnds(RequestCall(w4, Ok));
    assert (Events(w, k) + [Approved]) + [Started] == Events(w, k) + [Approved, Started];
  }

  // ---------- a Started request ----------

  lemma StartedIsLookedUp(w: World, k: Key)
    requires Ready(w.store, k) && Reviewed(w.store, k) && w.store.requests[k].status.state == Started
    ensures ReconcileRequest(w, k) == RunRequest(RequestCall(w.(request := ReqGetRunningJob(k, w.store.requests[k])), Ok))
  {
    hide UserOf, RunRequest, Reviewed, HasReview, ReconcileListing, ReconcileRequest, JobTemplate;
    ListingWell(w, k);
    var t := ReadyIsListed(w, k, Ok);
    ReviewedIsListed(w.store, k);
    var w3 := RequestCall(w.(request := ReqListReviews(k, w.store.requests[k], t)), Ok);
    assert w3 == w.(request := ReqGetRunningJob(k, w.store.requests[k]));
    RunUnfolds(w3);
  }

  /** A Started request without a Job becomes Malformed. */
  lemma StartedWithoutJob(w: World, k: Key)
    requires Ready(w.store, k) && Reviewed(w.store, k) && w.store.requests[k].status.state == Started && k !in w.store.jobs
    ensures var w' := ReconcileRequest(w, k);
            && Writes(w.store, w'.store, k, w.store.requests[k].status.(state := Malformed))
            && Records(w, w', k, [])
  {
    hide UserOf, RunRequest, Reviewed, ReconcileRequest, Named, Targeted;
    StartedIsLookedUp(w, k);
    WriteEnds(RequestCall(w.(request := ReqGetRunningJob(k, w.store.requests[k])), Ok));
  }

  /** With a Job it is read once more, and the conditions are gone through. */
  lemma StartedIsReadAgain(w: World, k: Key)
    requires Ready(w.store, k) && Reviewed(w.store, k) && w.store.requests[k].status.state == Started && k in w.store.jobs
    ensures var r := w.store.requests[k];
            ReconcileRequest(w, k) == RunRequest(Resume(w, k, NextFinish(k, r, r.status, w.store.jobs[k].conditions)))
  {
    hide UserOf, RunRequest, Reviewed, ReconcileRequest, Named, Targeted, NextFinish;
    StartedIsLookedUp(w, k);
    var w1 := RequestCall(w.(request := ReqGetRunningJob(k, w.store.requests[k])), Ok);
    assert w1 == w.(request := ReqGetAgain(k, w.store.requests[k], w.store.jobs[k].conditions));
    RunUnfolds(w1);
  }

  lemma {:induction false} LastOutcomeAppend(a: seq<Condition>, b: seq<Condition>, before: RequestState)
    ensures LastOutcome(a + b, before) == LastOutcome(b, LastOutcome(a, before))
    decreases |b|
  {
    if b == [] {
      assert a + b == a;
    } else {
      var n := |b| - 1;
      assert (a + b)[..|a + b| - 1] == a + b[..n];
      LastOutcomeAppend(a, b[..n], before);
    }
  }

  lemma {:induction false} NoOutcome(conditions: seq<Condition>, before: RequestState)
    requires Condition(JobComplete, "True") !in conditions && Condition(JobFailed, "True") !in conditions
    ensures LastOutcome(conditions, before) == before
  {
    if conditions != [] {
      NoOutcome(conditions[..|conditions| - 1], before);
    }
  }

  /** Nothing before the first outcome matters. */
  lemma OutcomeFrom(conditions: seq<Condition>, i: nat, before: RequestState, state: RequestState)
    requires i < |conditions| && (state == Complete || state == Failed)
    requires conditions[i] == Condition(if state == Complete then JobComplete else JobFailed, "True")
    requires forall j :: 0 <= j < i ==>
               conditions[j] != Condition(JobComplete, "True") && conditions[j] != Condition(JobFailed, "True")
    ensures LastOutcome(conditions, before) == LastOutcome(conditions[i + 1..], state)
  {
    var head := conditions[..i + 1];
    assert conditions == head + conditions[i + 1..];
    assert head[|head| - 1] == conditions[i];
    LastOutcomeAppend(head, conditions[i + 1..], before);
  }

  // ---------- the writes of the loop ----------

  /** The request with this status, and nothing else but versions changed. */
  ghost predicate Reaches(s: Store, s': Store, k: Key, st: RequestStatus)
    requires k in s.requests
  {
    && k in s'.requests && s'.requests[k].status == st
    && s'.requests == s.requests[k := s.requests[k].(version := s'.requests[k].version, status := st)]
    && s' == s.(rv := s'.rv, requests := s'.requests)
  }

  /** The rest of the loop, from a write on. */
  lemma {:induction false} LoopEnds(w: World)
    requires w.request.ReqFinish? && w.request.key in w.store.requests
    requires w.store.requests[w.request.key] == w.request.base
    ensures var ReqFinish(k, base, st, rest) := w.request;
            Reaches(w.store, RunRequest(w).store, k, st.(state := LastOutcome(rest, st.state)))
    decreases |w.request.rest|
  {
    hide RunRequest;
    var ReqFinish(k, base, st, rest) := w.request;
    RunUnfolds(w);
    var w1 := RequestCall(w, Ok);
    var base' := w1.store.requests[k];
    assert Reaches(w.store, w1.store, k, st);
    assert w1.store == UpdateRequestStatus(w.store, k, base, st, Ok) && base'.status == st;
    var i := FinishesAt(k, base', st, rest);
    if i == |rest| {
      RunIdle(w1);
      NoOutcome(rest, st.state);
    } else {
      var state :| WritesOutcome(NextFinish(k, base', st, rest), k, base', st, rest, i, state);
      OutcomeFrom(rest, i, st.state, state);
      LoopEnds(w1);
    }
  }

  /** A Started request with a Job takes the last outcome that the Job reports; without one it stays Started. */
  lemma StartedTakesLastOutcome(w: World, k: Key)
    requires Ready(w.store, k) && Reviewed(w.store, k) && w.store.requests[k].status.state == Started && k in w.store.jobs
    ensures Reaches(w.store, ReconcileRequest(w, k).store, k,
                    w.store.requests[k].status.(state := LastOutcome(w.store.jobs[k].conditions, Started)))
  {
    hide RunRequest, ReconcileRequest, UserOf, Named, Targeted, Reviewed, NextFinish;
    var r, conditions := w.store.requests[k], w.store.jobs[k].conditions;
    StartedIsReadAgain(w, k);
    var i := FinishesAt(k, r, r.status, conditions);
    var w1 := Resume(w, k, NextFinish(k, r, r.status, conditions));
    if i == |conditions| {
      RunIdle(w1);
      NoOutcome(conditions, Started);
    } else {
      var state :| WritesOutcome(NextFinish(k, r, r.status, conditions), k, r, r.status, conditions, i, state);
      OutcomeFrom(conditions, i, Started, state);
      LoopEnds(w1);
    }
  }

  // ---------- a Job that does not report both outcomes ----------

  /** What is left of the loop writes the same status again, which changes nothing. */
  lemma {:induction false} LoopRepeats(w: World)
    requires w.request.ReqFinish? && w.request.key in w.store.requests
    requires w.store.requests[w.request.key] == w.request.base && w.request.base.status == w.request.st
    requires w.request.st.state == Complete ==> Condition(JobFailed, "True") !in w.request.rest
    requires w.request.st.state == Failed ==> Condition(JobComplete, "True") !in w.request.rest
    requires w.request.st.state in {Complete, Failed}
    ensures RunRequest(w).store == w.store && RunRequest(w).log.events == w.log.events
    decreases |w.request.rest|
  {
    hide RunRequest;
    var ReqFinish(k, base, st, rest) := w.request;
    RunUnfolds(w);
    var w1 := RequestCall(w, Ok);
    var i := FinishesAt(k, base, st, rest);
    if i == |rest| {
      RunIdle(w1);
    } else {
      var state :| WritesOutcome(NextFinish(k, base, st, rest), k, base, st, rest, i, state);
      assert rest[i] in rest;
      assert forall c :: c in rest[i + 1..] ==> c in rest;
      LoopRepeats(w1);
    }
  }

  /** The first write of the loop is the only one that changes anything, and the only one that is recorded. */
  lemma LoopWritesOnce(w: World)
    requires w.request.ReqFinish? && w.request.key in w.store.requests
    requires w.store.requests[w.request.key] == w.request.base
    requires w.request.st.state == Complete ==> Condition(JobFailed, "True") !in w.request.rest
    requires w.request.st.state == Failed ==> Condition(JobComplete, "True") !in w.request.rest
    requires w.request.st.state in {Complete, Failed}
    ensures Writes(w.store, RunRequest(w).store, w.request.key, w.request.st) && RunRequest(w).log.events == w.log.events
  {
    hide RunRequest;
    var ReqFinish(k, base, st, rest) := w.request;
    RunUnfolds(w);
    var w1 := RequestCall(w, Ok);
    var base' := w1.store.requests[k];
    var i := FinishesAt(k, base', st, rest);
    assert Writes(w.store, w1.store, k, st);
    if i == |rest| {
      RunIdle(w1);
    } else {
      var state :| WritesOutcome(NextFinish(k, base', st, rest), k, base', st, rest, i, state);
      assert rest[i] in rest;
      assert forall c :: c in rest[i + 1..] ==> c in rest;
      LoopRepeats(w1);
    }
  }

  /** A Started request whose Job reports one outcome becomes Complete or Failed accordingly; that is recorded once. */
  lemma StartedIsFinished(w: World, k: Key, state: RequestState)
    requires Ready(w.store, k) && Reviewed(w.store, k) && w.store.requests[k].status.state == Started && k in w.store.jobs
    requires state == Complete ==> Reports(w.store.jobs[k], JobComplete) && !Reports(w.store.jobs[k], JobFailed)
    requires state == Failed ==> Reports(w.store.jobs[k], JobFailed) && !Reports(w.store.jobs[k], JobComplete)
    requires state == Complete || state == Failed
    ensures var w' := ReconcileRequest(w, k);
            Writes(w.store, w'.store, k, w.store.requests[k].status.(state := state)) && Records(w, w', k, [state])
  {
    hide RunRequest, ReconcileRequest, UserOf, Named, Targeted, Reviewed, NextFinish;
    var r, conditions := w.store.requests[k], w.store.jobs[k].conditions;
    StartedIsReadAgain(w, k);
    var i := FinishesAt(k, r, r.status, conditions);
    var w1 := Resume(w, k, NextFinish(k, r, r.status, conditions));
    assert i < |conditions|;
    var found :| WritesOutcome(NextFinish(k, r, r.status, conditions), k, r, r.status, conditions, i, found);
    assert conditions[i] in conditions;
    assert found == state;
    assert forall c :: c in conditions[i + 1..] ==> c in conditions;
    RecordedElsewhere(w.log.events, k, [state]);
    LoopWritesOnce(w1);
  }

  /** A Started request whose Job reports no outcome is left as it is. */
  lemma StartedIsLeft(w: World, k: Key)
    requires Ready(w.store, k) && Reviewed(w.store, k) && w.store.requests[k].status.state == Started && k in w.store.jobs
    requires !Reports(w.store.jobs[k], JobComplete) && !Reports(w.store.jobs[k], JobFailed)
    ensures ReconcileRequest(w, k).store == w.store && Records(w, ReconcileRequest(w, k), k, [])
  {
    hide RunRequest, ReconcileRequest, UserOf, Named, Targeted, Reviewed, NextFinish;
    var r, conditions := w.store.requests[k], w.store.jobs[k].conditions;
    StartedIsReadAgain(w, k);
    var i := FinishesAt(k, r, r.status, conditions);
    RunIdle(Resume(w, k, NextFinish(k, r, r.status, conditions)));
  }

  /** So a Started request is Complete afterwards exactly when its Job reports completion, Failed exactly when it reports
      failure, Malformed exactly when there is no Job, and Started otherwise; and the outcome is what is recorded. */
  lemma StartedExactly(w: World, k: Key)
    requires Ready(w.store, k) && Reviewed(w.store, k) && w.store.requests[k].status.state == Started
    requires k in w.store.jobs ==> !(Reports(w.store.jobs[k], JobComplete) && Reports(w.store.jobs[k], JobFailed))
    ensures var w' := ReconcileRequest(w, k);
            && k in w'.store.requests
            && var state := w'.store.requests[k].status.state;
            && (state == Complete <==> k in w.store.jobs && Reports(w.store.jobs[k], JobComplete))
            && (state == Failed <==> k in w.store.jobs && Reports(w.store.jobs[k], JobFailed))
            && (state == Malformed <==> k !in w.store.jobs)
            && (state == Started
                <==> k in w.store.jobs && !Reports(w.store.jobs[k], JobComplete) && !Reports(w.store.jobs[k], JobFailed))
            && Records(w, w', k, if state in {Complete, Failed} then [state] else [])
  {
    hide RunRequest, ReconcileRequest, UserOf, Named, Targeted, Reviewed, Reports, Records;
    if k !in w.store.jobs {
      StartedWithoutJob(w, k);
    } else if Reports(w.store.jobs[k], JobComplete) {
      StartedIsFinished(w, k, Complete);
    } else if Reports(w.store.jobs[k], JobFailed) {
      StartedIsFinished(w, k, Failed);
    } else {
      StartedIsLeft(w, k);
    }
  }

  // ---------- a call that fails ----------

  /** A failed read, list of Deployments or look for a new Job ends the reconcile without a trace. */
  lemma FailedReadEnds(w: World, o: Outcome)
    requires !o.Ok?
    requires w.request.ReqGet? || w.request.ReqListTargets? || w.request.ReqGetNewJob? || w.request.ReqGetAgain?
    ensures var w' := RunRequest(RequestCall(w, o)); w'.store == w.store && Records(w, w', w.request.key, [])
  {
    hide RunRequest, UserOf;
    RunIdle(RequestCall(w, o));
  }

  /** A failed look for the Job of a Started request counts as none, and makes it Malformed. */
  lemma FailedLookupIsMalformed(w: World, o: Outcome)
    requires !o.Ok? && w.request.ReqGetRunningJob?
    requires w.request.key in w.store.requests && w.store.requests[w.request.key] == w.request.base
    ensures var w' := RunRequest(RequestCall(w, o)); var k := w.request.key;
            Writes(w.store, w'.store, k, w.request.base.status.(state := Malformed)) && Records(w, w', k, [])
  {
    hide RunRequest;
    WriteEnds(RequestCall(w, o));
  }

  /** A creation that fails, or whose answer is lost, makes the request Malformed; in the second case the Job is there. */
  lemma FailedCreationIsMalformed(w: World, o: Outcome)
    requires w.request.ReqCreateJob? && (!o.Ok? || w.request.key in w.store.jobs)
    requires w.request.key in w.store.requests && w.store.requests[w.request.key] == w.request.base
    ensures var w' := RunRequest(RequestCall(w, o)); var ReqCreateJob(k, base, template) := w.request;
            && w'.store.jobs == (if o.FaultApplied? && k !in w.store.jobs then w.store.jobs[k := template] else w.store.jobs)
            && Writes(w.store.(jobs := w'.store.jobs), w'.store, k, base.status.(state := Malformed))
            && Records(w, w', k, [])
  {
    hide RunRequest;
    WriteEnds(RequestCall(w, o));
  }
}
