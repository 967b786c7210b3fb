/** What an outcome, a Job of the controller and the state of a review go back to: in every execution, with any faults,
    crashes and edits, and whatever the others do between two calls. */
module Origins {
  import opened Wrappers
  import opened Resources
  import opened JobTemplates
  import opened Protocol
  import opened PlainTerms
  import opened Invariants
  import opened Frames
  import opened Interference
  import opened Safety
  import opened StatusMoves
  import opened EventLogs
  import opened DecisionMoves
  import opened ReviewEnds

  /** No other reconcile of a request begins from step `m` to step `i`. */
  predicate SameReconcile(steps: seq<Step>, m: nat, i: nat)
    requires i <= |steps|
  {
    forall q :: m < q < i ==> !steps[q].StartRequest? && !steps[q].CrashRequest?
  }

  /** The last call, in the same reconcile. */
  lemma CallBefore(ws: seq<World>, steps: seq<Step>, i: nat) returns (m: nat)
    requires Execution(ws, steps) && i < |ws| && !ws[i].request.ReqIdle? && !ws[i].request.ReqGet?
    ensures m < i && steps[m].CallRequest? && !ws[m].request.ReqIdle? && ws[i].request == RequestCall(ws[m], steps[m].o).request
    ensures SameReconcile(steps, m, i)
  {
    hide RequestCall;
    m := LastCall(ws, steps, i);
  }

  // ---------- an outcome ----------

  /** The status to be written, and whatever is still to be gone through, comes from these conditions. */
  ghost predicate Concludes(conditions: seq<Condition>, pc: RequestPc)
    requires pc.ReqFinish?
  {
    && (pc.st.state == Complete || pc.st.state == Failed)
    && Condition(if pc.st.state == Complete then JobComplete else JobFailed, "True") in conditions
    && forall c :: c in pc.rest ==> c in conditions
  }

  lemma LoopConcludes(k: Key, base: JobRequest, st: RequestStatus, conditions: seq<Condition>)
    ensures var pc := NextFinish(k, base, st, conditions).pc; pc.ReqFinish? ==> pc.key == k && Concludes(conditions, pc)
  {
    hide NextFinish;
    var i := FinishesAt(k, base, st, conditions);
    if i < |conditions| {
      var state :| WritesOutcome(NextFinish(k, base, st, conditions), k, base, st, conditions, i, state);
      assert conditions[i] in conditions;
      assert forall c :: c in conditions[i + 1..] ==> c in conditions;
    }
  }

  lemma ConcludingCall(w: World, o: Outcome)
    requires RequestCall(w, o).request.ReqFinish?
    ensures w.request.ReqGetAgain? || w.request.ReqFinish?
    ensures var pc := RequestCall(w, o).request;
            pc.key == w.request.key && Concludes(if w.request.ReqGetAgain? then w.request.conditions else w.request.rest, pc)
  {
    hide NextFinish, Concludes, UserOf;
    match w.request
    case ReqGetAgain(k, _, conditions) =>
      var r := w.store.requests[k];
      LoopConcludes(k, r, r.status, conditions);
    case ReqFinish(k, base, st, rest) =>
      var store := UpdateRequestStatus(w.store, k, base, st, o);
      LoopConcludes(k, if o.Ok? && RequestWriteLands(w.store, k, base, o) then store.requests[k] else base, st, rest);
    case _ =>
  }

  lemma RereadCall(w: World, o: Outcome)
    requires RequestCall(w, o).request.ReqGetAgain?
    ensures o.Ok? && w.request.ReqGetRunningJob? && w.request.key in w.store.jobs
    ensures var pc := RequestCall(w, o).request;
            pc.key == w.request.key && pc.conditions == w.store.jobs[w.request.key].conditions
  {
    hide UserOf;
  }

  /** The reconcile saw this Job at step `m`. */
  ghost predicate SawJob(ws: seq<World>, steps: seq<Step>, m: nat, i: nat, k: Key, job: Job)
    requires i < |ws| && |ws| == |steps| + 1
  {
    && m < i && SameReconcile(steps, m, i)
    && ws[m].request.ReqGetRunningJob? && ws[m].request.key == k && steps[m] == CallRequest(Ok)
    && k in ws[m].store.jobs && ws[m].store.jobs[k] == job
  }

  lemma {:induction false} ConclusionWasSeen(ws: seq<World>, steps: seq<Step>, i: nat) returns (m: nat, job: Job)
    requires Execution(ws, steps) && i < |ws| && (ws[i].request.ReqFinish? || ws[i].request.ReqGetAgain?)
    ensures SawJob(ws, steps, m, i, ws[i].request.key, job)
    ensures ws[i].request.ReqFinish? ==> Concludes(job.conditions, ws[i].request)
    ensures ws[i].request.ReqGetAgain? ==> ws[i].request.conditions == job.conditions
    decreases i
  {
    hide RequestCall;
    var n := CallBefore(ws, steps, i);
    if ws[i].request.ReqGetAgain? {
      RereadCall(ws[n], steps[n].o);
      m, job := n, ws[n].store.jobs[ws[i].request.key];
    } else {
      ConcludingCall(ws[n], steps[n].o);
      m, job := ConclusionWasSeen(ws, steps, n);
    }
  }

  // ---------- the outcome is recorded ----------

  ghost predicate LastEventIs(w: World, k: Key, state: RequestState) {
    Events(w, k) != [] && Events(w, k)[|Events(w, k)| - 1] == state
  }

  ghost predicate OutcomeRecorded(w: World) {
    w.request.ReqFinish? ==> LastEventIs(w, w.request.key, w.request.st.state)
  }

  lemma FinishRecordsNothing(w: World, o: Outcome)
    requires RequestPcInv(w) && w.request.ReqFinish?
    ensures var w' := CallFinish(w, o); var ReqFinish(k, base, st, rest) := w.request;
            Events(w', k) == Events(w, k) && (w'.request.ReqFinish? ==> w'.request.key == k && w'.request.st == st)
  {
    var ReqFinish(k, base, st, rest) := w.request;
    var store := UpdateRequestStatus(w.store, k, base, st, o);
    NextFinishAgain(k, if o.Ok? && RequestWriteLands(w.store, k, base, o) then store.requests[k] else base, st, rest);
    RecordedElsewhere(w.log.events, k, []);
  }

  lemma RereadRecords(w: World, o: Outcome)
    requires Inv(w) && w.request.ReqGetAgain?
    ensures OutcomeRecorded(CallGetAgain(w, o))
  {
    hide StoreInv, HistoryInv, ReviewPcInv;
    var ReqGetAgain(k, base, conditions) := w.request;
    if o.Ok? && k in w.store.requests {
      var r := w.store.requests[k];
      NextFinishFirst(k, r, r.status, conditions);
      RecordedElsewhere(w.log.events, k, NextFinish(k, r, r.status, conditions).events);
    }
  }

  lemma OutcomeRecordedStep(w: World, s: Step)
    requires Inv(w) && Enabled(w, s) && OutcomeRecorded(w)
    ensures OutcomeRecorded(Apply(w, s))
  {
    hide Enabled, LastEventIs, StoreInv, HistoryInv, ReviewPcInv, RequestPcInv, ReviewCall, Environment, RequestCall;
    if s.CallRequest? {
      OutcomeRecordedCall(w, s.o);
    } else {
      PcUnlessCall(w, s);
      if w.request.ReqFinish? {
        OthersOnlyDecide(w, s, w.request.key);
        SameLastEvent(w, Apply(w, s), w.request.key, w.request.st.state);
      }
    }
  }

  lemma SameLastEvent(w: World, w': World, k: Key, state: RequestState)
    requires Events(w', k) == Events(w, k)
    ensures LastEventIs(w, k, state) <==> LastEventIs(w', k, state)
  {
  }

  lemma OutcomeRecordedCall(w: World, o: Outcome)
    requires Inv(w) && OutcomeRecorded(w)
    ensures OutcomeRecorded(RequestCall(w, o))
  {
    hide LastEventIs, StoreInv, HistoryInv, ReviewPcInv, RequestPcInv, UserOf, NextFinish;
    if w.request.ReqFinish? {
      FinishRecordsNothing(w, o);
      SameLastEvent(w, RequestCall(w, o), w.request.key, w.request.st.state);
    } else if w.request.ReqGetAgain? {
      RereadRecords(w, o);
    }
  }

  lemma {:induction false} OutcomeAlwaysRecorded(ws: seq<World>, steps: seq<Step>, i: nat)
    requires Execution(ws, steps) && i < |ws|
    ensures OutcomeRecorded(ws[i])
  {
    hide Apply, Enabled, Inv, OutcomeRecorded;
    if i == 0 {
      NothingBegun(ws[0]);
    } else {
      OutcomeAlwaysRecorded(ws, steps, i - 1);
      InvAlways(ws, steps, i - 1);
      OutcomeRecordedStep(ws[i - 1], steps[i - 1]);
    }
  }

  lemma NothingBegun(w: World)
    requires w == InitialWorld(w.store.ttl, w.store.now)
    ensures OutcomeRecorded(w)
  {
  }

  // ---------- the request takes the outcome ----------

  /** The step stores this state, which the request did not have. */
  ghost predicate Takes(w: World, w': World, k: Key, state: RequestState) {
    k in w.store.requests && w.store.requests[k].status.state != state && StateIs(w'.store, k, state)
  }

  lemma OutcomeIsWritten(w: World, s: Step, k: Key, state: RequestState)
    requires Inv(w) && Enabled(w, s) && Takes(w, Apply(w, s), k, state) && state in {Complete, Failed}
    ensures s.CallRequest? && w.request.ReqFinish? && w.request.key == k && w.request.st.state == state
    ensures w.store.requests[k].status.state == Started
    ensures Apply(w, s).store.requests[k].status == w.store.requests[k].status.(state := state)
  {
    hide RequestCall, ReviewCall, Environment, ReviewPcInv, HistoryInv, StoreInv, Seen, Held, Backed;
    if s.CallRequest? {
      ChangedByCall(w, s.o, k);
    } else if s.CallReview? {
      DecisionCall(w, s.o, k);
    } else if OfEnvironment(s) {
      EnvironmentKeeps(w, s);
    }
  }

  /** A request becomes Complete, or Failed, only from Started, and only after the same reconcile saw its Job report just
      that; and the last event on the request is then that outcome. */
  lemma OutcomeWasReported(ws: seq<World>, steps: seq<Step>, i: nat, k: Key, state: RequestState) returns (m: nat, job: Job)
    requires Execution(ws, steps) && i < |steps| && Takes(ws[i], ws[i + 1], k, state) && state in {Complete, Failed}
    ensures SawJob(ws, steps, m, i, k, job)
    ensures Reports(job, JobComplete) <==> state == Complete
    ensures Reports(job, JobFailed) <==> state == Failed
    ensures ws[i].store.requests[k].status.state == Started
    ensures ws[i + 1].store.requests[k].status == ws[i].store.requests[k].status.(state := state)
    ensures Events(ws[i + 1], k) != [] && Events(ws[i + 1], k)[|Events(ws[i + 1], k)| - 1] == state
  {
    hide Enabled, Inv, RequestCall, ReviewCall, Environment, SawJob;
    InvAlways(ws, steps, i);
    OutcomeIsWritten(ws[i], steps[i], k, state);
    m, job := ConclusionWasSeen(ws, steps, i);
    JobSeenIsSound(ws, steps, m, i, k, job);
    OutcomeAlwaysRecorded(ws, steps, i);
    RecordStays(ws[i], steps[i].o);
  }

  lemma RecordStays(w: World, o: Outcome)
    requires Inv(w) && w.request.ReqFinish?
    ensures Events(RequestCall(w, o), w.request.key) == Events(w, w.request.key)
  {
    hide StoreInv, HistoryInv, ReviewPcInv, RequestPcInv;
    FinishRecordsNothing(w, o);
  }

  lemma JobSeenIsSound(ws: seq<World>, steps: seq<Step>, m: nat, i: nat, k: Key, job: Job)
    requires Execution(ws, steps) && i < |ws| && SawJob(ws, steps, m, i, k, job)
    ensures !(Reports(job, JobComplete) && Reports(job, JobFailed))
  {
    hide Apply, Enabled, RequestsOk, CopiesOk, RequestPcInv, ReviewPcInv, HistoryInv;
    InvAlways(ws, steps, m);
    assert OneOutcome(job.conditions);
  }

  // ---------- a Job ----------

  lemma CreationCall(w: World, o: Outcome)
    requires RequestCall(w, o).request.ReqCreateJob?
    ensures var ReqCreateJob(k, base, template) := RequestCall(w, o).request;
            && o.Ok? && w.request == ReqGetNewJob(k, base, template) && k !in w.store.jobs
            && Events(RequestCall(w, o), k) == Events(w, k) + [Approved]
  {
    hide UserOf, NextFinish;
    if w.request.ReqGetNewJob? {
      RecordedElsewhere(w.log.events, w.request.key, [Approved]);
    }
  }

  lemma LookupCall(w: World, o: Outcome)
    requires RequestCall(w, o).request.ReqGetNewJob?
    ensures var ReqGetNewJob(k, base, template) := RequestCall(w, o).request;
            o.Ok? && w.request == ReqListReviews(k, base, template) && Reviewed(w.store, k) && base.status.state == Approved
  {
    hide UserOf, NextFinish, HasReview, Reviewed;
    ReviewedIsListed(w.store, w.request.key);
  }

  lemma ListingCall(w: World, o: Outcome)
    requires RequestCall(w, o).request.ReqListReviews?
    ensures var ReqListReviews(k, base, template) := RequestCall(w, o).request; var d := Key(k.ns, base.spec.deployment);
            && o.Ok? && w.request == ReqListTargets(k, base)
            && d in w.store.deployments && template == JobTemplate(w.store.deployments[d], k, base.spec)
  {
    hide UserOf, NextFinish, JobTemplate;
  }

  lemma TargetingCall(w: World, o: Outcome)
    requires RequestCall(w, o).request.ReqListTargets?
    ensures var ReqListTargets(k, base) := RequestCall(w, o).request;
            && o.Ok? && w.request == ReqGet(k) && k in w.store.requests && w.store.requests[k] == base
            && w.store.now - base.created < w.store.ttl && Named(base.spec.requestedBy)
  {
    hide UserOf, NextFinish, Named;
    if w.request.ReqGet? && w.request.key in w.store.requests {
      NamedIsUser(w.store.requests[w.request.key].spec.requestedBy);
    }
  }

  /** Whenever the controller puts a Job into the store, the same reconcile read the request before as Approved, unexpired
      and with a requester that parses; then found the Deployment it names in its own namespace; then found a review of it;
      and then found no Job of its name, which it recorded.  The Job is built from that Deployment as the request says. */
  lemma JobWasBuilt(ws: seq<World>, steps: seq<Step>, i: nat, k: Key)
    returns (read: nat, targeted: nat, listed: nat, looked: nat, indices: seq<nat>)
    requires Execution(ws, steps) && i < |steps|
    requires steps[i].CallRequest? && k !in ws[i].store.jobs && k in ws[i + 1].store.jobs
    ensures read < targeted < listed < looked < i && SameReconcile(steps, read, i)
    ensures k in ws[read].store.requests && ws[read].store.requests[k].status.state == Approved
    ensures var r := ws[read].store.requests[k]; var d := Key(k.ns, r.spec.deployment);
            && ws[read].store.now - r.created < ws[read].store.ttl && Named(r.spec.requestedBy)
            && d in ws[targeted].store.deployments
            && BuiltFrom(ws[i + 1].store.jobs[k], ws[targeted].store.deployments[d], k, r.spec, indices)
    ensures Reviewed(ws[listed].store, k)
    ensures k !in ws[looked].store.jobs && Events(ws[looked + 1], k) == Events(ws[looked], k) + [Approved]
  {
    hide Enabled, RequestCall, Reviewed, Named, JobTemplate;
    CreatesJob(ws, steps, i, k);
    CreatesTemplate(ws[i], steps[i].o);
    looked := CallBefore(ws, steps, i);
    CreationCall(ws[looked], steps[looked].o);
    listed := CallBefore(ws, steps, looked);
    LookupCall(ws[listed], steps[listed].o);
    targeted := CallBefore(ws, steps, listed);
    ListingCall(ws[targeted], steps[targeted].o);
    read := CallBefore(ws, steps, targeted);
    TargetingCall(ws[read], steps[read].o);
    var r := ws[read].store.requests[k];
    indices := TemplateIsBuilt(ws[targeted].store.deployments[Key(k.ns, r.spec.deployment)], k, r.spec);
  }

  lemma CreatesTemplate(w: World, o: Outcome)
    requires w.request.ReqCreateJob? && w.request.key !in w.store.jobs && w.request.key in RequestCall(w, o).store.jobs
    ensures RequestCall(w, o).store.jobs[w.request.key] == w.request.template
  {
  }

  // ---------- a review's state ----------

  /** No other reconcile of a review begins from step `m` to step `i`. */
  predicate SameReviewReconcile(steps: seq<Step>, m: nat, i: nat)
    requires i <= |steps|
  {
    forall q :: m < q < i ==> !steps[q].StartReview? && !steps[q].CrashReview?
  }

  /** The last read or call, in the same reconcile. */
  lemma {:induction false} ReviewStepBefore(ws: seq<World>, steps: seq<Step>, i: nat) returns (m: nat)
    requires Execution(ws, steps) && i < |ws| && !ws[i].review.RevIdle? && !ws[i].review.RevGet?
    ensures m < i && (steps[m].CallReview? || steps[m].ReadReview?) && ws[i].review == ws[m + 1].review
    ensures SameReviewReconcile(steps, m, i)
    decreases i
  {
    hide Environment, RequestCall, ReviewCall;
    if i > 0 && !OfReviewWorker(steps[i - 1]) {
      OthersKeepReviewPc(ws[i - 1], steps[i - 1]);
      m := ReviewStepBefore(ws, steps, i - 1);
    } else {
      m := i - 1;
    }
  }

  /** Where a review's state is decided on: from its own annotation, at the read; or from the request, as it was found. */
  ghost predicate FindsMark(w: World, s: Step, v: Key, spec: ReviewSpec, mark: ReviewState) {
    || (s.ReadReview? && w.review == RevGet(v) && mark == ReviewMalformed && !Named(spec.reviewedBy))
    || (s == CallReview(Ok) && w.review.RevFindRequest? && w.review.key == v && w.review.review.spec == spec
        && Named(spec.reviewedBy) && mark != NoReviewState && Deserves(w.store, v, spec, mark))
  }

  lemma FindingRead(w: World, s: Step)
    requires Enabled(w, s) && (s.CallReview? || s.ReadReview?) && Apply(w, s).review.RevFindRequest?
    ensures s.ReadReview? && Named(Apply(w, s).review.review.spec.reviewedBy)
  {
    hide UserOf, Named;
    if s.ReadReview? && s.copy.Some? {
      NamedIsUser(s.copy.value.spec.reviewedBy);
    }
  }

  lemma DecidingCall(w: World, s: Step)
    requires Enabled(w, s) && (s.CallReview? || s.ReadReview?) && Apply(w, s).review.RevDecide?
    requires w.review.RevFindRequest? ==> Named(w.review.review.spec.reviewedBy)
    ensures var RevDecide(v, review, _, _) := Apply(w, s).review;
            && s == CallReview(Ok) && w.review == RevFindRequest(v, review)
            && Deserves(w.store, v, review.spec,
                        match review.spec.decision case Approve => ReviewApproved case Reject => ReviewRejected)
  {
    hide UserOf, Named, SameUser, TwoUsers;
    if w.review.RevFindRequest? {
      var k := Key(w.review.key.ns, w.review.review.spec.jobRequestName);
      if k in w.store.requests {
        UsersAreCompared(w.store.requests[k].spec, w.review.review.spec);
      }
    }
  }

  lemma MarkingCall(w: World, o: Outcome)
    requires w.review.RevFindRequest? && Named(w.review.review.spec.reviewedBy) && ReviewCall(w, o).review.RevSetState?
    ensures var RevSetState(v, review, mark) := ReviewCall(w, o).review;
            o.Ok? && w.review == RevFindRequest(v, review) && mark != NoReviewState && Deserves(w.store, v, review.spec, mark)
  {
    hide UserOf, Named, SameUser, TwoUsers;
    var k := Key(w.review.key.ns, w.review.review.spec.jobRequestName);
    NamedIsUser(w.review.review.spec.reviewedBy);
    if k in w.store.requests {
      NamedIsUser(w.store.requests[k].spec.requestedBy);
      UsersAreCompared(w.store.requests[k].spec, w.review.review.spec);
    }
  }

  lemma MarkingRead(w: World, s: Step)
    requires Enabled(w, s) && s.ReadReview? && Apply(w, s).review.RevSetState?
    ensures var RevSetState(v, review, mark) := Apply(w, s).review;
            w.review == RevGet(v) && mark == ReviewMalformed && !Named(review.spec.reviewedBy)
  {
    hide UserOf, Named;
    NamedIsUser(s.copy.value.spec.reviewedBy);
  }

  lemma MarkingDecision(w: World, o: Outcome)
    requires w.review.RevDecide?
    ensures var RevDecide(v, review, _, _) := w.review;
            ReviewCall(w, o).review
            == RevSetState(v, review, match review.spec.decision case Approve => ReviewApproved case Reject => ReviewRejected)
  {
    hide UserOf, UpdateRequestStatus;
  }

  /** The reviewer parses wherever a request was looked for. */
  lemma FoundByNamed(ws: seq<World>, steps: seq<Step>, i: nat)
    requires Execution(ws, steps) && i < |ws| && ws[i].review.RevFindRequest?
    ensures Named(ws[i].review.review.spec.reviewedBy)
  {
    hide Apply, Enabled, Named;
    var m := ReviewStepBefore(ws, steps, i);
    FindingRead(ws[m], steps[m]);
  }

  lemma MarkOrigin(ws: seq<World>, steps: seq<Step>, i: nat) returns (m: nat)
    requires Execution(ws, steps) && i < |ws| && ws[i].review.RevSetState?
    ensures m < i && SameReviewReconcile(steps, m, i)
    ensures var RevSetState(v, review, mark) := ws[i].review; FindsMark(ws[m], steps[m], v, review.spec, mark)
  {
    hide Enabled, Environment, RequestCall, ReviewCall, AfterReadReview, Named, Deserves;
    m := ReviewStepBefore(ws, steps, i);
    if steps[m].ReadReview? {
      MarkingRead(ws[m], steps[m]);
    } else if ws[m].review.RevDecide? {
      MarkingDecision(ws[m], steps[m].o);
      var n := m;
      m := ReviewStepBefore(ws, steps, n);
      if ws[m].review.RevFindRequest? {
        FoundByNamed(ws, steps, m);
      }
      DecidingCall(ws[m], steps[m]);
    } else {
      OnlyTheseMark(ws[m], steps[m].o);
      FoundByNamed(ws, steps, m);
      MarkingCall(ws[m], steps[m].o);
    }
  }

  lemma OnlyTheseMark(w: World, o: Outcome)
    requires ReviewCall(w, o).review.RevSetState? && !w.review.RevDecide?
    ensures w.review.RevFindRequest?
  {
    hide UserOf;
  }

  /** The step gives the review a state. */
  lemma MarkIsWritten(w: World, s: Step, v: Key)
    requires Inv(w) && Enabled(w, s) && v in w.store.reviews && v in Apply(w, s).store.reviews
    requires Apply(w, s).store.reviews[v].state != w.store.reviews[v].state
    ensures s.CallReview? && w.review.RevSetState? && w.review.key == v
    ensures w.store.reviews[v].state == NoReviewState && w.review.review.spec == w.store.reviews[v].spec
    ensures Apply(w, s).store.reviews[v].state == w.review.state
  {
    hide RequestCall, ReviewCall, Environment, RequestPcInv, HistoryInv, RequestsOk, JobsOk, TwoPersons;
    if s.CallRequest? {
      RequestCallFootprint(w, s.o);
    } else if s.CallReview? {
      MarkIsWrittenByCall(w, s.o, v);
    } else if OfEnvironment(s) {
      EnvironmentKeeps(w, s);
    }
  }

  lemma MarkIsWrittenByCall(w: World, o: Outcome, v: Key)
    requires StoreInv(w) && ReviewPcInv(w) && v in w.store.reviews && v in ReviewCall(w, o).store.reviews
    requires ReviewCall(w, o).store.reviews[v].state != w.store.reviews[v].state
    ensures w.review.RevSetState? && w.review.key == v
    ensures w.store.reviews[v].state == NoReviewState && w.review.review.spec == w.store.reviews[v].spec
    ensures ReviewCall(w, o).store.reviews[v].state == w.review.state
  {
    hide ReviewCall, ReviewTruthful, RequestsOk, JobsOk;
    OnlyThisMarks(w, o, v);
    assert CopyOk(w, v, w.review.review);
  }

  lemma OnlyThisMarks(w: World, o: Outcome, v: Key)
    requires v in w.store.reviews && v in ReviewCall(w, o).store.reviews
    requires ReviewCall(w, o).store.reviews[v].state != w.store.reviews[v].state
    ensures w.review.RevSetState? && w.review.key == v && ReviewCurrent(w.store, v, w.review.review)
    ensures ReviewCall(w, o).store.reviews[v].state == w.review.state
  {
    hide UserOf, UpdateRequestStatus;
    if w.review.RevDecide? {
      ReviewsKept(w, o);
    }
  }

  /** In every execution a review gets its state from one reconcile: Malformed after a read that found no reviewer in its
      annotation, or the state that its request called for when it was found. */
  lemma MarkWasFound(ws: seq<World>, steps: seq<Step>, i: nat, v: Key) returns (m: nat)
    requires Execution(ws, steps) && i < |steps| && v in ws[i].store.reviews && v in ws[i + 1].store.reviews
    requires ws[i + 1].store.reviews[v].state != ws[i].store.reviews[v].state
    ensures ws[i].store.reviews[v].state == NoReviewState
    ensures m < i && SameReviewReconcile(steps, m, i)
    ensures FindsMark(ws[m], steps[m], v, ws[i].store.reviews[v].spec, ws[i + 1].store.reviews[v].state)
  {
    hide Enabled, Inv, RequestCall, ReviewCall, Environment, FindsMark;
    InvAlways(ws, steps, i);
    MarkIsWritten(ws[i], steps[i], v);
    m := MarkOrigin(ws, steps, i);
  }
}
