/** Whole reconciles, one after the other: what they leave alone, and when they change nothing. */
module Rounds {
  import opened Wrappers
  import opened UserIdentities
  import opened Resources
  import opened JobTemplates
  import opened Protocol
  import opened PlainTerms
  import opened Invariants
  import opened Frames
  import opened Interference
  import opened SteadyRuns

  // ---------- isolation ----------

  /** The calls of one reconcile with these outcomes; a shorter list is a crash on the way. */
  function RequestCalls(w: World, outcomes: seq<Outcome>): World
    decreases |outcomes|
  {
    if outcomes == [] then w else RequestCalls(RequestCall(w, outcomes[0]), outcomes[1..])
  }

  function ReviewCalls(w: World, outcomes: seq<Outcome>): World
    decreases |outcomes|
  {
    if outcomes == [] then w else ReviewCalls(ReviewCall(w, outcomes[0]), outcomes[1..])
  }

  /** Everything but this request's status, or the request, and the Job of its name is untouched. */
  ghost predicate OnlyRequest(s: Store, s': Store, k: Key) {
    && s'.requests - {k} == s.requests - {k}
    && s'.jobs - {k} == s.jobs - {k}
    && s'.reviews == s.reviews && s'.deployments == s.deployments && s'.now == s.now && s'.ttl == s.ttl
    && (k in s'.requests ==>
          k in s.requests && s'.requests[k].spec == s.requests[k].spec && s'.requests[k].created == s.requests[k].created)
    && (k in s.jobs ==> k in s'.jobs && s'.jobs[k] == s.jobs[k])
  }

  ghost predicate WorksOn(pc: RequestPc, k: Key) {
    pc.ReqIdle? || pc.key == k
  }

  lemma {:induction false} NextFinishOn(k: Key, base: JobRequest, st: RequestStatus, conditions: seq<Condition>)
    ensures WorksOn(NextFinish(k, base, st, conditions).pc, k)
    decreases |conditions|
  {
    if conditions != [] && !Finished(conditions[0]) {
      NextFinishOn(k, base, st, conditions[1..]);
    }
  }

  lemma RequestCallStaysOn(w: World, o: Outcome, k: Key)
    requires WorksOn(w.request, k)
    ensures WorksOn(RequestCall(w, o).request, k)
  {
    if w.request.ReqGetAgain? && k in w.store.requests {
      NextFinishOn(k, w.store.requests[k], w.store.requests[k].status, w.request.conditions);
    } else if w.request.ReqFinish? {
      var ReqFinish(_, base, st, rest) := w.request;
      NextFinishOn(k, base, st, rest);
      if k in w.store.requests {
        NextFinishOn(k, UpdateRequestStatus(w.store, k, base, st, o).requests[k], st, rest);
      }
    }
  }

  lemma RequestCallIsolated(w: World, o: Outcome, k: Key)
    requires WorksOn(w.request, k)
    ensures OnlyRequest(w.store, RequestCall(w, o).store, k)
  {
    if Reads(w.request) {
      ReadsKeepStore(w, o);
    } else if w.request.ReqSetState? || w.request.ReqFinish? {
      assert RequestCall(w, o).store == UpdateRequestStatus(w.store, k, w.request.base, w.request.st, o);
    }
  }

  /** A reconcile of a request changes nothing but that request and the Job of its name, in any store,
      however its calls turn out and wherever it stops. */
  lemma {:induction false} RequestReconcileIsolated(w: World, outcomes: seq<Outcome>, k: Key)
    requires WorksOn(w.request, k)
    ensures OnlyRequest(w.store, RequestCalls(w, outcomes).store, k)
    decreases |outcomes|
  {
    hide RequestCall;
    if outcomes != [] {
      RequestCallIsolated(w, outcomes[0], k);
      RequestCallStaysOn(w, outcomes[0], k);
      RequestReconcileIsolated(RequestCall(w, outcomes[0]), outcomes[1..], k);
    }
  }

  /** Everything but this review and the status of the one request is untouched. */
  ghost predicate OnlyReview(s: Store, s': Store, v: Key, target: Key) {
    && s'.reviews - {v} == s.reviews - {v}
    && s'.requests.Keys == s.requests.Keys && s'.requests - {target} == s.requests - {target}
    && s'.jobs == s.jobs && s'.deployments == s.deployments && s'.now == s.now && s'.ttl == s.ttl
    && (v in s'.reviews ==>
          v in s.reviews && s'.reviews[v].spec == s.reviews[v].spec && s'.reviews[v].created == s.reviews[v].created)
    && (target in s'.requests ==>
          && s'.requests[target].spec == s.requests[target].spec
          && s'.requests[target].created == s.requests[target].created)
  }

  ghost predicate ReviewWorksOn(pc: ReviewPc, v: Key, target: Key) {
    match pc
    case RevIdle => true
    case RevGet(_) => false
    case RevDelete(k) => k == v
    case RevFindRequest(k, review) => k == v && Target(k, review.spec) == target
    case RevDecide(k, review, _, _) => k == v && Target(k, review.spec) == target
    case RevSetState(k, review, _) => k == v && Target(k, review.spec) == target
  }

  lemma ReviewCallIsolated(w: World, o: Outcome, v: Key, target: Key)
    requires ReviewWorksOn(w.review, v, target)
    ensures OnlyReview(w.store, ReviewCall(w, o).store, v, target)
  {
    hide UserOf;
    if w.review.RevDecide? {
      assert ReviewCall(w, o).store == UpdateRequestStatus(w.store, target, w.review.base, w.review.st, o);
    } else if w.review.RevSetState? {
      assert ReviewCall(w, o).store == UpdateReviewState(w.store, v, w.review.review, w.review.state, o);
    }
  }

  lemma ReviewCallStaysOn(w: World, o: Outcome, v: Key, target: Key)
    requires ReviewWorksOn(w.review, v, target)
    ensures ReviewWorksOn(ReviewCall(w, o).review, v, target)
  {
    hide UserOf, UpdateRequestStatus, UpdateReviewState;
  }

  /** After reading any copy of the review, a reconcile changes nothing but that review and the status of the
      request which the copy names in the review's own namespace. */
  lemma ReviewReconcileIsolated(w: World, copy: Review, outcomes: seq<Outcome>, v: Key)
    requires w.review == AfterReadReview(w.store, v, copy)
    ensures OnlyReview(w.store, ReviewCalls(w, outcomes).store, v, Key(v.ns, copy.spec.jobRequestName))
  {
    hide UserOf, OnlyReview;
    ReviewCallsIsolated(w, outcomes, v, Target(v, copy.spec));
  }

  lemma {:induction false} ReviewCallsIsolated(w: World, outcomes: seq<Outcome>, v: Key, target: Key)
    requires ReviewWorksOn(w.review, v, target)
    ensures OnlyReview(w.store, ReviewCalls(w, outcomes).store, v, target)
    decreases |outcomes|
  {
    hide ReviewCall, ReviewWorksOn;
    if outcomes != [] {
      ReviewCallIsolated(w, outcomes[0], v, target);
      ReviewCallStaysOn(w, outcomes[0], v, target);
      ReviewCallsIsolated(ReviewCall(w, outcomes[0]), outcomes[1..], v, target);
    }
  }

  // ---------- undisturbed reconciles ----------

  function Stage(pc: RequestPc): nat {
    match pc
    case ReqIdle => 0
    case ReqDelete(_) => 1
    case ReqSetState(_, _, _) => 1
    case ReqFinish(_, _, _, _) => 2
    case ReqGetAgain(_, _, _) => 3
    case ReqGetRunningJob(_, _) => 4
    case ReqCreateJob(_, _, _) => 4
    case ReqGetNewJob(_, _, _) => 5
    case ReqListReviews(_, _, _) => 6
    case ReqListTargets(_, _) => 7
    case ReqGet(_) => 8
  }

  function ToGo(pc: RequestPc): nat {
    if pc.ReqFinish? then |pc.rest| else 0
  }

  lemma {:induction false} NextFinishShorter(k: Key, base: JobRequest, st: RequestStatus, conditions: seq<Condition>)
    ensures var pc := NextFinish(k, base, st, conditions).pc; pc.ReqFinish? ==> |pc.rest| < |conditions|
    decreases |conditions|
  {
    if conditions != [] && !Finished(conditions[0]) {
      NextFinishShorter(k, base, st, conditions[1..]);
    }
  }

  lemma StageDrops(w: World)
    requires !w.request.ReqIdle?
    ensures var pc := RequestCall(w, Ok).request;
            Stage(pc) < Stage(w.request) || (Stage(pc) == Stage(w.request) && ToGo(pc) < ToGo(w.request))
  {
    if w.request.ReqFinish? {
      var ReqFinish(k, base, st, rest) := w.request;
      NextFinishShorter(k, base, st, rest);
      if k in w.store.requests {
        NextFinishShorter(k, UpdateRequestStatus(w.store, k, base, st, Ok).requests[k], st, rest);
      }
    }
  }

  /** The rest of a reconcile whose calls all succeed. */
  function RunRequest(w: World): World
    decreases Stage(w.request), ToGo(w.request)
  {
    if w.request.ReqIdle? then w else
    StageDrops(w);
    RunRequest(RequestCall(w, Ok))
  }

  function ReconcileRequest(w: World, k: Key): World {
    RunRequest(w.(request := ReqGet(k)))
  }

  function ReviewStage(pc: ReviewPc): nat {
    match pc
    case RevIdle => 0
    case RevGet(_) => 0
    case RevDelete(_) => 1
    case RevSetState(_, _, _) => 1
    case RevDecide(_, _, _, _) => 2
    case RevFindRequest(_, _) => 3
  }

  function RunReview(w: World): World
    decreases ReviewStage(w.review)
  {
    if w.review.RevIdle? || w.review.RevGet? then w else RunReview(ReviewCall(w, Ok))
  }

  lemma RunUnfolds(w: World)
    requires !w.request.ReqIdle?
    ensures RunRequest(w) == RunRequest(RequestCall(w, Ok))
  {
    hide RequestCall, Stage, ToGo;
    StageDrops(w);
  }

  lemma ReviewRunUnfolds(w: World)
    requires !w.review.RevIdle? && !w.review.RevGet?
    ensures RunReview(w) == RunReview(ReviewCall(w, Ok))
  {
    hide ReviewCall;
  }

  lemma ReviewRunIdle(w: World)
    requires w.review.RevIdle?
    ensures RunReview(w) == w
  {
  }

  /** The cache is up to date. */
  function ReconcileReview(w: World, v: Key): World {
    if v in w.store.reviews then RunReview(w.(review := AfterReadReview(w.store, v, w.store.reviews[v]))) else w
  }

  // ---------- what a reconcile changes cannot be changed back ----------

  function Growth(s: Store): nat {
    s.rv + |s.jobs|
  }

  ghost predicate SameOrMore(s: Store, s': Store) {
    s' == s || Growth(s) < Growth(s')
  }

  predicate Past(pc: RequestPc) {
    !pc.ReqGet? && !pc.ReqDelete?
  }

  lemma CallGrows(w: World)
    requires Past(w.request)
    ensures SameOrMore(w.store, RequestCall(w, Ok).store) && Past(RequestCall(w, Ok).request)
  {
    if Reads(w.request) {
      ReadsKeepStore(w, Ok);
    } else if w.request.ReqCreateJob? && w.request.key !in w.store.jobs {
      assert |w.store.jobs[w.request.key := w.request.template]| == |w.store.jobs| + 1;
    }
  }

  lemma {:induction false} RunGrows(w: World)
    requires Past(w.request)
    ensures SameOrMore(w.store, RunRequest(w).store)
    decreases Stage(w.request), ToGo(w.request)
  {
    hide RequestCall, Stage, ToGo;
    if !w.request.ReqIdle? {
      CallGrows(w);
      StageDrops(w);
      RunGrows(RequestCall(w, Ok));
    }
  }

  lemma {:induction false} RunReviewGrows(w: World)
    requires !w.review.RevDelete?
    ensures SameOrMore(w.store, RunReview(w).store)
    decreases ReviewStage(w.review)
  {
    hide UserOf;
    if !w.review.RevIdle? && !w.review.RevGet? {
      RunReviewGrows(ReviewCall(w, Ok));
    }
  }

  // ---------- fixed points ----------

  /** Unexpired, with a valid annotation, a target Deployment and the named container in it. */
  ghost predicate SoundRequest(s: Store, k: Key)
    requires k in s.requests
  {
    var r := s.requests[k];
    s.now - r.created < s.ttl && Buildable(s, k, r.spec)
  }

  ghost predicate Buildable(s: Store, k: Key, spec: RequestSpec) {
    Named(spec.requestedBy) && Targeted(s, k, spec)
  }

  /** What the reconciler checks before it lists the reviews. */
  lemma BuildableIsChecked(s: Store, k: Key, spec: RequestSpec)
    ensures Buildable(s, k, spec)
            <==> && UserOf(spec.requestedBy).Some?
                 && ListTargets(s, k, spec) != [] && TargetContainers(ListTargets(s, k, spec)[0].containers, spec) != []
  {
    hide UserOf, Named, Targeted, ListTargets, TargetContainers;
    NamedIsUser(spec.requestedBy);
    TargetedIsListed(s, k, spec);
  }

  ghost predicate SoundReview(s: Store, v: Key)
    requires v in s.reviews
  {
    s.now - s.reviews[v].created < s.ttl && Named(s.reviews[v].spec.reviewedBy)
  }

  ghost predicate SoundStore(s: Store) {
    (forall k :: k in s.requests ==> SoundRequest(s, k)) && (forall v :: v in s.reviews ==> SoundReview(s, v))
  }

  /** Neither outcome is reported. */
  predicate Unfinished(conditions: seq<Condition>) {
    Condition(JobComplete, "True") !in conditions && Condition(JobFailed, "True") !in conditions
  }

  /** Nothing is left to do for this request. */
  ghost predicate RequestSettled(s: Store, k: Key)
    requires k in s.requests
  {
    match s.requests[k].status.state
    case NoState => Reviewed(s, k)
    case Pending => true
    case Approved => false
    case Rejected => Reviewed(s, k)
    case Started => Reviewed(s, k) && k in s.jobs && Unfinished(s.jobs[k].conditions)
    case _ => true
  }

  /** Nothing is left to do for this review: it has a state, or its request has none yet, or was decided by it. */
  predicate ReviewSettled(s: Store, v: Key)
    requires v in s.reviews
  {
    var target := Key(v.ns, s.reviews[v].spec.jobRequestName);
    s.reviews[v].state == NoReviewState ==>
      && target in s.requests
      && var st := s.requests[target].status;
         || st.state == NoState
         || (st.state in {Rejected, Approved, Started, Complete, Failed} && st.reviewName == v.name)
  }

  /** Whether an undisturbed run from here changes the store. */
  ghost predicate Idles(w: World) {
    RunRequest(w).store == w.store
  }

  lemma SetStateIdles(w: World)
    requires w.request.ReqSetState? && w.request.key in w.store.requests
    requires w.store.requests[w.request.key] == w.request.base
    ensures Idles(w) <==> w.request.st == w.request.base.status
  {
    var w' := RequestCall(w, Ok);
    assert RunRequest(w) == RunRequest(w') == w';
  }

  /** A run that goes on after a change never comes back. */
  lemma ChangeStays(w: World)
    requires Past(w.request) && !w.request.ReqIdle?
    ensures RequestCall(w, Ok).store != w.store ==> !Idles(w)
    ensures RequestCall(w, Ok).store == w.store ==> (Idles(w) <==> Idles(RequestCall(w, Ok)))
  {
    hide RequestCall, Stage, ToGo;
    CallGrows(w);
    StageDrops(w);
    RunGrows(RequestCall(w, Ok));
  }

  lemma FinishChanges(w: World)
    requires w.request.ReqFinish? && w.request.key in w.store.requests
    requires w.store.requests[w.request.key] == w.request.base && w.request.st != w.request.base.status
    ensures !Idles(w)
  {
    ChangeStays(w);
  }

  lemma {:induction false} NextFinishUnfinished(k: Key, base: JobRequest, st: RequestStatus, conditions: seq<Condition>)
    requires st.state == Started
    ensures var pc := NextFinish(k, base, st, conditions).pc;
            if Unfinished(conditions) then pc == ReqIdle
            else pc.ReqFinish? && pc.key == k && pc.base == base && pc.st.state != Started
    decreases |conditions|
  {
    if conditions != [] && !Finished(conditions[0]) {
      NextFinishUnfinished(k, base, st, conditions[1..]);
      assert forall i :: 1 <= i < |conditions| ==> conditions[i] == conditions[1..][i - 1];
    }
  }

  lemma GetAgainIdles(w: World)
    requires w.request.ReqGetAgain? && w.request.key in w.store.requests
    requires w.store.requests[w.request.key].status.state == Started
    ensures Idles(w) <==> Unfinished(w.request.conditions)
  {
    hide Unfinished;
    var r := w.store.requests[w.request.key];
    NextFinishUnfinished(w.request.key, r, r.status, w.request.conditions);
    var w' := RequestCall(w, Ok);
    ChangeStays(w);
    if w'.request.ReqFinish? {
      FinishChanges(w');
    }
  }

  lemma GetRunningJobIdles(w: World)
    requires w.request.ReqGetRunningJob? && w.request.key in w.store.requests
    requires w.store.requests[w.request.key] == w.request.base && w.request.base.status.state == Started
    ensures Idles(w) <==> w.request.key in w.store.jobs && Unfinished(w.store.jobs[w.request.key].conditions)
  {
    hide Unfinished;
    var w' := RequestCall(w, Ok);
    ChangeStays(w);
    if w'.request.ReqSetState? {
      SetStateIdles(w');
    } else {
      GetAgainIdles(w');
    }
  }

  lemma GetNewJobChanges(w: World)
    requires w.request.ReqGetNewJob? && w.request.key in w.store.requests
    requires w.store.requests[w.request.key] == w.request.base && w.request.base.status.state == Approved
    ensures !Idles(w)
  {
    var w' := RequestCall(w, Ok);
    ChangeStays(w);
    ChangeStays(w');
    if w'.request.ReqSetState? {
      SetStateIdles(w');
    } else {
      assert w.request.key in RequestCall(w', Ok).store.jobs;
    }
  }

  lemma ListReviewsIdles(w: World)
    requires w.request.ReqListReviews? && w.request.key in w.store.requests
    requires w.store.requests[w.request.key] == w.request.base && !Terminal(w.request.base.status.state)
    ensures Idles(w) <==> RequestSettled(w.store, w.request.key)
  {
    hide Unfinished;
    var w' := RequestCall(w, Ok);
    ChangeStays(w);
    if w'.request.ReqSetState? {
      SetStateIdles(w');
    } else if w'.request.ReqGetNewJob? {
      GetNewJobChanges(w');
    } else if w'.request.ReqGetRunningJob? {
      GetRunningJobIdles(w');
    }
  }

  lemma ListTargetsIdles(w: World)
    requires w.request.ReqListTargets? && w.request.key in w.store.requests && SoundRequest(w.store, w.request.key)
    requires w.store.requests[w.request.key] == w.request.base && !Terminal(w.request.base.status.state)
    ensures Idles(w) <==> RequestSettled(w.store, w.request.key)
  {
    hide RequestSettled, UserOf, Buildable, ListTargets, TargetContainers;
    BuildableIsChecked(w.store, w.request.key, w.request.base.spec);
    ChangeStays(w);
    ListReviewsIdles(RequestCall(w, Ok));
  }

  /** One undisturbed reconcile of a sound request changes nothing exactly when the request is settled. */
  lemma RequestFixedPoint(w: World, k: Key)
    requires k in w.store.requests && SoundRequest(w.store, k)
    ensures ReconcileRequest(w, k).store == w.store <==> RequestSettled(w.store, k)
  {
    hide UserOf, Buildable, ListTargets, TargetContainers;
    var start := w.(request := ReqGet(k));
    BuildableIsChecked(w.store, k, w.store.requests[k].spec);
    StageDrops(start);
    var w' := RequestCall(start, Ok);
    assert RunRequest(start) == RunRequest(w');
    if w'.request.ReqListTargets? {
      ListTargetsIdles(w');
    }
  }

  lemma RequestReconcileGrows(w: World, k: Key)
    requires k in w.store.requests ==> w.store.now - w.store.requests[k].created < w.store.ttl
    ensures SameOrMore(w.store, ReconcileRequest(w, k).store)
  {
    hide UserOf;
    var start := w.(request := ReqGet(k));
    StageDrops(start);
    var w' := RequestCall(start, Ok);
    assert RunRequest(start) == RunRequest(w');
    RunGrows(w');
  }

  /** One undisturbed reconcile of a sound review changes nothing exactly when the review is settled. */
  lemma ReviewFixedPoint(w: World, v: Key)
    requires v in w.store.reviews && SoundReview(w.store, v)
    ensures ReconcileReview(w, v).store == w.store <==> ReviewSettled(w.store, v)
  {
    hide UserOf, Named;
    NamedIsUser(w.store.reviews[v].spec.reviewedBy);
    var w0 := w.(review := AfterReadReview(w.store, v, w.store.reviews[v]));
    if w0.review.RevFindRequest? {
      var w1 := ReviewCall(w0, Ok);
      assert RunReview(w0) == RunReview(w1);
      if w1.review.RevSetState? {
        RevSetStateChanges(w1);
      } else if w1.review.RevDecide? {
        RevDecideChanges(w1);
      }
    }
  }

  lemma RevSetStateChanges(w: World)
    requires w.review.RevSetState? && w.review.key in w.store.reviews
    requires w.store.reviews[w.review.key] == w.review.review && w.review.state != w.review.review.state
    ensures RunReview(w).store != w.store
    ensures RunReview(w).store.requests == w.store.requests
    ensures w.review.key in RunReview(w).store.reviews && RunReview(w).store.reviews[w.review.key].state == w.review.state
    ensures RunReview(w).log.decisions == w.log.decisions
  {
    assert RunReview(w) == RunReview(ReviewCall(w, Ok)) == ReviewCall(w, Ok);
  }

  lemma RevDecideChanges(w: World)
    requires w.review.RevDecide? && w.review.key in w.store.reviews
    requires w.store.reviews[w.review.key] == w.review.review && w.review.review.state == NoReviewState
    ensures RunReview(w).store != w.store
  {
    var w' := ReviewCall(w, Ok);
    assert RunReview(w) == RunReview(w');
    assert w'.store.reviews == w.store.reviews;
    RevSetStateChanges(w');
  }

  lemma ReviewReconcileGrows(w: World, v: Key)
    requires v in w.store.reviews ==> w.store.now - w.store.reviews[v].created < w.store.ttl
    ensures SameOrMore(w.store, ReconcileReview(w, v).store)
  {
    hide UserOf;
    if v in w.store.reviews {
      RunReviewGrows(w.(review := AfterReadReview(w.store, v, w.store.reviews[v])));
    }
  }

  // ---------- a whole round ----------

  function RequestRound(w: World, ks: seq<Key>): World
    decreases |ks|
  {
    if ks == [] then w else RequestRound(ReconcileRequest(w, ks[0]), ks[1..])
  }

  function ReviewRound(w: World, vs: seq<Key>): World
    decreases |vs|
  {
    if vs == [] then w else ReviewRound(ReconcileReview(w, vs[0]), vs[1..])
  }

  /** Nothing in the store is past its time to live. */
  ghost predicate Unexpired(s: Store) {
    && (forall k :: k in s.requests ==> s.now - s.requests[k].created < s.ttl)
    && (forall v :: v in s.reviews ==> s.now - s.reviews[v].created < s.ttl)
  }

  /** What users gave stays: clock, Deployments, and the specs and ages of the objects that are left. */
  ghost predicate SameOrigins(s: Store, s': Store) {
    && s'.now == s.now && s'.ttl == s.ttl && s'.deployments == s.deployments
    && (forall k :: k in s'.requests ==>
          k in s.requests && s'.requests[k].spec == s.requests[k].spec && s'.requests[k].created == s.requests[k].created)
    && (forall v :: v in s'.reviews ==>
          v in s.reviews && s'.reviews[v].spec == s.reviews[v].spec && s'.reviews[v].created == s.reviews[v].created)
  }

  lemma CallKeepsOrigins(w: World, o: Outcome)
    ensures SameOrigins(w.store, RequestCall(w, o).store)
  {
    RequestCallFootprint(w, o);
    LaterRequestCall(w, o);
    assert forall k :: k in RequestCall(w, o).store.requests ==> RequestEvolves(w, RequestCall(w, o), k);
  }

  lemma {:induction false} RunKeepsOrigins(w: World)
    ensures SameOrigins(w.store, RunRequest(w).store)
    decreases Stage(w.request), ToGo(w.request)
  {
    hide RequestCall, Stage, ToGo;
    if !w.request.ReqIdle? {
      CallKeepsOrigins(w, Ok);
      StageDrops(w);
      RunKeepsOrigins(RequestCall(w, Ok));
    }
  }

  lemma ReviewCallKeepsOrigins(w: World, o: Outcome)
    ensures SameOrigins(w.store, ReviewCall(w, o).store)
  {
    ReviewCallFootprint(w, o);
    LaterReviewCall(w, o);
    assert forall k :: k in ReviewCall(w, o).store.requests ==> RequestEvolves(w, ReviewCall(w, o), k);
    assert forall v :: v in ReviewCall(w, o).store.reviews ==> ReviewEvolves(w, ReviewCall(w, o), v);
  }

  lemma {:induction false} RunReviewKeepsOrigins(w: World)
    ensures SameOrigins(w.store, RunReview(w).store)
    decreases ReviewStage(w.review)
  {
    if !w.review.RevIdle? && !w.review.RevGet? {
      ReviewCallKeepsOrigins(w, Ok);
      RunReviewKeepsOrigins(ReviewCall(w, Ok));
    }
  }

  lemma {:induction false} RequestRoundGrows(w: World, ks: seq<Key>)
    requires Unexpired(w.store)
    ensures SameOrMore(w.store, RequestRound(w, ks).store) && Unexpired(RequestRound(w, ks).store)
    decreases |ks|
  {
    hide ReconcileRequest;
    if ks != [] {
      RequestReconcileGrows(w, ks[0]);
      ReconcileRequestKeepsOrigins(w, ks[0]);
      RequestRoundGrows(ReconcileRequest(w, ks[0]), ks[1..]);
    }
  }

  lemma ReconcileRequestKeepsOrigins(w: World, k: Key)
    ensures SameOrigins(w.store, ReconcileRequest(w, k).store)
  {
    hide RunRequest;
    RunKeepsOrigins(w.(request := ReqGet(k)));
  }

  lemma ReconcileReviewKeepsOrigins(w: World, v: Key)
    ensures SameOrigins(w.store, ReconcileReview(w, v).store)
  {
    hide RunReview;
    if v in w.store.reviews {
      RunReviewKeepsOrigins(w.(review := AfterReadReview(w.store, v, w.store.reviews[v])));
    }
  }

  lemma {:induction false} ReviewRoundGrows(w: World, vs: seq<Key>)
    requires Unexpired(w.store)
    ensures SameOrMore(w.store, ReviewRound(w, vs).store)
    decreases |vs|
  {
    hide ReconcileReview;
    if vs != [] {
      ReviewReconcileGrows(w, vs[0]);
      ReconcileReviewKeepsOrigins(w, vs[0]);
      ReviewRoundGrows(ReconcileReview(w, vs[0]), vs[1..]);
    }
  }

  /** The request half of a round changes nothing exactly when every request it visits is settled. */
  lemma {:induction false} RequestRoundFixedPoint(w: World, ks: seq<Key>)
    requires SoundStore(w.store)
    ensures RequestRound(w, ks).store == w.store
            <==> forall k :: k in ks && k in w.store.requests ==> RequestSettled(w.store, k)
    decreases |ks|
  {
    hide ReconcileRequest, RequestSettled, SoundRequest, SoundReview;
    if ks != [] {
      var k, w' := ks[0], ReconcileRequest(w, ks[0]);
      SoundIsUnexpired(w.store);
      RequestReconcileGrows(w, k);
      ReconcileRequestKeepsOrigins(w, k);
      RequestRoundGrows(w', ks[1..]);
      if w'.store == w.store {
        RequestRoundFixedPoint(w', ks[1..]);
      }
      if k in w.store.requests {
        RequestFixedPoint(w, k);
      } else {
        AbsentRequest(w, k);
      }
      assert forall q :: q in ks <==> q == k || q in ks[1..];
    }
  }

  lemma SoundIsUnexpired(s: Store)
    requires SoundStore(s)
    ensures Unexpired(s)
  {
    hide UserOf;
  }

  lemma AbsentRequest(w: World, k: Key)
    requires k !in w.store.requests
    ensures ReconcileRequest(w, k).store == w.store
  {
    var start := w.(request := ReqGet(k));
    assert RunRequest(start) == RunRequest(RequestCall(start, Ok));
  }

  lemma {:induction false} ReviewRoundFixedPoint(w: World, vs: seq<Key>)
    requires SoundStore(w.store)
    ensures ReviewRound(w, vs).store == w.store
            <==> forall v :: v in vs && v in w.store.reviews ==> ReviewSettled(w.store, v)
    decreases |vs|
  {
    hide ReviewSettled, SoundRequest, SoundReview;
    if vs != [] {
      var v, w' := vs[0], ReconcileReview(w, vs[0]);
      SoundIsUnexpired(w.store);
      ReviewReconcileGrows(w, v);
      ReconcileReviewKeepsOrigins(w, v);
      ReviewRoundGrows(w', vs[1..]);
      if w'.store == w.store {
        ReviewRoundFixedPoint(w', vs[1..]);
      }
      if v in w.store.reviews {
        ReviewFixedPoint(w, v);
      }
      assert forall q :: q in vs <==> q == v || q in vs[1..];
    }
  }

  /** A round over all requests and all reviews changes nothing exactly when everything is settled. */
  lemma JointFixedPoint(w: World, ks: seq<Key>, vs: seq<Key>)
    requires SoundStore(w.store)
    requires forall k :: k in w.store.requests ==> k in ks
    requires forall v :: v in w.store.reviews ==> v in vs
    ensures ReviewRound(RequestRound(w, ks), vs).store == w.store
            <==> (forall k :: k in w.store.requests ==> RequestSettled(w.store, k))
                 && (forall v :: v in w.store.reviews ==> ReviewSettled(w.store, v))
  {
    hide RequestSettled, ReviewSettled, RequestRound, ReviewRound, SoundStore;
    var w' := RequestRound(w, ks);
    SoundIsUnexpired(w.store);
    RequestRoundGrows(w, ks);
    ReviewRoundGrows(w', vs);
    RequestRoundFixedPoint(w, ks);
    if w'.store == w.store {
      ReviewRoundFixedPoint(w', vs);
    }
  }

  /** In a steady run the condition on requests is simpler: what was decided still has its review. */
  lemma SteadyFixedPoint(ws: seq<World>, steps: seq<Step>, i: nat, ks: seq<Key>, vs: seq<Key>)
    requires SteadyRun(ws, steps) && i < |ws| && SoundStore(ws[i].store)
    requires forall k :: k in ws[i].store.requests ==> k in ks
    requires forall v :: v in ws[i].store.reviews ==> v in vs
    ensures var s := ws[i].store;
            ReviewRound(RequestRound(ws[i], ks), vs).store == s
            <==> && (forall k :: k in s.requests ==>
                       && s.requests[k].status.state != Approved
                       && (s.requests[k].status.state == NoState ==> Reviewed(s, k))
                       && (s.requests[k].status.state == Started ==> k in s.jobs && Unfinished(s.jobs[k].conditions)))
                 && (forall v :: v in s.reviews ==> ReviewSettled(s, v))
  {
    hide Inv, SteadyInv, Execution, Steady, SoundStore, ReviewSettled, RequestRound, ReviewRound, Reviewed, Unfinished;
    SteadyAlways(ws, steps, i);
    JointFixedPoint(ws[i], ks, vs);
    forall k | k in ws[i].store.requests && ws[i].store.requests[k].status.state in {Rejected, Started}
      ensures Reviewed(ws[i].store, k)
    {
      DecidedKeepsReview(ws[i], k);
    }
  }

  lemma DecidedKeepsReview(w: World, k: Key)
    requires Inv(w) && SteadyInv(w) && k in w.store.requests && w.store.requests[k].status.HasBeenReviewed()
    ensures Reviewed(w.store, k)
  {
    hide RequestsOk, CopiesOk, JobsOk, ReviewPcInv, RequestPcInv;
    hide UndecidedHaveNone, OneDecisionEach, PendingWriteHarmless, TwoPersons, ReviewTruthful;
    assert StatusTruthful(w.log, k, w.store.requests[k].status);
    LastDecisionIsDecision(w.log.decisions, k);
    DecidedHasReview(w, k);
  }

  // ---------- where an undisturbed reconcile ends ----------

  lemma {:induction false} RunEnds(w: World)
    ensures RunRequest(w).request.ReqIdle? && RequestFootprint(w, RunRequest(w))
    decreases Stage(w.request), ToGo(w.request)
  {
    hide RequestCall, Stage, ToGo;
    if !w.request.ReqIdle? {
      RequestCallFootprint(w, Ok);
      StageDrops(w);
      RunEnds(RequestCall(w, Ok));
    }
  }

  lemma {:induction false} RunReviewEnds(w: World)
    requires !w.review.RevGet?
    ensures var w' := RunReview(w);
            && w'.review.RevIdle? && w'.request == w.request && w'.store.jobs == w.store.jobs
            && w'.log.foreignJobs == w.log.foreignJobs && (w.review.RevDelete? || w.store.reviews.Keys <= w'.store.reviews.Keys)
    decreases ReviewStage(w.review)
  {
    hide UserOf;
    if !w.review.RevIdle? {
      ReviewCallFootprint(w, Ok);
      RunReviewEnds(ReviewCall(w, Ok));
    }
  }

  lemma ReconcileEnds(w: World, k: Key)
    ensures ReconcileRequest(w, k).request.ReqIdle? && RequestFootprint(w, ReconcileRequest(w, k))
  {
    hide RunRequest;
    RunEnds(w.(request := ReqGet(k)));
  }

  // ---------- moves off the usual path ----------

  /** A reconcile that is undisturbed but for its list of reviews, which turns out as `o`. */
  function ReconcileListing(w: World, k: Key, o: Outcome): World {
    var got := RequestCall(w.(request := ReqGet(k)), Ok);
    var targeted := if got.request.ReqListTargets? then RequestCall(got, Ok) else got;
    RunRequest(if targeted.request.ReqListReviews? then RequestCall(targeted, o) else targeted)
  }

  lemma ListingWell(w: World, k: Key)
    ensures ReconcileListing(w, k, Ok) == ReconcileRequest(w, k)
  {
    hide UserOf, HasReview;
    var w0 := w.(request := ReqGet(k));
    var w1 := RequestCall(w0, Ok);
    assert RunRequest(w0) == RunRequest(w1);
    if w1.request.ReqListTargets? {
      var w2 := RequestCall(w1, Ok);
      assert RunRequest(w1) == RunRequest(w2);
      if w2.request.ReqListReviews? {
        assert RunRequest(w2) == RunRequest(RequestCall(w2, Ok));
      }
    }
  }

  /** Past the list of reviews, and about to write anything but Pending. */
  predicate PastListing(pc: RequestPc) {
    && !pc.ReqGet? && !pc.ReqDelete? && !pc.ReqListTargets? && !pc.ReqListReviews?
    && (pc.ReqSetState? || pc.ReqFinish? ==> pc.st.state != Pending)
  }

  lemma PastListingCall(w: World, k: Key)
    requires PastListing(w.request) && k in w.store.requests && w.store.requests[k].status.state != Pending
    ensures var w' := RequestCall(w, Ok);
            PastListing(w'.request) && k in w'.store.requests && w'.store.requests[k].status.state != Pending
  {
    if w.request.ReqSetState? || w.request.ReqFinish? {
      assert RequestCall(w, Ok).store == UpdateRequestStatus(w.store, w.request.key, w.request.base, w.request.st, Ok);
    } else {
      OtherRequestCall(w, Ok);
    }
    if w.request.ReqGetAgain? && w.request.key in w.store.requests {
      var r := w.store.requests[w.request.key];
      NextFinishWrites(w.request.key, r, r.status, w.request.conditions);
    } else if w.request.ReqFinish? {
      NextFinishWrites(w.request.key, w.request.base, w.request.st, w.request.rest);
      if w.request.key in w.store.requests {
        var stored := UpdateRequestStatus(w.store, w.request.key, w.request.base, w.request.st, Ok).requests[w.request.key];
        NextFinishWrites(w.request.key, stored, w.request.st, w.request.rest);
      }
    }
  }

  lemma {:induction false} NextFinishWrites(k: Key, base: JobRequest, st: RequestStatus, conditions: seq<Condition>)
    ensures var pc := NextFinish(k, base, st, conditions).pc; pc.ReqFinish? ==> pc.st.state in {Complete, Failed}
    decreases |conditions|
  {
    if conditions != [] && !Finished(conditions[0]) {
      NextFinishWrites(k, base, st, conditions[1..]);
    }
  }

  lemma {:induction false} PastListingRun(w: World, k: Key)
    requires PastListing(w.request) && k in w.store.requests && w.store.requests[k].status.state != Pending
    ensures k in RunRequest(w).store.requests && RunRequest(w).store.requests[k].status.state != Pending
    decreases Stage(w.request), ToGo(w.request)
  {
    hide RequestCall, Stage, ToGo, PastListing;
    if !w.request.ReqIdle? {
      PastListingCall(w, k);
      StageDrops(w);
      PastListingRun(RequestCall(w, Ok), k);
    }
  }

  /** After a reconcile of a sound request that was neither Pending nor over, the request is Pending exactly when the list of
      its reviews failed, or was empty. */
  lemma PendingAfterReconcile(w: World, k: Key, o: Outcome)
    requires k in w.store.requests && SoundRequest(w.store, k)
    requires w.store.requests[k].status.state in {NoState, Approved, Rejected, Started}
    ensures StateIs(ReconcileListing(w, k, o).store, k, Pending) <==> !o.Ok? || !Reviewed(w.store, k)
  {
    hide UserOf, Reviewed, HasReview, RunRequest, Buildable, ListTargets, TargetContainers;
    BuildableIsChecked(w.store, k, w.store.requests[k].spec);
    ReviewedIsListed(w.store, k);
    var w2 := RequestCall(RequestCall(w.(request := ReqGet(k)), Ok), Ok);
    assert w2.request.ReqListReviews? && w2.store == w.store;
    var w3 := RequestCall(w2, o);
    if o.Ok? && Reviewed(w.store, k) {
      PastListingRun(w3, k);
    } else {
      RunSetState(w3);
    }
  }

  lemma RunSetState(w: World)
    requires w.request.ReqSetState?
    requires w.request.key in w.store.requests && w.store.requests[w.request.key] == w.request.base
    ensures StateIs(RunRequest(w).store, w.request.key, w.request.st.state)
  {
    assert RunRequest(w) == RunRequest(RequestCall(w, Ok)) == RequestCall(w, Ok);
  }

  /** What becomes of a Rejected request: Malformed exactly when its Job could not be built, Pending exactly when it could be
      and no review is left; otherwise it stays Rejected. */
  lemma RejectedAfterReconcile(w: World, k: Key)
    requires StateIs(w.store, k, Rejected) && w.store.now - w.store.requests[k].created < w.store.ttl
    ensures var s' := ReconcileRequest(w, k).store; var buildable := Buildable(w.store, k, w.store.requests[k].spec);
            && (StateIs(s', k, Malformed) <==> !buildable)
            && (StateIs(s', k, Pending) <==> buildable && !Reviewed(w.store, k))
            && (StateIs(s', k, Rejected) <==> buildable && Reviewed(w.store, k))
  {
    hide UserOf, Reviewed, HasReview, RunRequest, ReconcileRequest, Buildable, ListTargets, TargetContainers;
    BuildableIsChecked(w.store, k, w.store.requests[k].spec);
    ReviewedIsListed(w.store, k);
    ListingWell(w, k);
    var w1 := RequestCall(w.(request := ReqGet(k)), Ok);
    if w1.request.ReqSetState? {
      RunSetState(w1);
    } else {
      var w2 := RequestCall(w1, Ok);
      if w2.request.ReqSetState? {
        RunSetState(w2);
      } else {
        var w3 := RequestCall(w2, Ok);
        if w3.request.ReqSetState? {
          RunSetState(w3);
        } else {
          RunIdle(w3);
        }
      }
    }
  }

  lemma RunIdle(w: World)
    requires w.request.ReqIdle?
    ensures RunRequest(w) == w
  {
  }

  /** A review that has left the store, but not the cache, still approves a Pending request; and the next reconcile of the
      request takes the approval back exactly when no other review of it is stored. */
  lemma ApprovalFromTheCacheIsUndone(w: World, k: Key, v: Key, copy: Review)
    requires k in w.store.requests && SoundRequest(w.store, k) && w.store.requests[k].status.state == Pending
    requires v !in w.store.reviews
    requires (v, copy) in w.log.copies && copy.state == NoReviewState && Key(v.ns, copy.spec.jobRequestName) == k
    requires w.store.now - copy.created < w.store.ttl && copy.spec.decision == Approve
    requires TwoUsers(w.store.requests[k].spec.requestedBy, copy.spec.reviewedBy)
    ensures var approved := RunReview(w.(review := AfterReadReview(w.store, v, copy)));
            var undone := ReconcileRequest(approved, k);
            StateIs(approved.store, k, Approved) && (StateIs(undone.store, k, Pending) <==> !Reviewed(w.store, k))
  {
    hide ReconcileRequest, ReconcileListing, RunReview, UserOf, Reviewed, TwoUsers, Named;
    NamedIsUser(copy.spec.reviewedBy);
    UsersAreCompared(w.store.requests[k].spec, copy.spec);
    var w0 := w.(review := AfterReadReview(w.store, v, copy));
    ReviewIsRead(w.store, v, copy);
    DecidesFromCopy(w0, k, v, copy);
    RunReviewKeepsOrigins(w0);
    ReviewStays(RunReview(w0).store, w0.store, k);
    PendingAfterReconcile(RunReview(w0), k, Ok);
    ListingWell(RunReview(w0), k);
  }

  /** A review by another person, from whatever copy, decides a Pending request. */
  lemma DecidesFromCopy(w: World, k: Key, v: Key, copy: Review)
    requires StateIs(w.store, k, Pending) && Target(v, copy.spec) == k
    requires w.review == RevFindRequest(v, copy) && TwoPersons(w.store.requests[k].spec, copy.spec)
    ensures StateIs(RunReview(w).store, k, RequestStateOf(copy.spec.decision))
    ensures v !in w.store.reviews ==> RunReview(w).store.reviews == w.store.reviews
  {
    hide UserOf, UpdateReviewState;
    var w1 := ReviewCall(w, Ok);
    assert w1.store == w.store && w1.review.RevDecide? && w1.review.key == v && w1.review.review == copy;
    assert w1.review.base == w.store.requests[k] && w1.review.st.state == RequestStateOf(copy.spec.decision);
    assert RunReview(w) == RunReview(w1);
    DecisionOnCurrent(w1, k);
  }

  lemma DecisionOnCurrent(w: World, k: Key)
    requires w.review.RevDecide? && Target(w.review.key, w.review.review.spec) == k
    requires k in w.store.requests && w.review.base == w.store.requests[k]
    ensures StateIs(RunReview(w).store, k, w.review.st.state)
    ensures w.review.key !in w.store.reviews ==> RunReview(w).store.reviews == w.store.reviews
  {
    var w1 := ReviewCall(w, Ok);
    assert w1.review.RevSetState? && w1.review.key == w.review.key && w1.store.reviews == w.store.reviews;
    assert RunReview(w) == RunReview(w1) == ReviewCall(w1, Ok);
  }

  /** The Job is created, and the Started status not yet written. */
  ghost predicate AboutToWriteStarted(w: World, k: Key) {
    && w.request.ReqSetState? && w.request.key == k && w.request.st.state == Started
    && k in w.store.requests && w.store.requests[k] == w.request.base && w.request.base.version <= w.store.rv
    && w.request.base.status.state == Approved
    && k in w.store.jobs && Reviewed(w.store, k)
  }

  function Edited(w: World, k: Key): World
    requires k in w.store.requests
  {
    Environment(w, TouchRequest(k))
  }

  /** An edit of the request's labels between the creation of the Job and the Started write makes that write refused;
      and the next reconcile takes the controller's own Job for somebody else's. */
  lemma EditedRequestDisownsItsJob(w: World, k: Key)
    requires AboutToWriteStarted(w, k) && SoundRequest(w.store, k)
    ensures var edited := Edited(w, k);
            var refused := RequestCall(edited, Ok);
            var next := ReconcileRequest(refused, k);
            refused.store == edited.store && StateIs(next.store, k, Conflicted)
  {
    hide UserOf, ReconcileRequest, Reviewed;
    var refused := RequestCall(Edited(w, k), Ok);
    ReviewStays(w.store, refused.store, k);
    TakenForConflict(refused, k);
  }

  lemma ReviewStays(s: Store, s': Store, k: Key)
    requires s'.reviews == s.reviews
    ensures Reviewed(s, k) <==> Reviewed(s', k)
  {
  }

  lemma ReviewIsRead(s: Store, v: Key, copy: Review)
    requires s.now - copy.created < s.ttl && copy.state == NoReviewState && UserOf(copy.spec.reviewedBy).Some?
    ensures AfterReadReview(s, v, copy) == RevFindRequest(v, copy)
  {
  }

  lemma TakenForConflict(w: World, k: Key)
    requires k in w.store.requests && SoundRequest(w.store, k) && Reviewed(w.store, k) && k in w.store.jobs
    requires w.store.requests[k].status.state == Approved
    ensures StateIs(ReconcileRequest(w, k).store, k, Conflicted)
  {
    hide UserOf, Reviewed, HasReview, Buildable, ListTargets, TargetContainers;
    BuildableIsChecked(w.store, k, w.store.requests[k].spec);
    ReviewedIsListed(w.store, k);
    var w0 := w.(request := ReqGet(k));
    var w1 := RequestCall(w0, Ok);
    var w2 := RequestCall(w1, Ok);
    var w3 := RequestCall(w2, Ok);
    var w4 := RequestCall(w3, Ok);
    assert w1.request.ReqListTargets? && w2.request.ReqListReviews? && w3.request.ReqGetNewJob? && w4.request.ReqSetState?;
    assert RunRequest(w0) == RunRequest(w1) == RunRequest(w2) == RunRequest(w3) == RunRequest(w4) == RequestCall(w4, Ok);
  }

  /** However the request write turns out, the review is then marked with the decision; and the request takes the decision
      exactly when the call takes effect at the version that was read. */
  lemma MarkedEvenIfRefused(w: World, o: Outcome)
    requires ReviewPcInv(w) && w.review.RevDecide? && w.review.key in w.store.reviews
    requires w.store.reviews[w.review.key] == w.review.review
    ensures var w' := RunReview(ReviewCall(w, o)); var v := w.review.key; var spec := w.review.review.spec;
            && v in w'.store.reviews
            && w'.store.reviews[v].state == (match spec.decision case Approve => ReviewApproved case Reject => ReviewRejected)
            && var k := Key(v.ns, spec.jobRequestName);
               if !o.Fault? && RequestCurrent(w.store, k, w.review.base)
               then StateIs(w'.store, k, match spec.decision case Approve => Approved case Reject => Rejected)
               else w'.store.requests == w.store.requests
  {
    hide TwoPersons;
    var w' := ReviewCall(w, o);
    assert w'.store.reviews == w.store.reviews;
    RevSetStateChanges(w');
  }

  // ---------- the same person ----------

  /** A stateless, unexpired review of a request that is Pending. */
  ghost predicate ReviewsPending(s: Store, v: Key) {
    && v in s.reviews && s.reviews[v].state == NoReviewState && s.now - s.reviews[v].created < s.ttl
    && StateIs(s, Key(v.ns, s.reviews[v].spec.jobRequestName), Pending)
  }

  /** An undisturbed review of a Pending request by its own requester ends in Conflict; the request is untouched. */
  lemma SamePersonConflicts(w: World, v: Key)
    requires ReviewsPending(w.store, v)
    requires SameUser(w.store.requests[Key(v.ns, w.store.reviews[v].spec.jobRequestName)].spec.requestedBy,
                      w.store.reviews[v].spec.reviewedBy)
    ensures var w' := ReconcileReview(w, v);
            && w'.store.requests == w.store.requests && w'.log.decisions == w.log.decisions
            && v in w'.store.reviews && w'.store.reviews[v].state == ReviewConflict
  {
    hide UserOf, Named;
    NamedIsUser(w.store.reviews[v].spec.reviewedBy);
    UsersAreCompared(w.store.requests[Key(v.ns, w.store.reviews[v].spec.jobRequestName)].spec, w.store.reviews[v].spec);
    var w0 := w.(review := AfterReadReview(w.store, v, w.store.reviews[v]));
    var w1 := ReviewCall(w0, Ok);
    assert RunReview(w0) == RunReview(w1);
    RevSetStateChanges(w1);
  }

  /** Any two gds-users ARNs of one user, whatever the accounts, roles, sessions and regions. */
  lemma SameGdsUser(user: string, region1: string, account1: string, role1: string, session1: string,
                    region2: string, account2: string, role2: string, session2: string)
    requires UserRole(role1) && UserRole(role2) && Clean(user) && Clean(session1) && Clean(session2)
    requires ':' !in region1 && ':' !in account1 && TwelveDigits(account1)
    requires ':' !in region2 && ':' !in account2 && TwelveDigits(account2)
    ensures SameUser(Some(Render(Arn(region1, account1, "assumed-role", user + "-" + role1, session1))),
                     Some(Render(Arn(region2, account2, "assumed-role", user + "-" + role2, session2))))
  {
    hide Render, ParseUserIdentity;
    GdsRoundTrip(region1, account1, user, role1, session1);
    GdsRoundTrip(region2, account2, user, role2, session2);
  }

  /** Any two EntraID ARNs with one session name. */
  lemma SameEntraUser(user: string, region1: string, account1: string, role1: string,
                      region2: string, account2: string, role2: string)
    requires !EndsInUserRole(role1) && !EndsInUserRole(role2) && Clean(user) && '@' in user && Clean(role1) && Clean(role2)
    requires ':' !in region1 && ':' !in account1 && TwelveDigits(account1)
    requires ':' !in region2 && ':' !in account2 && TwelveDigits(account2)
    ensures SameUser(Some(Render(Arn(region1, account1, "assumed-role", role1, user))),
                     Some(Render(Arn(region2, account2, "assumed-role", role2, user))))
  {
    hide Render, ParseUserIdentity;
    EntraRoundTrip(region1, account1, user, role1);
    EntraRoundTrip(region2, account2, user, role2);
  }

  /** A review by the requester under any two of the user's gds-users ARNs. */
  lemma SameGdsUserConflicts(w: World, v: Key, user: string,
                             region1: string, account1: string, role1: string, session1: string,
                             region2: string, account2: string, role2: string, session2: string)
    requires UserRole(role1) && UserRole(role2) && Clean(user) && Clean(session1) && Clean(session2)
    requires ':' !in region1 && ':' !in account1 && TwelveDigits(account1)
    requires ':' !in region2 && ':' !in account2 && TwelveDigits(account2)
    requires ReviewsPending(w.store, v)
    requires w.store.requests[Key(v.ns, w.store.reviews[v].spec.jobRequestName)].spec.requestedBy ==
             Some(Render(Arn(region1, account1, "assumed-role", user + "-" + role1, session1)))
    requires w.store.reviews[v].spec.reviewedBy ==
             Some(Render(Arn(region2, account2, "assumed-role", user + "-" + role2, session2)))
    ensures var w' := ReconcileReview(w, v);
            && w'.store.requests == w.store.requests && w'.log.decisions == w.log.decisions
            && v in w'.store.reviews && w'.store.reviews[v].state == ReviewConflict
  {
    hide Render, SameUser, ReconcileReview;
    SameGdsUser(user, region1, account1, role1, session1, region2, account2, role2, session2);
    SamePersonConflicts(w, v);
  }

  /** The same for EntraID ARNs. */
  lemma SameEntraUserConflicts(w: World, v: Key, user: string,
                               region1: string, account1: string, role1: string,
                               region2: string, account2: string, role2: string)
    requires !EndsInUserRole(role1) && !EndsInUserRole(role2) && Clean(user) && '@' in user && Clean(role1) && Clean(role2)
    requires ':' !in region1 && ':' !in account1 && TwelveDigits(account1)
    requires ':' !in region2 && ':' !in account2 && TwelveDigits(account2)
    requires ReviewsPending(w.store, v)
    requires w.store.requests[Key(v.ns, w.store.reviews[v].spec.jobRequestName)].spec.requestedBy ==
             Some(Render(Arn(region1, account1, "assumed-role", role1, user)))
    requires w.store.reviews[v].spec.reviewedBy == Some(Render(Arn(region2, account2, "assumed-role", role2, user)))
    ensures var w' := ReconcileReview(w, v);
            && w'.store.requests == w.store.requests && w'.log.decisions == w.log.decisions
            && v in w'.store.reviews && w'.store.reviews[v].state == ReviewConflict
  {
    hide Render, SameUser, ReconcileReview;
    SameEntraUser(user, region1, account1, role1, region2, account2, role2);
    SamePersonConflicts(w, v);
  }
}
