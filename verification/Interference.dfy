/** The invariant is kept by every step of either reconciler and of the environment. */
module Interference {
  import opened Resources
  import opened Protocol
  import opened Invariants
  import opened Frames

  // ---------- what a reconciler knows survives the others ----------

  /** Statuses change only where the request was Pending. */
  ghost predicate OnlyPendingMoves(w: World, w': World) {
    forall k :: k in w.store.requests && k in w'.store.requests
                && w'.store.requests[k].status != w.store.requests[k].status ==>
      w.store.requests[k].status.state == Pending
  }

  lemma SeenLater(w: World, w': World, k: Key, base: JobRequest)
    requires Later(w, w') && Seen(w, k, base)
    ensures Seen(w', k, base)
  {
    if k in w'.store.requests {
      assert RequestEvolves(w, w', k);
    }
  }

  lemma DecidedLater(w: World, w': World, k: Key, verdict: Decision)
    requires Later(w, w') && Decided(w.log, k, verdict)
    ensures Decided(w'.log, k, verdict)
  {
    var d :| d in w.log.decisions && d.request == k && d.verdict == verdict;
    assert d in w'.log.decisions;
  }

  lemma ReadingLater(w: World, w': World, k: Key, base: JobRequest)
    requires Later(w, w') && OnlyPendingMoves(w, w') && Reading(w, k, base)
    ensures Reading(w', k, base)
  {
    SeenLater(w, w', k, base);
    if k in w'.store.requests {
      assert RequestEvolves(w, w', k);
    }
    if base.status.HasBeenApproved() {
      DecidedLater(w, w', k, Approve);
    }
    if base.status.HasBeenRejected() {
      DecidedLater(w, w', k, Reject);
    }
  }

  lemma RequestPcUnmoved(w: World, w': World)
    requires Later(w, w') && OnlyPendingMoves(w, w') && w'.request == w.request && RequestPcInv(w)
    ensures RequestPcInv(w')
  {
    match w.request
    case ReqIdle =>
    case ReqGet(_) =>
    case ReqDelete(_) =>
    case ReqFinish(k, base, _, _) => SeenLater(w, w', k, base);
    case _ => ReadingLater(w, w', w.request.key, w.request.base);
  }

  lemma ReviewTruthfulLater(w: World, w': World, k: Key, state: ReviewState)
    requires Later(w, w') && ReviewTruthful(w.log, k, state)
    ensures ReviewTruthful(w'.log, k, state)
  {
    forall v: Decision | state == ReviewStateOf(v) && k !in w'.log.refused
      ensures exists d :: d in w'.log.decisions && d.review == k && d.verdict == v
    {
      var d :| d in w.log.decisions && d.review == k && d.verdict == v;
      assert d in w'.log.decisions;
    }
  }

  lemma ReviewPcUnmoved(w: World, w': World)
    requires Later(w, w') && w'.review == w.review && ReviewPcInv(w)
    ensures ReviewPcInv(w')
  {
    match w.review
    case RevDecide(k, review, base, _) => SeenLater(w, w', Target(k, review.spec), base);
    case RevSetState(k, _, state) => ReviewTruthfulLater(w, w', k, state);
    case _ =>
  }

  // ---------- the request reconciler's own steps ----------

  lemma FreshReading(w: World, k: Key)
    requires StoreInv(w) && HistoryInv(w) && k in w.store.requests
    ensures Seen(w, k, w.store.requests[k]) && Held(w, k, w.store.requests[k])
    ensures Backed(w.log, k, w.store.requests[k].status)
  {
    assert StatusTruthful(w.log, k, w.store.requests[k].status);
    LastDecisionIsDecision(w.log.decisions, k);
  }

  lemma {:induction false} NextFinishFirst(k: Key, base: JobRequest, st: RequestStatus, conditions: seq<Condition>)
    requires OneOutcome(conditions) && base.status == st && st.state == Started
    ensures var next := NextFinish(k, base, st, conditions); var pc := next.pc;
            || (pc.ReqIdle? && next.events == [])
            || (pc.ReqFinish? && pc.key == k && pc.base == base && next.events == [pc.st.state]
                && FinishWrite(base.status, pc.st) && RestAgrees(pc.st.state, pc.rest))
    decreases |conditions|
  {
    if conditions != [] && !Finished(conditions[0]) {
      NextFinishFirst(k, base, st, conditions[1..]);
    } else if conditions != [] {
      var rest := conditions[1..];
      forall i | 0 <= i < |rest| && Finished(rest[i])
        ensures FinishState(rest[i]) == FinishState(conditions[0])
      {
        assert rest[i] == conditions[i + 1];
      }
    }
  }

  lemma {:induction false} NextFinishAgain(k: Key, base: JobRequest, st: RequestStatus, rest: seq<Condition>)
    requires FinishWrite(base.status, st) && RestAgrees(st.state, rest)
    ensures var next := NextFinish(k, base, st, rest);
            && next.events == []
            && (next.pc.ReqIdle? || (next.pc.ReqFinish? && next.pc.key == k && next.pc.base == base
                                     && next.pc.st == st && RestAgrees(st.state, next.pc.rest)))
    decreases |rest|
  {
    if rest != [] {
      var tail := rest[1..];
      forall i | 0 <= i < |tail| && Finished(tail[i])
        ensures FinishState(tail[i]) == st.state
      {
        assert tail[i] == rest[i + 1];
      }
      if !Finished(rest[0]) {
        NextFinishAgain(k, base, st, tail);
      } else {
        assert st.(state := FinishState(rest[0])) == st;
      }
    }
  }

  lemma {:induction false} NextFinishHolds(k: Key, base: JobRequest, st: RequestStatus, conditions: seq<Condition>)
    ensures var pc := NextFinish(k, base, st, conditions).pc; pc.ReqFinish? ==> pc.key == k && pc.base == base
    decreases |conditions|
  {
    if conditions != [] && !Finished(conditions[0]) {
      NextFinishHolds(k, base, st, conditions[1..]);
    }
  }

  lemma PcAfterGet(w: World, o: Outcome)
    requires Inv(w) && w.request.ReqGet?
    ensures RequestPcInv(CallGet(w, o))
  {
    var k := w.request.key;
    if k in w.store.requests {
      FreshReading(w, k);
    }
  }

  /** Between its own calls a reconciler's reading stays good while requests and decisions stay. */
  lemma ReadingSame(w: World, w': World, k: Key, base: JobRequest)
    requires Reading(w, k, base)
    requires w'.store.requests == w.store.requests && w'.store.rv == w.store.rv
    requires w'.log.requestSpecs == w.log.requestSpecs && w'.log.decisions == w.log.decisions
    ensures Reading(w', k, base)
  {
  }

  lemma PcAfterListTargets(w: World, o: Outcome)
    requires RequestPcInv(w) && w.request.ReqListTargets?
    ensures RequestPcInv(CallListTargets(w, o))
  {
    ReadingSame(w, CallListTargets(w, o), w.request.key, w.request.base);
  }

  lemma PcAfterListReviews(w: World, o: Outcome)
    requires RequestPcInv(w) && w.request.ReqListReviews?
    ensures RequestPcInv(CallListReviews(w, o))
  {
    ReadingSame(w, CallListReviews(w, o), w.request.key, w.request.base);
  }

  lemma PcAfterGetNewJob(w: World, o: Outcome)
    requires RequestPcInv(w) && w.request.ReqGetNewJob?
    ensures RequestPcInv(CallGetNewJob(w, o))
  {
    ReadingSame(w, CallGetNewJob(w, o), w.request.key, w.request.base);
  }

  lemma PcAfterCreateJob(w: World, o: Outcome)
    requires RequestPcInv(w) && w.request.ReqCreateJob?
    ensures RequestPcInv(CallCreateJob(w, o))
  {
    ReadingSame(w, CallCreateJob(w, o), w.request.key, w.request.base);
  }

  lemma PcAfterGetRunningJob(w: World, o: Outcome)
    requires RequestPcInv(w) && JobsOk(w) && w.request.ReqGetRunningJob?
    ensures RequestPcInv(CallGetRunningJob(w, o))
  {
    ReadingSame(w, CallGetRunningJob(w, o), w.request.key, w.request.base);
  }

  lemma PcAfterGetAgain(w: World, o: Outcome)
    requires Inv(w) && w.request.ReqGetAgain?
    ensures RequestPcInv(CallGetAgain(w, o))
  {
    var ReqGetAgain(k, base, conditions) := w.request;
    if o.Ok? && k in w.store.requests {
      var r := w.store.requests[k];
      FreshReading(w, k);
      NextFinishFirst(k, r, r.status, conditions);
    }
  }

  lemma PcAfterFinish(w: World, o: Outcome)
    requires Inv(w) && w.request.ReqFinish?
    ensures RequestPcInv(CallFinish(w, o))
  {
    hide HistoryInv;
    var ReqFinish(k, base, st, rest) := w.request;
    var w' := CallFinish(w, o);
    LaterRequestCall(w, o);
    SeenLater(w, w', k, base);
    if o.Ok? && RequestWriteLands(w.store, k, base, o) {
      var stored := UpdateRequestStatus(w.store, k, base, st, o).requests[k];
      assert stored.status == st && stored.spec == w.store.requests[k].spec;
      assert stored.version == w.store.requests[k].version || stored.version == w'.store.rv;
      NextFinishAgain(k, stored, st, rest);
    } else {
      NextFinishAgain(k, base, st, rest);
    }
  }

  lemma RequestPcCall(w: World, o: Outcome)
    requires Inv(w)
    ensures RequestPcInv(RequestCall(w, o))
  {
    hide RequestsOk, CopiesOk, JobsOk, HistoryInv, ReviewPcInv, Reading, UpdateRequestStatus;
    match w.request
    case ReqIdle =>
    case ReqGet(_) => PcAfterGet(w, o);
    case ReqDelete(_) =>
    case ReqListTargets(_, _) => PcAfterListTargets(w, o);
    case ReqListReviews(_, _, _) => PcAfterListReviews(w, o);
    case ReqGetNewJob(_, _, _) => PcAfterGetNewJob(w, o);
    case ReqCreateJob(_, _, _) => PcAfterCreateJob(w, o);
    case ReqGetRunningJob(_, _) => PcAfterGetRunningJob(w, o);
    case ReqGetAgain(_, _, _) => PcAfterGetAgain(w, o);
    case ReqFinish(_, _, _, _) => PcAfterFinish(w, o);
    case ReqSetState(_, _, _) =>
  }

  // ---------- history ----------

  lemma DecisionsPersist(w: World, w': World)
    requires StoreInv(w) && HistoryInv(w) && Later(w, w')
    ensures forall d :: d in w.log.decisions ==> DecisionOk(w', d)
  {
    hide TwoPersons;
    forall d | d in w.log.decisions
      ensures DecisionOk(w', d)
    {
      assert DecisionOk(w, d);
      if d.request in w'.store.requests {
        assert RequestEvolves(w, w', d.request);
      }
    }
  }

  /** Without a new decision, only statuses, review states and creations need a look. */
  lemma HistoryKept(w: World, w': World)
    requires StoreInv(w) && HistoryInv(w) && Later(w, w')
    requires w'.log.decisions == w.log.decisions
    requires forall k :: k in w'.store.requests ==> StatusTruthful(w'.log, k, w'.store.requests[k].status)
    requires forall k :: k in w'.store.reviews ==> ReviewTruthful(w'.log, k, w'.store.reviews[k].state)
    requires forall k :: k in w'.log.creations ==> Decided(w.log, k, Approve)
    ensures HistoryInv(w')
  {
    DecisionsPersist(w, w');
  }

  lemma StatusTruthfulLater(w: World, w': World, k: Key, st: RequestStatus)
    requires Later(w, w') && w'.log.decisions == w.log.decisions && StatusTruthful(w.log, k, st)
    ensures StatusTruthful(w'.log, k, st)
  {
  }

  lemma TruthfulLastWrite(log: Log, k: Key, base: RequestStatus, st: RequestStatus)
    requires StatusTruthful(log, k, base) && LastWrite(log, k, base, st)
    ensures StatusTruthful(log, k, st)
  {
  }

  lemma TruthfulFinish(log: Log, k: Key, base: RequestStatus, st: RequestStatus)
    requires StatusTruthful(log, k, base) && FinishWrite(base, st)
    ensures StatusTruthful(log, k, st)
  {
  }

  /** The stored statuses after one status write of the request reconciler. */
  lemma HistoryRequestWrite(w: World, w': World, k: Key, base: JobRequest, st: RequestStatus, o: Outcome)
    requires StoreInv(w) && HistoryInv(w) && Later(w, w') && Seen(w, k, base)
    requires w'.store == UpdateRequestStatus(w.store, k, base, st, o) && w'.log == w.log.(events := w'.log.events)
    requires StatusTruthful(w.log, k, base.status) ==> StatusTruthful(w.log, k, st)
    ensures HistoryInv(w')
  {
    hide TwoPersons;
    forall q | q in w'.store.requests
      ensures StatusTruthful(w'.log, q, w'.store.requests[q].status)
    {
      assert StatusTruthful(w.log, q, w.store.requests[q].status);
    }
    forall q | q in w'.store.reviews
      ensures ReviewTruthful(w'.log, q, w'.store.reviews[q].state)
    {
      assert ReviewTruthful(w.log, q, w.store.reviews[q].state);
    }
    HistoryKept(w, w');
  }

  lemma HistoryRequestCall(w: World, o: Outcome)
    requires Inv(w)
    ensures HistoryInv(RequestCall(w, o))
  {
    var w' := RequestCall(w, o);
    LaterRequestCall(w, o);
    if w.request.ReqSetState? {
      var ReqSetState(k, base, st) := w.request;
      if StatusTruthful(w.log, k, base.status) {
        TruthfulLastWrite(w.log, k, base.status, st);
      }
      HistoryRequestWrite(w, w', k, base, st, o);
    } else if w.request.ReqFinish? {
      var ReqFinish(k, base, st, _) := w.request;
      if StatusTruthful(w.log, k, base.status) {
        TruthfulFinish(w.log, k, base.status, st);
      }
      HistoryRequestWrite(w, w', k, base, st, o);
    } else {
      HistoryOtherRequestCall(w, o);
    }
  }

  lemma OtherRequestCall(w: World, o: Outcome)
    requires !w.request.ReqSetState? && !w.request.ReqFinish?
    ensures var w' := RequestCall(w, o);
            && (forall k :: k in w'.store.requests ==> k in w.store.requests && w'.store.requests[k] == w.store.requests[k])
            && (forall k :: k in w'.log.creations ==> k in w.log.creations || (w.request.ReqCreateJob? && w.request.key == k))
  {
    if Reads(w.request) {
      ReadsKeepStore(w, o);
    }
  }

  lemma HistoryOtherRequestCall(w: World, o: Outcome)
    requires Inv(w) && !w.request.ReqSetState? && !w.request.ReqFinish?
    ensures HistoryInv(RequestCall(w, o))
  {
    LaterRequestCall(w, o);
    RequestCallFootprint(w, o);
    OtherRequestCall(w, o);
    HistorySameStates(w, RequestCall(w, o));
  }

  /** Nothing stored changed its status or state; new objects have none. */
  lemma HistorySameStates(w: World, w': World)
    requires StoreInv(w) && HistoryInv(w) && Later(w, w')
    requires w'.log.decisions == w.log.decisions
    requires forall k :: k in w'.store.requests ==>
               w'.store.requests[k].status == if k in w.store.requests then w.store.requests[k].status else EMPTY_STATUS
    requires forall k :: k in w'.store.reviews ==>
               w'.store.reviews[k].state == if k in w.store.reviews then w.store.reviews[k].state else NoReviewState
    requires forall k :: k in w'.log.creations ==> Decided(w.log, k, Approve)
    ensures HistoryInv(w')
  {
    forall k | k in w'.store.requests
      ensures StatusTruthful(w'.log, k, w'.store.requests[k].status)
    {
      if k in w.store.requests {
        StatusTruthfulLater(w, w', k, w.store.requests[k].status);
      } else {
        assert RequestEvolves(w, w', k);
        LastDecisionIsDecision(w.log.decisions, k);
      }
    }
    forall k | k in w'.store.reviews
      ensures ReviewTruthful(w'.log, k, w'.store.reviews[k].state)
    {
      if k in w.store.reviews {
        ReviewTruthfulLater(w, w', k, w.store.reviews[k].state);
      }
    }
    HistoryKept(w, w');
  }

  // ---------- the review reconciler's own steps ----------

  lemma PcAfterFindRequest(w: World, o: Outcome)
    requires Inv(w) && w.review.RevFindRequest?
    ensures ReviewPcInv(CallFindRequest(w, o))
  {
    hide UserOf, HistoryInv;
    var RevFindRequest(k, review) := w.review;
    var target := Target(k, review.spec);
    if target in w.store.requests {
      FreshReading(w, target);
    }
  }

  lemma PcAfterDecide(w: World, o: Outcome)
    requires Inv(w) && w.review.RevDecide?
    ensures ReviewPcInv(CallDecide(w, o))
  {
    hide TwoPersons;
    var RevDecide(k, review, base, st) := w.review;
    var w' := CallDecide(w, o);
    var target := Target(k, review.spec);
    if RequestWriteLands(w.store, target, base, o) {
      var d := DecisionRecord(target, k, review.spec.decision, w'.store.rv);
      assert d in w'.log.decisions;
    }
  }

  lemma ReviewPcCall(w: World, o: Outcome)
    requires Inv(w)
    ensures ReviewPcInv(ReviewCall(w, o))
  {
    match w.review
    case RevFindRequest(_, _) => PcAfterFindRequest(w, o);
    case RevDecide(_, _, _, _) => PcAfterDecide(w, o);
    case _ =>
  }

  /** A decision that takes effect is well founded, and becomes the last one on its request. */
  lemma HistoryDecide(w: World, o: Outcome)
    requires Inv(w) && w.review.RevDecide?
    ensures HistoryInv(CallDecide(w, o))
  {
    hide TwoPersons;
    var RevDecide(k, review, base, st) := w.review;
    var w' := CallDecide(w, o);
    var target := Target(k, review.spec);
    LaterReviewCall(w, o);
    if RequestWriteLands(w.store, target, base, o) {
      assert CopyOk(w, k, review);
      var d := DecisionRecord(target, k, review.spec.decision, w'.store.rv);
      assert w.store.requests[target].status == base.status;
      HistoryDecided(w, w', d, st);
    } else {
      HistorySameStates(w, w');
    }
  }

  lemma HistoryDecided(w: World, w': World, d: DecisionRecord, st: RequestStatus)
    requires StoreInv(w) && HistoryInv(w) && Later(w, w')
    requires w'.log == w.log.(decisions := w.log.decisions + [d])
    requires d.request in w.store.requests && w.store.requests[d.request].status != st
    requires w'.store == PutRequestStatus(w.store, d.request, st)
    requires d.at == w'.store.rv
    requires d.review in w.log.reviewSpecs && Target(d.review, w.log.reviewSpecs[d.review]) == d.request
    requires w.log.reviewSpecs[d.review].decision == d.verdict
    requires TwoPersons(w.store.requests[d.request].spec, w.log.reviewSpecs[d.review])
    requires st.reviewName == d.review.name && st.state == RequestStateOf(d.verdict)
    ensures HistoryInv(w')
  {
    hide TwoPersons;
    DecisionsPersist(w, w');
    assert DecisionOk(w', d);
    forall e | e in w'.log.decisions
      ensures DecisionOk(w', e)
    {
      assert e in w.log.decisions || e == d;
    }
    StatusesAfterDecision(w, w', d, st);
    hide DecisionOk, StatusTruthful, ReviewTruthful, PutRequestStatus;
    forall k | k in w'.store.reviews
      ensures ReviewTruthful(w'.log, k, w'.store.reviews[k].state)
    {
      ReviewTruthfulLater(w, w', k, w.store.reviews[k].state);
    }
    forall k | k in w'.log.creations
      ensures Decided(w'.log, k, Approve)
    {
      DecidedLater(w, w', k, Approve);
    }
  }

  lemma StatusesAfterDecision(w: World, w': World, d: DecisionRecord, st: RequestStatus)
    requires forall k :: k in w.store.requests ==> StatusTruthful(w.log, k, w.store.requests[k].status)
    requires w'.log == w.log.(decisions := w.log.decisions + [d])
    requires d.request in w.store.requests && w'.store == PutRequestStatus(w.store, d.request, st)
    requires st.reviewName == d.review.name && st.state == RequestStateOf(d.verdict)
    ensures forall k :: k in w'.store.requests ==> StatusTruthful(w'.log, k, w'.store.requests[k].status)
    ensures w'.store.reviews == w.store.reviews
  {
    forall k | k in w'.store.requests
      ensures StatusTruthful(w'.log, k, w'.store.requests[k].status)
    {
      LastDecisionAppend(w.log.decisions, d, k);
      assert StatusTruthful(w.log, k, w.store.requests[k].status);
    }
  }

  lemma RevSetStateWrites(w: World, o: Outcome)
    requires w.review.RevSetState?
    ensures var w' := CallRevSetState(w, o);
            && w'.store.requests == w.store.requests && w'.log == w.log.(copies := w'.log.copies)
            && (forall k :: k in w'.store.reviews ==>
                  k in w.store.reviews
                  && (w'.store.reviews[k] == w.store.reviews[k]
                      || (k == w.review.key && w'.store.reviews[k].state == w.review.state)))
  {
  }

  lemma HistoryRevSetState(w: World, o: Outcome)
    requires Inv(w) && w.review.RevSetState?
    ensures HistoryInv(CallRevSetState(w, o))
  {
    hide TwoPersons, CallRevSetState, StatusTruthful, ReviewTruthful;
    var w' := CallRevSetState(w, o);
    LaterReviewCall(w, o);
    RevSetStateWrites(w, o);
    forall k | k in w'.store.reviews
      ensures ReviewTruthful(w'.log, k, w'.store.reviews[k].state)
    {
      if w'.store.reviews[k] == w.store.reviews[k] {
        ReviewTruthfulLater(w, w', k, w.store.reviews[k].state);
      } else {
        ReviewTruthfulLater(w, w', k, w.review.state);
      }
    }
    forall k | k in w'.store.requests
      ensures StatusTruthful(w'.log, k, w'.store.requests[k].status)
    {
      StatusTruthfulLater(w, w', k, w.store.requests[k].status);
    }
    HistoryKept(w, w');
  }

  lemma HistoryReviewCall(w: World, o: Outcome)
    requires Inv(w)
    ensures HistoryInv(ReviewCall(w, o))
  {
    if w.review.RevDecide? {
      HistoryDecide(w, o);
    } else if w.review.RevSetState? {
      HistoryRevSetState(w, o);
    } else {
      LaterReviewCall(w, o);
      HistorySameStates(w, ReviewCall(w, o));
    }
  }

  /** A review's decision only lands on a request that is Pending. */
  lemma ReviewCallMovesPending(w: World, o: Outcome)
    requires ReviewPcInv(w)
    ensures OnlyPendingMoves(w, ReviewCall(w, o))
  {
    hide TwoPersons;
    if !w.review.RevDecide? {
      OtherReviewCall(w, o);
    }
  }

  /** Only the list of reviews leads to writing Pending. */
  lemma NoOtherPendingWrite(w: World, o: Outcome)
    requires !w.request.ReqListReviews?
    ensures var pc := RequestCall(w, o).request; pc.ReqSetState? ==> pc.st.state != Pending
  {
    hide UpdateRequestStatus, UserOf;
  }

  // ---------- every step ----------

  lemma InvRequestCall(w: World, o: Outcome)
    requires Inv(w) && Enabled(w, CallRequest(o))
    ensures Inv(RequestCall(w, o))
  {
    hide RequestCall;
    var w' := RequestCall(w, o);
    StoreInvStep(w, CallRequest(o));
    RequestPcCall(w, o);
    LaterRequestCall(w, o);
    RequestCallFootprint(w, o);
    ReviewPcUnmoved(w, w');
    HistoryRequestCall(w, o);
  }

  lemma InvReviewCall(w: World, o: Outcome)
    requires Inv(w) && Enabled(w, CallReview(o))
    ensures Inv(ReviewCall(w, o))
  {
    hide ReviewCall, TwoPersons;
    var w' := ReviewCall(w, o);
    StoreInvStep(w, CallReview(o));
    ReviewPcCall(w, o);
    LaterReviewCall(w, o);
    ReviewCallFootprint(w, o);
    ReviewCallMovesPending(w, o);
    RequestPcUnmoved(w, w');
    HistoryReviewCall(w, o);
  }

  lemma InvEnvironment(w: World, s: Step)
    requires Inv(w) && Enabled(w, s) && OfEnvironment(s)
    ensures Inv(Environment(w, s))
  {
    var w' := Environment(w, s);
    LaterStep(w, s);
    StoreInvEnvironment(w, s);
    EnvironmentKeeps(w, s);
    RequestPcUnmoved(w, w');
    ReviewPcUnmoved(w, w');
    HistorySameStates(w, w');
  }

  lemma InvStep(w: World, s: Step)
    requires Inv(w) && Enabled(w, s)
    ensures Inv(Apply(w, s))
  {
    hide RequestCall, ReviewCall, StoreInv, RequestPcInv, ReviewPcInv, HistoryInv;
    if s.CallRequest? {
      InvRequestCall(w, s.o);
    } else if s.CallReview? {
      InvReviewCall(w, s.o);
    } else if OfEnvironment(s) {
      InvEnvironment(w, s);
    } else {
      InvTurn(w, s);
    }
  }

  /** Starting, reading the cache and crashing change nothing but a program counter. */
  lemma InvTurn(w: World, s: Step)
    requires Inv(w) && Enabled(w, s)
    requires s.StartRequest? || s.CrashRequest? || s.StartReview? || s.ReadReview? || s.CrashReview?
    ensures Inv(Apply(w, s))
  {
    hide TwoPersons;
    var w' := Apply(w, s);
    StoreAndHistorySame(w, w');
    LaterSame(w, w');
    if OfRequestWorker(s) {
      ReviewPcUnmoved(w, w');
    } else {
      RequestPcUnmoved(w, w');
      ReviewPcTurn(w, s);
    }
  }

  lemma StoreAndHistorySame(w: World, w': World)
    requires StoreInv(w) && HistoryInv(w) && w'.store == w.store && w'.log == w.log
    ensures StoreInv(w') && HistoryInv(w')
  {
    hide TwoPersons, StatusTruthful, ReviewTruthful;
    assert forall d :: d in w.log.decisions ==> DecisionOk(w, d);
    assert forall k, c :: (k, c) in w.log.copies ==> CopyOk(w, k, c);
  }

  lemma ReviewPcTurn(w: World, s: Step)
    requires Enabled(w, s) && (s.StartReview? || s.ReadReview? || s.CrashReview?)
    ensures ReviewPcInv(Apply(w, s))
  {
    hide UserOf;
  }

  lemma InvInitially(w: World)
    requires w == InitialWorld(w.store.ttl, w.store.now)
    ensures Inv(w)
  {
  }

  /** Every world of every execution satisfies the invariant. */
  lemma {:induction false} InvAlways(ws: seq<World>, steps: seq<Step>, i: nat)
    requires Execution(ws, steps) && i < |ws|
    ensures Inv(ws[i])
  {
    hide Apply, Enabled, Inv;
    if i == 0 {
      InvInitially(ws[0]);
    } else {
      InvAlways(ws, steps, i - 1);
      InvStep(ws[i - 1], steps[i - 1]);
    }
  }

  lemma LaterTransitive(a: World, b: World, c: World)
    requires StoreInv(a) && Later(a, b) && Later(b, c)
    ensures Later(a, c)
  {
    forall k | k in c.store.requests
      ensures RequestEvolves(a, c, k)
    {
      assert RequestEvolves(b, c, k);
      assert k in b.store.requests ==> RequestEvolves(a, b, k);
    }
    assert forall k :: k in a.store.reviews ==> CopyOk(a, k, a.store.reviews[k]);
    forall k | k in c.store.reviews
      ensures ReviewEvolves(a, c, k)
    {
      assert ReviewEvolves(b, c, k);
      assert k in b.store.reviews ==> ReviewEvolves(a, b, k);
    }
  }

  lemma LaterNext(a: World, b: World, s: Step)
    requires StoreInv(a) && StoreInv(b) && Later(a, b) && Enabled(b, s)
    ensures Later(a, Apply(b, s))
  {
    LaterStep(b, s);
    LaterTransitive(a, b, Apply(b, s));
  }

  lemma AlwaysStored(ws: seq<World>, steps: seq<Step>, i: nat)
    requires Execution(ws, steps) && i < |ws|
    ensures StoreInv(ws[i])
  {
    InvAlways(ws, steps, i);
  }

  /** Over any stretch of an execution, versions and histories only grow. */
  lemma {:induction false} LaterOver(ws: seq<World>, steps: seq<Step>, i: nat, j: nat)
    requires Execution(ws, steps) && i <= j < |ws|
    ensures Later(ws[i], ws[j])
    decreases j - i
  {
    if i == j {
      LaterSame(ws[i], ws[i]);
    } else {
      AlwaysStored(ws, steps, i);
      AlwaysStored(ws, steps, j - 1);
      LaterOver(ws, steps, i, j - 1);
      LaterNext(ws[i], ws[j - 1], steps[j - 1]);
    }
  }
}
