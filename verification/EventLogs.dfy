/** The Normal events recorded on a request, in steady executions without faults or crashes, but with any edits of labels:
    exactly when they follow the path of states. */
module EventLogs {
  import opened Resources
  import opened Protocol
  import opened Invariants
  import opened Frames
  import opened Interference
  import opened SteadyRuns

  // ---------- logs that follow the path of states ----------

  const APPROVED_RUN: seq<RequestState> := [Pending, Approved, Started]

  predicate Rejections(events: seq<RequestState>) {
    forall i :: 0 <= i < |events| ==> events[i] == Rejected
  }

  predicate RejectedRun(events: seq<RequestState>) {
    |events| > 0 && events[0] == Pending && Rejections(events[1..])
  }

  /** The Normal events of a request, at any moment. */
  predicate Legal(events: seq<RequestState>) {
    || events <= APPROVED_RUN
    || events == APPROVED_RUN + [Complete]
    || events == APPROVED_RUN + [Failed]
    || RejectedRun(events)
  }

  /** The Normal events of a request in a given state, while no reconcile is at work on it. */
  predicate EventsAt(state: RequestState, events: seq<RequestState>) {
    match state
    case NoState => events == []
    case Pending => events == [Pending]
    case Approved => events == [Pending]
    case Rejected => RejectedRun(events)
    case Started => events == APPROVED_RUN
    case Complete => events == APPROVED_RUN + [Complete]
    case Failed => events == APPROVED_RUN + [Failed]
    case _ => Legal(events)
  }

  function Events(w: World, k: Key): seq<RequestState> {
    EventsOf(w.log.events, k)
  }

  /** Rejected events in a row count once. */
  function Collapse(events: seq<RequestState>): seq<RequestState> {
    var n := |events|;
    if n < 2 then events
    else if events[n - 1] == Rejected && events[n - 2] == Rejected then Collapse(events[..n - 1])
    else Collapse(events[..n - 1]) + [events[n - 1]]
  }

  lemma {:induction false} CollapseRejected(events: seq<RequestState>)
    requires RejectedRun(events)
    ensures Collapse(events) == if |events| == 1 then [Pending] else [Pending, Rejected]
  {
    var n := |events|;
    if n > 1 {
      assert events[n - 1] == events[1..][n - 2] == Rejected;
      var init := events[..n - 1];
      assert init[1..] == events[1..][..n - 2];
      CollapseRejected(init);
      if n > 2 {
        assert events[n - 2] == events[1..][n - 3] == Rejected;
      }
    }
  }

  lemma CollapseOthers(events: seq<RequestState>)
    requires Legal(events) && !RejectedRun(events)
    ensures Collapse(events) == events
  {
    assert Rejected !in APPROVED_RUN;
    NothingToCollapse(events);
  }

  lemma {:induction false} NothingToCollapse(events: seq<RequestState>)
    requires Rejected !in events
    ensures Collapse(events) == events
  {
    var n := |events|;
    if n >= 2 {
      NothingToCollapse(events[..n - 1]);
      assert events == events[..n - 1] + [events[n - 1]];
    }
  }

  /** Without repetitions of Rejected, the log is a beginning of one of the paths. */
  predicate FollowsPath(events: seq<RequestState>) {
    var log := Collapse(events);
    log <= [Pending, Approved, Started, Complete] || log <= [Pending, Approved, Started, Failed] || log <= [Pending, Rejected]
  }

  lemma LegalFollows(events: seq<RequestState>)
    requires Legal(events)
    ensures FollowsPath(events)
  {
    if RejectedRun(events) {
      CollapseRejected(events);
    } else {
      CollapseOthers(events);
    }
  }

  lemma {:induction false} CollapseKeeps(events: seq<RequestState>)
    ensures Rejected in Collapse(events) <==> Rejected in events
    ensures |Collapse(events)| <= |events| && (events != [] ==> Collapse(events) != [])
    ensures events != [] ==> Collapse(events)[|Collapse(events)| - 1] == events[|events| - 1]
  {
    var n := |events|;
    if n >= 2 {
      CollapseKeeps(events[..n - 1]);
      assert events == events[..n - 1] + [events[n - 1]];
    }
  }

  /** Only the second path holds Rejected, and only as its last entry. */
  lemma {:induction false} FollowsRejected(events: seq<RequestState>)
    requires Collapse(events) <= [Pending, Rejected] && events != []
    ensures RejectedRun(events)
  {
    var n := |events|;
    if n >= 2 {
      var init := events[..n - 1];
      CollapseKeeps(init);
      CollapseKeeps(events);
      assert |Collapse(events)| == 2 && events[n - 1] == Rejected;
      assert Collapse(init) <= Collapse(events);
      FollowsRejected(init);
      assert events[1..] == init[1..] + [Rejected];
    }
  }

  lemma FollowsLegal(events: seq<RequestState>)
    requires FollowsPath(events)
    ensures Legal(events)
  {
    if events != [] && Collapse(events) <= [Pending, Rejected] {
      FollowsRejected(events);
    } else {
      CollapseKeeps(events);
      assert Rejected !in [Pending, Approved, Started, Complete] && Rejected !in [Pending, Approved, Started, Failed];
      NothingToCollapse(events);
    }
  }

  // ---------- what was read is the status that is stored ----------

  /** Only a decision on a Pending request can have come in between. */
  predicate SameStatus(now: RequestStatus, base: RequestStatus) {
    now == base || (base.state == Pending && now.state in {Approved, Rejected})
  }

  ghost predicate StatusCurrent(w: World) {
    Holding(w.request) && w.request.key in w.store.requests ==>
      SameStatus(w.store.requests[w.request.key].status, w.request.base.status)
  }

  lemma StatusCurrentCall(w: World)
    requires RequestPcInv(w) && StatusCurrent(w)
    ensures StatusCurrent(RequestCall(w, Ok))
  {
    if Reads(w.request) {
      ReadsKeepStore(w, Ok);
      StatusCurrentRead(w);
    } else if w.request.ReqFinish? {
      StatusCurrentFinish(w);
    }
  }

  lemma StatusCurrentRead(w: World)
    requires StatusCurrent(w) && Reads(w.request)
    ensures var pc := RequestCall(w, Ok).request;
            Holding(pc) && pc.key in w.store.requests ==> SameStatus(w.store.requests[pc.key].status, pc.base.status)
  {
    if w.request.ReqGetAgain? && w.request.key in w.store.requests {
      var r := w.store.requests[w.request.key];
      NextFinishHolds(w.request.key, r, r.status, w.request.conditions);
    }
  }

  lemma StatusCurrentFinish(w: World)
    requires RequestPcInv(w) && StatusCurrent(w) && w.request.ReqFinish?
    ensures StatusCurrent(CallFinish(w, Ok))
  {
    var ReqFinish(k, base, st, rest) := w.request;
    NextFinishHolds(k, base, st, rest);
    if k in w.store.requests {
      NextFinishHolds(k, UpdateRequestStatus(w.store, k, base, st, Ok).requests[k], st, rest);
    }
  }

  /** Whoever is not the request worker changes a status only by a decision, from Pending. */
  ghost predicate OnlyDecides(w: World, w': World, k: Key) {
    k in w'.store.requests ==>
      if k in w.store.requests then
        var now, before := w'.store.requests[k].status, w.store.requests[k].status;
        now == before || (before.state == Pending && now.state in {Approved, Rejected})
      else k !in w.log.requestSpecs && w'.store.requests[k].status == EMPTY_STATUS
  }

  lemma OthersOnlyDecide(w: World, s: Step, k: Key)
    requires Inv(w) && Enabled(w, s) && !s.CallRequest?
    ensures OnlyDecides(w, Apply(w, s), k) && Events(Apply(w, s), k) == Events(w, k)
    ensures k in w.log.requestSpecs ==> k in Apply(w, s).log.requestSpecs
  {
    hide ReviewCall, Environment, RequestPcInv, HistoryInv, StoreInv, ReviewPcInv;
    if s.CallReview? {
      ReviewCallFootprint(w, s.o);
      ReviewOnlyDecides(w, s.o, k);
    } else if OfEnvironment(s) {
      EnvironmentKeeps(w, s);
      EnvironmentNames(w, s);
    }
  }

  lemma ReviewOnlyDecides(w: World, o: Outcome, k: Key)
    requires ReviewPcInv(w)
    ensures OnlyDecides(w, ReviewCall(w, o), k)
  {
    hide TwoPersons;
    ReviewCallFootprint(w, o);
    if !w.review.RevDecide? {
      OtherReviewCall(w, o);
    } else if RequestWriteLands(w.store, Target(w.review.key, w.review.review.spec), w.review.base, o) {
      DecisionLanding(w, o);
    }
  }

  lemma EnvironmentNames(w: World, s: Step)
    requires StoreInv(w) && Enabled(w, s) && OfEnvironment(s)
    ensures forall k :: k in Environment(w, s).store.requests && k !in w.store.requests ==> k !in w.log.requestSpecs
    ensures w.log.requestSpecs.Keys <= Environment(w, s).log.requestSpecs.Keys
  {
    LaterStep(w, s);
    assert forall k :: k in Environment(w, s).store.requests ==> RequestEvolves(w, Environment(w, s), k);
  }

  lemma PcUnlessCall(w: World, s: Step)
    requires Enabled(w, s) && !s.CallRequest?
    ensures Apply(w, s).request == w.request || !Holding(Apply(w, s).request)
  {
    hide ReviewCall;
    if s.CallReview? {
      ReviewCallFootprint(w, s.o);
    }
  }

  lemma StatusCurrentStep(w: World, s: Step)
    requires Inv(w) && StatusCurrent(w) && Enabled(w, s) && Truthful(w, s)
    ensures StatusCurrent(Apply(w, s))
  {
    hide Apply, StoreInv, HistoryInv, RequestPcInv, ReviewPcInv, Steady;
    if s.CallRequest? {
      CallApplies(w);
      StatusCurrentCall(w);
    } else {
      PcUnlessCall(w, s);
      if Holding(w.request) {
        OthersOnlyDecide(w, s, w.request.key);
        HoldingIsKnown(w);
      }
    }
  }

  lemma CallApplies(w: World)
    requires !w.request.ReqIdle?
    ensures Apply(w, CallRequest(Ok)) == RequestCall(w, Ok)
  {
  }

  lemma HoldingIsKnown(w: World)
    requires RequestPcInv(w) && Holding(w.request)
    ensures w.request.key in w.log.requestSpecs
  {
  }

  // ---------- while every record was followed by its write ----------

  predicate Working(w: World, k: Key) {
    Holding(w.request) && w.request.key == k
  }

  /** The events of a request in the middle of a reconcile. */
  predicate EventsDuring(pc: RequestPc, events: seq<RequestState>)
    requires Holding(pc)
  {
    if pc.ReqCreateJob? then events == [Pending, Approved]
    else if pc.ReqFinish? then EventsAt(pc.st.state, events)
    else if pc.ReqSetState? && pc.st.state == Started then events == APPROVED_RUN
    else if pc.ReqSetState? && pc.st.state == Pending && Undecided(pc.base.status.state) then events == [Pending]
    else
      || EventsAt(pc.base.status.state, events)
      || (pc.ReqSetState? && pc.st.state == Malformed && pc.base.status.state == Approved && events == [Pending, Approved])
  }

  ghost predicate Kept(w: World, k: Key) {
    && Legal(Events(w, k))
    && (k !in w.log.requestSpecs ==> Events(w, k) == [])
    && (if Working(w, k) then EventsDuring(w.request, Events(w, k))
        else k in w.store.requests ==> EventsAt(w.store.requests[k].status.state, Events(w, k)))
  }

  // ---------- after a record whose write was refused ----------

  /** The reconcile has recorded the event that goes with its write. */
  predicate HasRecorded(pc: RequestPc, events: seq<RequestState>) {
    || pc.ReqFinish?
    || (pc.ReqSetState? && pc.st.state == Started)
    || (pc.ReqSetState? && pc.st.state == Pending && pc.base.status.state == NoState)
    || (pc.ReqSetState? && pc.st.state == Malformed && pc.base.status.state == Approved
        && events != [] && events[|events| - 1] == Approved)
  }

  /** This step's status write is refused although its event is recorded. */
  predicate LosesRecord(w: World, s: Step, k: Key) {
    && s.CallRequest? && Working(w, k) && HasRecorded(w.request, Events(w, k))
    && !RequestCurrent(w.store, k, w.request.base)
  }

  predicate LostLog(events: seq<RequestState>) {
    || events == [Pending] || events == [Pending, Approved] || events == APPROVED_RUN
    || events == APPROVED_RUN + [Complete] || events == APPROVED_RUN + [Failed]
  }

  /** The states in which the last event is recorded, but its state not stored; or the request has left the path. */
  predicate LostState(state: RequestState, events: seq<RequestState>) {
    && LostLog(events)
    && (state == Malformed
        || (if |events| == 1 then state == NoState
            else if |events| <= 3 then state in {Approved, Conflicted}
            else state in {Started, Complete, Failed}))
  }

  predicate LostDuring(pc: RequestPc, events: seq<RequestState>)
    requires Holding(pc)
  {
    if pc.ReqFinish? then LostLog(events) && |events| == 4
    else
      && !pc.ReqCreateJob? && LostState(pc.base.status.state, events)
      && (pc.ReqSetState? ==> pc.st.state != Started && (pc.st.state == Pending ==> pc.base.status.state != NoState))
  }

  ghost predicate Lost(w: World, k: Key) {
    && LostLog(Events(w, k)) && k in w.log.requestSpecs
    && (k in w.store.requests ==> LostState(w.store.requests[k].status.state, Events(w, k)))
    && (Working(w, k) ==> LostDuring(w.request, Events(w, k)))
  }

  lemma LostIsLegal(events: seq<RequestState>)
    requires LostLog(events)
    ensures Legal(events)
  {
  }

  /** The next record repeats, or comes too late. */
  lemma TooMany(events: seq<RequestState>, more: RequestState)
    requires LostLog(events)
    requires |events| == 1 ==> more == Pending
    requires 2 <= |events| <= 3 ==> more == Approved
    ensures !Legal(events + [more])
  {
    var after := events + [more];
    assert after[0] == Pending;
    if |events| == 1 {
      assert after[1..][0] == Pending;
    } else {
      assert after[1..][0] == Approved;
      if |events| == 2 {
        assert after[2] == Approved;
      } else if |events| == 3 {
        assert after[3] == Approved;
      }
    }
  }

  lemma IllegalStays(events: seq<RequestState>, events': seq<RequestState>)
    requires !Legal(events) && events <= events'
    ensures !Legal(events')
  {
    if events != [] {
      assert forall i :: 0 <= i < |events| - 1 ==> events'[1..][i] == events[1..][i];
    }
  }

  lemma RecordedElsewhere(events: map<Key, seq<RequestState>>, k: Key, more: seq<RequestState>)
    ensures forall q :: q != k ==> EventsOf(Recorded(events, k, more), q) == EventsOf(events, q)
    ensures EventsOf(Recorded(events, k, more), k) == EventsOf(events, k) + more
  {
  }

  // ---------- a call on another request ----------

  lemma CallElsewhere(w: World, k: Key)
    requires w.request.ReqIdle? || w.request.key != k
    ensures var w' := RequestCall(w, Ok);
            && Events(w', k) == Events(w, k) && !Working(w', k) && w'.log.requestSpecs == w.log.requestSpecs
            && (k in w'.store.requests <==> k in w.store.requests)
            && (k in w.store.requests ==> w'.store.requests[k] == w.store.requests[k])
  {
    if w.request.ReqGetAgain? && w.request.key in w.store.requests {
      var r := w.store.requests[w.request.key];
      NextFinishHolds(w.request.key, r, r.status, w.request.conditions);
    } else if w.request.ReqFinish? {
      var ReqFinish(q, base, st, rest) := w.request;
      NextFinishHolds(q, base, st, rest);
      if q in w.store.requests {
        NextFinishHolds(q, UpdateRequestStatus(w.store, q, base, st, Ok).requests[q], st, rest);
      }
    }
  }

  lemma KeptElsewhere(w: World, w': World, k: Key)
    requires Kept(w, k) && Events(w', k) == Events(w, k) && OnlyDecides(w, w', k)
    requires k in w.log.requestSpecs ==> k in w'.log.requestSpecs
    requires Working(w', k) ==> w'.request == w.request
    requires !Working(w', k) ==> !Working(w, k)
    ensures Kept(w', k)
  {
    hide Legal;
    assert [Pending][1..] == [];
  }

  lemma LostElsewhere(w: World, w': World, k: Key)
    requires Lost(w, k) && Events(w', k) == Events(w, k) && OnlyDecides(w, w', k)
    requires k in w.log.requestSpecs ==> k in w'.log.requestSpecs
    requires Working(w', k) ==> w'.request == w.request
    ensures Lost(w', k)
  {
  }

  // ---------- a call on the request, while every record was followed by its write ----------

  lemma EventsAtLegal(state: RequestState, events: seq<RequestState>)
    requires EventsAt(state, events)
    ensures Legal(events)
  {
  }

  /** A status that was only decided meanwhile goes with the same events. */
  lemma IdleEvents(now: RequestStatus, base: RequestStatus, events: seq<RequestState>)
    requires SameStatus(now, base) && EventsAt(base.state, events)
    ensures EventsAt(now.state, events)
  {
    assert [Pending][1..] == [];
  }

  ghost predicate ListedEvents(k: Key, base: JobRequest, next: Next, events: seq<RequestState>) {
    var after := events + next.events;
    && Legal(after)
    && (Holding(next.pc) ==> next.pc.key == k && EventsDuring(next.pc, after))
    && (!Holding(next.pc) ==> EventsAt(base.status.state, after))
  }

  lemma EventsListed(k: Key, base: JobRequest, t: Job, listed: Listed, events: seq<RequestState>)
    requires EventsAt(base.status.state, events) && !Terminal(base.status.state) && !listed.ListFailed?
    ensures ListedEvents(k, base, AfterListReviews(k, base, t, listed), events)
  {
    hide Legal, ListedEvents, EventsAt;
    EventsAtLegal(base.status.state, events);
    if listed.ListEmpty? {
      EventsListedEmpty(k, base, t, events);
    } else if base.status.state == Rejected {
      EventsRejected(k, base, t, events);
    } else {
      EventsListedSome(k, base, t, events);
    }
  }

  lemma EventsListedEmpty(k: Key, base: JobRequest, t: Job, events: seq<RequestState>)
    requires EventsAt(base.status.state, events) && Legal(events)
    ensures ListedEvents(k, base, AfterListReviews(k, base, t, ListEmpty), events)
  {
    hide RejectedRun;
    assert events + [] == events;
    assert [Pending] + [] == [Pending];
    assert [] + [Pending] == [Pending];
  }

  lemma EventsRejected(k: Key, base: JobRequest, t: Job, events: seq<RequestState>)
    requires EventsAt(base.status.state, events) && base.status.state == Rejected
    ensures ListedEvents(k, base, AfterListReviews(k, base, t, ListNonEmpty), events)
  {
    assert (events + [Rejected])[1..] == events[1..] + [Rejected];
  }

  lemma EventsListedSome(k: Key, base: JobRequest, t: Job, events: seq<RequestState>)
    requires EventsAt(base.status.state, events) && Legal(events) && base.status.state != Rejected
    ensures ListedEvents(k, base, AfterListReviews(k, base, t, ListNonEmpty), events)
  {
    hide RejectedRun, Legal;
    assert events + [] == events;
  }

  lemma KeptAfterGet(w: World)
    requires w.request.ReqGet? && Kept(w, w.request.key) && RequestsOk(w)
    ensures Kept(CallGet(w, Ok), w.request.key)
  {
    hide Legal, UserOf;
  }

  lemma KeptAfterListTargets(w: World)
    requires w.request.ReqListTargets? && Kept(w, w.request.key)
    ensures Kept(CallListTargets(w, Ok), w.request.key)
  {
    hide Legal;
  }

  lemma KeptAfterListReviews(w: World)
    requires w.request.ReqListReviews? && Kept(w, w.request.key) && RequestPcInv(w) && StatusCurrent(w)
    ensures Kept(CallListReviews(w, Ok), w.request.key)
  {
    hide Legal, EventsAt;
    var ReqListReviews(k, base, t) := w.request;
    var listed := ReviewsListed(w.store, k, Ok);
    var next := AfterListReviews(k, base, t, listed);
    var events := Events(w, k);
    RecordedElsewhere(w.log.events, k, next.events);
    EventsListed(k, base, t, listed, events);
    if k in w.store.requests && !Holding(next.pc) {
      IdleEvents(w.store.requests[k].status, base.status, events + next.events);
    }
  }

  lemma KeptAfterGetNewJob(w: World)
    requires w.request.ReqGetNewJob? && Kept(w, w.request.key) && RequestPcInv(w)
    ensures Kept(CallGetNewJob(w, Ok), w.request.key)
  {
    var ReqGetNewJob(k, base, t) := w.request;
    RecordedElsewhere(w.log.events, k, AfterGetNewJob(k, base, t, if k in w.store.jobs then Present else Absent).events);
  }

  lemma KeptAfterCreateJob(w: World)
    requires w.request.ReqCreateJob? && Kept(w, w.request.key) && RequestPcInv(w)
    ensures Kept(CallCreateJob(w, Ok), w.request.key)
  {
    var ReqCreateJob(k, base, t) := w.request;
    RecordedElsewhere(w.log.events, k, AfterCreateJob(k, base, CreateLands(w.store, k, Ok)).events);
  }

  lemma KeptAfterGetRunningJob(w: World)
    requires w.request.ReqGetRunningJob? && Kept(w, w.request.key)
    ensures Kept(CallGetRunningJob(w, Ok), w.request.key)
  {
    hide Legal;
  }

  lemma KeptAfterGetAgain(w: World)
    requires w.request.ReqGetAgain? && Kept(w, w.request.key) && RequestPcInv(w) && StatusCurrent(w)
    ensures Kept(CallGetAgain(w, Ok), w.request.key)
  {
    var ReqGetAgain(k, base, conditions) := w.request;
    if k in w.store.requests {
      var r := w.store.requests[k];
      NextFinishFirst(k, r, r.status, conditions);
      RecordedElsewhere(w.log.events, k, NextFinish(k, r, r.status, conditions).events);
    }
  }

  ghost predicate KeptOrLost(w: World, w': World, k: Key) {
    if LosesRecord(w, CallRequest(Ok), k) then Lost(w', k) && Events(w', k) == Events(w, k) else Kept(w', k)
  }

  lemma KeptAfterFinish(w: World)
    requires w.request.ReqFinish? && Kept(w, w.request.key) && RequestPcInv(w) && StatusCurrent(w)
    ensures KeptOrLost(w, CallFinish(w, Ok), w.request.key)
  {
    var ReqFinish(k, base, st, rest) := w.request;
    var s' := UpdateRequestStatus(w.store, k, base, st, Ok);
    var base' := if RequestCurrent(w.store, k, base) then s'.requests[k] else base;
    NextFinishAgain(k, base', st, rest);
    RecordedElsewhere(w.log.events, k, []);
  }

  lemma KeptAfterSetState(w: World)
    requires w.request.ReqSetState? && Kept(w, w.request.key)
    requires RequestPcInv(w) && StatusCurrent(w) && PendingWriteHarmless(w)
    ensures KeptOrLost(w, CallSetState(w, Ok), w.request.key)
  {
    var ReqSetState(k, base, st) := w.request;
    var w' := CallSetState(w, Ok);
    if k in w.store.requests {
      if RequestCurrent(w.store, k, base) {
        assert w'.store.requests[k].status == st;
      } else {
        RefusedEvents(w);
      }
    }
  }

  lemma RefusedEvents(w: World)
    requires w.request.ReqSetState? && Kept(w, w.request.key) && w.request.key in w.store.requests
    requires RequestPcInv(w) && StatusCurrent(w) && PendingWriteHarmless(w)
    requires !RequestCurrent(w.store, w.request.key, w.request.base)
    ensures KeptOrLost(w, CallSetState(w, Ok), w.request.key)
  {
    assert [Pending][1..] == [];
  }

  lemma KeptCall(w: World)
    requires Inv(w) && SteadyInv(w) && StatusCurrent(w) && !w.request.ReqIdle? && Kept(w, w.request.key)
    ensures KeptOrLost(w, RequestCall(w, Ok), w.request.key)
  {
    hide Kept, Lost, RequestPcInv, HistoryInv, ReviewPcInv, StatusCurrent, RequestsOk, CopiesOk, JobsOk;
    match w.request
    case ReqGet(_) => KeptAfterGet(w);
    case ReqDelete(_) => KeptAfterDelete(w);
    case ReqListTargets(_, _) => KeptAfterListTargets(w);
    case ReqListReviews(_, _, _) => KeptAfterListReviews(w);
    case ReqGetNewJob(_, _, _) => KeptAfterGetNewJob(w);
    case ReqCreateJob(_, _, _) => KeptAfterCreateJob(w);
    case ReqGetRunningJob(_, _) => KeptAfterGetRunningJob(w);
    case ReqGetAgain(_, _, _) => KeptAfterGetAgain(w);
    case ReqFinish(_, _, _, _) => KeptAfterFinish(w);
    case ReqSetState(_, _, _) => KeptAfterSetState(w);
  }

  lemma KeptAfterDelete(w: World)
    requires w.request.ReqDelete? && Kept(w, w.request.key)
    ensures Kept(CallDelete(w, Ok), w.request.key)
  {
    hide Legal;
  }

  // ---------- a call on the request, after a record whose write was refused ----------

  /** Nothing is recorded, or too much. */
  ghost predicate LostOrBroken(w: World, w': World, k: Key) {
    if Events(w', k) == Events(w, k) then Lost(w', k) else !Legal(Events(w', k))
  }

  lemma LostAfterRead(w: World)
    requires !w.request.ReqIdle? && Lost(w, w.request.key) && RequestPcInv(w)
    requires w.request.ReqGet? || w.request.ReqDelete? || w.request.ReqListTargets? || w.request.ReqGetRunningJob?
    ensures LostOrBroken(w, RequestCall(w, Ok), w.request.key)
  {
    hide UserOf;
  }

  lemma LostAfterListReviews(w: World)
    requires w.request.ReqListReviews? && Lost(w, w.request.key) && RequestPcInv(w)
    ensures LostOrBroken(w, CallListReviews(w, Ok), w.request.key)
  {
    var ReqListReviews(k, base, t) := w.request;
    var next := AfterListReviews(k, base, t, ReviewsListed(w.store, k, Ok));
    RecordedElsewhere(w.log.events, k, next.events);
    assert [Pending] + [] == [Pending];
    if next.events == [Pending] {
      TooMany(Events(w, k), Pending);
    }
  }

  lemma LostAfterGetNewJob(w: World)
    requires w.request.ReqGetNewJob? && Lost(w, w.request.key) && RequestPcInv(w)
    ensures LostOrBroken(w, CallGetNewJob(w, Ok), w.request.key)
  {
    var ReqGetNewJob(k, base, t) := w.request;
    var next := AfterGetNewJob(k, base, t, if k in w.store.jobs then Present else Absent);
    RecordedElsewhere(w.log.events, k, next.events);
    if next.events == [Approved] {
      TooMany(Events(w, k), Approved);
    }
  }

  lemma LostAfterGetAgain(w: World)
    requires w.request.ReqGetAgain? && Lost(w, w.request.key) && RequestPcInv(w)
    ensures LostOrBroken(w, CallGetAgain(w, Ok), w.request.key)
  {
    var ReqGetAgain(k, base, conditions) := w.request;
    if k in w.store.requests {
      var r := w.store.requests[k];
      var next := NextFinish(k, r, r.status, conditions);
      NextFinishFirst(k, r, r.status, conditions);
      RecordedElsewhere(w.log.events, k, next.events);
      if next.pc.ReqFinish? {
        TooMany(Events(w, k), next.pc.st.state);
      }
    }
  }

  lemma LostAfterFinish(w: World)
    requires w.request.ReqFinish? && Lost(w, w.request.key) && RequestPcInv(w)
    ensures LostOrBroken(w, CallFinish(w, Ok), w.request.key)
  {
    var ReqFinish(k, base, st, rest) := w.request;
    var s' := UpdateRequestStatus(w.store, k, base, st, Ok);
    var base' := if RequestCurrent(w.store, k, base) then s'.requests[k] else base;
    NextFinishAgain(k, base', st, rest);
    RecordedElsewhere(w.log.events, k, []);
  }

  lemma LostAfterSetState(w: World)
    requires w.request.ReqSetState? && Lost(w, w.request.key) && RequestPcInv(w) && PendingWriteHarmless(w)
    ensures LostOrBroken(w, CallSetState(w, Ok), w.request.key)
  {
  }

  lemma LostCall(w: World)
    requires Inv(w) && SteadyInv(w) && !w.request.ReqIdle? && Lost(w, w.request.key)
    ensures LostOrBroken(w, RequestCall(w, Ok), w.request.key)
  {
    hide LostOrBroken, RequestPcInv, HistoryInv, ReviewPcInv, StoreInv;
    match w.request
    case ReqListReviews(_, _, _) => LostAfterListReviews(w);
    case ReqGetNewJob(_, _, _) => LostAfterGetNewJob(w);
    case ReqGetAgain(_, _, _) => LostAfterGetAgain(w);
    case ReqFinish(_, _, _, _) => LostAfterFinish(w);
    case ReqSetState(_, _, _) => LostAfterSetState(w);
    case ReqCreateJob(_, _, _) =>
    case _ => LostAfterRead(w);
  }

  // ---------- one step ----------

  /** What the log of a request has been through: each record written, one whose write was refused, or a record after that. */
  datatype Phase = WellKept | OneLost | Broken

  function NextPhase(w: World, s: Step, w': World, k: Key, phase: Phase): Phase {
    match phase
    case WellKept => if LosesRecord(w, s, k) then OneLost else WellKept
    case OneLost => if Events(w', k) != Events(w, k) then Broken else OneLost
    case Broken => Broken
  }

  ghost predicate PhaseInv(w: World, k: Key, phase: Phase) {
    match phase
    case WellKept => Kept(w, k)
    case OneLost => Lost(w, k)
    case Broken => !Legal(Events(w, k))
  }

  lemma EventsGrow(w: World, s: Step, k: Key)
    requires Inv(w) && Enabled(w, s) && Truthful(w, s)
    ensures Events(w, k) <= Events(Apply(w, s), k)
  {
    hide Apply, Enabled, RequestCall, Inv, Steady;
    if s.CallRequest? {
      CallIsEnabled(w, s);
      CallApplies(w);
      if w.request.key == k {
        EventsGrowCall(w);
      } else {
        CallElsewhere(w, k);
      }
    } else {
      OthersOnlyDecide(w, s, k);
    }
  }

  lemma CallIsEnabled(w: World, s: Step)
    requires Enabled(w, s) && s.CallRequest?
    ensures !w.request.ReqIdle?
  {
  }

  lemma EventsGrowCall(w: World)
    requires !w.request.ReqIdle?
    ensures Events(w, w.request.key) <= Events(RequestCall(w, Ok), w.request.key)
  {
    hide UpdateRequestStatus, UserOf, HasReview, NextFinish;
  }

  lemma PhaseStep(w: World, s: Step, k: Key, phase: Phase)
    requires Inv(w) && SteadyInv(w) && StatusCurrent(w) && Enabled(w, s) && Truthful(w, s) && PhaseInv(w, k, phase)
    ensures PhaseInv(Apply(w, s), k, NextPhase(w, s, Apply(w, s), k, phase))
  {
    hide Apply, Enabled, Inv, SteadyInv, Steady, StatusCurrent, Legal, LosesRecord;
    EventsGrow(w, s, k);
    if phase == Broken {
      IllegalStays(Events(w, k), Events(Apply(w, s), k));
    } else if s.CallRequest? {
      CallIsEnabled(w, s);
      CallApplies(w);
      PhaseCall(w, k, phase);
    } else {
      OthersOnlyDecide(w, s, k);
      PcUnlessCall(w, s);
      LosesOnlyByCall(w, s, k);
      PhaseOthers(w, s, k, phase);
    }
  }

  lemma LosesOnlyByCall(w: World, s: Step, k: Key)
    ensures LosesRecord(w, s, k) ==> s.CallRequest? && Working(w, k)
  {
  }

  lemma PhaseCall(w: World, k: Key, phase: Phase)
    requires Inv(w) && SteadyInv(w) && StatusCurrent(w) && !w.request.ReqIdle? && PhaseInv(w, k, phase) && phase != Broken
    ensures PhaseInv(RequestCall(w, Ok), k, NextPhase(w, CallRequest(Ok), RequestCall(w, Ok), k, phase))
  {
    hide Inv, SteadyInv, StatusCurrent, Legal, LosesRecord, RequestCall, Kept, Lost;
    if w.request.key == k {
      if phase == WellKept {
        KeptCall(w);
      } else {
        LostCall(w);
      }
    } else {
      CallElsewhere(w, k);
      LosesOnlyByCall(w, CallRequest(Ok), k);
      if phase == WellKept {
        KeptElsewhere(w, RequestCall(w, Ok), k);
      } else {
        LostElsewhere(w, RequestCall(w, Ok), k);
      }
    }
  }

  lemma PhaseOthers(w: World, s: Step, k: Key, phase: Phase)
    requires Inv(w) && Enabled(w, s) && Truthful(w, s) && !s.CallRequest? && PhaseInv(w, k, phase) && phase != Broken
    requires OnlyDecides(w, Apply(w, s), k) && Events(Apply(w, s), k) == Events(w, k)
    requires k in w.log.requestSpecs ==> k in Apply(w, s).log.requestSpecs
    ensures PhaseInv(Apply(w, s), k, phase)
  {
    hide Inv, Legal, Kept, Lost, OnlyDecides, ReviewCall, Environment;
    StaysAtWork(w, s, k);
    if phase == WellKept {
      KeptElsewhere(w, Apply(w, s), k);
    } else {
      LostElsewhere(w, Apply(w, s), k);
    }
  }

  /** Without crashes a reconcile at work is only moved by its own calls. */
  lemma StaysAtWork(w: World, s: Step, k: Key)
    requires Enabled(w, s) && Truthful(w, s) && !s.CallRequest?
    ensures Working(w, k) ==> Apply(w, s).request == w.request
    ensures Working(Apply(w, s), k) ==> Apply(w, s).request == w.request
  {
    hide ReviewCall, Steady;
    if s.CallReview? {
      ReviewCallFootprint(w, s.o);
    }
  }

  // ---------- whole runs ----------

  function PhaseAt(ws: seq<World>, steps: seq<Step>, i: nat, k: Key): Phase
    requires i <= |steps| && i < |ws|
  {
    if i == 0 then WellKept else NextPhase(ws[i - 1], steps[i - 1], ws[i], k, PhaseAt(ws, steps, i - 1, k))
  }

  /** Step `j` loses a record of `k`, and step `n` makes another. */
  predicate RecordsAfterLoss(ws: seq<World>, steps: seq<Step>, j: nat, n: nat, k: Key)
    requires j < |steps| && n < |steps| && |ws| == |steps| + 1
  {
    j < n && LosesRecord(ws[j], steps[j], k) && Events(ws[n + 1], k) != Events(ws[n], k)
  }

  lemma {:induction false} PhaseMeans(ws: seq<World>, steps: seq<Step>, i: nat, k: Key)
    requires |ws| == |steps| + 1 && i < |ws|
    ensures PhaseAt(ws, steps, i, k) == WellKept <==> forall j: nat :: j < i ==> !LosesRecord(ws[j], steps[j], k)
    ensures PhaseAt(ws, steps, i, k) == Broken
            <==> exists j: nat, n: nat :: j < i && n < i && RecordsAfterLoss(ws, steps, j, n, k)
    decreases i
  {
    hide LosesRecord;
    if i > 0 {
      PhaseMeans(ws, steps, i - 1, k);
      BrokenNext(ws, steps, i, k);
    }
  }

  lemma BrokenNext(ws: seq<World>, steps: seq<Step>, i: nat, k: Key)
    requires |ws| == |steps| + 1 && 0 < i < |ws|
    ensures (exists j: nat, n: nat :: j < i && n < i && RecordsAfterLoss(ws, steps, j, n, k))
            <==> (exists j: nat, n: nat :: j < i - 1 && n < i - 1 && RecordsAfterLoss(ws, steps, j, n, k))
                 || (Events(ws[i], k) != Events(ws[i - 1], k) && exists j: nat :: j < i - 1 && LosesRecord(ws[j], steps[j], k))
  {
    hide LosesRecord;
    forall j: nat | j < i - 1 && LosesRecord(ws[j], steps[j], k) && Events(ws[i], k) != Events(ws[i - 1], k)
      ensures RecordsAfterLoss(ws, steps, j, i - 1, k)
    {
    }
  }

  lemma NothingRecordedInitially(w: World, k: Key)
    requires w == InitialWorld(w.store.ttl, w.store.now)
    ensures StatusCurrent(w) && Kept(w, k)
  {
  }

  lemma {:induction false} PhaseAlways(ws: seq<World>, steps: seq<Step>, i: nat, k: Key)
    requires TruthfulRun(ws, steps) && i < |ws|
    ensures Inv(ws[i]) && SteadyInv(ws[i]) && StatusCurrent(ws[i]) && PhaseInv(ws[i], k, PhaseAt(ws, steps, i, k))
    decreases i
  {
    hide Inv, SteadyInv, Enabled, Apply, Steady, StatusCurrent, Kept, NextPhase;
    assert SteadyRun(ws, steps);
    SteadyAlways(ws, steps, i);
    if i == 0 {
      NothingRecordedInitially(ws[0], k);
    } else {
      PhaseAlways(ws, steps, i - 1, k);
      StatusCurrentStep(ws[i - 1], steps[i - 1]);
      PhaseStep(ws[i - 1], steps[i - 1], k, PhaseAt(ws, steps, i - 1, k));
    }
  }

  /** Without fault or crash, and with any edits of labels: the Normal events of a request follow the path of states exactly
      until one is recorded after another whose status write was refused. */
  lemma EventLogExactly(ws: seq<World>, steps: seq<Step>, i: nat, k: Key)
    requires TruthfulRun(ws, steps) && i < |ws|
    ensures FollowsPath(Events(ws[i], k))
            <==> !exists j: nat, n: nat :: j < i && n < i && RecordsAfterLoss(ws, steps, j, n, k)
  {
    hide Inv, SteadyInv, Enabled, Apply, Truthful, StatusCurrent, RecordsAfterLoss, LosesRecord, FollowsPath, Legal, PhaseAt;
    PhaseAlways(ws, steps, i, k);
    PhaseMeans(ws, steps, i, k);
    if PhaseAt(ws, steps, i, k) == OneLost {
      LostIsLegal(Events(ws[i], k));
    }
    if Legal(Events(ws[i], k)) {
      LegalFollows(Events(ws[i], k));
    } else if FollowsPath(Events(ws[i], k)) {
      FollowsLegal(Events(ws[i], k));
    }
  }

  // ---------- a request that is gone ----------

  /** It is deleted, and no reconcile is going to record anything on it. */
  ghost predicate Silent(w: World, k: Key) {
    k in w.log.requestSpecs && k !in w.store.requests && (Working(w, k) ==> w.request.ReqFinish?)
  }

  lemma SilentStep(w: World, s: Step, k: Key)
    requires Inv(w) && Enabled(w, s) && Truthful(w, s) && Silent(w, k)
    ensures Silent(Apply(w, s), k) && Events(Apply(w, s), k) == Events(w, k)
  {
    hide Apply, Enabled, Inv, Steady;
    if s.CallRequest? {
      CallIsEnabled(w, s);
      CallApplies(w);
      if w.request.key == k {
        SilentCall(w);
      } else {
        CallElsewhere(w, k);
      }
    } else {
      OthersOnlyDecide(w, s, k);
      StaysAtWork(w, s, k);
    }
  }

  lemma SilentCall(w: World)
    requires Inv(w) && !w.request.ReqIdle? && Silent(w, w.request.key)
    ensures var w' := RequestCall(w, Ok); Silent(w', w.request.key) && Events(w', w.request.key) == Events(w, w.request.key)
  {
    hide StoreInv, HistoryInv, ReviewPcInv;
    if w.request.ReqFinish? {
      var ReqFinish(k, base, st, rest) := w.request;
      NextFinishAgain(k, base, st, rest);
    }
  }

  lemma {:induction false} SilentOver(ws: seq<World>, steps: seq<Step>, i: nat, n: nat, k: Key)
    requires TruthfulRun(ws, steps) && i <= n < |ws| && Silent(ws[i], k)
    ensures Silent(ws[n], k) && Events(ws[n], k) == Events(ws[i], k)
    decreases n - i
  {
    hide Apply, Enabled, Inv, Steady, Silent;
    if i < n {
      SilentOver(ws, steps, i, n - 1, k);
      InvAlways(ws, steps, n - 1);
      SilentStep(ws[n - 1], steps[n - 1], k);
    }
  }
}
