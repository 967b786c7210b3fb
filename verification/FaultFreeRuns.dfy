/** Steady executions without faults or crashes: when a Conflicted state is honest, and an event log that follows the
    states. */
module FaultFreeRuns {
  import opened Resources
  import opened Protocol
  import opened Invariants
  import opened Frames
  import opened Interference
  import opened SteadyRuns
  import opened EventLogs

  // ---------- what was read is what is stored ----------

  /** Only a decision on a Pending request can have come in between. */
  ghost predicate CurrentAt(s: Store, k: Key, base: JobRequest) {
    k in s.requests ==>
      || s.requests[k] == base
      || (base.status.state == Pending && s.requests[k].status.state in {Approved, Rejected})
  }

  ghost predicate Current(w: World) {
    Holding(w.request) ==> CurrentAt(w.store, w.request.key, w.request.base)
  }

  lemma CurrentCall(w: World)
    requires RequestPcInv(w) && Current(w)
    ensures Current(RequestCall(w, Ok))
  {
    if Reads(w.request) {
      ReadsKeepStore(w, Ok);
      CurrentRead(w);
    } else if w.request.ReqFinish? {
      CurrentFinish(w);
    }
  }

  lemma CurrentFinish(w: World)
    requires RequestPcInv(w) && Current(w) && w.request.ReqFinish?
    ensures Current(CallFinish(w, Ok))
  {
    var ReqFinish(k, base, st, rest) := w.request;
    var s' := UpdateRequestStatus(w.store, k, base, st, Ok);
    var base' := if k in w.store.requests then s'.requests[k] else base;
    NextFinishHolds(k, base', st, rest);
  }

  lemma CurrentRead(w: World)
    requires Current(w) && Reads(w.request)
    ensures Holding(RequestCall(w, Ok).request) ==>
              CurrentAt(w.store, RequestCall(w, Ok).request.key, RequestCall(w, Ok).request.base)
  {
    if w.request.ReqGetAgain? && w.request.key in w.store.requests {
      var r := w.store.requests[w.request.key];
      NextFinishHolds(w.request.key, r, r.status, w.request.conditions);
    }
  }

  lemma CurrentReviewCall(w: World, o: Outcome)
    requires ReviewPcInv(w) && Current(w)
    ensures Current(ReviewCall(w, o))
  {
    hide TwoPersons;
    ReviewCallFootprint(w, o);
    if !w.review.RevDecide? {
      OtherReviewCall(w, o);
    } else if RequestWriteLands(w.store, Target(w.review.key, w.review.review.spec), w.review.base, o) {
      DecisionLanding(w, o);
    }
  }

  lemma CurrentEnvironment(w: World, s: Step)
    requires RequestPcInv(w) && Current(w) && Enabled(w, s) && OfEnvironment(s)
    requires s.TouchRequest? && Holding(w.request) ==> s.k != w.request.key
    ensures Current(Environment(w, s))
  {
  }

  lemma CurrentStep(w: World, s: Step)
    requires Inv(w) && Current(w) && Enabled(w, s) && FaultFree(w, s)
    ensures Current(Apply(w, s))
  {
    hide StoreInv, HistoryInv, RequestPcInv, ReviewPcInv, Steady;
    if s.CallRequest? {
      CurrentCall(w);
    } else if s.CallReview? {
      CurrentReviewCall(w, s.o);
    } else if OfEnvironment(s) {
      CurrentEnvironment(w, s);
    }
  }

  // ---------- the controller's own Jobs ----------

  ghost predicate StartedWrite(pc: RequestPc, k: Key) {
    pc.ReqSetState? && pc.key == k && pc.st.state == Started
  }

  /** This step's Started write is refused, as its reading is no longer current. */
  predicate RefusesStarted(w: World, s: Step) {
    && s.CallRequest? && w.request.ReqSetState? && w.request.st.state == Started
    && !RequestCurrent(w.store, w.request.key, w.request.base)
  }

  function Refused(w: World, s: Step): set<Key> {
    if RefusesStarted(w, s) then {w.request.key} else {}
  }

  /** The requests whose Started write was refused so far. */
  function RefusedBefore(ws: seq<World>, steps: seq<Step>, i: nat): set<Key>
    requires i <= |steps| && i <= |ws|
  {
    if i == 0 then {} else RefusedBefore(ws, steps, i - 1) + Refused(ws[i - 1], steps[i - 1])
  }

  // In what follows, `bad` are the requests whose Started write was refused.

  /** A request whose Job the controller made is Started or later, or about to be. */
  ghost predicate CreatedMovesOn(w: World, bad: set<Key>) {
    forall k :: k in w.log.creations && k in w.store.requests && k !in bad ==>
      || w.store.requests[k].status.state in {Started, Complete, Failed, Malformed}
      || (w.store.requests[k].status.state == Approved && StartedWrite(w.request, k))
  }

  ghost predicate ConflictedHonest(w: World, bad: set<Key>) {
    forall k :: k in w.store.requests && w.store.requests[k].status.state == Conflicted && k !in bad ==>
      k !in w.log.creations && k in w.log.foreignJobs
  }

  /** While it works on an Approved reading, the reconciler has not created the Job yet. */
  ghost predicate NotYetCreated(w: World, bad: set<Key>) {
    Holding(w.request) && w.request.key !in bad ==>
      && (w.request.base.status.state == Approved && !StartedWrite(w.request, w.request.key) ==>
            w.request.key !in w.log.creations)
      && (w.request.ReqSetState? && w.request.st.state == Conflicted ==> w.request.key in w.log.foreignJobs)
  }

  ghost predicate CreationInv(w: World, bad: set<Key>) {
    CreatedMovesOn(w, bad) && ConflictedHonest(w, bad) && NotYetCreated(w, bad)
  }

  lemma NotYetCreatedCall(w: World, bad: set<Key>)
    requires Inv(w) && CreationInv(w, bad)
    ensures NotYetCreated(RequestCall(w, Ok), bad)
  {
    hide JobsOk, RequestsOk, CopiesOk, HistoryInv, ReviewPcInv, RequestPcInv, CreationInv, UpdateRequestStatus;
    if w.request.ReqFinish? {
      PcAfterFinish(w, Ok);
      NotYetCreatedLater(CallFinish(w, Ok), bad);
    } else if w.request.ReqGetAgain? {
      PcAfterGetAgain(w, Ok);
      NotYetCreatedLater(CallGetAgain(w, Ok), bad);
    } else {
      NotYetCreatedOther(w, bad);
    }
  }

  /** The condition loop is past every Approved reading. */
  lemma NotYetCreatedLater(w: World, bad: set<Key>)
    requires RequestPcInv(w)
    requires w.request.ReqIdle? || w.request.ReqFinish?
    ensures NotYetCreated(w, bad)
  {
  }

  lemma NotYetCreatedOther(w: World, bad: set<Key>)
    requires RequestPcInv(w) && JobsOk(w) && CreationInv(w, bad)
    requires !w.request.ReqFinish? && !w.request.ReqGetAgain?
    ensures NotYetCreated(RequestCall(w, Ok), bad)
  {
  }

  lemma CreatedMovesOnWrite(w: World, bad: set<Key>)
    requires RequestPcInv(w) && CreationInv(w, bad) && PendingWriteHarmless(w)
    requires w.request.ReqSetState? || w.request.ReqFinish?
    ensures var w' := RequestCall(w, Ok); var bad' := bad + Refused(w, CallRequest(Ok));
            CreatedMovesOn(w', bad') && ConflictedHonest(w', bad')
  {
    hide RequestCall, UpdateRequestStatus, Seen, Backed, ConflictedHonest;
    ConflictedHonestWrite(w, bad);
    RequestWriteEffect(w, Ok);
    WriteKeepsJobs(w);
  }

  lemma ConflictedHonestWrite(w: World, bad: set<Key>)
    requires RequestPcInv(w) && CreationInv(w, bad) && PendingWriteHarmless(w)
    requires w.request.ReqSetState? || w.request.ReqFinish?
    ensures ConflictedHonest(RequestCall(w, Ok), bad + Refused(w, CallRequest(Ok)))
  {
    hide RequestCall, UpdateRequestStatus, Seen, Backed, CreatedMovesOn;
    RequestWriteEffect(w, Ok);
    WriteKeepsJobs(w);
  }

  /** A status write creates nothing; and a current one puts its status into the store. */
  lemma WriteKeepsJobs(w: World)
    requires w.request.ReqSetState? || w.request.ReqFinish?
    ensures var w' := RequestCall(w, Ok); var k := w.request.key;
            && w'.log.creations == w.log.creations && w'.log.foreignJobs == w.log.foreignJobs
            && !w'.request.ReqSetState?
            && (RequestCurrent(w.store, k, w.request.base) ==>
                  k in w'.store.requests && w'.store.requests[k].status == w.request.st)
  {
  }

  lemma CreatedMovesOnOther(w: World, bad: set<Key>)
    requires RequestPcInv(w) && CreationInv(w, bad)
    requires !w.request.ReqSetState? && !w.request.ReqFinish?
    ensures CreatedMovesOn(RequestCall(w, Ok), bad) && ConflictedHonest(RequestCall(w, Ok), bad)
  {
    if w.request.ReqCreateJob? {
    } else {
      OtherRequestCall(w, Ok);
      RequestCallFootprint(w, Ok);
    }
  }

  lemma CreationInvCall(w: World, bad: set<Key>)
    requires Inv(w) && CreationInv(w, bad) && SteadyInv(w)
    ensures CreationInv(RequestCall(w, Ok), bad + Refused(w, CallRequest(Ok)))
  {
    hide StoreInv, HistoryInv, RequestPcInv, ReviewPcInv, CreatedMovesOn, ConflictedHonest, NotYetCreated, RequestCall;
    var bad' := bad + Refused(w, CallRequest(Ok));
    NotYetCreatedCall(w, bad);
    NotYetCreatedMore(RequestCall(w, Ok), bad, bad');
    if w.request.ReqSetState? || w.request.ReqFinish? {
      CreatedMovesOnWrite(w, bad);
    } else {
      CreatedMovesOnOther(w, bad);
      assert bad' == bad;
    }
  }

  lemma NotYetCreatedMore(w: World, bad: set<Key>, bad': set<Key>)
    requires NotYetCreated(w, bad) && bad <= bad'
    ensures NotYetCreated(w, bad')
  {
  }

  lemma CreationInvDecision(w: World, w': World, d: DecisionRecord, bad: set<Key>)
    requires CreationInv(w, bad) && w'.request == w.request
    requires d.request in w.store.requests && w.store.requests[d.request].status.state == Pending
    requires w'.store.requests == w.store.requests[d.request := WithDecision(w.store.requests[d.request], d)]
    requires w'.log.creations == w.log.creations && w'.log.foreignJobs == w.log.foreignJobs
    ensures CreationInv(w', bad)
  {
  }

  lemma CreationInvReviewCall(w: World, o: Outcome, bad: set<Key>)
    requires ReviewPcInv(w) && CreationInv(w, bad)
    ensures CreationInv(ReviewCall(w, o), bad)
  {
    hide TwoPersons;
    ReviewCallFootprint(w, o);
    if !w.review.RevDecide? {
      OtherReviewCall(w, o);
    } else if RequestWriteLands(w.store, Target(w.review.key, w.review.review.spec), w.review.base, o) {
      DecisionLanding(w, o);
      var d := DecisionRecord(Target(w.review.key, w.review.review.spec), w.review.key,
                              w.review.review.spec.decision, w.store.rv + 1);
      CreationInvDecision(w, ReviewCall(w, o), d, bad);
    }
  }

  lemma CreationInvEnvironment(w: World, s: Step, bad: set<Key>)
    requires StoreInv(w) && HistoryInv(w) && CreationInv(w, bad) && Enabled(w, s) && OfEnvironment(s)
    ensures CreationInv(Environment(w, s), bad)
  {
    hide Environment, HistoryInv, CopiesOk, JobsOk, RequestsOk;
    var w' := Environment(w, s);
    EnvironmentKeeps(w, s);
    LaterStep(w, s);
    forall k | k in w'.store.requests && k !in w.store.requests
      ensures k !in w'.log.creations
    {
      assert RequestEvolves(w, w', k);
      CreatedWasKnown(w, k);
    }
  }

  lemma CreatedWasKnown(w: World, k: Key)
    requires HistoryInv(w) && k !in w.log.requestSpecs
    ensures k !in w.log.creations
  {
    hide TwoPersons, StatusTruthful, ReviewTruthful;
    assert forall d :: d in w.log.decisions ==> DecisionOk(w, d);
  }

  lemma CreationInvStep(w: World, s: Step, bad: set<Key>)
    requires Inv(w) && SteadyInv(w) && CreationInv(w, bad) && Enabled(w, s) && Truthful(w, s)
    ensures CreationInv(Apply(w, s), bad + Refused(w, s))
  {
    hide StoreInv, HistoryInv, RequestPcInv, ReviewPcInv, Steady, SteadyInv, RequestCurrent;
    if s.CallRequest? {
      CreationInvCall(w, bad);
    } else {
      assert bad + Refused(w, s) == bad;
      if s.CallReview? {
        CreationInvReviewCall(w, s.o, bad);
      } else if OfEnvironment(s) {
        CreationInvEnvironment(w, s, bad);
      }
    }
  }

  lemma NothingCreatedInitially(w: World)
    requires w == InitialWorld(w.store.ttl, w.store.now)
    ensures CreationInv(w, {})
  {
  }

  lemma {:induction false} TruthfulAlways(ws: seq<World>, steps: seq<Step>, i: nat)
    requires TruthfulRun(ws, steps) && i < |ws|
    ensures Inv(ws[i]) && SteadyInv(ws[i]) && CreationInv(ws[i], RefusedBefore(ws, steps, i))
    ensures forall k :: k in RefusedBefore(ws, steps, i) ==> k in ws[i].log.creations
    decreases i
  {
    hide Inv, SteadyInv, Enabled, Apply, Steady, CreationInv, RefusesStarted;
    assert SteadyRun(ws, steps);
    SteadyAlways(ws, steps, i);
    if i == 0 {
      NothingCreatedInitially(ws[0]);
    } else {
      TruthfulAlways(ws, steps, i - 1);
      CreationInvStep(ws[i - 1], steps[i - 1], RefusedBefore(ws, steps, i - 1));
      LaterOver(ws, steps, i - 1, i);
      RefusedIsCreated(ws[i - 1], steps[i - 1]);
    }
  }

  lemma RefusedIsCreated(w: World, s: Step)
    requires Inv(w)
    ensures forall k :: k in Refused(w, s) ==> k in w.log.creations
  {
    hide StoreInv, HistoryInv, ReviewPcInv;
  }

  /** Without fault or crash, and with any edits of labels: a Conflicted request is so over a Job of the controller's own
      exactly when its Started write was refused before; otherwise somebody else created the Job. */
  lemma HonestConflicted(ws: seq<World>, steps: seq<Step>, i: nat, k: Key)
    requires TruthfulRun(ws, steps) && i < |ws| && StateIs(ws[i].store, k, Conflicted)
    ensures k in ws[i].log.creations
            <==> exists j: nat :: j < i && RefusesStarted(ws[j], steps[j]) && ws[j].request.key == k
    ensures k in ws[i].log.creations || k in ws[i].log.foreignJobs
  {
    hide Inv, SteadyInv, RefusesStarted, Apply, Enabled, Truthful;
    TruthfulAlways(ws, steps, i);
    RefusedAt(ws, steps, i, k);
  }

  lemma {:induction false} RefusedAt(ws: seq<World>, steps: seq<Step>, i: nat, k: Key)
    requires i <= |steps| && i <= |ws|
    ensures k in RefusedBefore(ws, steps, i)
            <==> exists j: nat :: j < i && RefusesStarted(ws[j], steps[j]) && ws[j].request.key == k
    decreases i
  {
    hide RefusesStarted;
    if i > 0 {
      RefusedAt(ws, steps, i - 1, k);
    }
  }

  // ---------- the event log without edits during a reconcile ----------

  lemma {:induction false} CurrentAlways(ws: seq<World>, steps: seq<Step>, i: nat)
    requires FaultFreeRun(ws, steps) && i < |ws|
    ensures Inv(ws[i]) && Current(ws[i])
    decreases i
  {
    hide Inv, Enabled, Apply, Steady, Current;
    InvAlways(ws, steps, i);
    if i == 0 {
      NobodyHoldsInitially(ws[0]);
    } else {
      CurrentAlways(ws, steps, i - 1);
      CurrentStep(ws[i - 1], steps[i - 1]);
    }
  }

  lemma NobodyHoldsInitially(w: World)
    requires w == InitialWorld(w.store.ttl, w.store.now)
    ensures Current(w)
  {
  }

  /** Such a write is only refused because the request is gone. */
  lemma LosesOnlyTheGone(w: World, s: Step, k: Key)
    requires Inv(w) && Current(w) && Enabled(w, s) && Truthful(w, s) && LosesRecord(w, s, k)
    ensures Silent(Apply(w, s), k)
  {
    hide StoreInv, HistoryInv, ReviewPcInv, Steady;
    CallApplies(w);
    if w.request.ReqFinish? {
      var ReqFinish(_, base, st, rest) := w.request;
      NextFinishAgain(k, base, st, rest);
    }
  }

  /** The recorded Normal events follow the state path, whatever the interleaving. */
  lemma EventLogFollowsStates(ws: seq<World>, steps: seq<Step>, i: nat, k: Key)
    requires FaultFreeRun(ws, steps) && i < |ws|
    ensures var log := Collapse(Events(ws[i], k));
            log <= [Pending, Approved, Started, Complete]
            || log <= [Pending, Approved, Started, Failed]
            || log <= [Pending, Rejected]
  {
    hide Inv, Enabled, Apply, Steady, Current, LosesRecord, Silent;
    assert TruthfulRun(ws, steps);
    EventLogExactly(ws, steps, i, k);
    forall j: nat, n: nat | j < i && n < i
      ensures !RecordsAfterLoss(ws, steps, j, n, k)
    {
      if RecordsAfterLoss(ws, steps, j, n, k) {
        CurrentAlways(ws, steps, j);
        LosesOnlyTheGone(ws[j], steps[j], k);
        SilentOver(ws, steps, j + 1, n, k);
        SilentOver(ws, steps, j + 1, n + 1, k);
      }
    }
  }
}
