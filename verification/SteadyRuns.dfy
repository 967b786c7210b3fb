/** Steady executions: the reviews of a decided request are listed without failure, and the review behind a decision is
    stored for as long as the request. */
module SteadyRuns {
  import opened Wrappers
  import opened Resources
  import opened Protocol
  import opened Invariants
  import opened Frames
  import opened Interference

  // ---------- what steadiness keeps ----------

  ghost predicate UndecidedHaveNone(w: World) {
    forall k :: k in w.store.requests && Undecided(w.store.requests[k].status.state) ==>
      LastDecision(w.log.decisions, k).None?
  }

  ghost predicate OneDecisionEach(ds: seq<DecisionRecord>) {
    forall i, j :: 0 <= i < j < |ds| ==> ds[i].request != ds[j].request
  }

  /** Whoever decided a stored request is stored. */
  ghost predicate ReviewsOutlive(w: World) {
    forall d :: d in w.log.decisions && d.request in w.store.requests ==> d.review in w.store.reviews
  }

  /** The request reconciler writes Pending only over an undecided status, or in vain. */
  ghost predicate PendingWriteHarmless(w: World) {
    w.request.ReqSetState? && w.request.st.state == Pending && w.request.key in w.store.requests ==>
      Undecided(w.request.base.status.state)
  }

  ghost predicate SteadyInv(w: World) {
    UndecidedHaveNone(w) && OneDecisionEach(w.log.decisions) && ReviewsOutlive(w) && PendingWriteHarmless(w)
  }

  lemma DecidedHasReview(w: World, k: Key)
    requires HistoryInv(w) && ReviewsOutlive(w) && k in w.store.requests
    requires exists d :: d in w.log.decisions && d.request == k
    requires CopiesOk(w)
    ensures HasReview(w.store, k)
  {
    hide TwoPersons, StatusTruthful, ReviewTruthful;
    var d :| d in w.log.decisions && d.request == k;
    assert DecisionOk(w, d);
    assert CopyOk(w, d.review, w.store.reviews[d.review]);
  }

  // ---------- the request reconciler ----------

  lemma HarmlessAfterListReviews(w: World, o: Outcome)
    requires Inv(w) && SteadyInv(w) && w.request.ReqListReviews?
    requires Undecided(w.request.base.status.state) || o.Ok?
    ensures PendingWriteHarmless(CallListReviews(w, o))
  {
    hide TwoPersons, StatusTruthful, ReviewTruthful, RequestsOk, CopiesOk, JobsOk;
    var base := w.request.base;
    if w.request.key in w.store.requests && !Undecided(base.status.state) {
      assert Decided(w.log, w.request.key, Approve) || Decided(w.log, w.request.key, Reject);
      DecidedHasReview(w, w.request.key);
    }
  }

  lemma HarmlessCall(w: World, o: Outcome)
    requires Inv(w) && SteadyInv(w) && Steady(w, CallRequest(o))
    ensures PendingWriteHarmless(RequestCall(w, o))
  {
    hide HistoryInv, StoreInv, SteadyInv, ReviewPcInv;
    if w.request.ReqListReviews? {
      HarmlessAfterListReviews(w, o);
    } else {
      NoOtherPendingWrite(w, o);
    }
  }

  /** A status write that lands, seen as a change of one status. */
  lemma RequestWriteEffect(w: World, o: Outcome)
    requires RequestPcInv(w) && (w.request.ReqSetState? || w.request.ReqFinish?)
    ensures var w' := RequestCall(w, o); var k := w.request.key;
            && w'.log.decisions == w.log.decisions
            && w'.store.requests.Keys == w.store.requests.Keys
            && (forall q :: q in w.store.requests && q != k ==> w'.store.requests[q] == w.store.requests[q])
            && (k in w.store.requests && w'.store.requests[k] != w.store.requests[k] ==>
                  w.store.requests[k].status == w.request.base.status && w'.store.requests[k].status == w.request.st)
  {
    assert RequestCall(w, o).store == UpdateRequestStatus(w.store, w.request.key, w.request.base, w.request.st, o);
  }

  lemma UndecidedHaveNoneCall(w: World, o: Outcome)
    requires Inv(w) && SteadyInv(w)
    ensures UndecidedHaveNone(RequestCall(w, o))
  {
    hide RequestCall, TwoPersons, StoreInv, HistoryInv;
    var w' := RequestCall(w, o);
    if w.request.ReqSetState? || w.request.ReqFinish? {
      RequestWriteEffect(w, o);
      WriteKeepsUndecided(w, w');
    } else {
      OtherRequestCall(w, o);
      RequestCallFootprint(w, o);
    }
  }

  lemma WriteKeepsUndecided(w: World, w': World)
    requires RequestPcInv(w) && SteadyInv(w) && (w.request.ReqSetState? || w.request.ReqFinish?)
    requires w'.log.decisions == w.log.decisions && w'.store.requests.Keys == w.store.requests.Keys
    requires forall q :: q in w.store.requests && q != w.request.key ==> w'.store.requests[q] == w.store.requests[q]
    requires w.request.key in w.store.requests && w'.store.requests[w.request.key] != w.store.requests[w.request.key] ==>
               && w.store.requests[w.request.key].status == w.request.base.status
               && w'.store.requests[w.request.key].status == w.request.st
    ensures UndecidedHaveNone(w')
  {
  }

  lemma SteadyInvRequestCall(w: World, o: Outcome)
    requires Inv(w) && SteadyInv(w) && Steady(w, CallRequest(o))
    ensures SteadyInv(RequestCall(w, o))
  {
    hide RequestCall, Inv;
    RequestCallFootprint(w, o);
    HarmlessCall(w, o);
    UndecidedHaveNoneCall(w, o);
  }

  // ---------- the review reconciler ----------

  lemma DecisionKeepsSingle(w: World, w': World, d: DecisionRecord)
    requires SteadyInv(w) && d.request in w.store.requests && Undecided(w.store.requests[d.request].status.state)
    requires w'.log.decisions == w.log.decisions + [d]
    ensures OneDecisionEach(w'.log.decisions)
  {
    LastDecisionIsDecision(w.log.decisions, d.request);
    assert forall e :: e in w.log.decisions ==> e.request != d.request;
    assert forall i :: 0 <= i < |w.log.decisions| ==> w.log.decisions[i] in w.log.decisions;
  }

  lemma DecisionKeepsNone(w: World, w': World, d: DecisionRecord)
    requires UndecidedHaveNone(w) && d.request in w.store.requests
    requires w'.log.decisions == w.log.decisions + [d]
    requires w'.store.requests == w.store.requests[d.request := WithDecision(w.store.requests[d.request], d)]
    ensures UndecidedHaveNone(w')
  {
    forall k | k in w'.store.requests && Undecided(w'.store.requests[k].status.state)
      ensures LastDecision(w'.log.decisions, k).None?
    {
      LastDecisionAppend(w.log.decisions, d, k);
    }
  }

  lemma SteadyDecide(w: World, o: Outcome)
    requires ReviewPcInv(w) && SteadyInv(w) && w.review.RevDecide?
    ensures UndecidedHaveNone(CallDecide(w, o)) && OneDecisionEach(CallDecide(w, o).log.decisions)
  {
    hide TwoPersons;
    var target := Target(w.review.key, w.review.review.spec);
    if RequestWriteLands(w.store, target, w.review.base, o) {
      DecisionLanding(w, o);
      var d := DecisionRecord(target, w.review.key, w.review.review.spec.decision, w.store.rv + 1);
      DecisionKeepsSingle(w, CallDecide(w, o), d);
      DecisionKeepsNone(w, CallDecide(w, o), d);
    }
  }

  lemma SteadyInvReviewCall(w: World, o: Outcome)
    requires Inv(w) && SteadyInv(w)
    requires Steady(w, CallReview(o))
    ensures SteadyInv(ReviewCall(w, o))
  {
    hide HistoryInv, RequestPcInv, TwoPersons;
    var w' := ReviewCall(w, o);
    ReviewCallFootprint(w, o);
    if w.review.RevDecide? {
      SteadyDecide(w, o);
    } else {
      OtherReviewCall(w, o);
    }
    OutliveReviewCall(w, o);
  }

  lemma OnlyDeleteRemoves(w: World, o: Outcome, v: Key)
    requires v in w.store.reviews && v !in ReviewCall(w, o).store.reviews
    ensures RemovesReview(w, CallReview(o), v)
  {
    assert w.review.RevDecide? ==> ReviewCall(w, o).store.reviews == w.store.reviews;
  }

  /** A review that decided a stored request is not removed by a steady step. */
  lemma DeciderStays(w: World, s: Step, d: DecisionRecord)
    requires CopiesOk(w) && HistoryInv(w) && Steady(w, s)
    requires d in w.log.decisions && d.request in w.store.requests && d.review in w.store.reviews
    ensures !RemovesReview(w, s, d.review)
  {
    hide TwoPersons, StatusTruthful, ReviewTruthful;
    assert DecisionOk(w, d);
    assert CopyOk(w, d.review, w.store.reviews[d.review]);
  }

  lemma OutliveReviewCall(w: World, o: Outcome)
    requires CopiesOk(w) && HistoryInv(w) && ReviewPcInv(w) && ReviewsOutlive(w) && Steady(w, CallReview(o))
    ensures ReviewsOutlive(ReviewCall(w, o))
  {
    hide ReviewCall, CopiesOk, HistoryInv, ReviewPcInv, Steady, RemovesReview;
    var w' := ReviewCall(w, o);
    ReviewCallFootprint(w, o);
    forall d | d in w'.log.decisions && d.request in w'.store.requests
      ensures d.review in w'.store.reviews
    {
      if d in w.log.decisions {
        DeciderStays(w, CallReview(o), d);
        if d.review !in w'.store.reviews {
          OnlyDeleteRemoves(w, o, d.review);
        }
      } else {
        NewDeciderStored(w, o, d);
      }
    }
  }

  lemma NewDeciderStored(w: World, o: Outcome, d: DecisionRecord)
    requires ReviewPcInv(w) && Steady(w, CallReview(o))
    requires d !in w.log.decisions && d in ReviewCall(w, o).log.decisions
    ensures d.review in ReviewCall(w, o).store.reviews
  {
    hide TwoPersons;
    if LandsDecision(w, CallReview(o)) {
      DecisionLanding(w, o);
    } else if !w.review.RevDecide? {
      OtherReviewCall(w, o);
    }
  }

  // ---------- the environment ----------

  lemma SteadyInvEnvironment(w: World, s: Step)
    requires Inv(w) && SteadyInv(w) && Enabled(w, s) && OfEnvironment(s) && Steady(w, s)
    ensures SteadyInv(Environment(w, s))
  {
    hide TwoPersons, ReviewPcInv;
    var w' := Environment(w, s);
    EnvironmentKeeps(w, s);
    LaterStep(w, s);
    forall k | k in w'.store.requests && Undecided(w'.store.requests[k].status.state)
      ensures LastDecision(w'.log.decisions, k).None?
    {
      if k !in w.store.requests {
        assert RequestEvolves(w, w', k);
        LastDecisionIsDecision(w.log.decisions, k);
      }
    }
    OutliveEnvironment(w, s);
    HarmlessEnvironment(w, w');
  }

  lemma HarmlessEnvironment(w: World, w': World)
    requires PendingWriteHarmless(w) && RequestPcInv(w) && Later(w, w') && w'.request == w.request
    ensures PendingWriteHarmless(w')
  {
    if w.request.ReqSetState? && w.request.key in w'.store.requests {
      assert RequestEvolves(w, w', w.request.key);
    }
  }

  lemma OutliveEnvironment(w: World, s: Step)
    requires StoreInv(w) && HistoryInv(w) && ReviewsOutlive(w) && Enabled(w, s) && OfEnvironment(s) && Steady(w, s)
    ensures ReviewsOutlive(Environment(w, s))
  {
    hide TwoPersons, StatusTruthful, ReviewTruthful, Steady, RequestsOk, JobsOk, CopyOk;
    var w' := Environment(w, s);
    forall d | d in w'.log.decisions && d.request in w'.store.requests
      ensures d.review in w'.store.reviews
    {
      assert DecisionOk(w, d);
      assert d.request in w.store.requests;
      DeciderStays(w, s, d);
    }
  }

  // ---------- every step ----------

  lemma SteadyInvStep(w: World, s: Step)
    requires Inv(w) && SteadyInv(w) && Enabled(w, s) && Steady(w, s)
    ensures SteadyInv(Apply(w, s))
  {
    hide Inv, RequestCall, ReviewCall;
    if s.CallRequest? {
      SteadyInvRequestCall(w, s.o);
    } else if s.CallReview? {
      SteadyInvReviewCall(w, s.o);
    } else if OfEnvironment(s) {
      SteadyInvEnvironment(w, s);
    }
  }

  lemma SteadyInvInitially(w: World)
    requires w == InitialWorld(w.store.ttl, w.store.now)
    ensures SteadyInv(w)
  {
  }

  lemma {:induction false} SteadyAlways(ws: seq<World>, steps: seq<Step>, i: nat)
    requires SteadyRun(ws, steps) && i < |ws|
    ensures Inv(ws[i]) && SteadyInv(ws[i])
  {
    hide Inv, SteadyInv, Enabled, Apply, Steady;
    InvAlways(ws, steps, i);
    if i == 0 {
      SteadyInvInitially(ws[0]);
    } else {
      SteadyAlways(ws, steps, i - 1);
      SteadyInvStep(ws[i - 1], steps[i - 1]);
    }
  }

  // ---------- a single effective decision ----------

  /** At most one review's decision ever takes effect on a request. */
  lemma SingleDecision(ws: seq<World>, steps: seq<Step>, i: nat, d: DecisionRecord, e: DecisionRecord)
    requires SteadyRun(ws, steps) && i < |ws|
    requires d in ws[i].log.decisions && e in ws[i].log.decisions && d.request == e.request
    ensures d == e
  {
    SteadyAlways(ws, steps, i);
  }

  /** The states a request can be in once decided. */
  predicate FollowsDecision(verdict: Decision, state: RequestState) {
    if verdict.Approve? then state in {Approved, Started, Complete, Failed, Conflicted, Malformed}
    else state in {Rejected, Malformed}
  }

  lemma DecidedStatus(w: World, d: DecisionRecord)
    requires HistoryInv(w) && SteadyInv(w)
    requires d in w.log.decisions && d.request in w.store.requests
    ensures w.store.requests[d.request].status.reviewName == d.review.name
    ensures FollowsDecision(d.verdict, w.store.requests[d.request].status.state)
  {
    hide TwoPersons, ReviewTruthful;
    LastDecisionIsDecision(w.log.decisions, d.request);
    assert StatusTruthful(w.log, d.request, w.store.requests[d.request].status);
    assert LastDecision(w.log.decisions, d.request) == Some(d);
  }

  /** Once a decision is in, the review name and the verdict stay for as long as the request lives. */
  lemma DecisionIsFinal(ws: seq<World>, steps: seq<Step>, i: nat, j: nat, d: DecisionRecord)
    requires SteadyRun(ws, steps) && i <= j < |ws|
    requires d in ws[i].log.decisions && d.request in ws[j].store.requests
    ensures ws[j].store.requests[d.request].status.reviewName == d.review.name
    ensures FollowsDecision(d.verdict, ws[j].store.requests[d.request].status.state)
  {
    hide Apply, Enabled, Steady, SteadyInv, StoreInv, RequestPcInv, ReviewPcInv, HistoryInv;
    LaterOver(ws, steps, i, j);
    SteadyAlways(ws, steps, j);
    DecidedStatus(ws[j], d);
  }

  /** Every other review of the request that reaches a state lost, unless its own request write was refused. */
  lemma OtherReviewsLose(ws: seq<World>, steps: seq<Step>, i: nat, d: DecisionRecord, v: Key)
    requires SteadyRun(ws, steps) && i < |ws| && d in ws[i].log.decisions
    requires v in ws[i].store.reviews && v != d.review
    requires v.ns == d.request.ns && ws[i].store.reviews[v].spec.jobRequestName == d.request.name
    ensures ws[i].store.reviews[v].state in {NoReviewState, ReviewConflict, ReviewMalformed, ReviewNotFound}
            || v in ws[i].log.refused
  {
    SteadyAlways(ws, steps, i);
    LosingReview(ws[i], d, v);
  }

  lemma LosingReview(w: World, d: DecisionRecord, v: Key)
    requires StoreInv(w) && HistoryInv(w) && SteadyInv(w) && d in w.log.decisions
    requires v in w.store.reviews && v != d.review && Target(v, w.store.reviews[v].spec) == d.request
    ensures w.store.reviews[v].state in {NoReviewState, ReviewConflict, ReviewMalformed, ReviewNotFound}
            || v in w.log.refused
  {
    hide TwoPersons, StatusTruthful, RequestsOk, JobsOk;
    assert CopyOk(w, v, w.store.reviews[v]);
    assert ReviewTruthful(w.log, v, w.store.reviews[v].state);
    forall e | e in w.log.decisions && e.review == v
      ensures e == d
    {
      assert DecisionOk(w, e);
    }
    assert forall verdict: Decision :: ReviewStateOf(verdict) == w.store.reviews[v].state ==> v in w.log.refused;
    assert ReviewStateOf(Approve) == ReviewApproved && ReviewStateOf(Reject) == ReviewRejected;
  }

  // ---------- rejection is final ----------

  /** After a rejection the controller never creates a Job for the request, and never did. */
  lemma RejectionIsFinal(ws: seq<World>, steps: seq<Step>, i: nat, j: nat, d: DecisionRecord)
    requires SteadyRun(ws, steps) && i < |ws| && j < |ws|
    requires d in ws[i].log.decisions && d.verdict == Reject
    ensures d.request !in ws[j].log.creations
    ensures i <= j && d.request in ws[j].store.requests ==>
              ws[j].store.requests[d.request].status.state in {Rejected, Malformed}
  {
    hide Apply, Enabled, Steady, SteadyInv, StoreInv, RequestPcInv, ReviewPcInv, HistoryInv;
    var last := if i <= j then j else i;
    LaterOver(ws, steps, i, last);
    LaterOver(ws, steps, j, last);
    SteadyAlways(ws, steps, last);
    NotCreated(ws[last], d);
    if i <= j && d.request in ws[j].store.requests {
      DecidedStatus(ws[j], d);
    }
  }

  lemma NotCreated(w: World, d: DecisionRecord)
    requires HistoryInv(w) && SteadyInv(w) && d in w.log.decisions && d.verdict == Reject
    ensures d.request !in w.log.creations
  {
    hide TwoPersons, StatusTruthful, ReviewTruthful;
    assert !Decided(w.log, d.request, Approve);
  }
}
