/** Exactly when the decision of a review takes effect, in every execution; the review is marked with it either way. */
module DecisionMoves {
  import opened Resources
  import opened Protocol
  import opened Invariants
  import opened Frames
  import opened Interference
  import opened Safety
  import opened StatusMoves

  lemma OthersKeepReviewPc(w: World, s: Step)
    requires Enabled(w, s) && !OfReviewWorker(s)
    ensures Apply(w, s).review == w.review
  {
    hide RequestCall;
    if s.CallRequest? {
      RequestCallFootprint(w, s.o);
    }
  }

  lemma {:induction false} ReviewPcStays(ws: seq<World>, steps: seq<Step>, m: nat, i: nat)
    requires Execution(ws, steps) && m <= i < |ws|
    requires forall q :: m <= q < i ==> !OfReviewWorker(steps[q])
    ensures ws[i].review == ws[m].review
    decreases i - m
  {
    hide Apply, Enabled;
    if m < i {
      ReviewPcStays(ws, steps, m, i - 1);
      OthersKeepReviewPc(ws[i - 1], steps[i - 1]);
    }
  }

  /** What a step of anybody but the review reconciler makes of a Pending request. */
  ghost predicate PendingMoves(w: World, s: Step, w': World, k: Key)
    requires k in w.store.requests && k in w'.store.requests
  {
    if s == TouchRequest(k) then StateIs(w'.store, k, Pending) && w'.store.requests[k].version == w.store.rv + 1
    else
      || w'.store.requests[k] == w.store.requests[k]
      || (StateIs(w'.store, k, Malformed) && w'.store.requests[k].version == w.store.rv + 1)
  }

  lemma PendingStep(w: World, s: Step, k: Key)
    requires Inv(w) && Enabled(w, s) && !OfReviewWorker(s)
    requires StateIs(w.store, k, Pending) && k in Apply(w, s).store.requests
    ensures PendingMoves(w, s, Apply(w, s), k)
  {
    hide RequestCall, Environment, RequestPcInv, ReviewPcInv, HistoryInv, CopiesOk, JobsOk, RequestsOk;
    if s.CallRequest? {
      PendingCall(w, s.o, k);
    } else if OfEnvironment(s) {
      EnvironmentEdits(w, s, k);
      EnvironmentKeeps(w, s);
    }
  }

  lemma PendingCall(w: World, o: Outcome, k: Key)
    requires RequestPcInv(w) && StateIs(w.store, k, Pending) && k in RequestCall(w, o).store.requests
    ensures PendingMoves(w, CallRequest(o), RequestCall(w, o), k)
  {
    if w.request.ReqSetState? || w.request.ReqFinish? {
      assert RequestCall(w, o).store == UpdateRequestStatus(w.store, w.request.key, w.request.base, w.request.st, o);
    } else {
      OtherRequestCall(w, o);
    }
  }

  /** The request as the review controller read it, or moved on since. */
  ghost predicate ReadOrMoved(w: World, k: Key, base: JobRequest, edited: bool) {
    && k in w.store.requests && base.version <= w.store.requests[k].version
    && (if StateIs(w.store, k, Pending) then
          if edited then base.version < w.store.requests[k].version else w.store.requests[k] == base
        else Terminal(w.store.requests[k].status.state) && base.version < w.store.requests[k].version)
  }

  lemma ReadOrMovedStep(w: World, s: Step, k: Key, base: JobRequest, edited: bool)
    requires Inv(w) && Enabled(w, s) && !OfReviewWorker(s) && ReadOrMoved(w, k, base, edited)
    requires k in Apply(w, s).store.requests
    ensures ReadOrMoved(Apply(w, s), k, base, edited || s == TouchRequest(k))
  {
    hide Apply, Enabled, RequestPcInv, ReviewPcInv, HistoryInv, CopiesOk, JobsOk;
    LaterStep(w, s);
    assert RequestEvolves(w, Apply(w, s), k);
    if StateIs(w.store, k, Pending) {
      PendingStep(w, s, k);
    } else {
      TerminalStep(w, s, k);
    }
  }

  lemma {:induction false} ReadOrMovedOver(ws: seq<World>, steps: seq<Step>, m: nat, n: nat, k: Key, base: JobRequest)
    requires Execution(ws, steps) && m <= n < |ws| && ReadOrMoved(ws[m], k, base, false) && k in ws[n].store.requests
    requires forall q :: m <= q < n ==> !OfReviewWorker(steps[q])
    ensures ReadOrMoved(ws[n], k, base, exists q :: m <= q < n && steps[q] == TouchRequest(k))
    decreases n - m
  {
    hide Inv, Apply, Enabled, ReadOrMoved;
    if m < n {
      ReadOrMovedKeeps(ws[m], k, base);
      StaysStored(ws, steps, m, n - 1, n, k);
      ReadOrMovedOver(ws, steps, m, n - 1, k, base);
      InvAlways(ws, steps, n - 1);
      var edited := exists q :: m <= q < n - 1 && steps[q] == TouchRequest(k);
      ReadOrMovedStep(ws[n - 1], steps[n - 1], k, base, edited);
      assert (exists q :: m <= q < n && steps[q] == TouchRequest(k)) <==> edited || steps[n - 1] == TouchRequest(k);
    }
  }

  lemma ReadOrMovedKeeps(w: World, k: Key, base: JobRequest)
    requires ReadOrMoved(w, k, base, false)
    ensures k in w.store.requests
  {
  }

  lemma FoundPending(w: World, o: Outcome)
    requires w.review.RevFindRequest? && CallFindRequest(w, o).review.RevDecide?
    ensures var pc := CallFindRequest(w, o).review; var k := Target(pc.key, pc.review.spec);
            ReadOrMoved(CallFindRequest(w, o), k, pc.base, false)
  {
    hide UserOf;
  }

  /** The decision of a review takes effect exactly when the call does, the request is still Pending, and nobody has edited
      its labels since it was read; and the next thing the review controller does is to mark the review, in any case. */
  lemma DecisionLandsExactly(ws: seq<World>, steps: seq<Step>, m: nat, i: nat)
    requires Execution(ws, steps) && m < i < |steps|
    requires ws[m].review.RevFindRequest? && steps[m].CallReview?
    requires forall q :: m < q < i ==> !OfReviewWorker(steps[q])
    requires ws[i].review.RevDecide? && steps[i].CallReview?
    ensures var RevDecide(v, review, _, _) := ws[i].review; var k := Key(v.ns, review.spec.jobRequestName);
            && (LandsDecision(ws[i], steps[i])
                <==> && !steps[i].o.Fault? && StateIs(ws[i].store, k, Pending)
                     && forall q :: m < q < i ==> steps[q] != TouchRequest(k))
            && ws[i + 1].review
               == RevSetState(v, review, match review.spec.decision case Approve => ReviewApproved case Reject => ReviewRejected)
            && (if LandsDecision(ws[i], steps[i])
                then StateIs(ws[i + 1].store, k, match review.spec.decision case Approve => Approved case Reject => Rejected)
                else ws[i + 1].store.requests == ws[i].store.requests)
  {
    hide Enabled, CallFindRequest, ReadOrMoved, CallDecide, LandsDecision, StoreInv, HistoryInv, RequestPcInv, ReviewPcInv;
    var RevDecide(v, review, base, _) := ws[i].review;
    var k := Target(v, review.spec);
    ReviewPcStays(ws, steps, m + 1, i);
    FoundPending(ws[m], steps[m].o);
    if k in ws[i].store.requests {
      ReadOrMovedOver(ws, steps, m + 1, i, k, base);
      LandsOnRead(ws[i], steps[i], exists q :: m + 1 <= q < i && steps[q] == TouchRequest(k));
    } else {
      NothingToLandOn(ws[i], steps[i]);
    }
    InvAlways(ws, steps, i);
    MarksEitherWay(ws[i], steps[i].o);
  }

  lemma LandsOnRead(w: World, s: Step, edited: bool)
    requires w.review.RevDecide? && s.CallReview?
    requires ReadOrMoved(w, Target(w.review.key, w.review.review.spec), w.review.base, edited)
    ensures LandsDecision(w, s)
            <==> !s.o.Fault? && StateIs(w.store, Target(w.review.key, w.review.review.spec), Pending) && !edited
  {
  }

  lemma NothingToLandOn(w: World, s: Step)
    requires w.review.RevDecide? && Target(w.review.key, w.review.review.spec) !in w.store.requests
    ensures !LandsDecision(w, s)
  {
  }

  lemma MarksEitherWay(w: World, o: Outcome)
    requires Inv(w) && w.review.RevDecide?
    ensures var RevDecide(v, review, _, _) := w.review; var w' := CallDecide(w, o);
            && w'.review == RevSetState(v, review, ReviewStateOf(review.spec.decision))
            && (if LandsDecision(w, CallReview(o)) then
                  StateIs(w'.store, Target(v, review.spec), RequestStateOf(review.spec.decision))
                else w'.store.requests == w.store.requests)
  {
    hide TwoPersons, StoreInv, HistoryInv, RequestPcInv;
    if LandsDecision(w, CallReview(o)) {
      DecisionLanding(w, o);
    }
  }
}
