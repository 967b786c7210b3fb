/** Safety over whole executions, whatever the interleaving: faults, crashes, stale caches and deletions included. */
module Safety {
  import opened Resources
  import opened Protocol
  import opened PlainTerms
  import opened Invariants
  import opened Frames
  import opened Interference

  // ---------- the two-person rule ----------

  /** This verdict on the request was given by a review that names it in its own namespace and says so, by another person
      than the requester. */
  ghost predicate GivenByAnother(w: World, k: Key, d: DecisionRecord, verdict: Decision) {
    && d in w.log.decisions && d.request == k && d.verdict == verdict
    && k in w.log.requestSpecs && d.review in w.log.reviewSpecs
    && var review := w.log.reviewSpecs[d.review];
    && d.review.ns == k.ns && review.jobRequestName == k.name && review.decision == verdict
    && TwoUsers(w.log.requestSpecs[k].requestedBy, review.reviewedBy)
  }

  /** The request was Pending, and now has the decision and the name of its review. */
  ghost predicate TakesDecision(r: JobRequest, r': JobRequest, d: DecisionRecord) {
    && r.status.state == Pending
    && r'.status.state == (match d.verdict case Approve => Approved case Reject => Rejected)
    && r' == r.(version := d.at, status := r.status.(state := r'.status.state, reviewName := d.review.name))
  }

  /** This step wrote the decision to the stored request. */
  ghost predicate WritesDecision(w: World, w': World, d: DecisionRecord) {
    && d.request in w.store.requests && d.request in w'.store.requests
    && TakesDecision(w.store.requests[d.request], w'.store.requests[d.request], d)
  }

  /** Whenever the controller brings a Job into being, an earlier step of the review reconciler had written an approval
      to the request, for a review of it by another person than the requester. */
  lemma TwoPersonRule(ws: seq<World>, steps: seq<Step>, i: nat, k: Key) returns (d: DecisionRecord, j: nat)
    requires Execution(ws, steps) && i < |steps|
    requires steps[i].CallRequest? && k !in ws[i].store.jobs && k in ws[i + 1].store.jobs
    ensures GivenByAnother(ws[i], k, d, Approve)
    ensures j < i && steps[j].CallReview? && WritesDecision(ws[j], ws[j + 1], d)
  {
    hide Apply, Enabled, Inv, GivenByAnother;
    InvAlways(ws, steps, i);
    CreatesJob(ws, steps, i, k);
    d := CreatingIsApproved(ws[i]);
    j := DecisionWasWritten(ws, steps, i, d);
  }

  lemma CreatesJob(ws: seq<World>, steps: seq<Step>, i: nat, k: Key)
    requires Execution(ws, steps) && i < |steps|
    requires steps[i].CallRequest? && k !in ws[i].store.jobs && k in ws[i + 1].store.jobs
    ensures ws[i].request.ReqCreateJob? && ws[i].request.key == k
  {
    hide Enabled, RequestCall;
    JobsOnlyFromCreate(ws[i], steps[i].o, k);
  }

  lemma CreatingIsApproved(w: World) returns (d: DecisionRecord)
    requires Inv(w) && w.request.ReqCreateJob?
    ensures GivenByAnother(w, w.request.key, d, Approve) && d in w.log.decisions
  {
    hide TwoPersons, StoreInv, ReviewPcInv;
    var k := w.request.key;
    assert Backed(w.log, k, w.request.base.status);
    d :| d in w.log.decisions && d.request == k && d.verdict == Approve;
    DecisionIsByAnother(w, d);
  }

  lemma DecisionIsByAnother(w: World, d: DecisionRecord)
    requires HistoryInv(w) && d in w.log.decisions
    ensures GivenByAnother(w, d.request, d, d.verdict)
  {
    hide UserOf, TwoPersons, TwoUsers, StatusTruthful, ReviewTruthful;
    assert DecisionOk(w, d);
    UsersAreCompared(w.log.requestSpecs[d.request], w.log.reviewSpecs[d.review]);
  }

  lemma DecisionAdded(w: World, s: Step, d: DecisionRecord)
    requires Inv(w) && Enabled(w, s) && d !in w.log.decisions && d in Apply(w, s).log.decisions
    ensures s.CallReview? && WritesDecision(w, Apply(w, s), d)
  {
    hide RequestCall, ReviewCall, HistoryInv, TwoPersons, RequestPcInv;
    if s.CallRequest? {
      RequestCallFootprint(w, s.o);
    } else if s.CallReview? {
      DecisionAddedByCall(w, s.o, d);
    } else if OfEnvironment(s) {
      EnvironmentKeeps(w, s);
    }
  }

  lemma DecisionAddedByCall(w: World, o: Outcome, d: DecisionRecord)
    requires ReviewPcInv(w) && d !in w.log.decisions && d in ReviewCall(w, o).log.decisions
    ensures WritesDecision(w, ReviewCall(w, o), d)
  {
    hide TwoPersons, PutRequestStatus;
    if !w.review.RevDecide? {
      OtherReviewCall(w, o);
    } else if RequestWriteLands(w.store, Target(w.review.key, w.review.review.spec), w.review.base, o) {
      DecisionLanding(w, o);
    }
  }

  /** Every recorded decision was written to its request by a step of the review reconciler. */
  lemma {:induction false} DecisionWasWritten(ws: seq<World>, steps: seq<Step>, i: nat, d: DecisionRecord) returns (j: nat)
    requires Execution(ws, steps) && i < |ws| && d in ws[i].log.decisions
    ensures j < i && steps[j].CallReview? && WritesDecision(ws[j], ws[j + 1], d)
    decreases i
  {
    hide Apply, Enabled, Inv, WritesDecision;
    if d in ws[i - 1].log.decisions {
      j := DecisionWasWritten(ws, steps, i - 1, d);
    } else {
      InvAlways(ws, steps, i - 1);
      DecisionAdded(ws[i - 1], steps[i - 1], d);
      j := i - 1;
    }
  }

  lemma JobsOnlyFromCreate(w: World, o: Outcome, k: Key)
    requires k !in w.store.jobs && k in RequestCall(w, o).store.jobs
    ensures w.request.ReqCreateJob? && w.request.key == k
  {
    if Reads(w.request) {
      ReadsKeepStore(w, o);
    }
  }

  /** Whatever a call of the review reconciler changes in a request is one decision, recorded and made from Pending. */
  ghost predicate ChangedByDecision(w: World, w': World, k: Key)
    requires k in w.store.requests && k in w'.store.requests
  {
    w'.store.requests[k] != w.store.requests[k] ==>
      exists d ::
        && w'.log.decisions == w.log.decisions + [d] && d.request == k
        && TakesDecision(w.store.requests[k], w'.store.requests[k], d)
  }

  lemma DecisionCall(w: World, o: Outcome, k: Key)
    requires ReviewPcInv(w) && k in w.store.requests
    ensures var w' := ReviewCall(w, o);
            && k in w'.store.requests && ChangedByDecision(w, w', k)
            && (w'.store.requests == w.store.requests ==> w'.log.decisions == w.log.decisions)
  {
    hide TwoPersons;
    if !w.review.RevDecide? {
      OtherReviewCall(w, o);
    } else if RequestWriteLands(w.store, Target(w.review.key, w.review.review.spec), w.review.base, o) {
      DecisionLanding(w, o);
    }
  }

  /** The review reconciler touches a request only by a recorded decision, made from Pending; and records no other. */
  lemma DecisionsAreTheWrites(ws: seq<World>, steps: seq<Step>, i: nat, k: Key)
    requires Execution(ws, steps) && i < |steps| && steps[i].CallReview?
    requires k in ws[i].store.requests
    ensures k in ws[i + 1].store.requests && ChangedByDecision(ws[i], ws[i + 1], k)
    ensures ws[i + 1].store.requests == ws[i].store.requests ==> ws[i + 1].log.decisions == ws[i].log.decisions
  {
    hide Enabled, HistoryInv, StoreInv, RequestPcInv, ReviewPcInv, ReviewCall;
    InvAlways(ws, steps, i);
    DecisionCall(ws[i], steps[i].o, k);
  }

  // ---------- terminal states ----------

  lemma StaysStored(ws: seq<World>, steps: seq<Step>, i: nat, m: nat, j: nat, k: Key)
    requires Execution(ws, steps) && i <= m <= j < |ws|
    requires k in ws[i].store.requests && k in ws[j].store.requests
    ensures k in ws[m].store.requests
  {
    hide Apply, Enabled, RequestPcInv, ReviewPcInv, HistoryInv;
    InvAlways(ws, steps, i);
    LaterOver(ws, steps, i, m);
    LaterOver(ws, steps, m, j);
    assert RequestEvolves(ws[m], ws[j], k);
  }

  lemma TerminalStepRequest(w: World, o: Outcome, k: Key)
    requires RequestPcInv(w) && k in w.store.requests && Terminal(w.store.requests[k].status.state)
    requires k in RequestCall(w, o).store.requests
    ensures RequestCall(w, o).store.requests[k].status == w.store.requests[k].status
  {
    if w.request.ReqSetState? {
    } else if w.request.ReqFinish? {
      var ReqFinish(q, base, st, _) := w.request;
      assert RequestCall(w, o).store == UpdateRequestStatus(w.store, q, base, st, o);
    } else {
      OtherRequestCall(w, o);
    }
  }

  lemma TerminalStep(w: World, s: Step, k: Key)
    requires Inv(w) && Enabled(w, s)
    requires k in w.store.requests && Terminal(w.store.requests[k].status.state)
    requires k in Apply(w, s).store.requests
    ensures Apply(w, s).store.requests[k].status == w.store.requests[k].status
  {
    if s.CallRequest? {
      TerminalStepRequest(w, s.o, k);
    } else if s.CallReview? {
      ReviewCallMovesPending(w, s.o);
    } else if OfEnvironment(s) {
      EnvironmentKeeps(w, s);
    }
  }

  /** Complete, Failed, Malformed and Conflicted never change again. */
  lemma {:induction false} TerminalAbsorbing(ws: seq<World>, steps: seq<Step>, i: nat, j: nat, k: Key)
    requires Execution(ws, steps) && i <= j < |ws|
    requires k in ws[i].store.requests && k in ws[j].store.requests
    requires ws[i].store.requests[k].status.state in {Complete, Failed, Malformed, Conflicted}
    ensures ws[j].store.requests[k].status == ws[i].store.requests[k].status
    decreases j - i
  {
    hide Inv, Apply, Enabled;
    if i < j {
      StaysStored(ws, steps, i, j - 1, j, k);
      TerminalAbsorbing(ws, steps, i, j - 1, k);
      InvAlways(ws, steps, j - 1);
      TerminalStep(ws[j - 1], steps[j - 1], k);
    }
  }

  // ---------- review states ----------

  lemma ReviewStaysStored(ws: seq<World>, steps: seq<Step>, i: nat, m: nat, j: nat, k: Key)
    requires Execution(ws, steps) && i <= m <= j < |ws|
    requires k in ws[i].store.reviews && k in ws[j].store.reviews
    ensures k in ws[m].store.reviews
  {
    hide Apply, Enabled, RequestPcInv, ReviewPcInv, HistoryInv;
    InvAlways(ws, steps, i);
    assert CopyOk(ws[i], k, ws[i].store.reviews[k]);
    LaterOver(ws, steps, i, m);
    LaterOver(ws, steps, m, j);
    assert ReviewEvolves(ws[m], ws[j], k);
  }

  lemma ReviewStateCall(w: World, o: Outcome, k: Key)
    requires StoreInv(w) && ReviewPcInv(w)
    requires k in w.store.reviews && w.store.reviews[k].state != NoReviewState
    requires k in ReviewCall(w, o).store.reviews
    ensures ReviewCall(w, o).store.reviews[k].state == w.store.reviews[k].state
  {
    hide TwoPersons, ReviewTruthful, UpdateRequestStatus, RequestsOk, JobsOk;
    if w.review.RevSetState? {
      assert CopyOk(w, w.review.key, w.review.review);
    } else if w.review.RevDecide? {
      ReviewsKept(w, o);
    }
  }

  lemma ReviewsKept(w: World, o: Outcome)
    requires w.review.RevDecide?
    ensures ReviewCall(w, o).store.reviews == w.store.reviews
  {
  }

  lemma ReviewStateStep(w: World, s: Step, k: Key)
    requires StoreInv(w) && ReviewPcInv(w) && Enabled(w, s)
    requires k in w.store.reviews && w.store.reviews[k].state != NoReviewState
    requires k in Apply(w, s).store.reviews
    ensures Apply(w, s).store.reviews[k].state == w.store.reviews[k].state
  {
    hide TwoPersons, RequestCall, ReviewCall, StoreInv, ReviewPcInv;
    if s.CallRequest? {
      RequestCallFootprint(w, s.o);
    } else if s.CallReview? {
      ReviewStateCall(w, s.o, k);
    } else if OfEnvironment(s) {
      EnvironmentKeeps(w, s);
    }
  }

  /** A review's state is written once, however old the copy the reconciler works from. */
  lemma {:induction false} ReviewWriteOnce(ws: seq<World>, steps: seq<Step>, i: nat, j: nat, k: Key)
    requires Execution(ws, steps) && i <= j < |ws|
    requires k in ws[i].store.reviews && k in ws[j].store.reviews
    requires ws[i].store.reviews[k].state != NoReviewState
    ensures ws[j].store.reviews[k].state == ws[i].store.reviews[k].state
    decreases j - i
  {
    hide Apply, Enabled, StoreInv, ReviewPcInv, RequestPcInv, HistoryInv;
    if i < j {
      ReviewStaysStored(ws, steps, i, j - 1, j, k);
      ReviewWriteOnce(ws, steps, i, j - 1, k);
      InvAlways(ws, steps, j - 1);
      ReviewStateStep(ws[j - 1], steps[j - 1], k);
    }
  }

  // ---------- statuses tell the history ----------

  /** Approved means approved, Rejected means rejected, by the review the status names; a Job name means a Job created. */
  lemma StatusMirrorsHistory(ws: seq<World>, steps: seq<Step>, i: nat, k: Key)
    requires Execution(ws, steps) && i < |ws| && k in ws[i].store.requests
    ensures var w := ws[i]; var st := w.store.requests[k].status; var last := LastDecision(w.log.decisions, k);
            && (st.HasBeenApproved() <==> st.state in {Approved, Started, Complete, Failed, Conflicted})
            && (st.HasBeenRejected() <==> st.state == Rejected)
            && (st.HasBeenReviewed() <==> st.state in {Approved, Rejected, Started, Complete, Failed, Conflicted})
            && (st.HasBeenApproved() ==> last.Some? && GivenByAnother(w, k, last.value, Approve))
            && (st.HasBeenRejected() ==> last.Some? && GivenByAnother(w, k, last.value, Reject))
            && st.reviewName == (if last.Some? then last.value.review.name else "")
            && (last.Some? ==> st.WasReviewedBy(last.value.review.name))
            && (st.state in {Started, Complete, Failed} ==> st.jobName == k.name && k in w.log.creations)
  {
    hide GivenByAnother;
    InvAlways(ws, steps, i);
    var w := ws[i];
    LastDecisionIsDecision(w.log.decisions, k);
    assert StatusTruthful(w.log, k, w.store.requests[k].status);
    var last := LastDecision(w.log.decisions, k);
    if last.Some? {
      DecisionIsByAnother(w, last.value);
    }
  }

  /** A review marked with a decision made it take effect, or had its own request write refused. */
  lemma ReviewStateMirrorsHistory(ws: seq<World>, steps: seq<Step>, i: nat, v: Key, verdict: Decision)
    requires Execution(ws, steps) && i < |ws| && v in ws[i].store.reviews
    requires ws[i].store.reviews[v].state == match verdict case Approve => ReviewApproved case Reject => ReviewRejected
    requires v !in ws[i].log.refused
    ensures exists d, j ::
              && d in ws[i].log.decisions && d.review == v && d.verdict == verdict
              && 0 <= j < i && WritesDecision(ws[j], ws[j + 1], d)
  {
    hide Enabled, Apply, StoreInv, RequestPcInv, ReviewPcInv, WritesDecision;
    InvAlways(ws, steps, i);
    assert ReviewTruthful(ws[i].log, v, ws[i].store.reviews[v].state);
    assert ws[i].store.reviews[v].state == ReviewStateOf(verdict);
    var d :| d in ws[i].log.decisions && d.review == v && d.verdict == verdict;
    var j := DecisionWasWritten(ws, steps, i, d);
  }

  // ---------- no lost decision ----------

  /** The reconcile that read `r` is on its way to a status write, or over. */
  ghost predicate StillFrom(pc: RequestPc, k: Key, r: JobRequest) {
    || pc.ReqIdle?
    || pc == ReqDelete(k)
    || (pc.ReqListTargets? && pc.key == k && pc.base == r)
    || (pc.ReqListReviews? && pc.key == k && pc.base == r)
    || (pc.ReqSetState? && pc.key == k && pc.base == r)
  }

  /** The decision is in place, at a later version than the reading. */
  ghost predicate DecisionStands(w: World, k: Key, r: JobRequest, st: RequestStatus) {
    k in w.store.requests ==> w.store.requests[k].status == st && r.version < w.store.requests[k].version
  }

  lemma StillFromStep(w: World, s: Step, k: Key, r: JobRequest)
    requires Enabled(w, s) && !s.StartRequest?
    requires StillFrom(w.request, k, r) && r.status.state in {NoState, Pending}
    ensures StillFrom(Apply(w, s).request, k, r)
  {
    if s.CallReview? {
      ReviewCallFootprint(w, s.o);
    }
  }

  lemma {:induction false} StillFromOver(ws: seq<World>, steps: seq<Step>, i: nat, n: nat, k: Key, r: JobRequest)
    requires Execution(ws, steps) && i <= n < |ws|
    requires StillFrom(ws[i].request, k, r) && r.status.state in {NoState, Pending}
    requires forall m :: i <= m < n ==> !steps[m].StartRequest?
    ensures StillFrom(ws[n].request, k, r)
    decreases n - i
  {
    hide Apply, Enabled;
    if i < n {
      StillFromOver(ws, steps, i, n - 1, k, r);
      StillFromStep(ws[n - 1], steps[n - 1], k, r);
    }
  }

  lemma DecisionStandsCall(w: World, o: Outcome, k: Key, r: JobRequest, st: RequestStatus)
    requires StillFrom(w.request, k, r) && DecisionStands(w, k, r, st)
    ensures var w' := RequestCall(w, o); forall q :: q in w'.store.requests && q == k ==>
              q in w.store.requests && w'.store.requests[q] == w.store.requests[q]
  {
    if Reads(w.request) {
      ReadsKeepStore(w, o);
    }
  }

  lemma DecisionStandsStep(w: World, s: Step, k: Key, r: JobRequest, st: RequestStatus)
    requires Inv(w) && Enabled(w, s) && StillFrom(w.request, k, r)
    requires DecisionStands(w, k, r, st) && st.state != Pending && k in w.log.requestSpecs
    ensures DecisionStands(Apply(w, s), k, r, st)
  {
    LaterStep(w, s);
    var w' := Apply(w, s);
    if k in w'.store.requests {
      assert RequestEvolves(w, w', k);
      if s.CallRequest? {
        DecisionStandsCall(w, s.o, k, r, st);
      } else if s.CallReview? {
        ReviewCallMovesPending(w, s.o);
      } else if OfEnvironment(s) {
        EnvironmentKeeps(w, s);
      }
    }
  }

  lemma {:induction false} DecisionStandsOver(ws: seq<World>, steps: seq<Step>, i: nat, j: nat,
                                              k: Key, r: JobRequest, st: RequestStatus)
    requires Execution(ws, steps) && i <= j < |ws|
    requires forall n :: i <= n <= j ==> StillFrom(ws[n].request, k, r)
    requires DecisionStands(ws[i], k, r, st) && st.state != Pending && k in ws[i].log.requestSpecs
    ensures DecisionStands(ws[j], k, r, st)
    decreases j - i
  {
    hide Inv, Apply, Enabled;
    if i < j {
      DecisionStandsOver(ws, steps, i, j - 1, k, r, st);
      InvAlways(ws, steps, j - 1);
      LaterOver(ws, steps, i, j - 1);
      DecisionStandsStep(ws[j - 1], steps[j - 1], k, r, st);
    }
  }

  /** A decision that lands between the request reconciler's read and its status write
      makes that write refused, and is still in place afterwards. */
  lemma NoLostDecision(ws: seq<World>, steps: seq<Step>, i: nat, m: nat, j: nat, k: Key)
    requires Execution(ws, steps) && i < m < j < |steps|
    // step i reads the request, undecided
    requires ws[i].request == ReqGet(k) && steps[i] == CallRequest(Ok) && k in ws[i].store.requests
    requires ws[i].store.requests[k].status.state in {NoState, Pending}
    // the same reconcile writes at step j
    requires forall n :: i < n < j ==> !steps[n].StartRequest?
    requires ws[j].request.ReqSetState? && steps[j].CallRequest?
    // step m lands a decision on the request
    requires steps[m].CallReview? && k in ws[m].store.requests && k in ws[m + 1].store.requests
    requires ws[m + 1].store.requests[k].status != ws[m].store.requests[k].status
    ensures ws[j + 1].store == ws[j].store
    ensures k in ws[j + 1].store.requests ==>
              ws[j + 1].store.requests[k].status == ws[m + 1].store.requests[k].status
  {
    hide Enabled;
    var r := ws[i].store.requests[k];
    forall n | i < n <= j
      ensures StillFrom(ws[n].request, k, r)
    {
      StillFromOver(ws, steps, i + 1, n, k, r);
    }
    DecisionLands(ws, steps, i, m, k);
    DecisionStandsOver(ws, steps, m + 1, j, k, r, ws[m + 1].store.requests[k].status);
  }

  lemma DecisionLands(ws: seq<World>, steps: seq<Step>, i: nat, m: nat, k: Key)
    requires Execution(ws, steps) && i <= m < |steps|
    requires k in ws[i].store.requests && k in ws[m].store.requests && steps[m].CallReview?
    requires k in ws[m + 1].store.requests ==> ws[m + 1].store.requests[k].status != ws[m].store.requests[k].status
    ensures k in ws[m + 1].store.requests && k in ws[m + 1].log.requestSpecs
    ensures ws[m + 1].store.requests[k].status.state != Pending
    ensures DecisionStands(ws[m + 1], k, ws[i].store.requests[k], ws[m + 1].store.requests[k].status)
  {
    hide Enabled, Apply, ReviewPcInv, RequestPcInv, HistoryInv;
    DecisionsAreTheWrites(ws, steps, m, k);
    InvAlways(ws, steps, i);
    InvAlways(ws, steps, m);
    LaterOver(ws, steps, i, m);
    LaterOver(ws, steps, m, m + 1);
    assert RequestEvolves(ws[m], ws[m + 1], k);
  }

  // ---------- one Job per request ----------

  ghost predicate Distinct(ks: seq<Key>) {
    forall i, j :: 0 <= i < j < |ks| ==> ks[i] != ks[j]
  }

  ghost predicate CreatedOnce(w: World) {
    Distinct(w.log.creations) && forall k :: k in w.log.creations ==> k in w.store.jobs
  }

  lemma CreatedOnceCall(w: World, o: Outcome)
    requires CreatedOnce(w)
    ensures CreatedOnce(RequestCall(w, o))
  {
    if Reads(w.request) {
      ReadsKeepStore(w, o);
    }
  }

  lemma CreatedOnceStep(w: World, s: Step)
    requires StoreInv(w) && Enabled(w, s) && CreatedOnce(w) && !s.DeleteJob?
    ensures CreatedOnce(Apply(w, s))
  {
    if s.CallRequest? {
      CreatedOnceCall(w, s.o);
    } else if s.CallReview? {
      ReviewCallFootprint(w, s.o);
    } else if OfEnvironment(s) {
      EnvironmentKeeps(w, s);
    }
  }

  /** The log of creations gains a request exactly when a call of the controller puts a Job of its name into the store;
      no other step changes it. */
  lemma CreationsAreTheJobs(ws: seq<World>, steps: seq<Step>, i: nat, k: Key)
    requires Execution(ws, steps) && i < |steps|
    ensures ws[i + 1].log.creations == ws[i].log.creations + [k]
            <==> steps[i].CallRequest? && k !in ws[i].store.jobs && k in ws[i + 1].store.jobs
    ensures !steps[i].CallRequest? ==> ws[i + 1].log.creations == ws[i].log.creations
  {
    hide Enabled, RequestCall, ReviewCall, Environment, StoreInv, HistoryInv, RequestPcInv, ReviewPcInv;
    if steps[i].CallRequest? {
      CreationCall(ws[i], steps[i].o, k);
    } else if steps[i].CallReview? {
      ReviewCallFootprint(ws[i], steps[i].o);
    } else if OfEnvironment(steps[i]) {
      InvAlways(ws, steps, i);
      EnvironmentKeeps(ws[i], steps[i]);
    }
  }

  lemma CreationCall(w: World, o: Outcome, k: Key)
    ensures var w' := RequestCall(w, o);
            w'.log.creations == w.log.creations + [k] <==> k !in w.store.jobs && k in w'.store.jobs
  {
    var n := |w.log.creations|;
    assert (w.log.creations + [k])[n] == k;
    assert w.request.ReqCreateJob? ==> (w.log.creations + [w.request.key])[n] == w.request.key;
    if Reads(w.request) {
      ReadsKeepStore(w, o);
    }
  }

  /** While nobody deletes Jobs, the controller creates at most one per request, and it is still there. */
  lemma {:induction false} OneJobPerRequest(ws: seq<World>, steps: seq<Step>, i: nat)
    requires JobKeepingRun(ws, steps) && i < |ws|
    ensures CreatedOnce(ws[i])
  {
    hide Apply, Enabled, StoreInv;
    if i > 0 {
      OneJobPerRequest(ws, steps, i - 1);
      InvAlways(ws, steps, i - 1);
      CreatedOnceStep(ws[i - 1], steps[i - 1]);
    }
  }
}
