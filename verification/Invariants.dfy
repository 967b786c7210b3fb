/** What every step of every interleaving keeps: faults, crashes, stale caches and deletions included. */
module Invariants {
  import opened Wrappers
  import opened Resources
  import opened Protocol

  // ---------- history ----------

  function LastDecision(ds: seq<DecisionRecord>, k: Key): Option<DecisionRecord> {
    if ds == [] then None
    else if ds[|ds| - 1].request == k then Some(ds[|ds| - 1])
    else LastDecision(ds[..|ds| - 1], k)
  }

  lemma {:induction false} LastDecisionIsDecision(ds: seq<DecisionRecord>, k: Key)
    ensures LastDecision(ds, k).Some? ==> LastDecision(ds, k).value in ds && LastDecision(ds, k).value.request == k
    ensures LastDecision(ds, k).None? ==> forall d :: d in ds ==> d.request != k
  {
    if ds != [] {
      LastDecisionIsDecision(ds[..|ds| - 1], k);
      assert ds == ds[..|ds| - 1] + [ds[|ds| - 1]];
    }
  }

  lemma LastDecisionAppend(ds: seq<DecisionRecord>, d: DecisionRecord, k: Key)
    ensures LastDecision(ds + [d], k) == if d.request == k then Some(d) else LastDecision(ds, k)
  {
    assert (ds + [d])[..|ds|] == ds;
  }

  /** A decision with this verdict took effect on the request. */
  ghost predicate Decided(log: Log, k: Key, verdict: Decision) {
    exists d :: d in log.decisions && d.request == k && d.verdict == verdict
  }

  /** A decision was made by a review of that request, as that review says, by somebody else than the requester. */
  ghost predicate DecisionOk(w: World, d: DecisionRecord) {
    && d.review in w.log.reviewSpecs
    && d.request in w.log.requestSpecs
    && Target(d.review, w.log.reviewSpecs[d.review]) == d.request
    && w.log.reviewSpecs[d.review].decision == d.verdict
    && TwoPersons(w.log.requestSpecs[d.request], w.log.reviewSpecs[d.review])
    && d.at <= w.store.rv
    && (d.request in w.store.requests ==> d.at <= w.store.requests[d.request].version)
  }

  /** The status predicates tell the truth about the decisions and creations so far. */
  ghost predicate StatusTruthful(log: Log, k: Key, st: RequestStatus) {
    var d := LastDecision(log.decisions, k);
    && st.reviewName == (if d.None? then "" else d.value.review.name)
    && (st.HasBeenApproved() ==> d.Some? && d.value.verdict.Approve?)
    && (st.HasBeenRejected() ==> d.Some? && d.value.verdict.Reject?)
    && (st.state in {Started, Complete, Failed} ==> st.jobName == k.name && k in log.creations)
  }

  /** A review marked with a decision made it, or its request write was refused. */
  ghost predicate ReviewTruthful(log: Log, k: Key, state: ReviewState) {
    forall v: Decision :: state == ReviewStateOf(v) ==>
      k in log.refused || exists d :: d in log.decisions && d.review == k && d.verdict == v
  }

  ghost predicate HistoryInv(w: World) {
    && (forall d :: d in w.log.decisions ==> DecisionOk(w, d))
    && (forall k :: k in w.store.requests ==> StatusTruthful(w.log, k, w.store.requests[k].status))
    && (forall k :: k in w.log.creations ==> Decided(w.log, k, Approve))
    && (forall k :: k in w.store.reviews ==> ReviewTruthful(w.log, k, w.store.reviews[k].state))
  }

  // ---------- the store ----------

  /** The stored review, seen from an earlier copy. */
  ghost predicate CopyOk(w: World, k: Key, c: Review) {
    && k in w.log.reviewSpecs && c.spec == w.log.reviewSpecs[k]
    && c.version <= w.store.rv
    && (k in w.store.reviews ==>
          c.version <= w.store.reviews[k].version && (c.version == w.store.reviews[k].version ==> c == w.store.reviews[k]))
  }

  ghost predicate RequestsOk(w: World) {
    forall k :: k in w.store.requests ==>
      && k in w.log.requestSpecs
      && w.store.requests[k].spec == w.log.requestSpecs[k]
      && w.store.requests[k].version <= w.store.rv
  }

  ghost predicate CopiesOk(w: World) {
    && (forall k :: k in w.store.reviews ==> (k, w.store.reviews[k]) in w.log.copies)
    && (forall k, c :: (k, c) in w.log.copies ==> CopyOk(w, k, c))
  }

  ghost predicate JobsOk(w: World) {
    forall k :: k in w.store.jobs ==>
      OneOutcome(w.store.jobs[k].conditions) && (k in w.log.creations || k in w.log.foreignJobs)
  }

  ghost predicate StoreInv(w: World) {
    RequestsOk(w) && CopiesOk(w) && JobsOk(w)
  }

  // ---------- the request reconciler ----------

  /** `base` is a copy of the request as it was at some time. */
  ghost predicate Seen(w: World, k: Key, base: JobRequest) {
    && k in w.log.requestSpecs && base.spec == w.log.requestSpecs[k]
    && base.version <= w.store.rv
    && (k in w.store.requests ==>
          && base.version <= w.store.requests[k].version
          && (base.version == w.store.requests[k].version ==> base.status == w.store.requests[k].status))
  }

  /** Only a Pending request can change its status behind the request reconciler's back. */
  ghost predicate Held(w: World, k: Key, base: JobRequest) {
    base.status.state != Pending && k in w.store.requests ==> w.store.requests[k].status == base.status
  }

  /** What was read as decided had been decided. */
  ghost predicate Backed(log: Log, k: Key, st: RequestStatus) {
    && (st.HasBeenApproved() ==> Decided(log, k, Approve))
    && (st.HasBeenRejected() ==> Decided(log, k, Reject))
  }

  ghost predicate Reading(w: World, k: Key, base: JobRequest) {
    Seen(w, k, base) && Held(w, k, base) && Backed(w.log, k, base.status) && !Terminal(base.status.state)
  }

  /** The status writes that end a reconcile. */
  ghost predicate LastWrite(log: Log, k: Key, base: RequestStatus, st: RequestStatus) {
    || st == base.(state := Malformed)
    || st == base.(state := Pending)
    || (base.state == Approved && st == base.(state := Conflicted))
    || (base.state == Approved && st == base.(jobName := k.name, state := Started) && k in log.creations)
  }

  ghost predicate RequestPcInv(w: World) {
    match w.request
    case ReqIdle => true
    case ReqGet(_) => true
    case ReqDelete(_) => true
    case ReqListTargets(k, base) => Reading(w, k, base)
    case ReqListReviews(k, base, t) => Reading(w, k, base) && t.conditions == []
    case ReqGetNewJob(k, base, t) => Reading(w, k, base) && base.status.state == Approved && t.conditions == []
    case ReqCreateJob(k, base, t) => Reading(w, k, base) && base.status.state == Approved && t.conditions == []
    case ReqGetRunningJob(k, base) => Reading(w, k, base) && base.status.state == Started
    case ReqGetAgain(k, base, conditions) => Reading(w, k, base) && base.status.state == Started && OneOutcome(conditions)
    case ReqFinish(k, base, st, rest) =>
      && Seen(w, k, base)
      && FinishWrite(base.status, st)
      && RestAgrees(st.state, rest)
    case ReqSetState(k, base, st) => Reading(w, k, base) && LastWrite(w.log, k, base.status, st)
  }

  /** The condition loop only turns Started into the outcome, or writes the outcome again. */
  ghost predicate FinishWrite(base: RequestStatus, st: RequestStatus) {
    && (st.state == Complete || st.state == Failed)
    && (base.state == Started || base == st)
    && st == base.(state := st.state)
  }

  ghost predicate RestAgrees(state: RequestState, rest: seq<Condition>) {
    forall i :: 0 <= i < |rest| && Finished(rest[i]) ==> FinishState(rest[i]) == state
  }

  // ---------- the review reconciler ----------

  ghost predicate ReviewRead(w: World, k: Key, review: Review) {
    (k, review) in w.log.copies && review.state == NoReviewState
  }

  ghost predicate DecideOk(w: World, k: Key, review: Review, base: JobRequest, st: RequestStatus) {
    && Seen(w, Target(k, review.spec), base)
    && base.status.state == Pending
    && st == base.status.(state := RequestStateOf(review.spec.decision), reviewName := k.name)
    && TwoPersons(base.spec, review.spec)
  }

  ghost predicate ReviewPcInv(w: World) {
    match w.review
    case RevIdle => true
    case RevGet(_) => true
    case RevDelete(_) => true
    case RevFindRequest(k, review) => ReviewRead(w, k, review)
    case RevDecide(k, review, base, st) => ReviewRead(w, k, review) && DecideOk(w, k, review, base, st)
    case RevSetState(k, review, state) =>
      ReviewRead(w, k, review) && state != NoReviewState && ReviewTruthful(w.log, k, state)
  }

  ghost predicate Inv(w: World) {
    StoreInv(w) && RequestPcInv(w) && ReviewPcInv(w) && HistoryInv(w)
  }
}
