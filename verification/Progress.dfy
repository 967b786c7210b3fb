/** In steady executions every status change uses up potential, so a run has only so many of them. */
module Progress {
  import opened Wrappers
  import opened Resources
  import opened Protocol
  import opened Invariants
  import opened Frames
  import opened Interference
  import opened SteadyRuns

  /** How many status changes a request can still see. */
  function Rank(state: RequestState): nat {
    match state
    case NoState => 4
    case Pending => 3
    case Approved => 2
    case Started => 1
    case Rejected => 1
    case _ => 0
  }

  function ReviewRank(state: ReviewState): nat {
    if state == NoReviewState then 1 else 0
  }

  function Ranks(requests: map<Key, JobRequest>): map<Key, nat> {
    map k | k in requests :: Rank(requests[k].status.state)
  }

  function ReviewRanks(reviews: map<Key, Review>): map<Key, nat> {
    map k | k in reviews :: ReviewRank(reviews[k].state)
  }

  ghost function Potential(s: Store): nat {
    Sum(Ranks(s.requests)) + Sum(ReviewRanks(s.reviews))
  }

  /** Some stored request has another status, or some stored review another state. */
  ghost predicate StatusChanged(s: Store, s': Store) {
    || (exists k :: k in s.requests && k in s'.requests && s'.requests[k].status != s.requests[k].status)
    || (exists k :: k in s.reviews && k in s'.reviews && s'.reviews[k].state != s.reviews[k].state)
  }

  // ---------- sums of ranks ----------

  lemma PutRequest(requests: map<Key, JobRequest>, k: Key, r: JobRequest)
    ensures Sum(Ranks(requests[k := r])) ==
            Sum(Ranks(requests)) + Rank(r.status.state) - (if k in requests then Rank(requests[k].status.state) else 0)
  {
    assert Ranks(requests[k := r]) == Ranks(requests)[k := Rank(r.status.state)];
    SumUpdate(Ranks(requests), k, Rank(r.status.state));
  }

  lemma DropRequest(requests: map<Key, JobRequest>, k: Key)
    ensures Sum(Ranks(requests - {k})) <= Sum(Ranks(requests))
  {
    assert Ranks(requests - {k}) == Ranks(requests) - {k};
    if k in requests {
      SumRemove(Ranks(requests), k);
    } else {
      assert Ranks(requests) - {k} == Ranks(requests);
    }
  }

  lemma PutReview(reviews: map<Key, Review>, k: Key, r: Review)
    ensures Sum(ReviewRanks(reviews[k := r])) ==
            Sum(ReviewRanks(reviews)) + ReviewRank(r.state) - (if k in reviews then ReviewRank(reviews[k].state) else 0)
  {
    assert ReviewRanks(reviews[k := r]) == ReviewRanks(reviews)[k := ReviewRank(r.state)];
    SumUpdate(ReviewRanks(reviews), k, ReviewRank(r.state));
  }

  lemma DropReview(reviews: map<Key, Review>, k: Key)
    ensures Sum(ReviewRanks(reviews - {k})) <= Sum(ReviewRanks(reviews))
  {
    assert ReviewRanks(reviews - {k}) == ReviewRanks(reviews) - {k};
    if k in reviews {
      SumRemove(ReviewRanks(reviews), k);
    } else {
      assert ReviewRanks(reviews) - {k} == ReviewRanks(reviews);
    }
  }

  // ---------- one step ----------

  /** The potential never grows, and drops whenever a status changes. */
  ghost predicate Pays(s: Store, s': Store) {
    && Potential(s') <= Potential(s)
    && (StatusChanged(s, s') ==> Potential(s') < Potential(s))
  }

  lemma SameObjectsPay(s: Store, s': Store)
    requires s'.requests == s.requests && s'.reviews == s.reviews
    ensures Pays(s, s')
  {
  }

  /** One status replaced by one of lower rank. */
  lemma DroppingRankPays(s: Store, s': Store, k: Key, r: JobRequest)
    requires k in s.requests && s'.requests == s.requests[k := r] && s'.reviews == s.reviews
    requires Rank(r.status.state) < Rank(s.requests[k].status.state) || r.status == s.requests[k].status
    ensures Pays(s, s')
  {
    PutRequest(s.requests, k, r);
  }

  lemma RankDrops(w: World)
    requires RequestPcInv(w) && SteadyInv(w) && (w.request.ReqSetState? || w.request.ReqFinish?)
    requires w.request.key in w.store.requests
    ensures Rank(w.request.st.state) < Rank(w.request.base.status.state) || w.request.st == w.request.base.status
  {
    hide Backed, Held, Seen;
  }

  lemma RequestWritePays(w: World, o: Outcome)
    requires RequestPcInv(w) && SteadyInv(w) && (w.request.ReqSetState? || w.request.ReqFinish?)
    ensures Pays(w.store, RequestCall(w, o).store)
  {
    hide SteadyInv;
    var k := w.request.key;
    var s' := UpdateRequestStatus(w.store, k, w.request.base, w.request.st, o);
    assert RequestCall(w, o).store == s';
    if s' == w.store {
      SameObjectsPay(w.store, s');
    } else {
      RankDrops(w);
      DroppingRankPays(w.store, s', k, s'.requests[k]);
    }
  }

  lemma RequestCallPays(w: World, o: Outcome)
    requires RequestPcInv(w) && SteadyInv(w)
    ensures Pays(w.store, RequestCall(w, o).store)
  {
    hide SteadyInv, RequestPcInv, Pays;
    if w.request.ReqSetState? || w.request.ReqFinish? {
      RequestWritePays(w, o);
    } else if w.request.ReqDelete? {
      DeletePays(w, o);
    } else {
      RequestCallFootprint(w, o);
      OtherRequestCall(w, o);
      assert RequestCall(w, o).store.requests == w.store.requests;
      SameObjectsPay(w.store, RequestCall(w, o).store);
    }
  }

  lemma DeletePays(w: World, o: Outcome)
    requires w.request.ReqDelete?
    ensures Pays(w.store, CallDelete(w, o).store)
  {
    DropRequest(w.store.requests, w.request.key);
  }

  lemma DecisionPays(w: World, o: Outcome)
    requires ReviewPcInv(w) && w.review.RevDecide?
    ensures Pays(w.store, CallDecide(w, o).store)
  {
    hide Pays, TwoPersons;
    var target := Target(w.review.key, w.review.review.spec);
    if RequestWriteLands(w.store, target, w.review.base, o) {
      DecisionLanding(w, o);
      DroppingRankPays(w.store, CallDecide(w, o).store, target, CallDecide(w, o).store.requests[target]);
    } else {
      SameObjectsPay(w.store, CallDecide(w, o).store);
    }
  }

  lemma ReviewStatePays(w: World, o: Outcome)
    requires StoreInv(w) && ReviewPcInv(w) && w.review.RevSetState?
    ensures Pays(w.store, CallRevSetState(w, o).store)
  {
    var RevSetState(k, review, state) := w.review;
    var s' := UpdateReviewState(w.store, k, review, state, o);
    assert CopyOk(w, k, review);
    if s' != w.store {
      PutReview(w.store.reviews, k, s'.reviews[k]);
    }
  }

  lemma ReviewCallPays(w: World, o: Outcome)
    requires StoreInv(w) && ReviewPcInv(w)
    ensures Pays(w.store, ReviewCall(w, o).store)
  {
    hide StoreInv, ReviewPcInv, Pays;
    if w.review.RevDecide? {
      DecisionPays(w, o);
    } else if w.review.RevSetState? {
      ReviewStatePays(w, o);
    } else if w.review.RevDelete? {
      RevDeletePays(w, o);
    } else {
      SameObjectsPay(w.store, ReviewCall(w, o).store);
    }
  }

  lemma RevDeletePays(w: World, o: Outcome)
    requires w.review.RevDelete?
    ensures Pays(w.store, CallRevDelete(w, o).store)
  {
    DropReview(w.store.reviews, w.review.key);
  }

  /** Every status-changing write by either reconciler strictly lowers the potential. */
  lemma ReconcilersPay(ws: seq<World>, steps: seq<Step>, i: nat)
    requires SteadyRun(ws, steps) && i < |steps|
    requires OfRequestWorker(steps[i]) || OfReviewWorker(steps[i])
    ensures Potential(ws[i + 1].store) <= Potential(ws[i].store)
    ensures StatusChanged(ws[i].store, ws[i + 1].store) ==> Potential(ws[i + 1].store) < Potential(ws[i].store)
  {
    SteadyAlways(ws, steps, i);
    WorkersPay(ws[i], steps[i]);
  }

  lemma WorkersPay(w: World, s: Step)
    requires Inv(w) && SteadyInv(w) && Enabled(w, s) && (OfRequestWorker(s) || OfReviewWorker(s))
    ensures Pays(w.store, Apply(w, s).store)
  {
    hide Pays, StoreInv, RequestPcInv, ReviewPcInv, SteadyInv, HistoryInv;
    if s.CallRequest? {
      RequestCallPays(w, s.o);
    } else if s.CallReview? {
      ReviewCallPays(w, s.o);
    } else {
      SameObjectsPay(w.store, Apply(w, s).store);
    }
  }

  // ---------- the environment ----------

  /** What the objects created so far allow. */
  ghost function Budget(log: Log): nat {
    4 * |log.requestSpecs| + |log.reviewSpecs|
  }

  /** New objects bring potential: four for a request, one for a review.  No status changes. */
  lemma EnvironmentPays(w: World, s: Step)
    requires StoreInv(w) && Enabled(w, s) && OfEnvironment(s)
    ensures !StatusChanged(w.store, Environment(w, s).store) && Brings(w, Environment(w, s))
  {
    hide StoreInv, Potential, Environment;
    EnvironmentKeeps(w, s);
    hide StatusChanged;
    if s.CreateRequest? || s.DeleteRequest? || s.TouchRequest? {
      RequestEditBrings(w, s);
    } else if s.CreateReview? || s.DeleteReview? || s.TouchReview? {
      ReviewEditBrings(w, s);
    } else {
      OtherEditBrings(w, s);
    }
  }

  ghost predicate Brings(w: World, w': World) {
    Potential(w'.store) + Budget(w.log) <= Potential(w.store) + Budget(w'.log)
  }

  lemma RequestEditBrings(w: World, s: Step)
    requires Enabled(w, s) && (s.CreateRequest? || s.DeleteRequest? || s.TouchRequest?)
    requires StoreInv(w)
    ensures Brings(w, Environment(w, s))
  {
    var st, w' := w.store, Environment(w, s);
    match s
    case CreateRequest(k, _) =>
      PutRequest(st.requests, k, w'.store.requests[k]);
      assert |w'.log.requestSpecs| == |w.log.requestSpecs| + 1;
    case DeleteRequest(k) => DropRequest(st.requests, k);
    case TouchRequest(k) => PutRequest(st.requests, k, w'.store.requests[k]);
  }

  lemma ReviewEditBrings(w: World, s: Step)
    requires Enabled(w, s) && (s.CreateReview? || s.DeleteReview? || s.TouchReview?)
    requires StoreInv(w)
    ensures Brings(w, Environment(w, s))
  {
    hide StoreInv;
    var st, w' := w.store, Environment(w, s);
    match s
    case CreateReview(k, _) =>
      NewReview(w, k);
      PutReview(st.reviews, k, w'.store.reviews[k]);
      assert |w'.log.reviewSpecs| == |w.log.reviewSpecs| + 1;
    case DeleteReview(k) => DropReview(st.reviews, k);
    case TouchReview(k) => PutReview(st.reviews, k, w'.store.reviews[k]);
  }

  lemma OtherEditBrings(w: World, s: Step)
    requires Enabled(w, s) && OfEnvironment(s) && !s.CreateRequest? && !s.DeleteRequest? && !s.TouchRequest?
    requires !s.CreateReview? && !s.DeleteReview? && !s.TouchReview?
    ensures Brings(w, Environment(w, s))
  {
  }

  lemma NewReview(w: World, k: Key)
    requires StoreInv(w) && k !in w.log.reviewSpecs
    ensures k !in w.store.reviews
  {
    assert k in w.store.reviews ==> CopyOk(w, k, w.store.reviews[k]);
  }

  // ---------- a whole run ----------

  /** The number of steps that changed a status. */
  ghost function Changes(ws: seq<World>): nat {
    if |ws| < 2 then 0
    else Changes(ws[..|ws| - 1]) + (if StatusChanged(ws[|ws| - 2].store, ws[|ws| - 1].store) then 1 else 0)
  }

  lemma StepPays(w: World, s: Step)
    requires Inv(w) && SteadyInv(w) && Enabled(w, s)
    ensures var w' := Apply(w, s);
            Potential(w'.store) + Budget(w.log) + (if StatusChanged(w.store, w'.store) then 1 else 0)
            <= Potential(w.store) + Budget(w'.log)
  {
    hide StatusChanged, Potential, RequestPcInv, ReviewPcInv, HistoryInv, SteadyInv;
    if OfEnvironment(s) {
      EnvironmentPays(w, s);
    } else {
      WorkersPay(w, s);
      if s.CallRequest? {
        RequestCallFootprint(w, s.o);
      } else if s.CallReview? {
        ReviewCallFootprint(w, s.o);
      }
    }
  }

  /** R requests and V reviews allow at most 4R + V status changes in a whole steady run. */
  lemma {:induction false} BoundedProgress(ws: seq<World>, steps: seq<Step>)
    requires SteadyRun(ws, steps)
    ensures Changes(ws) + Potential(ws[|steps|].store)
            <= 4 * |ws[|steps|].log.requestSpecs| + |ws[|steps|].log.reviewSpecs|
    decreases |steps|
  {
    hide StatusChanged, Potential, Enabled, Apply, Steady, Inv, SteadyInv;
    var n := |steps|;
    if n == 0 {
      InitialPotential(ws[0]);
    } else {
      assert SteadyRun(ws[..n], steps[..n - 1]);
      BoundedProgress(ws[..n], steps[..n - 1]);
      SteadyAlways(ws, steps, n - 1);
      StepPays(ws[n - 1], steps[n - 1]);
    }
  }

  lemma InitialPotential(w: World)
    requires w == InitialWorld(w.store.ttl, w.store.now)
    ensures Potential(w.store) == 0
  {
    assert Ranks(map[]) == map[] && ReviewRanks(map[]) == map[];
  }
}
