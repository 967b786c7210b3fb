/** Left alone, the two reconcilers settle: full rounds over a sound store of a steady run change it only as often as it
    has potential, and then it is a fixed point of both. */
module Convergence {
  import opened Wrappers
  import opened Resources
  import opened Protocol
  import opened PlainTerms
  import opened Invariants
  import opened Frames
  import opened Interference
  import opened SteadyRuns
  import opened Progress
  import opened FaultFreeRuns
  import opened Rounds
  import opened Scenarios

  /** Reached by a steady run, sound, and with both workers idle. */
  ghost predicate Calm(w: World) {
    Inv(w) && SteadyInv(w) && SoundStore(w.store) && w.request.ReqIdle? && w.review.RevIdle?
  }

  /** Either nothing changes, or the potential drops. */
  ghost predicate Drops(s: Store, s': Store) {
    s' == s || Potential(s') < Potential(s)
  }

  // ---------- one reconcile of a request ----------

  /** What it read is what is stored, as nobody else takes a step. */
  ghost predicate Undisturbed(w: World) {
    && Inv(w) && SteadyInv(w) && Past(w.request) && Current(w)
    && (Holding(w.request) ==> w.request.key in w.store.requests)
  }

  lemma KeepsUndisturbed(w: World)
    requires Undisturbed(w) && !w.request.ReqIdle?
    ensures Undisturbed(RequestCall(w, Ok))
  {
    hide RequestCall, SteadyInv, StoreInv, RequestPcInv, ReviewPcInv, HistoryInv, Current;
    InvRequestCall(w, Ok);
    SteadyInvRequestCall(w, Ok);
    CurrentCall(w);
    CallGrows(w);
    StillStored(w);
  }

  lemma StillStored(w: World)
    requires Past(w.request) && (Holding(w.request) ==> w.request.key in w.store.requests)
    ensures var w' := RequestCall(w, Ok); Holding(w'.request) ==> w'.request.key in w'.store.requests
  {
    if w.request.ReqGetAgain? {
      var r := w.store.requests[w.request.key];
      NextFinishHolds(w.request.key, r, r.status, w.request.conditions);
    } else if w.request.ReqFinish? {
      var k := w.request.key;
      var s' := UpdateRequestStatus(w.store, k, w.request.base, w.request.st, Ok);
      NextFinishHolds(k, w.request.base, w.request.st, w.request.rest);
      NextFinishHolds(k, s'.requests[k], w.request.st, w.request.rest);
    }
  }

  lemma WriteDrops(w: World)
    requires RequestPcInv(w) && SteadyInv(w) && (w.request.ReqSetState? || w.request.ReqFinish?)
    ensures Drops(w.store, RequestCall(w, Ok).store)
  {
    hide SteadyInv, RequestPcInv, Potential;
    RequestWritePays(w, Ok);
    if RequestCall(w, Ok).store != w.store {
      ChangesStatus(w);
    }
  }

  lemma ChangesStatus(w: World)
    requires w.request.ReqSetState? || w.request.ReqFinish?
    requires RequestCall(w, Ok).store != w.store
    ensures StatusChanged(w.store, RequestCall(w, Ok).store)
  {
    var k := w.request.key;
    var s' := RequestCall(w, Ok).store;
    assert s' == UpdateRequestStatus(w.store, k, w.request.base, w.request.st, Ok);
    assert k in w.store.requests && k in s'.requests && s'.requests[k].status != w.store.requests[k].status;
  }

  /** Creating the Job and the status write after it, which nobody disturbs. */
  lemma CreationDrops(w: World)
    requires Undisturbed(w) && w.request.ReqCreateJob?
    ensures Drops(w.store, RunRequest(w).store)
  {
    hide SteadyInv, StoreInv, HistoryInv, ReviewPcInv, Potential, RequestPcInv;
    var w' := RequestCall(w, Ok);
    KeepsUndisturbed(w);
    CreationMoves(w);
    WriteDrops(w');
    SamePotential(w.store, w'.store);
  }

  lemma CreationMoves(w: World)
    requires RequestPcInv(w) && Current(w) && w.request.ReqCreateJob? && w.request.key in w.store.requests
    ensures var w' := RequestCall(w, Ok);
            && w'.request.ReqSetState? && w'.store.requests == w.store.requests && w'.store.reviews == w.store.reviews
            && RunRequest(w) == RequestCall(w', Ok) && RequestCall(w', Ok).store != w'.store
  {
    var w' := RequestCall(w, Ok);
    assert RunRequest(w) == RunRequest(w') == RunRequest(RequestCall(w', Ok)) == RequestCall(w', Ok);
  }

  lemma SamePotential(s: Store, s': Store)
    requires s'.requests == s.requests && s'.reviews == s.reviews
    ensures Potential(s') == Potential(s)
  {
  }

  lemma {:induction false} RunDrops(w: World)
    requires Undisturbed(w)
    ensures Drops(w.store, RunRequest(w).store) && Inv(RunRequest(w)) && SteadyInv(RunRequest(w))
    decreases Stage(w.request), ToGo(w.request)
  {
    hide RequestCall, Stage, ToGo, Inv, SteadyInv, Potential, Current;
    if !w.request.ReqIdle? {
      var w' := RequestCall(w, Ok);
      KeepsUndisturbed(w);
      StageDrops(w);
      RunDrops(w');
      if w.request.ReqCreateJob? {
        CreationDrops(w);
      } else {
        CallDrops(w);
      }
    }
  }

  lemma CallDrops(w: World)
    requires Undisturbed(w) && !w.request.ReqCreateJob?
    ensures Drops(w.store, RequestCall(w, Ok).store)
  {
    hide RequestCall, SteadyInv, StoreInv, RequestPcInv, ReviewPcInv, HistoryInv, Potential, Current;
    if w.request.ReqSetState? || w.request.ReqFinish? {
      WriteDrops(w);
    } else {
      ReadsKeepStore(w, Ok);
    }
  }

  lemma StartsUndisturbed(w: World, k: Key)
    requires Calm(w)
    ensures var w' := RequestCall(w.(request := ReqGet(k)), Ok);
            Undisturbed(w') && w'.store == w.store && ReconcileRequest(w, k) == RunRequest(w')
  {
    hide Inv, SteadyInv, RequestCall, SoundStore;
    var w0 := w.(request := ReqGet(k));
    InvStep(w, StartRequest(k));
    SteadyInvStep(w, StartRequest(k));
    InvStep(w0, CallRequest(Ok));
    SteadyInvStep(w0, CallRequest(Ok));
    ReadsUndisturbed(w, k);
  }

  lemma ReadsUndisturbed(w: World, k: Key)
    requires SoundStore(w.store)
    ensures var w' := RequestCall(w.(request := ReqGet(k)), Ok);
            && Past(w'.request) && Current(w') && (Holding(w'.request) ==> w'.request.key in w'.store.requests)
            && w'.store == w.store && ReconcileRequest(w, k) == RunRequest(w')
  {
    hide UserOf, Buildable;
    SoundIsUnexpired(w.store);
    var w0 := w.(request := ReqGet(k));
    assert RunRequest(w0) == RunRequest(RequestCall(w0, Ok));
  }

  lemma SoundStays(s: Store, s': Store)
    requires SoundStore(s) && SameOrigins(s, s')
    ensures SoundStore(s')
  {
    hide Named;
    forall k | k in s'.requests
      ensures SoundRequest(s', k)
    {
      assert SoundRequest(s, k);
    }
    assert forall v :: v in s'.reviews ==> SoundReview(s, v);
  }

  /** A reconcile of a request leaves the store as it is, or lowers its potential. */
  lemma RequestReconcileDrops(w: World, k: Key)
    requires Calm(w)
    ensures Drops(w.store, ReconcileRequest(w, k).store) && Calm(ReconcileRequest(w, k))
  {
    hide Inv, SteadyInv, RequestCall, SoundStore, Drops, ReconcileRequest, RunRequest, Undisturbed;
    StartsUndisturbed(w, k);
    RunDrops(RequestCall(w.(request := ReqGet(k)), Ok));
    ReconcileEnds(w, k);
    ReconcileRequestKeepsOrigins(w, k);
    SoundStays(w.store, ReconcileRequest(w, k).store);
  }

  // ---------- one reconcile of a review ----------

  /** The review at work is stored, so its decision, if it lands, is steady. */
  ghost predicate Backing(w: World) {
    && Inv(w) && SteadyInv(w) && !w.review.RevGet? && !w.review.RevDelete?
    && (!w.review.RevIdle? ==> w.review.key in w.store.reviews)
  }

  lemma KeepsBacking(w: World)
    requires Backing(w) && !w.review.RevIdle?
    ensures Backing(ReviewCall(w, Ok))
  {
    hide ReviewCall, SteadyInv, StoreInv, RequestPcInv, ReviewPcInv, HistoryInv;
    InvReviewCall(w, Ok);
    SteadyInvReviewCall(w, Ok);
    StillBacking(w);
  }

  lemma StillBacking(w: World)
    requires !w.review.RevIdle? && !w.review.RevGet? && !w.review.RevDelete? && w.review.key in w.store.reviews
    ensures var pc := ReviewCall(w, Ok).review;
            !pc.RevGet? && !pc.RevDelete? && (!pc.RevIdle? ==> pc.key in ReviewCall(w, Ok).store.reviews)
  {
    hide UserOf;
  }

  lemma ReviewCallDrops(w: World)
    requires StoreInv(w) && ReviewPcInv(w) && !w.review.RevDelete?
    ensures Drops(w.store, ReviewCall(w, Ok).store)
  {
    hide StoreInv, ReviewPcInv, Potential;
    ReviewCallPays(w, Ok);
    if ReviewCall(w, Ok).store != w.store {
      ReviewChangesStatus(w);
    }
  }

  lemma ReviewChangesStatus(w: World)
    requires !w.review.RevDelete? && ReviewCall(w, Ok).store != w.store
    ensures StatusChanged(w.store, ReviewCall(w, Ok).store)
  {
    hide UserOf;
    var s' := ReviewCall(w, Ok).store;
    if w.review.RevDecide? {
      var k := Target(w.review.key, w.review.review.spec);
      assert s' == UpdateRequestStatus(w.store, k, w.review.base, w.review.st, Ok);
      assert k in w.store.requests && k in s'.requests && s'.requests[k].status != w.store.requests[k].status;
    } else {
      var v := w.review.key;
      assert s' == UpdateReviewState(w.store, v, w.review.review, w.review.state, Ok);
      assert v in w.store.reviews && v in s'.reviews && s'.reviews[v].state != w.store.reviews[v].state;
    }
  }

  lemma {:induction false} RunReviewDrops(w: World)
    requires Backing(w)
    ensures Drops(w.store, RunReview(w).store) && Inv(RunReview(w)) && SteadyInv(RunReview(w))
    decreases ReviewStage(w.review)
  {
    hide SteadyInv, StoreInv, RequestPcInv, ReviewPcInv, HistoryInv, Potential, UserOf;
    if !w.review.RevIdle? {
      KeepsBacking(w);
      ReviewCallDrops(w);
      RunReviewDrops(ReviewCall(w, Ok));
    }
  }

  lemma StartsBacking(w: World, v: Key)
    requires Calm(w) && v in w.store.reviews
    ensures Backing(w.(review := AfterReadReview(w.store, v, w.store.reviews[v])))
  {
    hide SteadyInv, RequestPcInv, ReviewPcInv, HistoryInv, UserOf, Named, Targeted, RequestsOk, JobsOk;
    var copy := w.store.reviews[v];
    assert (v, copy) in w.log.copies;
    SoundIsUnexpired(w.store);
    InvStep(w, StartReview(v));
    SteadyInvStep(w, StartReview(v));
    var reading := w.(review := RevGet(v));
    InvStep(reading, ReadReview(Some(copy)));
    SteadyInvStep(reading, ReadReview(Some(copy)));
  }

  /** A reconcile of a review leaves the store as it is, or lowers its potential. */
  lemma ReviewReconcileDrops(w: World, v: Key)
    requires Calm(w)
    ensures Drops(w.store, ReconcileReview(w, v).store) && Calm(ReconcileReview(w, v))
  {
    hide Inv, SteadyInv, SoundStore, Drops, RunReview, AfterReadReview;
    if v in w.store.reviews {
      var read := w.(review := AfterReadReview(w.store, v, w.store.reviews[v]));
      StartsBacking(w, v);
      RunReviewDrops(read);
      RunReviewEnds(read);
      RunReviewKeepsOrigins(read);
      SoundStays(w.store, RunReview(read).store);
    } else {
      assert ReconcileReview(w, v) == w;
      DropsNothing(w.store);
    }
  }

  lemma DropsNothing(s: Store)
    ensures Drops(s, s)
  {
  }

  lemma DropsTwice(s: Store, s': Store, s'': Store)
    requires Drops(s, s') && Drops(s', s'')
    ensures Drops(s, s'')
  {
  }

  // ---------- rounds ----------

  lemma {:induction false} RequestRoundDrops(w: World, ks: seq<Key>)
    requires Calm(w)
    ensures Drops(w.store, RequestRound(w, ks).store) && Calm(RequestRound(w, ks))
    ensures SameOrigins(w.store, RequestRound(w, ks).store)
    decreases |ks|
  {
    hide Calm, Drops, ReconcileRequest;
    if ks == [] {
      DropsNothing(w.store);
    } else {
      var w' := ReconcileRequest(w, ks[0]);
      RequestReconcileDrops(w, ks[0]);
      ReconcileRequestKeepsOrigins(w, ks[0]);
      RequestRoundDrops(w', ks[1..]);
      DropsTwice(w.store, w'.store, RequestRound(w', ks[1..]).store);
    }
  }

  lemma {:induction false} ReviewRoundDrops(w: World, vs: seq<Key>)
    requires Calm(w)
    ensures Drops(w.store, ReviewRound(w, vs).store) && Calm(ReviewRound(w, vs))
    ensures SameOrigins(w.store, ReviewRound(w, vs).store)
    decreases |vs|
  {
    hide Calm, Drops, ReconcileReview;
    if vs == [] {
      DropsNothing(w.store);
    } else {
      var w' := ReconcileReview(w, vs[0]);
      ReviewReconcileDrops(w, vs[0]);
      ReconcileReviewKeepsOrigins(w, vs[0]);
      ReviewRoundDrops(w', vs[1..]);
      DropsTwice(w.store, w'.store, ReviewRound(w', vs[1..]).store);
    }
  }

  /** Every request of the first list, then every review of the second. */
  function Round(w: World, ks: seq<Key>, vs: seq<Key>): World {
    ReviewRound(RequestRound(w, ks), vs)
  }

  function ManyRounds(w: World, ks: seq<Key>, vs: seq<Key>, n: nat): World {
    if n == 0 then w else Round(ManyRounds(w, ks, vs, n - 1), ks, vs)
  }

  ghost predicate Covers(s: Store, ks: seq<Key>, vs: seq<Key>) {
    (forall k :: k in s.requests ==> k in ks) && (forall v :: v in s.reviews ==> v in vs)
  }

  ghost predicate Settled(s: Store) {
    (forall k :: k in s.requests ==> RequestSettled(s, k)) && (forall v :: v in s.reviews ==> ReviewSettled(s, v))
  }

  lemma RoundDrops(w: World, ks: seq<Key>, vs: seq<Key>)
    requires Calm(w) && Covers(w.store, ks, vs)
    ensures Calm(Round(w, ks, vs)) && Covers(Round(w, ks, vs).store, ks, vs)
    ensures Drops(w.store, Round(w, ks, vs).store)
    ensures Round(w, ks, vs).store == w.store <==> Settled(w.store)
  {
    hide Inv, SteadyInv, Drops, SoundStore, RequestRound, ReviewRound, RequestSettled, ReviewSettled;
    var w' := RequestRound(w, ks);
    RequestRoundDrops(w, ks);
    ReviewRoundDrops(w', vs);
    DropsTwice(w.store, w'.store, Round(w, ks, vs).store);
    JointFixedPoint(w, ks, vs);
  }

  /** How many of the first `n` rounds change the store. */
  ghost function ChangingRounds(w: World, ks: seq<Key>, vs: seq<Key>, n: nat): nat {
    if n == 0 then 0
    else
      var changes := ManyRounds(w, ks, vs, n).store != ManyRounds(w, ks, vs, n - 1).store;
      ChangingRounds(w, ks, vs, n - 1) + (if changes then 1 else 0)
  }

  /** Each round that changes the store uses up potential; a round that does not is the last word. */
  lemma {:induction false} RoundsUsePotential(w: World, ks: seq<Key>, vs: seq<Key>, n: nat)
    requires Calm(w) && Covers(w.store, ks, vs)
    ensures var w' := ManyRounds(w, ks, vs, n);
            && Calm(w') && Covers(w'.store, ks, vs)
            && ChangingRounds(w, ks, vs, n) + Potential(w'.store) <= Potential(w.store)
            && (Settled(w'.store) || ChangingRounds(w, ks, vs, n) == n)
    decreases n
  {
    hide Calm, Covers, Settled, Potential, Round;
    if n > 0 {
      RoundsUsePotential(w, ks, vs, n - 1);
      RoundDrops(ManyRounds(w, ks, vs, n - 1), ks, vs);
    }
  }

  /** From any sound store of a steady run, with idle workers: at most as many rounds as the store has potential change
      anything, and after that many rounds every further round leaves a store in which everything is settled. */
  lemma Converges(ws: seq<World>, steps: seq<Step>, i: nat, ks: seq<Key>, vs: seq<Key>, n: nat)
    requires SteadyRun(ws, steps) && i < |ws| && SoundStore(ws[i].store)
    requires ws[i].request.ReqIdle? && ws[i].review.RevIdle? && Covers(ws[i].store, ks, vs)
    ensures ChangingRounds(ws[i], ks, vs, n) <= Potential(ws[i].store)
    ensures n >= Potential(ws[i].store) ==>
              && Settled(ManyRounds(ws[i], ks, vs, n).store)
              && ManyRounds(ws[i], ks, vs, n + 1).store == ManyRounds(ws[i], ks, vs, n).store
  {
    hide Inv, SteadyInv, SoundStore, Covers, Settled, Round, Execution, Steady, Potential;
    SteadyAlways(ws, steps, i);
    RoundsUsePotential(ws[i], ks, vs, n);
    RoundDrops(ManyRounds(ws[i], ks, vs, n), ks, vs);
  }

  // ---------- rounds are executions ----------

  lemma {:induction false} RequestRoundHappens(t: Trace, ks: seq<Key>) returns (t': Trace)
    requires Runs(t) && Last(t).request.ReqIdle?
    ensures GoesOn(t, t') && Last(t') == RequestRound(Last(t), ks)
    ensures Last(t').request.ReqIdle? && Last(t').review == Last(t).review
    decreases |ks|
  {
    hide Execution, ReconcileRequest;
    t' := t;
    if ks != [] {
      t' := UndisturbedRequest(t, ks[0]);
      ReconcileEnds(Last(t), ks[0]);
      t' := RequestRoundHappens(t', ks[1..]);
    }
  }

  lemma {:induction false} ReviewRoundHappens(t: Trace, vs: seq<Key>) returns (t': Trace)
    requires Runs(t) && Last(t).review.RevIdle?
    ensures GoesOn(t, t') && Last(t') == ReviewRound(Last(t), vs)
    ensures Last(t').review.RevIdle? && Last(t').request == Last(t).request
    decreases |vs|
  {
    hide Execution, AfterReadReview, RunReview;
    t' := t;
    if vs != [] {
      var v, w := vs[0], Last(t);
      if v in w.store.reviews {
        StoredIsCopied(t, v);
        t' := UndisturbedReview(t, v, w.store.reviews[v]);
        ReadLeadsOn(w.store, v, w.store.reviews[v]);
        RunReviewEnds(w.(review := AfterReadReview(w.store, v, w.store.reviews[v])));
      }
      t' := ReviewRoundHappens(t', vs[1..]);
    }
  }

  lemma StoredIsCopied(t: Trace, v: Key)
    requires Runs(t) && v in Last(t).store.reviews
    ensures (v, Last(t).store.reviews[v]) in Last(t).log.copies
  {
    hide Apply, Enabled, RequestPcInv, ReviewPcInv, HistoryInv;
    InvAlways(t.worlds, t.steps, |t.steps|);
  }

  lemma ReadLeadsOn(s: Store, v: Key, copy: Review)
    ensures !AfterReadReview(s, v, copy).RevGet?
  {
    hide UserOf;
  }

  /** Every execution with idle workers can go on with any number of rounds. */
  lemma {:induction false} RoundsHappen(t: Trace, ks: seq<Key>, vs: seq<Key>, n: nat) returns (t': Trace)
    requires Runs(t) && Last(t).request.ReqIdle? && Last(t).review.RevIdle?
    ensures GoesOn(t, t') && Last(t') == ManyRounds(Last(t), ks, vs, n)
    ensures Last(t').request.ReqIdle? && Last(t').review.RevIdle?
    decreases n
  {
    hide Execution, RequestRound, ReviewRound;
    t' := t;
    if n > 0 {
      t' := RoundsHappen(t, ks, vs, n - 1);
      t' := RequestRoundHappens(t', ks);
      t' := ReviewRoundHappens(t', vs);
    }
  }
}
