/** Two full rounds are enough: the request half of a round settles every request, the review half every review; and in the
    second round no review decides anything any more. */
module Settling {
  import opened Resources
  import opened JobTemplates
  import opened Protocol
  import opened PlainTerms
  import opened Invariants
  import opened Frames
  import opened Safety
  import opened SteadyRuns
  import opened FaultFreeRuns
  import opened Rounds
  import opened Convergence

  // ---------- a reconcile settles its request ----------

  lemma {:induction false} TerminalRun(w: World, k: Key)
    requires Undisturbed(w) && k in w.store.requests && Terminal(w.store.requests[k].status.state)
    ensures k in RunRequest(w).store.requests && RunRequest(w).store.requests[k].status == w.store.requests[k].status
    decreases Stage(w.request), ToGo(w.request)
  {
    hide RequestCall, Stage, ToGo, SteadyInv, StoreInv, HistoryInv, ReviewPcInv, RequestPcInv, Current;
    if !w.request.ReqIdle? {
      KeepsUndisturbed(w);
      StageDrops(w);
      StaysInStore(w, k);
      TerminalStepRequest(w, Ok, k);
      TerminalRun(RequestCall(w, Ok), k);
    }
  }

  lemma StaysInStore(w: World, k: Key)
    requires Past(w.request) && k in w.store.requests
    ensures k in RequestCall(w, Ok).store.requests
  {
  }

  /** The request is stored, and nothing is left to do for it. */
  ghost predicate Done(s: Store, k: Key) {
    k in s.requests && RequestSettled(s, k)
  }

  lemma TerminalIsDone(s: Store, k: Key)
    requires k in s.requests && Terminal(s.requests[k].status.state)
    ensures Done(s, k)
  {
  }

  lemma FinishSettles(w: World)
    requires Undisturbed(w) && w.request.ReqFinish? && w.store.requests[w.request.key] == w.request.base
    ensures Done(RunRequest(w).store, w.request.key)
  {
    hide SteadyInv, StoreInv, HistoryInv, ReviewPcInv, Current, RequestSettled, RunRequest;
    var k, w' := w.request.key, RequestCall(w, Ok);
    KeepsUndisturbed(w);
    FinishLands(w);
    TerminalRun(w', k);
    RunUnfolds(w);
    TerminalIsDone(RunRequest(w).store, k);
  }

  lemma FinishLands(w: World)
    requires RequestPcInv(w) && w.request.ReqFinish? && w.request.key in w.store.requests
    requires w.store.requests[w.request.key] == w.request.base
    ensures var w' := RequestCall(w, Ok);
            w.request.key in w'.store.requests && Terminal(w'.store.requests[w.request.key].status.state)
  {
    assert RequestCall(w, Ok).store == UpdateRequestStatus(w.store, w.request.key, w.request.base, w.request.st, Ok);
  }

  /** The look for the running Job, and the second read. */
  lemma RunningJobSettles(w: World)
    requires Undisturbed(w) && w.request.ReqGetRunningJob? && w.store.requests[w.request.key] == w.request.base
    requires Reviewed(w.store, w.request.key) && w.request.base.status.state == Started
    ensures Done(RunRequest(w).store, w.request.key)
  {
    hide SteadyInv, StoreInv, HistoryInv, ReviewPcInv, RequestPcInv, Current, Reviewed, RunRequest, Unfinished;
    var w' := RequestCall(w, Ok);
    KeepsUndisturbed(w);
    RunUnfolds(w);
    if w'.request.ReqSetState? {
      RunSetState(w');
    } else {
      SecondReadSettles(w');
    }
  }

  lemma SecondReadSettles(w: World)
    requires Undisturbed(w) && w.request.ReqGetAgain? && StateIs(w.store, w.request.key, Started)
    requires Reviewed(w.store, w.request.key) && w.request.key in w.store.jobs
    requires w.store.jobs[w.request.key].conditions == w.request.conditions
    ensures Done(RunRequest(w).store, w.request.key)
  {
    hide SteadyInv, StoreInv, HistoryInv, ReviewPcInv, RequestPcInv, Current, Reviewed, RunRequest, Unfinished;
    var k := w.request.key;
    var r := w.store.requests[k];
    var w' := RequestCall(w, Ok);
    KeepsUndisturbed(w);
    RunUnfolds(w);
    NextFinishUnfinished(k, r, r.status, w.request.conditions);
    if w'.request.ReqFinish? {
      FinishSettles(w');
    } else {
      RunIdle(w');
    }
  }

  /** The look for a Job before its creation. */
  lemma NewJobSettles(w: World)
    requires Undisturbed(w) && w.request.ReqGetNewJob? && w.store.requests[w.request.key] == w.request.base
    requires Reviewed(w.store, w.request.key)
    ensures Done(RunRequest(w).store, w.request.key)
  {
    hide SteadyInv, StoreInv, HistoryInv, ReviewPcInv, Current, Reviewed, RunRequest;
    var w' := RequestCall(w, Ok);
    KeepsUndisturbed(w);
    RunUnfolds(w);
    if w'.request.ReqSetState? {
      RunSetState(w');
    } else {
      CreationSettles(w');
    }
  }

  lemma CreationSettles(w: World)
    requires RequestPcInv(w) && w.request.ReqCreateJob? && w.request.key !in w.store.jobs && Reviewed(w.store, w.request.key)
    requires w.request.key in w.store.requests && w.store.requests[w.request.key] == w.request.base
    ensures Done(RunRequest(w).store, w.request.key)
  {
    hide Reviewed, RunRequest;
    var k, w' := w.request.key, RequestCall(w, Ok);
    RunUnfolds(w);
    assert w'.request.ReqSetState? && w'.request.st.state == Started && w'.store.jobs[k].conditions == [];
    RunSetState(w');
    WriteKeepsRest(w');
    ReviewStays(w.store, RunRequest(w').store, k);
  }

  lemma WriteKeepsRest(w: World)
    requires w.request.ReqSetState?
    ensures var s' := RunRequest(w).store; s'.jobs == w.store.jobs && s'.reviews == w.store.reviews
  {
    assert RunRequest(w) == RunRequest(RequestCall(w, Ok)) == RequestCall(w, Ok);
  }

  lemma ListingSettles(w: World)
    requires Undisturbed(w) && w.request.ReqListReviews? && w.store.requests[w.request.key] == w.request.base
    requires !Undecided(w.request.base.status.state) ==> Reviewed(w.store, w.request.key)
    ensures Done(RunRequest(w).store, w.request.key)
  {
    hide SteadyInv, StoreInv, HistoryInv, ReviewPcInv, RequestPcInv, Current, Reviewed, HasReview, RunRequest, Unfinished;
    var w' := RequestCall(w, Ok);
    ReviewedIsListed(w.store, w.request.key);
    KeepsUndisturbed(w);
    RunUnfolds(w);
    if w'.request.ReqSetState? {
      RunSetState(w');
    } else if w'.request.ReqGetNewJob? {
      NewJobSettles(w');
    } else if w'.request.ReqGetRunningJob? {
      RunningJobSettles(w');
    } else {
      RunIdle(w');
    }
  }

  /** After its reconcile, nothing is left to do for a request. */
  lemma SettlesRequest(w: World, k: Key)
    requires Calm(w) && k in w.store.requests
    ensures Done(ReconcileRequest(w, k).store, k)
  {
    hide Inv, SteadyInv, Reviewed, HasReview, UserOf, RunRequest, ReconcileRequest, RequestSettled, Undisturbed;
    hide Buildable, ListTargets, TargetContainers;
    BuildableIsChecked(w.store, k, w.store.requests[k].spec);
    StartsUndisturbed(w, k);
    var w1 := RequestCall(w.(request := ReqGet(k)), Ok);
    assert SoundRequest(w.store, k);
    if w1.request.ReqIdle? {
      RunIdle(w1);
      TerminalIsDone(w.store, k);
    } else {
      var w2 := RequestCall(w1, Ok);
      KeepsUndisturbed(w1);
      RunUnfolds(w1);
      if !Undecided(w.store.requests[k].status.state) {
        DecidedKeepsReview(w, k);
      }
      ListingSettles(w2);
    }
  }

  lemma {:induction false} RunIsolated(w: World, k: Key)
    requires WorksOn(w.request, k)
    ensures OnlyRequest(w.store, RunRequest(w).store, k)
    decreases Stage(w.request), ToGo(w.request)
  {
    hide RequestCall, Stage, ToGo;
    if !w.request.ReqIdle? {
      StageDrops(w);
      RequestCallIsolated(w, Ok, k);
      RequestCallStaysOn(w, Ok, k);
      RunIsolated(RequestCall(w, Ok), k);
    }
  }

  lemma ReconcileIsolated(w: World, k: Key)
    ensures OnlyRequest(w.store, ReconcileRequest(w, k).store, k)
  {
    hide RunRequest;
    RunIsolated(w.(request := ReqGet(k)), k);
  }

  lemma SettledElsewhere(s: Store, s': Store, k: Key, q: Key)
    requires OnlyRequest(s, s', k) && q != k && Done(s, q)
    ensures Done(s', q)
  {
    hide Reviewed, Unfinished;
    ReviewStays(s, s', q);
    UntouchedElsewhere(s, s', k, q);
    if q in s.jobs {
      assert q in s.jobs - {k} && (s.jobs - {k})[q] == (s'.jobs - {k})[q];
    }
  }

  /** The request half of a round settles every request it visits. */
  lemma {:induction false} RequestRoundSettles(w: World, ks: seq<Key>)
    requires Calm(w) && forall q :: q in w.store.requests ==> q in ks || Done(w.store, q)
    ensures forall q :: q in RequestRound(w, ks).store.requests ==> Done(RequestRound(w, ks).store, q)
    decreases |ks|
  {
    hide Calm, Done, ReconcileRequest;
    if ks != [] {
      var k, w' := ks[0], ReconcileRequest(w, ks[0]);
      RequestReconcileDrops(w, k);
      ReconcileRequestKeepsOrigins(w, k);
      ReconcileIsolated(w, k);
      forall q | q in w'.store.requests
        ensures q in ks[1..] || Done(w'.store, q)
      {
        if q == k {
          SettlesRequest(w, k);
        } else if q !in ks[1..] {
          SettledElsewhere(w.store, w'.store, k, q);
        }
      }
      RequestRoundSettles(w', ks[1..]);
    }
  }

  // ---------- a reconcile settles its review ----------

  /** The review is stored, and nothing is left to do for it. */
  ghost predicate Judged(s: Store, v: Key) {
    v in s.reviews && ReviewSettled(s, v)
  }

  /** After its reconcile, nothing is left to do for a review. */
  lemma SettlesReview(w: World, v: Key)
    requires Calm(w) && v in w.store.reviews
    ensures Judged(ReconcileReview(w, v).store, v)
  {
    hide UserOf, Named, Inv, SteadyInv, SoundRequest, RunReview;
    assert SoundReview(w.store, v);
    NamedIsUser(w.store.reviews[v].spec.reviewedBy);
    var review := w.store.reviews[v];
    var w0 := w.(review := AfterReadReview(w.store, v, review));
    if w0.review.RevFindRequest? {
      var w1 := ReviewCall(w0, Ok);
      ReviewRunUnfolds(w0);
      if w1.review.RevSetState? {
        MarkSettles(w1);
      } else if w1.review.RevDecide? {
        ReviewRunUnfolds(w1);
        MarkSettles(ReviewCall(w1, Ok));
      } else {
        ReviewRunIdle(w1);
      }
    } else {
      ReviewRunIdle(w0);
    }
  }

  lemma MarkSettles(w: World)
    requires w.review.RevSetState? && w.review.key in w.store.reviews && w.store.reviews[w.review.key] == w.review.review
    requires w.review.review.state == NoReviewState && w.review.state != NoReviewState
    ensures Judged(RunReview(w).store, w.review.key)
  {
    hide RunReview;
    RevSetStateChanges(w);
  }

  /** Requests are only decided, from Pending; and other reviews are left alone. */
  ghost predicate OnlyJudges(s: Store, s': Store, v: Key) {
    && s'.requests.Keys == s.requests.Keys && s'.jobs == s.jobs && s.reviews.Keys <= s'.reviews.Keys
    && (forall k :: k in s.requests ==>
          || s'.requests[k] == s.requests[k]
          || (StateIs(s, k, Pending) && s'.requests[k].status.state in {Approved, Rejected}))
    && (forall u :: u in s'.reviews && u != v ==> u in s.reviews && s'.reviews[u] == s.reviews[u])
    && (v in s'.reviews ==> v in s.reviews && s'.reviews[v].spec == s.reviews[v].spec)
  }

  lemma CallOnlyJudges(w: World)
    requires ReviewPcInv(w) && !w.review.RevDelete? && !w.review.RevIdle? && !w.review.RevGet?
    ensures OnlyJudges(w.store, ReviewCall(w, Ok).store, w.review.key)
  {
    hide TwoPersons;
    if w.review.RevDecide? && RequestWriteLands(w.store, Target(w.review.key, w.review.review.spec), w.review.base, Ok) {
      DecisionLanding(w, Ok);
    }
  }

  lemma {:induction false} RunOnlyJudges(w: World, v: Key)
    requires Backing(w) && (!w.review.RevIdle? ==> w.review.key == v)
    ensures OnlyJudges(w.store, RunReview(w).store, v)
    decreases ReviewStage(w.review)
  {
    hide SteadyInv, StoreInv, RequestPcInv, ReviewPcInv, HistoryInv, UserOf;
    if !w.review.RevIdle? {
      CallOnlyJudges(w);
      KeepsBacking(w);
      SameReviewNext(w);
      RunOnlyJudges(ReviewCall(w, Ok), v);
    }
  }

  lemma SameReviewNext(w: World)
    requires !w.review.RevIdle?
    ensures var pc := ReviewCall(w, Ok).review; !pc.RevIdle? ==> pc.key == w.review.key
  {
    hide UserOf;
  }

  lemma ReconcileOnlyJudges(w: World, v: Key)
    requires Calm(w)
    ensures OnlyJudges(w.store, ReconcileReview(w, v).store, v)
  {
    hide Inv, SteadyInv, SoundStore, RunReview, UserOf, OnlyJudges;
    if v in w.store.reviews {
      StartsBacking(w, v);
      RunOnlyJudges(w.(review := AfterReadReview(w.store, v, w.store.reviews[v])), v);
    } else {
      NothingJudged(w.store, v);
    }
  }

  lemma NothingJudged(s: Store, v: Key)
    ensures OnlyJudges(s, s, v)
  {
  }

  lemma JudgedElsewhere(s: Store, s': Store, v: Key, u: Key)
    requires OnlyJudges(s, s', v) && u != v && Judged(s, u)
    ensures Judged(s', u)
  {
  }

  /** The review half of a round settles every review it visits. */
  lemma {:induction false} ReviewRoundJudges(w: World, vs: seq<Key>)
    requires Calm(w) && forall u :: u in w.store.reviews ==> u in vs || Judged(w.store, u)
    ensures forall u :: u in ReviewRound(w, vs).store.reviews ==> Judged(ReviewRound(w, vs).store, u)
    decreases |vs|
  {
    hide Calm, Judged, ReconcileReview, OnlyJudges;
    if vs != [] {
      var v, w' := vs[0], ReconcileReview(w, vs[0]);
      ReviewReconcileDrops(w, v);
      ReconcileReviewKeepsOrigins(w, v);
      ReconcileOnlyJudges(w, v);
      forall u | u in w'.store.reviews
        ensures u in vs[1..] || Judged(w'.store, u)
      {
        if u == v {
          SettlesReview(w, v);
        } else if u !in vs[1..] {
          JudgedElsewhere(w.store, w'.store, v, u);
        }
      }
      ReviewRoundJudges(w', vs[1..]);
    }
  }

  // ---------- the second round ----------

  /** No stateless review is of a Pending request: nothing is left to decide. */
  ghost predicate NothingToDecide(s: Store) {
    forall v :: v in s.reviews && s.reviews[v].state == NoReviewState ==> !StateIs(s, Target(v, s.reviews[v].spec), Pending)
  }

  lemma JudgedLeavesNothing(s: Store)
    requires forall v :: v in s.reviews ==> Judged(s, v)
    ensures NothingToDecide(s)
  {
  }

  /** A request that has a review does not become Pending. */
  lemma RequestHalfKeepsNothing(w: World, k: Key)
    requires Calm(w) && NothingToDecide(w.store)
    ensures NothingToDecide(ReconcileRequest(w, k).store)
  {
    hide Inv, SteadyInv, UserOf, Reviewed, ReconcileRequest, ReconcileListing, SoundRequest, SoundReview;
    var s, s' := w.store, ReconcileRequest(w, k).store;
    ReconcileIsolated(w, k);
    forall v | v in s'.reviews && s'.reviews[v].state == NoReviewState
      ensures !StateIs(s', Target(v, s'.reviews[v].spec), Pending)
    {
      var q := Target(v, s'.reviews[v].spec);
      ReviewIsListed(s, v);
      if q != k {
        UntouchedElsewhere(s, s', k, q);
      } else if k in s.requests {
        NotMadePending(w, k);
      }
    }
  }

  lemma UntouchedElsewhere(s: Store, s': Store, k: Key, q: Key)
    requires OnlyRequest(s, s', k) && q != k
    ensures q in s'.requests <==> q in s.requests
    ensures q in s.requests ==> s'.requests[q] == s.requests[q]
  {
    var rest := s.requests - {k};
    assert q in rest <==> q in s.requests;
    assert q in s'.requests - {k} <==> q in s'.requests;
    assert q in rest ==> rest[q] == (s'.requests - {k})[q];
  }

  lemma ReviewIsListed(s: Store, v: Key)
    requires v in s.reviews
    ensures Reviewed(s, Target(v, s.reviews[v].spec))
  {
  }

  lemma NotMadePending(w: World, k: Key)
    requires Calm(w) && k in w.store.requests && Reviewed(w.store, k) && w.store.requests[k].status.state != Pending
    ensures !StateIs(ReconcileRequest(w, k).store, k, Pending)
  {
    hide Inv, SteadyInv, UserOf, Reviewed, ReconcileListing, SoundReview, SoundRequest, RequestSettled;
    assert SoundRequest(w.store, k);
    if Terminal(w.store.requests[k].status.state) {
      RequestFixedPoint(w, k);
      TerminalIsDone(w.store, k);
    } else {
      PendingAfterReconcile(w, k, Ok);
      ListingWell(w, k);
    }
  }

  lemma {:induction false} RequestRoundKeepsNothing(w: World, ks: seq<Key>)
    requires Calm(w) && NothingToDecide(w.store)
    ensures NothingToDecide(RequestRound(w, ks).store)
    decreases |ks|
  {
    hide Calm, NothingToDecide, ReconcileRequest;
    if ks != [] {
      RequestReconcileDrops(w, ks[0]);
      RequestHalfKeepsNothing(w, ks[0]);
      RequestRoundKeepsNothing(ReconcileRequest(w, ks[0]), ks[1..]);
    }
  }

  /** With nothing to decide, a reconcile of a review leaves every request alone. */
  lemma JudgesWithoutDeciding(w: World, v: Key)
    requires Calm(w) && NothingToDecide(w.store)
    ensures var s' := ReconcileReview(w, v).store;
            && s'.requests == w.store.requests && NothingToDecide(s')
  {
    hide Inv, SteadyInv, UserOf, Named, SoundRequest, RunReview;
    ReconcileOnlyJudges(w, v);
    if v in w.store.reviews {
      assert SoundReview(w.store, v);
      NamedIsUser(w.store.reviews[v].spec.reviewedBy);
      var w0 := w.(review := AfterReadReview(w.store, v, w.store.reviews[v]));
      if w0.review.RevFindRequest? {
        var w1 := ReviewCall(w0, Ok);
        ReviewRunUnfolds(w0);
        if w1.review.RevSetState? {
          RevSetStateChanges(w1);
        } else {
          ReviewRunIdle(w1);
        }
      } else {
        ReviewRunIdle(w0);
      }
    }
  }

  lemma DoneStays(s: Store, s': Store, v: Key, q: Key)
    requires OnlyJudges(s, s', v) && s'.requests == s.requests && Done(s, q)
    ensures Done(s', q)
  {
    hide Unfinished;
    if Reviewed(s, q) {
      var u :| u in s.reviews && u.ns == q.ns && s.reviews[u].spec.jobRequestName == q.name;
      assert u in s'.reviews && s'.reviews[u].spec == s.reviews[u].spec;
    }
  }

  lemma {:induction false} ReviewRoundKeepsDone(w: World, vs: seq<Key>)
    requires Calm(w) && NothingToDecide(w.store) && forall q :: q in w.store.requests ==> Done(w.store, q)
    ensures forall q :: q in ReviewRound(w, vs).store.requests ==> Done(ReviewRound(w, vs).store, q)
    decreases |vs|
  {
    hide Calm, NothingToDecide, Done, ReconcileReview, OnlyJudges;
    if vs != [] {
      var v, w' := vs[0], ReconcileReview(w, vs[0]);
      ReviewReconcileDrops(w, v);
      ReconcileOnlyJudges(w, v);
      JudgesWithoutDeciding(w, v);
      forall q | q in w'.store.requests
        ensures Done(w'.store, q)
      {
        DoneStays(w.store, w'.store, v, q);
      }
      ReviewRoundKeepsDone(w', vs[1..]);
    }
  }

  lemma DoneAndJudged(s: Store)
    requires forall q :: q in s.requests ==> Done(s, q)
    requires forall v :: v in s.reviews ==> Judged(s, v)
    ensures Settled(s)
  {
    hide RequestSettled, ReviewSettled;
    assert forall q :: q in s.requests ==> Done(s, q);
    assert forall v :: v in s.reviews ==> Judged(s, v);
  }

  lemma FirstRound(w: World, ks: seq<Key>, vs: seq<Key>)
    requires Calm(w) && Covers(w.store, ks, vs)
    ensures NothingToDecide(Round(w, ks, vs).store)
  {
    hide Calm, Judged, NothingToDecide, RequestRound, ReviewRound;
    var w' := RequestRound(w, ks);
    RequestRoundDrops(w, ks);
    ReviewRoundJudges(w', vs);
    JudgedLeavesNothing(Round(w, ks, vs).store);
  }

  lemma SecondRound(w: World, ks: seq<Key>, vs: seq<Key>)
    requires Calm(w) && Covers(w.store, ks, vs) && NothingToDecide(w.store)
    ensures Settled(Round(w, ks, vs).store)
  {
    hide Calm, Judged, Done, NothingToDecide, RequestRound, ReviewRound, Settled;
    var w' := RequestRound(w, ks);
    RequestRoundDrops(w, ks);
    RequestRoundSettles(w, ks);
    RequestRoundKeepsNothing(w, ks);
    ReviewRoundJudges(w', vs);
    ReviewRoundKeepsDone(w', vs);
    DoneAndJudged(Round(w, ks, vs).store);
  }

  lemma {:induction false} SettledFromTwo(w: World, ks: seq<Key>, vs: seq<Key>, n: nat)
    requires Calm(w) && Covers(w.store, ks, vs) && n >= 2
    ensures Settled(ManyRounds(w, ks, vs, n).store)
    decreases n
  {
    hide Calm, Covers, Settled, NothingToDecide, Round;
    RoundsUsePotential(w, ks, vs, n - 1);
    if n == 2 {
      assert ManyRounds(w, ks, vs, 1) == Round(ManyRounds(w, ks, vs, 0), ks, vs);
      FirstRound(w, ks, vs);
      SecondRound(ManyRounds(w, ks, vs, 1), ks, vs);
    } else {
      SettledFromTwo(w, ks, vs, n - 1);
      RoundDrops(ManyRounds(w, ks, vs, n - 1), ks, vs);
    }
  }

  /** From any sound store of a steady run, with idle workers: after two full rounds everything is settled, and no further
      round changes anything. */
  lemma TwoRoundsSettle(ws: seq<World>, steps: seq<Step>, i: nat, ks: seq<Key>, vs: seq<Key>, n: nat)
    requires SteadyRun(ws, steps) && i < |ws| && SoundStore(ws[i].store)
    requires ws[i].request.ReqIdle? && ws[i].review.RevIdle? && Covers(ws[i].store, ks, vs)
    ensures n >= 2 ==> && Settled(ManyRounds(ws[i], ks, vs, n).store)
                       && ManyRounds(ws[i], ks, vs, n).store == ManyRounds(ws[i], ks, vs, 2).store
    decreases n
  {
    hide Inv, SteadyInv, SoundStore, Covers, Settled, Round, Execution, Steady;
    SteadyAlways(ws, steps, i);
    if n >= 2 {
      SettledFromTwo(ws[i], ks, vs, n);
    }
    if n > 2 {
      TwoRoundsSettle(ws, steps, i, ks, vs, n - 1);
      RoundsUsePotential(ws[i], ks, vs, n - 1);
      RoundDrops(ManyRounds(ws[i], ks, vs, n - 1), ks, vs);
    }
  }
}
