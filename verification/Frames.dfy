/** How one step may move the world, and what each kind of step leaves alone. */
module Frames {
  import opened Resources
  import opened Protocol
  import opened Invariants

  // ---------- how the world may move ----------

  ghost predicate RequestEvolves(w: World, w': World, k: Key)
    requires k in w'.store.requests
  {
    var now := w'.store.requests[k];
    if k in w.store.requests then
      var before := w.store.requests[k];
      now == before || (now.spec == before.spec && now.created == before.created && w.store.rv < now.version <= w'.store.rv)
    else k !in w.log.requestSpecs && w.store.rv < now.version <= w'.store.rv
  }

  ghost predicate ReviewEvolves(w: World, w': World, k: Key)
    requires k in w'.store.reviews
  {
    var now := w'.store.reviews[k];
    if k in w.store.reviews then
      var before := w.store.reviews[k];
      now == before || (now.spec == before.spec && now.created == before.created && w.store.rv < now.version <= w'.store.rv)
    else k !in w.log.reviewSpecs && w.store.rv < now.version <= w'.store.rv
  }

  ghost predicate LogLater(l: Log, l': Log) {
    && (forall k :: k in l.requestSpecs ==> k in l'.requestSpecs && l'.requestSpecs[k] == l.requestSpecs[k])
    && (forall k :: k in l.reviewSpecs ==> k in l'.reviewSpecs && l'.reviewSpecs[k] == l.reviewSpecs[k])
    && l.copies <= l'.copies
    && l.decisions <= l'.decisions
    && l.refused <= l'.refused
    && l.creations <= l'.creations
    && l.foreignJobs <= l'.foreignJobs
  }

  /** Versions and histories only grow. */
  ghost predicate Later(w: World, w': World) {
    && w.store.rv <= w'.store.rv
    && LogLater(w.log, w'.log)
    && (forall k :: k in w'.store.requests ==> RequestEvolves(w, w', k))
    && (forall k :: k in w'.store.reviews ==> ReviewEvolves(w, w', k))
  }

  lemma LaterSame(w: World, w': World)
    requires w.store.rv <= w'.store.rv && LogLater(w.log, w'.log)
    requires w'.store.requests == w.store.requests && w'.store.reviews == w.store.reviews
    ensures Later(w, w')
  {
  }

  lemma LaterRequest(w: World, w': World, k: Key, r: JobRequest)
    requires w.store.rv <= w'.store.rv && LogLater(w.log, w'.log)
    requires w'.store.requests == w.store.requests[k := r] && w'.store.reviews == w.store.reviews
    requires RequestEvolves(w, w', k)
    ensures Later(w, w')
  {
  }

  lemma LaterReview(w: World, w': World, k: Key, v: Review)
    requires w.store.rv <= w'.store.rv && LogLater(w.log, w'.log)
    requires w'.store.reviews == w.store.reviews[k := v] && w'.store.requests == w.store.requests
    requires ReviewEvolves(w, w', k)
    ensures Later(w, w')
  {
  }

  lemma LaterRemoval(w: World, w': World)
    requires w.store.rv <= w'.store.rv && LogLater(w.log, w'.log)
    requires forall k :: k in w'.store.requests ==> k in w.store.requests && w'.store.requests[k] == w.store.requests[k]
    requires forall k :: k in w'.store.reviews ==> k in w.store.reviews && w'.store.reviews[k] == w.store.reviews[k]
    ensures Later(w, w')
  {
  }

  lemma LaterRequestWrite(w: World, w': World, k: Key, base: JobRequest, st: RequestStatus, o: Outcome)
    requires w'.store == UpdateRequestStatus(w.store, k, base, st, o) && LogLater(w.log, w'.log)
    ensures Later(w, w')
  {
    if w'.store == w.store {
      LaterSame(w, w');
    } else {
      LaterRequest(w, w', k, w'.store.requests[k]);
    }
  }

  /** The request reconciler's calls that only read. */
  predicate Reads(pc: RequestPc) {
    !pc.ReqDelete? && !pc.ReqCreateJob? && !pc.ReqFinish? && !pc.ReqSetState?
  }

  lemma ReadsKeepStore(w: World, o: Outcome)
    requires Reads(w.request)
    ensures var w' := RequestCall(w, o);
            w'.store == w.store && w'.log == w.log.(events := w'.log.events) && w'.review == w.review
  {
  }

  lemma LaterRequestCall(w: World, o: Outcome)
    ensures Later(w, RequestCall(w, o))
  {
    var w' := RequestCall(w, o);
    if Reads(w.request) {
      ReadsKeepStore(w, o);
      LaterSame(w, w');
    } else if w.request.ReqDelete? {
      LaterRemoval(w, w');
    } else if w.request.ReqCreateJob? {
      LaterSame(w, w');
    } else {
      LaterRequestWrite(w, w', w.request.key, w.request.base, w.request.st, o);
    }
  }

  lemma LaterReviewCall(w: World, o: Outcome)
    ensures Later(w, ReviewCall(w, o))
  {
    var w' := ReviewCall(w, o);
    match w.review
    case RevDelete(_) => LaterRemoval(w, w');
    case RevDecide(k, review, base, st) => LaterRequestWrite(w, w', Target(k, review.spec), base, st, o);
    case RevSetState(k, _, _) => LaterReviewWrite(w, o);
    case _ => LaterSame(w, w');
  }

  lemma LaterReviewWrite(w: World, o: Outcome)
    requires w.review.RevSetState?
    ensures Later(w, CallRevSetState(w, o))
  {
    var w' := CallRevSetState(w, o);
    if w'.store == w.store {
      LaterSame(w, w');
    } else {
      LaterReview(w, w', w.review.key, w'.store.reviews[w.review.key]);
    }
  }

  lemma LaterRequestEdit(w: World, s: Step)
    requires Enabled(w, s) && StoreInv(w)
    requires s.CreateRequest? || s.DeleteRequest? || s.TouchRequest?
    ensures Later(w, Environment(w, s))
  {
    var w' := Environment(w, s);
    if s.DeleteRequest? {
      LaterRemoval(w, w');
    } else {
      LaterRequest(w, w', s.k, w'.store.requests[s.k]);
    }
  }

  lemma LaterReviewEdit(w: World, s: Step)
    requires Enabled(w, s) && StoreInv(w)
    requires s.CreateReview? || s.DeleteReview? || s.TouchReview?
    ensures Later(w, Environment(w, s))
  {
    var w' := Environment(w, s);
    if s.DeleteReview? {
      LaterRemoval(w, w');
    } else {
      assert s.k in w.store.reviews ==> CopyOk(w, s.k, w.store.reviews[s.k]);
      LaterReview(w, w', s.k, w'.store.reviews[s.k]);
    }
  }

  lemma LaterStep(w: World, s: Step)
    requires Enabled(w, s) && StoreInv(w)
    ensures Later(w, Apply(w, s))
  {
    if s.CallRequest? {
      LaterRequestCall(w, s.o);
    } else if s.CallReview? {
      LaterReviewCall(w, s.o);
    } else if s.CreateRequest? || s.DeleteRequest? || s.TouchRequest? {
      LaterRequestEdit(w, s);
    } else if s.CreateReview? || s.DeleteReview? || s.TouchReview? {
      LaterReviewEdit(w, s);
    } else {
      LaterSame(w, Apply(w, s));
    }
  }

  // ---------- the store keeps its invariant ----------

  lemma RequestsOkLater(w: World, w': World)
    requires RequestsOk(w) && Later(w, w')
    requires forall k :: k in w'.store.requests && k !in w.store.requests ==>
               k in w'.log.requestSpecs && w'.store.requests[k].spec == w'.log.requestSpecs[k]
    ensures RequestsOk(w')
  {
    forall k | k in w'.store.requests
      ensures k in w'.log.requestSpecs && w'.store.requests[k].spec == w'.log.requestSpecs[k]
      ensures w'.store.requests[k].version <= w'.store.rv
    {
      assert RequestEvolves(w, w', k);
    }
  }

  lemma CopiesOkLater(w: World, w': World)
    requires CopiesOk(w) && Later(w, w')
    requires forall k :: k in w'.store.reviews ==> (k, w'.store.reviews[k]) in w'.log.copies
    requires forall k, c :: (k, c) in w'.log.copies && (k, c) !in w.log.copies ==>
               k in w'.store.reviews && c == w'.store.reviews[k]
    requires forall k :: k in w'.store.reviews && k !in w.store.reviews ==>
               k in w'.log.reviewSpecs && w'.store.reviews[k].spec == w'.log.reviewSpecs[k]
    ensures CopiesOk(w')
  {
    forall k, c | (k, c) in w'.log.copies
      ensures CopyOk(w', k, c)
    {
      if k in w'.store.reviews {
        assert ReviewEvolves(w, w', k);
      }
      if (k, c) in w.log.copies {
        assert CopyOk(w, k, c);
      } else if k in w.store.reviews {
        assert CopyOk(w, k, w.store.reviews[k]);
      }
    }
  }

  lemma CopiesOkSame(w: World, w': World)
    requires CopiesOk(w) && Later(w, w')
    requires w'.log.copies == w.log.copies
    requires forall k :: k in w'.store.reviews ==> k in w.store.reviews && w'.store.reviews[k] == w.store.reviews[k]
    ensures CopiesOk(w')
  {
    CopiesOkLater(w, w');
  }

  /** What a call of the request reconciler leaves alone. */
  ghost predicate RequestFootprint(w: World, w': World) {
    && w'.review == w.review
    && w'.store.reviews == w.store.reviews
    && w'.store.deployments == w.store.deployments
    && w'.store.now == w.store.now && w'.store.ttl == w.store.ttl
    && w'.store.requests.Keys <= w.store.requests.Keys
    && w'.log == w.log.(events := w'.log.events, creations := w'.log.creations)
  }

  lemma RequestCallFootprint(w: World, o: Outcome)
    ensures RequestFootprint(w, RequestCall(w, o))
  {
    var w' := RequestCall(w, o);
    if Reads(w.request) {
      ReadsKeepStore(w, o);
    } else if w.request.ReqDelete? {
    } else if w.request.ReqCreateJob? {
    } else if w.request.ReqFinish? {
      assert w'.store == UpdateRequestStatus(w.store, w.request.key, w.request.base, w.request.st, o);
    } else {
      assert w'.store == UpdateRequestStatus(w.store, w.request.key, w.request.base, w.request.st, o);
    }
  }

  lemma RequestCallJobs(w: World, o: Outcome)
    requires JobsOk(w) && RequestPcInv(w)
    ensures JobsOk(RequestCall(w, o))
  {
    hide UserOf, Reading;
    var w' := RequestCall(w, o);
    if w.request.ReqCreateJob? {
      assert w'.store.jobs == w.store.jobs || w'.store.jobs == w.store.jobs[w.request.key := w.request.template];
    } else if Reads(w.request) {
      ReadsKeepStore(w, o);
    } else {
      assert w'.store.jobs == w.store.jobs && w'.log.creations == w.log.creations;
    }
  }

  lemma StoreInvRequestCall(w: World, w': World)
    requires StoreInv(w) && JobsOk(w') && RequestFootprint(w, w') && Later(w, w')
    ensures StoreInv(w')
  {
    RequestsOkLater(w, w');
    CopiesOkSame(w, w');
  }

  /** What a call of the review reconciler leaves alone. */
  ghost predicate ReviewFootprint(w: World, w': World) {
    && w'.request == w.request
    && w'.store.jobs == w.store.jobs
    && w'.store.deployments == w.store.deployments
    && w'.store.now == w.store.now && w'.store.ttl == w.store.ttl
    && w'.store.requests.Keys == w.store.requests.Keys
    && w'.store.reviews.Keys <= w.store.reviews.Keys
    && w'.log == w.log.(copies := w'.log.copies, decisions := w'.log.decisions, refused := w'.log.refused)
    && (forall k :: k in w'.store.reviews && w'.store.reviews[k] != w.store.reviews[k] ==>
          (k, w'.store.reviews[k]) in w'.log.copies)
    && (forall k, c :: (k, c) in w'.log.copies && (k, c) !in w.log.copies ==> k in w'.store.reviews && c == w'.store.reviews[k])
  }

  lemma ReviewCallFootprint(w: World, o: Outcome)
    ensures ReviewFootprint(w, ReviewCall(w, o))
  {
    var w' := ReviewCall(w, o);
    if w.review.RevDecide? {
      assert w'.store == UpdateRequestStatus(w.store, Target(w.review.key, w.review.review.spec), w.review.base, w.review.st, o);
    } else if w.review.RevSetState? {
      RevSetStateFootprint(w, o);
    }
  }

  lemma RevSetStateFootprint(w: World, o: Outcome)
    requires w.review.RevSetState?
    ensures ReviewFootprint(w, CallRevSetState(w, o))
  {
  }

  lemma OtherReviewCall(w: World, o: Outcome)
    requires !w.review.RevDecide?
    ensures var w' := ReviewCall(w, o);
            w'.store.requests == w.store.requests && w'.log.decisions == w.log.decisions
  {
  }

  /** The request after a decision on it. */
  function WithDecision(r: JobRequest, d: DecisionRecord): JobRequest {
    r.(version := d.at, status := r.status.(state := RequestStateOf(d.verdict), reviewName := d.review.name))
  }

  lemma DecisionLanding(w: World, o: Outcome)
    requires w.review.RevDecide? && ReviewPcInv(w)
    requires RequestWriteLands(w.store, Target(w.review.key, w.review.review.spec), w.review.base, o)
    ensures var d := DecisionRecord(Target(w.review.key, w.review.review.spec), w.review.key,
                                    w.review.review.spec.decision, w.store.rv + 1);
            var w' := CallDecide(w, o);
            && w'.log.decisions == w.log.decisions + [d]
            && w.store.requests[d.request].status.state == Pending
            && w'.store.requests == w.store.requests[d.request := WithDecision(w.store.requests[d.request], d)]
  {
    hide TwoPersons;
  }

  lemma StoreInvReviewCall(w: World, w': World)
    requires StoreInv(w) && ReviewFootprint(w, w') && Later(w, w')
    ensures StoreInv(w')
  {
    RequestsOkLater(w, w');
    CopiesOkLater(w, w');
  }

  predicate OfEnvironment(s: Step) {
    !OfRequestWorker(s) && !OfReviewWorker(s)
  }

  /** What the environment leaves alone. */
  ghost predicate EnvironmentFootprint(w: World, w': World) {
    && w'.request == w.request && w'.review == w.review
    && w'.log == w.log.(requestSpecs := w'.log.requestSpecs, reviewSpecs := w'.log.reviewSpecs, copies := w'.log.copies,
                        foreignJobs := w'.log.foreignJobs)
    && (forall k :: k in w'.store.requests ==>
          w'.store.requests[k].status == if k in w.store.requests then w.store.requests[k].status else EMPTY_STATUS)
    && (forall k :: k in w'.store.reviews ==>
          w'.store.reviews[k].state == if k in w.store.reviews then w.store.reviews[k].state else NoReviewState)
  }

  lemma EnvironmentKeeps(w: World, s: Step)
    requires Enabled(w, s) && OfEnvironment(s) && StoreInv(w)
    ensures EnvironmentFootprint(w, Environment(w, s))
  {
    if s.CreateRequest? {
      assert s.k !in w.store.requests;
    } else if s.CreateReview? {
      assert s.k in w.store.reviews ==> CopyOk(w, s.k, w.store.reviews[s.k]);
    }
  }

  lemma StoreInvEnvironment(w: World, s: Step)
    requires StoreInv(w) && Enabled(w, s) && OfEnvironment(s)
    ensures StoreInv(Environment(w, s))
  {
    var w' := Environment(w, s);
    LaterStep(w, s);
    if s.CreateReview? || s.TouchReview? {
      StoreInvReviewEdit(w, s);
    } else {
      RequestsOkLater(w, w');
      CopiesOkSame(w, w');
    }
  }

  lemma StoreInvReviewEdit(w: World, s: Step)
    requires StoreInv(w) && Enabled(w, s) && (s.CreateReview? || s.TouchReview?)
    ensures StoreInv(Environment(w, s))
  {
    var w' := Environment(w, s);
    LaterStep(w, s);
    RequestsOkLater(w, w');
    CopiesOkLater(w, w');
  }

  lemma StoreInvStep(w: World, s: Step)
    requires Inv(w) && Enabled(w, s)
    ensures StoreInv(Apply(w, s))
  {
    hide RequestCall, ReviewCall, RequestsOk, CopiesOk, HistoryInv, ReviewPcInv, RequestPcInv;
    var w' := Apply(w, s);
    if s.CallRequest? {
      LaterStep(w, s);
      RequestCallFootprint(w, s.o);
      RequestCallJobs(w, s.o);
      StoreInvRequestCall(w, w');
    } else if s.CallReview? {
      LaterStep(w, s);
      ReviewCallFootprint(w, s.o);
      StoreInvReviewCall(w, w');
    } else if OfEnvironment(s) {
      StoreInvEnvironment(w, s);
    } else {
      SameStoreInv(w, w');
    }
  }

  lemma SameStoreInv(w: World, w': World)
    requires StoreInv(w) && w'.store == w.store && w'.log == w.log
    ensures StoreInv(w')
  {
    assert forall k, c :: (k, c) in w.log.copies ==> CopyOk(w, k, c);
  }
}
