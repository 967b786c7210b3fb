/** How an undisturbed reconcile of a review ends, for every stored review and every store.  Each case is spelled out in
    terms of the stored objects alone. */
module ReviewEnds {
  import opened Resources
  import opened Protocol
  import opened PlainTerms
  import opened Rounds

  // ---------- before the request is looked for ----------

  lemma MarkEnds(w: World)
    requires w.review.RevSetState? && w.review.key in w.store.reviews
    requires w.store.reviews[w.review.key] == w.review.review && w.review.state != w.review.review.state
    ensures Marks(w.store, RunReview(w).store, w.review.key, w.review.state)
    ensures RunReview(w).log == w.log.(copies := RunReview(w).log.copies)
  {
    assert RunReview(w) == RunReview(ReviewCall(w, Ok)) == ReviewCall(w, Ok);
  }

  /** An expired review is deleted, whatever its state, and nothing else is touched; and no other review is deleted. */
  lemma ReviewPrunedExactly(w: World, v: Key)
    requires v in w.store.reviews
    ensures var s := w.store; var s' := ReconcileReview(w, v).store;
            && (v !in s'.reviews <==> s.now - s.reviews[v].created >= s.ttl)
            && (v !in s'.reviews ==> s' == s.(reviews := s.reviews - {v}))
  {
    hide UserOf, RunReview;
    var w0 := w.(review := AfterReadReview(w.store, v, w.store.reviews[v]));
    if w0.review.RevDelete? {
      ReviewRunUnfolds(w0);
      ReviewRunIdle(ReviewCall(w0, Ok));
    } else {
      RunReviewEnds(w0);
    }
  }

  /** A review that has a state is left as it is. */
  lemma MarkedIsLeft(w: World, v: Key)
    requires v in w.store.reviews && w.store.now - w.store.reviews[v].created < w.store.ttl
    requires w.store.reviews[v].state != NoReviewState
    ensures ReconcileReview(w, v).store == w.store
  {
    hide UserOf;
  }

  /** One without a reviewer becomes Malformed. */
  lemma UnnamedIsMalformed(w: World, v: Key)
    requires v in w.store.reviews && w.store.now - w.store.reviews[v].created < w.store.ttl
    requires w.store.reviews[v].state == NoReviewState && !Named(w.store.reviews[v].spec.reviewedBy)
    ensures Marks(w.store, ReconcileReview(w, v).store, v, ReviewMalformed)
  {
    hide UserOf, Named, RunReview;
    NamedIsUser(w.store.reviews[v].spec.reviewedBy);
    MarkEnds(w.(review := AfterReadReview(w.store, v, w.store.reviews[v])));
  }

  // ---------- what is found ----------

  /** Not expired, without a state, and by somebody. */
  ghost predicate Open(s: Store, v: Key) {
    && v in s.reviews && s.now - s.reviews[v].created < s.ttl
    && s.reviews[v].state == NoReviewState && Named(s.reviews[v].spec.reviewedBy)
  }

  /** The request it names, in its own namespace. */
  function Subject(s: Store, v: Key): Key
    requires v in s.reviews
  {
    Key(v.ns, s.reviews[v].spec.jobRequestName)
  }

  /** The request has been decided, and is in one of the states that follow. */
  ghost predicate DecidedState(state: RequestState) {
    state in {Approved, Rejected, Started, Complete, Failed}
  }

  lemma OpenIsLookedFor(w: World, v: Key)
    requires Open(w.store, v)
    ensures ReconcileReview(w, v) == RunReview(ReviewCall(w.(review := RevFindRequest(v, w.store.reviews[v])), Ok))
  {
    hide UserOf, Named, ReviewCall, RunReview;
    NamedIsUser(w.store.reviews[v].spec.reviewedBy);
    ReviewRunUnfolds(w.(review := RevFindRequest(v, w.store.reviews[v])));
  }

  /** A review of a request that is not stored is NotFound. */
  lemma NotFoundEnds(w: World, v: Key)
    requires Open(w.store, v) && Subject(w.store, v) !in w.store.requests
    ensures Marks(w.store, ReconcileReview(w, v).store, v, ReviewNotFound)
  {
    hide UserOf, Named, RunReview, ReconcileReview;
    OpenIsLookedFor(w, v);
    MarkEnds(ReviewCall(w.(review := RevFindRequest(v, w.store.reviews[v])), Ok));
  }

  /** A review of a Malformed request is Malformed, and so is one of a Pending request without a requester. */
  lemma MalformedEnds(w: World, v: Key)
    requires Open(w.store, v) && Subject(w.store, v) in w.store.requests
    requires var r := w.store.requests[Subject(w.store, v)];
             r.status.state == Malformed || (r.status.state == Pending && !Named(r.spec.requestedBy))
    ensures Marks(w.store, ReconcileReview(w, v).store, v, ReviewMalformed)
  {
    hide UserOf, Named, RunReview, ReconcileReview;
    OpenIsLookedFor(w, v);
    NamedIsUser(w.store.requests[Subject(w.store, v)].spec.requestedBy);
    MarkEnds(ReviewCall(w.(review := RevFindRequest(v, w.store.reviews[v])), Ok));
  }

  /** A review loses, by Conflict, against its own requester, against the review that decided before it, and against the Job
      that the request met. */
  lemma ConflictEnds(w: World, v: Key)
    requires Open(w.store, v) && Subject(w.store, v) in w.store.requests
    requires var r := w.store.requests[Subject(w.store, v)];
             || r.status.state == Conflicted
             || (r.status.state == Pending && SameUser(r.spec.requestedBy, w.store.reviews[v].spec.reviewedBy))
             || (DecidedState(r.status.state) && r.status.reviewName != v.name)
    ensures Marks(w.store, ReconcileReview(w, v).store, v, ReviewConflict)
  {
    hide UserOf, Named, SameUser, RunReview, ReconcileReview;
    OpenIsLookedFor(w, v);
    NamedIsUser(w.store.reviews[v].spec.reviewedBy);
    UsersAreCompared(w.store.requests[Subject(w.store, v)].spec, w.store.reviews[v].spec);
    MarkEnds(ReviewCall(w.(review := RevFindRequest(v, w.store.reviews[v])), Ok));
  }

  /** A review of a request without a state waits; one that has decided its request, and was not marked, stays unmarked. */
  lemma OpenIsLeft(w: World, v: Key)
    requires Open(w.store, v) && Subject(w.store, v) in w.store.requests
    requires var r := w.store.requests[Subject(w.store, v)];
             r.status.state == NoState || (DecidedState(r.status.state) && r.status.reviewName == v.name)
    ensures ReconcileReview(w, v).store == w.store
  {
    hide UserOf, Named, RunReview, ReconcileReview;
    OpenIsLookedFor(w, v);
    ReviewRunIdle(ReviewCall(w.(review := RevFindRequest(v, w.store.reviews[v])), Ok));
  }

  /** The request takes the decision and the name of its review, and then the review is marked; nothing else changes. */
  ghost predicate Decides(s: Store, s': Store, k: Key, v: Key, state: RequestState, mark: ReviewState)
    requires k in s.requests && v in s.reviews
  {
    var r := s.requests[k];
    && s'.requests == s.requests[k := r.(version := s.rv + 1, status := r.status.(state := state, reviewName := v.name))]
    && s'.reviews == s.reviews[v := s.reviews[v].(version := s.rv + 2, state := mark)]
    && s' == s.(rv := s.rv + 2, requests := s'.requests, reviews := s'.reviews)
  }

  /** A review of a Pending request, by another person than the requester, decides it. */
  lemma DecisionEnds(w: World, v: Key)
    requires Open(w.store, v) && Subject(w.store, v) in w.store.requests
    requires w.store.requests[Subject(w.store, v)].status.state == Pending
    requires TwoUsers(w.store.requests[Subject(w.store, v)].spec.requestedBy, w.store.reviews[v].spec.reviewedBy)
    ensures var s' := ReconcileReview(w, v).store; var k := Subject(w.store, v);
            match w.store.reviews[v].spec.decision
            case Approve => Decides(w.store, s', k, v, Approved, ReviewApproved)
            case Reject => Decides(w.store, s', k, v, Rejected, ReviewRejected)
  {
    hide UserOf, Named, TwoUsers, RunReview, ReconcileReview;
    OpenIsLookedFor(w, v);
    UsersAreCompared(w.store.requests[Subject(w.store, v)].spec, w.store.reviews[v].spec);
    var w1 := ReviewCall(w.(review := RevFindRequest(v, w.store.reviews[v])), Ok);
    assert w1.review.RevDecide?;
    ReviewRunUnfolds(w1);
    MarkEnds(ReviewCall(w1, Ok));
  }

  /** A failed look for the request leaves everything as it was. */
  lemma FailedFindIsLeft(w: World, o: Outcome)
    requires w.review.RevFindRequest? && !o.Ok?
    ensures RunReview(ReviewCall(w, o)).store == w.store && RunReview(ReviewCall(w, o)).log == w.log
  {
    hide UserOf;
    ReviewRunIdle(ReviewCall(w, o));
  }

  // ---------- all cases together ----------

  /** The state that the stored request calls for, in a review by somebody that has none; each with its exact condition. */
  ghost predicate Deserves(s: Store, v: Key, spec: ReviewSpec, mark: ReviewState) {
    var k := Key(v.ns, spec.jobRequestName);
    if k !in s.requests then mark == ReviewNotFound
    else
      var r := s.requests[k];
      match mark
      case ReviewNotFound => false
      case ReviewMalformed => r.status.state == Malformed || (r.status.state == Pending && !Named(r.spec.requestedBy))
      case ReviewConflict =>
        || r.status.state == Conflicted
        || (r.status.state == Pending && SameUser(r.spec.requestedBy, spec.reviewedBy))
        || (DecidedState(r.status.state) && r.status.reviewName != v.name)
      case ReviewApproved =>
        r.status.state == Pending && TwoUsers(r.spec.requestedBy, spec.reviewedBy) && spec.decision == Approve
      case ReviewRejected =>
        r.status.state == Pending && TwoUsers(r.spec.requestedBy, spec.reviewedBy) && spec.decision == Reject
      case NoReviewState => r.status.state == NoState || (DecidedState(r.status.state) && r.status.reviewName == v.name)
  }

  /** An open review has exactly that state after its reconcile. */
  lemma ReviewEndsExactly(w: World, v: Key)
    requires Open(w.store, v)
    ensures v in ReconcileReview(w, v).store.reviews
    ensures forall mark :: ReconcileReview(w, v).store.reviews[v].state == mark
                           <==> Deserves(w.store, v, w.store.reviews[v].spec, mark)
  {
    hide Named, ReconcileReview;
    var s, k := w.store, Subject(w.store, v);
    if k !in s.requests {
      NotFoundEnds(w, v);
    } else {
      var r := s.requests[k];
      match r.status.state
      case NoState => OpenIsLeft(w, v);
      case Pending =>
        if !Named(r.spec.requestedBy) {
          MalformedEnds(w, v);
        } else if SameUser(r.spec.requestedBy, s.reviews[v].spec.reviewedBy) {
          ConflictEnds(w, v);
        } else {
          DecisionEnds(w, v);
        }
      case Malformed => MalformedEnds(w, v);
      case Conflicted => ConflictEnds(w, v);
      case _ =>
        if r.status.reviewName == v.name {
          OpenIsLeft(w, v);
        } else {
          ConflictEnds(w, v);
        }
    }
  }
}
