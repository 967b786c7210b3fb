/** The JobRequestReview reconciler as it runs (internal/controller/jobrequestreview_controller.go), under the same
    discipline as the request reconciler: every call must be the protocol's next one. */
module ReviewReconciler {
  import opened Wrappers
  import opened UserIdentities
  import opened Resources
  import opened Protocol
  import opened PlainTerms
  import opened Clusters

  /** A review in memory: what was read, and the state about to be written. */
  class ReviewObject {
    const key: Key
    var spec: ReviewSpec
    var created: int
    var version: nat
    var state: ReviewState
    ghost var base: Review

    constructor (k: Key)
      ensures key == k
    {
      key := k;
    }

    method Fill(r: Review)
      modifies this
      ensures Holds(r)
    {
      spec, created, version, state := r.spec, r.created, r.version, r.state;
      base := r;
    }

    /** Unmodified since it was read. */
    ghost predicate Holds(r: Review)
      reads this
    {
      base == r && spec == r.spec && created == r.created && version == r.version && state == r.state
    }
  }

  // ---------- the API as the review reconciler calls it ----------

  ghost predicate OneReviewCall(before: seq<Step>, after: seq<Step>) {
    && before <= after
    && |ReviewSteps(after)| == |ReviewSteps(before)| + 1
    && ReviewSteps(before) <= ReviewSteps(after)
    && var call := ReviewSteps(after)[|ReviewSteps(before)|];
       call.CallReview? || call.ReadReview?
  }

  /** Some calls of the review reconciler. */
  ghost predicate ReviewCallsMade(before: seq<Step>, after: seq<Step>) {
    before <= after && OnlyCalls(ReviewSteps(before), ReviewSteps(after))
  }

  lemma ReviewCallsCompose(a: seq<Step>, b: seq<Step>, c: seq<Step>)
    requires ReviewCallsMade(a, b) && ReviewCallsMade(b, c)
    ensures ReviewCallsMade(a, c)
  {
  }

  lemma OneReviewCallIsCalls(a: seq<Step>, b: seq<Step>)
    requires OneReviewCall(a, b)
    ensures ReviewCallsMade(a, b)
  {
  }

  method PerformReview(c: Cluster, o: Outcome)
    requires c.Valid() && !c.world.review.RevIdle? && !c.world.review.RevGet?
    modifies c`world, c`worlds, c`steps
    ensures c.Valid() && c.world == ReviewCall(old(c.world), o) && OneReviewCall(old(c.steps), c.steps)
  {
    hide ReviewCall;
    AppendStep(c.steps, CallReview(o));
    c.Take(CallReview(o));
  }

  method StartReviewOf(c: Cluster, k: Key)
    requires c.Valid() && c.world.review == RevIdle
    modifies c`world, c`worlds, c`steps
    ensures c.Valid() && c.world.review == RevGet(k)
    ensures old(c.steps) <= c.steps && ReviewSteps(c.steps) == ReviewSteps(old(c.steps)) + [StartReview(k)]
  {
    hide Execution;
    c.OthersThanReview();
    AppendStep(c.steps, StartReview(k));
    c.Take(StartReview(k));
  }

  /** The cache answers with any copy there ever was, or with none. */
  method ApiReadReview(c: Cluster, k: Key) returns (copy: Option<Review>)
    requires c.Valid() && c.world.review == RevGet(k)
    modifies c`world, c`worlds, c`steps
    ensures c.Valid() && OneReviewCall(old(c.steps), c.steps)
    ensures c.world.review == if copy.Some? then AfterReadReview(c.world.store, k, copy.value) else RevIdle
  {
    hide Execution, UserOf;
    c.OthersThanReview();
    var known := set p | p in c.world.log.copies && p.0 == k;
    copy := None;
    var hit: bool := *;
    if hit && known != {} {
      var p :| p in known;
      copy := Some(p.1);
    }
    AppendStep(c.steps, ReadReview(copy));
    c.Take(ReadReview(copy));
  }

  method ApiDeleteReview(c: Cluster, k: Key) returns (ok: bool)
    requires c.Valid() && c.world.review == RevDelete(k)
    modifies c`world, c`worlds, c`steps
    ensures c.Valid() && OneReviewCall(old(c.steps), c.steps) && c.world.review == RevIdle
    ensures ok ==> k !in c.world.store.reviews
  {
    hide Execution;
    c.OthersThanReview();
    var o: Outcome := *;
    PerformReview(c, o);
    ok := o.Ok?;
  }

  /** Requests of that name in the namespace: none or one. */
  method ApiListRequests(c: Cluster, target: Key) returns (items: Option<seq<JobRequest>>)
    requires c.Valid() && c.world.review.RevFindRequest?
    requires Target(c.world.review.key, c.world.review.review.spec) == target
    modifies c`world, c`worlds, c`steps
    ensures c.Valid() && OneReviewCall(old(c.steps), c.steps)
    ensures var RevFindRequest(k, review) := old(c.world.review);
            c.world.review ==
            (if items.None? then RevIdle
             else if items.value == [] then RevSetState(k, review, ReviewNotFound)
             else AfterFindRequest(k, review, items.value[0]))
  {
    hide Execution, UserOf;
    c.OthersThanReview();
    var o: Outcome := *;
    items := if !o.Ok? then None
             else if target in c.world.store.requests then Some([c.world.store.requests[target]]) else Some([]);
    PerformReview(c, o);
  }

  /** Sends the request's new status. */
  method ApiUpdateRequest(c: Cluster, obj: RequestObject) returns (ok: bool)
    requires c.Valid() && c.world.review.RevDecide?
    requires Target(c.world.review.key, c.world.review.review.spec) == obj.key
    requires c.world.review.base == obj.base && c.world.review.st == obj.status && obj.version == obj.base.version
    modifies c`world, c`worlds, c`steps
    ensures c.Valid() && OneReviewCall(old(c.steps), c.steps)
    ensures var RevDecide(k, review, _, _) := old(c.world.review);
            && c.world.review == RevSetState(k, review, ReviewStateOf(review.spec.decision))
            && (ok ==> obj.key in c.world.store.requests && c.world.store.requests[obj.key].status == obj.status
                       && exists d :: d in c.world.log.decisions && d.review == k && d.request == obj.key)
  {
    hide Execution;
    c.OthersThanReview();
    var o: Outcome := *;
    ok := o.Ok? && obj.key in c.world.store.requests && c.world.store.requests[obj.key].version == obj.version;
    ghost var w := c.world;
    PerformReview(c, o);
    if ok {
      var RevDecide(k, review, base, st) := w.review;
      assert DecisionRecord(obj.key, k, review.spec.decision, c.world.store.rv) in c.world.log.decisions;
    }
  }

  /** Sends the review's state. */
  method ApiUpdateReview(c: Cluster, obj: ReviewObject) returns (ok: bool)
    requires c.Valid() && c.world.review == RevSetState(obj.key, obj.base, obj.state) && obj.version == obj.base.version
    modifies c`world, c`worlds, c`steps
    ensures c.Valid() && OneReviewCall(old(c.steps), c.steps) && c.world.review == RevIdle
    ensures ok ==> obj.key in c.world.store.reviews && c.world.store.reviews[obj.key].state == obj.state
  {
    hide Execution;
    c.OthersThanReview();
    var o: Outcome := *;
    ok := o.Ok? && obj.key in c.world.store.reviews && c.world.store.reviews[obj.key].version == obj.version;
    PerformReview(c, o);
  }

  // ---------- the reconciler ----------

  class JobRequestReviewReconciler {
    const cluster: Cluster
    const resourceTtl: int

    constructor (c: Cluster, ttl: int)
      ensures cluster == c && resourceTtl == ttl
    {
      cluster, resourceTtl := c, ttl;
    }

    method GetJobRequestReview(obj: ReviewObject) returns (found: bool)
      requires cluster.Valid() && cluster.world.review == RevGet(obj.key)
      modifies cluster`world, cluster`worlds, cluster`steps, obj
      ensures cluster.Valid() && ReviewCallsMade(old(cluster.steps), cluster.steps)
      ensures !found ==> cluster.world.review == RevIdle
      ensures found ==> obj.Holds(obj.base) && cluster.world.review == AfterReadReview(cluster.world.store, obj.key, obj.base)
    {
      hide Execution, OneReviewCall, ReviewCallsMade, UserOf;
      var copy := ApiReadReview(cluster, obj.key);
      OneReviewCallIsCalls(old(cluster.steps), cluster.steps);
      if copy.None? {
        return false;
      }
      obj.Fill(copy.value);
      return true;
    }

    /** Changes the state in memory, then in the store; a refused write is only logged. */
    method SetReviewState(obj: ReviewObject, state: ReviewState)
      requires cluster.Valid() && cluster.world.review == RevSetState(obj.key, obj.base, state)
      requires obj.version == obj.base.version
      modifies cluster`world, cluster`worlds, cluster`steps, obj`state
      ensures cluster.Valid() && ReviewCallsMade(old(cluster.steps), cluster.steps)
      ensures cluster.world.review == RevIdle && obj.state == state
    {
      hide Execution, OneReviewCall, ReviewCallsMade;
      obj.state := state;
      var ok := ApiUpdateReview(cluster, obj);
      OneReviewCallIsCalls(old(cluster.steps), cluster.steps);
    }

    method ValidateReviewedByAnnotation(obj: ReviewObject) returns (valid: bool)
      requires cluster.Valid() && obj.Holds(obj.base)
      requires cluster.world.review ==
               if UserOf(obj.base.spec.reviewedBy).None? then RevSetState(obj.key, obj.base, ReviewMalformed)
               else RevFindRequest(obj.key, obj.base)
      modifies cluster`world, cluster`worlds, cluster`steps, obj`state
      ensures cluster.Valid() && ReviewCallsMade(old(cluster.steps), cluster.steps)
      ensures valid ==> obj.Holds(obj.base) && cluster.world.review == RevFindRequest(obj.key, obj.base)
      ensures !valid ==> cluster.world.review == RevIdle
    {
      hide Execution, OneReviewCall, ParseUserIdentity;
      if obj.spec.reviewedBy.None? {
        SetReviewState(obj, ReviewMalformed);
        return false;
      }
      var identity := ParseUserIdentityFromARN(obj.spec.reviewedBy.value);
      if identity.None? {
        SetReviewState(obj, ReviewMalformed);
        return false;
      }
      return true;
    }

    method GetJobRequest(obj: ReviewObject) returns (items: Option<seq<JobRequest>>)
      requires cluster.Valid() && obj.Holds(obj.base) && obj.base.state == NoReviewState
      requires cluster.world.review == RevFindRequest(obj.key, obj.base)
      modifies cluster`world, cluster`worlds, cluster`steps, obj`state
      ensures cluster.Valid() && ReviewCallsMade(old(cluster.steps), cluster.steps)
      ensures items.None? || items.value == [] ==> cluster.world.review == RevIdle
      ensures items.Some? && items.value != [] ==>
                obj.Holds(obj.base) && cluster.world.review == AfterFindRequest(obj.key, obj.base, items.value[0])
    {
      hide Execution, OneReviewCall, ReviewCallsMade, UserOf;
      items := ApiListRequests(cluster, Key(obj.key.ns, obj.spec.jobRequestName));
      OneReviewCallIsCalls(old(cluster.steps), cluster.steps);
      if items.None? {
        return;
      }
      if items.value == [] && obj.state != ReviewNotFound {
        ghost var listed := cluster.steps;
        SetReviewState(obj, ReviewNotFound);
        ReviewCallsCompose(old(cluster.steps), listed, cluster.steps);
      }
    }

    /** Ends the reconcile unless both annotations name a user, and not the same one. */
    method ValidateReviewerAndRequesterDiffer(request: RequestObject, obj: ReviewObject) returns (differ: bool)
      requires cluster.Valid() && obj.Holds(obj.base) && request.Holds(request.base)
      requires request.base.status.state == Pending
      requires cluster.world.review == AfterFindRequest(obj.key, obj.base, request.base)
      modifies cluster`world, cluster`worlds, cluster`steps, obj`state
      ensures cluster.Valid() && ReviewCallsMade(old(cluster.steps), cluster.steps)
      ensures differ <==> TwoUsers(request.base.spec.requestedBy, obj.base.spec.reviewedBy)
      ensures differ ==> obj.Holds(obj.base) && cluster.world.review == old(cluster.world.review)
      ensures !differ ==> cluster.world.review == RevIdle
    {
      hide Execution, OneReviewCall, ParseUserIdentity;
      UsersAreCompared(request.base.spec, obj.base.spec);
      if request.spec.requestedBy.None? {
        SetReviewState(obj, ReviewMalformed);
        return false;
      }
      var requester := ParseUserIdentityFromARN(request.spec.requestedBy.value);
      if requester.None? {
        SetReviewState(obj, ReviewMalformed);
        return false;
      }
      if obj.spec.reviewedBy.None? {
        SetReviewState(obj, ReviewMalformed);
        return false;
      }
      var reviewer := ParseUserIdentityFromARN(obj.spec.reviewedBy.value);
      if reviewer.None? {
        SetReviewState(obj, ReviewMalformed);
        return false;
      }
      if reviewer.value.userName == requester.value.userName {
        SetReviewState(obj, ReviewConflict);
        return false;
      }
      return true;
    }

    method HandleReviewDecision(request: RequestObject, obj: ReviewObject)
      requires cluster.Valid() && obj.Holds(obj.base) && request.Holds(request.base) && obj.base.state == NoReviewState
      requires request.base.status.state == Pending && Target(obj.key, obj.base.spec) == request.key
      requires cluster.world.review == AfterFindRequest(obj.key, obj.base, request.base)
      modifies cluster`world, cluster`worlds, cluster`steps, obj`state, request`status
      ensures cluster.Valid() && ReviewCallsMade(old(cluster.steps), cluster.steps) && cluster.world.review == RevIdle
    {
      hide Execution, OneReviewCall, ReviewCallsMade, UserOf, TwoUsers;
      UsersAreCompared(request.base.spec, obj.base.spec);
      var differ := ValidateReviewerAndRequesterDiffer(request, obj);
      if !differ {
        return;
      }
      ghost var validated := cluster.steps;
      request.status := request.status.(state := RequestStateOf(obj.spec.decision));
      request.status := request.status.(reviewName := obj.key.name);
      var ok := ApiUpdateRequest(cluster, request);
      OneReviewCallIsCalls(validated, cluster.steps);
      ReviewCallsCompose(old(cluster.steps), validated, cluster.steps);
      ghost var decided := cluster.steps;
      if obj.state == NoReviewState {
        match obj.spec.decision
        case Approve => SetReviewState(obj, ReviewApproved);
        case Reject => SetReviewState(obj, ReviewRejected);
      }
      ReviewCallsCompose(old(cluster.steps), decided, cluster.steps);
    }

    method HandleReviewState(request: RequestObject, obj: ReviewObject)
      requires cluster.Valid() && obj.Holds(obj.base) && request.Holds(request.base) && obj.base.state == NoReviewState
      requires Target(obj.key, obj.base.spec) == request.key
      requires cluster.world.review == AfterFindRequest(obj.key, obj.base, request.base)
      modifies cluster`world, cluster`worlds, cluster`steps, obj`state, request`status
      ensures cluster.Valid() && ReviewCallsMade(old(cluster.steps), cluster.steps) && cluster.world.review == RevIdle
    {
      hide Execution, UserOf;
      match request.status.state
      case NoState =>
      case Malformed => SetReviewState(obj, ReviewMalformed);
      case Conflicted => SetReviewState(obj, ReviewConflict);
      case Pending => HandleReviewDecision(request, obj);
      case _ =>
        if request.status.WasReviewedBy(obj.key.name) {
          return;
        }
        SetReviewState(obj, ReviewConflict);
    }

    /** One complete reconcile: the steps the protocol takes from this start, in this order, and no others. */
    method Reconcile(req: Key)
      requires cluster.Valid() && cluster.world.review == RevIdle && resourceTtl == cluster.origin.store.ttl
      modifies cluster`world, cluster`worlds, cluster`steps
      ensures cluster.Valid() && cluster.world.review == RevIdle
      ensures old(cluster.steps) <= cluster.steps
      ensures OneReconcile(ReviewSteps(old(cluster.steps)), StartReview(req), ReviewSteps(cluster.steps))
    {
      hide Execution, OneReviewCall, UserOf;
      StartReviewOf(cluster, req);
      ghost var started := cluster.steps;
      var review := new ReviewObject(req);
      var found := GetJobRequestReview(review);
      if !found {
        return;
      }
      ghost var got := cluster.steps;
      TtlConstant(cluster);
      var age := cluster.world.store.now - review.created;
      if age >= resourceTtl {
        var deleted := ApiDeleteReview(cluster, req);
        OneReviewCallIsCalls(got, cluster.steps);
        ReviewCallsCompose(started, got, cluster.steps);
        return;
      }
      if review.state != NoReviewState {
        return;
      }
      ReconcileStateless(review);
      ReviewCallsCompose(started, got, cluster.steps);
    }

    /** The part of a reconcile after the review was found alive and without a state. */
    method ReconcileStateless(review: ReviewObject)
      requires cluster.Valid() && review.Holds(review.base) && review.base.state == NoReviewState
      requires cluster.world.review ==
               if UserOf(review.base.spec.reviewedBy).None? then RevSetState(review.key, review.base, ReviewMalformed)
               else RevFindRequest(review.key, review.base)
      modifies cluster`world, cluster`worlds, cluster`steps, review`state
      ensures cluster.Valid() && ReviewCallsMade(old(cluster.steps), cluster.steps) && cluster.world.review == RevIdle
    {
      hide Execution, OneReviewCall, UserOf;
      var valid := ValidateReviewedByAnnotation(review);
      if !valid {
        return;
      }
      ghost var validated := cluster.steps;
      var jobRequestList := GetJobRequest(review);
      ReviewCallsCompose(old(cluster.steps), validated, cluster.steps);
      if jobRequestList.None? {
        return;
      }
      if |jobRequestList.value| == 0 {
        return;
      }
      ghost var listed := cluster.steps;
      var jobRequest := new RequestObject(Key(review.key.ns, review.spec.jobRequestName));
      jobRequest.Fill(jobRequestList.value[0]);
      HandleReviewState(jobRequest, review);
      ReviewCallsCompose(old(cluster.steps), listed, cluster.steps);
    }
  }
}
