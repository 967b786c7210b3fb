/** The JobRequest reconciler as it runs (internal/controller/jobrequest_controller.go).

    It works on an object in memory and calls a cluster that others change meanwhile.  Each call demands that the
    protocol's program counter is at that very call with these very arguments, so the code below takes exactly the
    steps of the protocol.
 */
module RequestReconciler {
  import opened Wrappers
  import opened UserIdentities
  import opened Resources
  import opened JobTemplates
  import opened Protocol
  import opened PlainTerms
  import opened Clusters

  // ---------- the API as the request reconciler calls it ----------

  ghost predicate Ready(c: Cluster)
    reads c
  {
    c.Valid() && c.Synced()
  }

  /** One call of the request reconciler; the others may have taken any steps before it. */
  ghost predicate OneCall(before: seq<Step>, after: seq<Step>) {
    && before <= after
    && |RequestSteps(after)| == |RequestSteps(before)| + 1
    && RequestSteps(before) <= RequestSteps(after)
    && RequestSteps(after)[|RequestSteps(before)|].CallRequest?
  }

  /** Some calls of the request reconciler. */
  ghost predicate Calls(before: seq<Step>, after: seq<Step>) {
    before <= after && OnlyCalls(RequestSteps(before), RequestSteps(after))
  }

  /** The protocol is at `next`, whose events are still to be recorded. */
  ghost predicate At(c: Cluster, k: Key, next: Next)
    reads c
  {
    c.Valid() && c.world.request == next.pc && c.world.log.events == Recorded(c.recorded, k, next.events)
  }

  method Perform(c: Cluster, o: Outcome)
    requires c.Valid() && !c.world.request.ReqIdle?
    modifies c`world, c`worlds, c`steps
    ensures c.Valid() && c.world == RequestCall(old(c.world), o) && OneCall(old(c.steps), c.steps)
  {
    hide RequestCall;
    AppendStep(c.steps, CallRequest(o));
    c.Take(CallRequest(o));
  }

  method Start(c: Cluster, k: Key)
    requires Ready(c) && c.world.request.ReqIdle?
    modifies c`world, c`worlds, c`steps
    ensures Ready(c) && c.world.request == ReqGet(k)
    ensures old(c.steps) <= c.steps && RequestSteps(c.steps) == RequestSteps(old(c.steps)) + [StartRequest(k)]
  {
    hide Execution;
    c.OthersThanRequest();
    AppendStep(c.steps, StartRequest(k));
    c.Take(StartRequest(k));
  }

  method RecordEvent(c: Cluster, k: Key, reason: RequestState)
    modifies c`recorded
    ensures c.recorded == Recorded(old(c.recorded), k, [reason])
  {
    c.recorded := Recorded(c.recorded, k, [reason]);
  }

  /** What follows a read of the request, at either place where it is read. */
  function AfterRead(pc: RequestPc, s: Store, r: JobRequest): Next
    requires pc.ReqGet? || pc.ReqGetAgain?
  {
    if pc.ReqGet? then Next(AfterGet(s, pc.key, r), []) else NextFinish(pc.key, r, r.status, pc.conditions)
  }

  method ApiGetRequest(c: Cluster, k: Key) returns (r: Option<JobRequest>)
    requires Ready(c) && (c.world.request.ReqGet? || c.world.request.ReqGetAgain?) && c.world.request.key == k
    modifies c`world, c`worlds, c`steps
    ensures OneCall(old(c.steps), c.steps)
    ensures At(c, k, if r.Some? then AfterRead(old(c.world.request), c.world.store, r.value) else Next(ReqIdle, []))
  {
    hide Execution, UserOf;
    c.OthersThanRequest();
    var o: Outcome := *;
    r := if o.Ok? && k in c.world.store.requests then Some(c.world.store.requests[k]) else None;
    Perform(c, o);
  }

  method ApiDeleteRequest(c: Cluster, k: Key) returns (ok: bool)
    requires Ready(c) && c.world.request == ReqDelete(k)
    modifies c`world, c`worlds, c`steps
    ensures OneCall(old(c.steps), c.steps) && Ready(c) && c.world.request == ReqIdle
    ensures ok ==> k !in c.world.store.requests
  {
    hide Execution, UserOf;
    c.OthersThanRequest();
    var o: Outcome := *;
    Perform(c, o);
    ok := o.Ok?;
  }

  method ApiListTargets(c: Cluster, k: Key, spec: RequestSpec) returns (items: Option<seq<Deployment>>)
    requires Ready(c) && c.world.request.ReqListTargets? && c.world.request.key == k && c.world.request.base.spec == spec
    modifies c`world, c`worlds, c`steps
    ensures OneCall(old(c.steps), c.steps) && Ready(c)
    ensures c.world.request ==
            if items.Some? then AfterListTargets(k, old(c.world.request.base), items.value) else ReqIdle
  {
    hide Execution, UserOf;
    c.OthersThanRequest();
    var o: Outcome := *;
    items := if o.Ok? then Some(ListTargets(c.world.store, k, spec)) else None;
    Perform(c, o);
  }

  method ApiListReviews(c: Cluster, k: Key) returns (listed: Listed)
    requires Ready(c) && c.world.request.ReqListReviews? && c.world.request.key == k
    modifies c`world, c`worlds, c`steps
    ensures OneCall(old(c.steps), c.steps)
    ensures At(c, k, AfterListReviews(k, old(c.world.request.base), old(c.world.request.template), listed))
  {
    hide Execution, UserOf;
    c.OthersThanRequest();
    var o: Outcome := *;
    listed := ReviewsListed(c.world.store, k, o);
    Perform(c, o);
  }

  /** What follows a look for the Job, at either place where it is looked for. */
  function AfterLookup(pc: RequestPc, found: Lookup, job: Job): Next
    requires pc.ReqGetNewJob? || pc.ReqGetRunningJob?
  {
    if pc.ReqGetNewJob? then AfterGetNewJob(pc.key, pc.base, pc.template, found)
    else Next(AfterGetRunningJob(pc.key, pc.base, if found.Present? then Some(job) else None), [])
  }

  const NO_JOB := Job([], map[], map[], "", Never, 0, None, [])

  method ApiGetJob(c: Cluster, k: Key) returns (found: Lookup, job: Job)
    requires Ready(c) && (c.world.request.ReqGetNewJob? || c.world.request.ReqGetRunningJob?) && c.world.request.key == k
    modifies c`world, c`worlds, c`steps
    ensures OneCall(old(c.steps), c.steps)
    ensures At(c, k, AfterLookup(old(c.world.request), found, job))
  {
    hide Execution, UserOf;
    c.OthersThanRequest();
    var o: Outcome := *;
    found := if !o.Ok? then LookupFailed else if k in c.world.store.jobs then Present else Absent;
    job := if found.Present? then c.world.store.jobs[k] else NO_JOB;
    Perform(c, o);
  }

  method ApiCreateJob(c: Cluster, k: Key, template: Job) returns (ok: bool)
    requires Ready(c) && c.world.request.ReqCreateJob? && c.world.request.key == k && c.world.request.template == template
    modifies c`world, c`worlds, c`steps
    ensures OneCall(old(c.steps), c.steps)
    ensures At(c, k, AfterCreateJob(k, old(c.world.request.base), ok))
    ensures ok ==> k in c.world.store.jobs && c.world.store.jobs[k] == template
  {
    hide Execution, UserOf;
    c.OthersThanRequest();
    var o: Outcome := *;
    ok := CreateLands(c.world.store, k, o) && o.Ok?;
    Perform(c, o);
  }

  /** What follows a status write. */
  function AfterUpdate(pc: RequestPc, base: JobRequest): Next
    requires pc.ReqSetState? || pc.ReqFinish?
  {
    if pc.ReqSetState? then Next(ReqIdle, []) else NextFinish(pc.key, base, pc.st, pc.rest)
  }

  /** Sends the object's status; an accepted update hands the stored object back. */
  method ApiUpdateStatus(c: Cluster, obj: RequestObject) returns (ok: bool)
    requires Ready(c) && (c.world.request.ReqSetState? || c.world.request.ReqFinish?)
    requires c.world.request.key == obj.key && c.world.request.base == obj.base && c.world.request.st == obj.status
    requires obj.version == obj.base.version
    modifies c`world, c`worlds, c`steps, obj
    ensures OneCall(old(c.steps), c.steps)
    ensures obj.status == old(obj.status) && obj.version == obj.base.version
    ensures At(c, obj.key, AfterUpdate(old(c.world.request), obj.base))
  {
    hide Execution, UserOf;
    c.OthersThanRequest();
    var o: Outcome := *;
    ghost var pc := c.world.request;
    ok := o.Ok? && obj.key in c.world.store.requests && c.world.store.requests[obj.key].version == obj.version;
    Perform(c, o);
    if ok {
      obj.Fill(c.world.store.requests[obj.key]);
    }
    assert pc.ReqSetState? ==> At(c, obj.key, AfterUpdate(pc, obj.base));
  }

  // ---------- the reconciler ----------

  lemma CallsCompose(a: seq<Step>, b: seq<Step>, c: seq<Step>)
    requires Calls(a, b) && Calls(b, c)
    ensures Calls(a, c)
  {
  }

  lemma OneCallIsCalls(a: seq<Step>, b: seq<Step>)
    requires OneCall(a, b)
    ensures Calls(a, b)
  {
  }

  class JobRequestReconciler {
    const cluster: Cluster
    const resourceTtl: int

    constructor (c: Cluster, ttl: int)
      ensures cluster == c && resourceTtl == ttl
    {
      cluster, resourceTtl := c, ttl;
    }

    method GetJobRequest(obj: RequestObject) returns (found: bool)
      requires Ready(cluster) && (cluster.world.request.ReqGet? || cluster.world.request.ReqGetAgain?)
      requires cluster.world.request.key == obj.key
      modifies cluster`world, cluster`worlds, cluster`steps, obj
      ensures Calls(old(cluster.steps), cluster.steps)
      ensures !found ==> Ready(cluster) && cluster.world.request == ReqIdle
      ensures found ==> obj.Holds(obj.base)
                        && At(cluster, obj.key, AfterRead(old(cluster.world.request), cluster.world.store, obj.base))
    {
      hide Execution, OneCall, Calls;
      var r := ApiGetRequest(cluster, obj.key);
      OneCallIsCalls(old(cluster.steps), cluster.steps);
      if r.None? {
        return false;
      }
      obj.Fill(r.value);
      return true;
    }

    /** Changes the state in memory, then in the store; a refused write is only logged. */
    method SetRequestState(obj: RequestObject, state: RequestState)
      requires Ready(cluster) && (cluster.world.request.ReqSetState? || cluster.world.request.ReqFinish?)
      requires cluster.world.request.key == obj.key && cluster.world.request.base == obj.base
      requires cluster.world.request.st == obj.status.(state := state)
      requires obj.version == obj.base.version
      modifies cluster`world, cluster`worlds, cluster`steps, obj
      ensures Calls(old(cluster.steps), cluster.steps)
      ensures obj.status == old(obj.status).(state := state) && obj.version == obj.base.version
      ensures At(cluster, obj.key, AfterUpdate(old(cluster.world.request), obj.base))
    {
      hide Execution, OneCall, Calls;
      obj.status := obj.status.(state := state);
      var ok := ApiUpdateStatus(cluster, obj);
      OneCallIsCalls(old(cluster.steps), cluster.steps);
    }

    method ValidateRequestedByAnnotation(obj: RequestObject) returns (valid: bool)
      requires Ready(cluster) && obj.Holds(obj.base)
      requires cluster.world.request ==
               if UserOf(obj.base.spec.requestedBy).None? then SetState(obj.key, obj.base, Malformed)
               else ReqListTargets(obj.key, obj.base)
      modifies cluster`world, cluster`worlds, cluster`steps, obj
      ensures Calls(old(cluster.steps), cluster.steps) && Ready(cluster)
      ensures valid ==> obj.Holds(obj.base) && cluster.world.request == ReqListTargets(obj.key, obj.base)
      ensures !valid ==> cluster.world.request == ReqIdle
    {
      hide Execution, OneCall, ParseUserIdentity;
      if obj.spec.requestedBy.None? {
        SetRequestState(obj, Malformed);
        return false;
      }
      var identity := ParseUserIdentityFromARN(obj.spec.requestedBy.value);
      if identity.None? {
        SetRequestState(obj, Malformed);
        return false;
      }
      return true;
    }

    method GetTargetResource(obj: RequestObject) returns (items: Option<seq<Deployment>>)
      requires Ready(cluster) && obj.Holds(obj.base) && cluster.world.request == ReqListTargets(obj.key, obj.base)
      modifies cluster`world, cluster`worlds, cluster`steps, obj
      ensures Calls(old(cluster.steps), cluster.steps) && Ready(cluster)
      ensures items.Some? && items.value != [] ==>
                obj.Holds(obj.base) && cluster.world.request == AfterListTargets(obj.key, obj.base, items.value)
      ensures items.None? || items.value == [] ==> cluster.world.request == ReqIdle
    {
      hide Execution, OneCall, Calls;
      items := ApiListTargets(cluster, obj.key, obj.spec);
      OneCallIsCalls(old(cluster.steps), cluster.steps);
      if items.None? {
        return;
      }
      if items.value == [] {
        ghost var listed := cluster.steps;
        SetRequestState(obj, Malformed);
        CallsCompose(old(cluster.steps), listed, cluster.steps);
      }
    }

    /** Works on a copy of the request, as the struct is passed by value. */
    method CreateJobTemplate(resource: Deployment, original: RequestObject) returns (template: Option<Job>)
      requires Ready(cluster) && original.Holds(original.base)
      requires cluster.world.request == AfterListTargets(original.key, original.base, [resource])
      modifies cluster`world, cluster`worlds, cluster`steps
      ensures Calls(old(cluster.steps), cluster.steps) && Ready(cluster)
      ensures template.Some? ==>
                && template.value == JobTemplate(resource, original.key, original.base.spec)
                && cluster.world.request == ReqListReviews(original.key, original.base, template.value)
                && exists indices :: BuiltFrom(template.value, resource, original.key, original.base.spec, indices)
      ensures template.None? ==> cluster.world.request == ReqIdle
      ensures template.None? <==> forall c :: c in resource.containers ==> c.name != original.base.spec.container
    {
      hide BuiltFrom;
      ghost var indices := TemplateIsBuilt(resource, original.key, original.base.spec);
      NoTargetContainer(resource.containers, original.base.spec);
      var jobRequest := new RequestObject.Copy(original);
      var containers := new Container[|resource.containers|](i requires 0 <= i < |resource.containers| => resource.containers[i]);
      assert containers[..] == resource.containers;
      var target := RetrieveContainersFromResource(containers, jobRequest.spec);
      if |target| == 0 {
        SetRequestState(jobRequest, Malformed);
        return None;
      }
      return Some(Job(target, map[], map[], resource.podRest, Never, 0, Some(jobRequest.key), []));
    }

    /** The state to act on; a failed or empty list of reviews counts as Pending. */
    method CalculateRequestState(obj: RequestObject) returns (state: RequestState)
      requires Ready(cluster) && obj.Holds(obj.base)
      requires cluster.world.request.ReqListReviews?
      requires cluster.world.request.key == obj.key && cluster.world.request.base == obj.base
      modifies cluster`world, cluster`worlds, cluster`steps, cluster`recorded
      ensures Calls(old(cluster.steps), cluster.steps)
      ensures state == Pending || state == obj.base.status.state
      ensures At(cluster, obj.key, HandleState(obj.key, obj.base, old(cluster.world.request.template), state))
    {
      hide Execution, OneCall, Calls;
      var listed := ApiListReviews(cluster, obj.key);
      OneCallIsCalls(old(cluster.steps), cluster.steps);
      if listed.ListFailed? {
        return Pending;
      }
      if listed.ListEmpty? {
        if obj.status.state == NoState {
          RecordEvent(cluster, obj.key, Pending);
          assert [Pending] + [] == [Pending];
          return Pending;
        }
        return Pending;
      }
      return obj.status.state;
    }

    method HandleApproved(obj: RequestObject, template: Job)
      requires Ready(cluster) && obj.Holds(obj.base) && cluster.world.request == ReqGetNewJob(obj.key, obj.base, template)
      modifies cluster, obj
      ensures Calls(old(cluster.steps), cluster.steps) && Ready(cluster) && cluster.world.request == ReqIdle
    {
      hide Execution, OneCall, Calls;
      var found, job := ApiGetJob(cluster, obj.key);
      OneCallIsCalls(old(cluster.steps), cluster.steps);
      ghost var looked := cluster.steps;
      match found
      case Absent =>
        RecordEvent(cluster, obj.key, Approved);
        var ok := ApiCreateJob(cluster, obj.key, template);
        OneCallIsCalls(looked, cluster.steps);
        CallsCompose(old(cluster.steps), looked, cluster.steps);
        ghost var created := cluster.steps;
        if !ok {
          SetRequestState(obj, Malformed);
        } else {
          obj.status := obj.status.(jobName := obj.key.name);
          RecordEvent(cluster, obj.key, Started);
          SetRequestState(obj, Started);
        }
        CallsCompose(old(cluster.steps), created, cluster.steps);
      case LookupFailed =>
      case Present =>
        SetRequestState(obj, Conflicted);
        CallsCompose(old(cluster.steps), looked, cluster.steps);
    }

    method HandleStarted(obj: RequestObject)
      requires Ready(cluster) && obj.Holds(obj.base) && cluster.world.request == ReqGetRunningJob(obj.key, obj.base)
      modifies cluster, obj
      ensures Calls(old(cluster.steps), cluster.steps) && Ready(cluster) && cluster.world.request == ReqIdle
    {
      hide Execution, OneCall, Calls;
      var found, job := ApiGetJob(cluster, obj.key);
      OneCallIsCalls(old(cluster.steps), cluster.steps);
      ghost var looked := cluster.steps;
      if !found.Present? {
        SetRequestState(obj, Malformed);
        CallsCompose(old(cluster.steps), looked, cluster.steps);
        return;
      }
      var again := GetJobRequest(obj);
      CallsCompose(old(cluster.steps), looked, cluster.steps);
      if !again {
        return;
      }
      ghost var reread := cluster.steps;
      FinishFromConditions(obj, job.conditions);
      CallsCompose(old(cluster.steps), reread, cluster.steps);
    }

    /** The loop over the Job's conditions, which writes as it goes. */
    method FinishFromConditions(obj: RequestObject, conditions: seq<Condition>)
      requires obj.version == obj.base.version
      requires At(cluster, obj.key, NextFinish(obj.key, obj.base, obj.status, conditions))
      modifies cluster, obj
      ensures Calls(old(cluster.steps), cluster.steps) && Ready(cluster) && cluster.world.request == ReqIdle
      ensures obj.status == old(obj.status).(state := LastOutcome(conditions, old(obj.status.state)))
    {
      hide Execution, OneCall;
      for i := 0 to |conditions|
        invariant Calls(old(cluster.steps), cluster.steps) && obj.version == obj.base.version
        invariant obj.status == old(obj.status).(state := LastOutcome(conditions[..i], old(obj.status.state)))
        invariant At(cluster, obj.key, NextFinish(obj.key, obj.base, obj.status, conditions[i..]))
      {
        var v := conditions[i];
        assert conditions[..i + 1][..i] == conditions[..i];
        if (v.kind == JobComplete || v.kind == JobFailed) && v.status == "True" {
          var state := if v.kind == JobComplete then Complete else Failed;
          if obj.status.state != state {
            RecordEvent(cluster, obj.key, state);
          }
          ghost var found := cluster.steps;
          SetRequestState(obj, state);
          CallsCompose(old(cluster.steps), found, cluster.steps);
        }
      }
      assert conditions[..|conditions|] == conditions;
    }

    method HandleRequestState(state: RequestState, obj: RequestObject, template: Job)
      requires obj.Holds(obj.base) && At(cluster, obj.key, HandleState(obj.key, obj.base, template, state))
      modifies cluster, obj
      ensures Calls(old(cluster.steps), cluster.steps) && Ready(cluster) && cluster.world.request == ReqIdle
    {
      hide Execution, OneCall;
      match state
      case Pending => SetRequestState(obj, Pending);
      case Approved => HandleApproved(obj, template);
      case Rejected => RecordEvent(cluster, obj.key, Rejected);
      case Started => HandleStarted(obj);
      case _ =>
    }

    /** One complete reconcile: the steps the protocol takes from this start, in this order, and no others. */
    method Reconcile(req: Key)
      requires Ready(cluster) && cluster.world.request == ReqIdle && resourceTtl == cluster.origin.store.ttl
      modifies cluster
      ensures Ready(cluster) && cluster.world.request == ReqIdle
      ensures old(cluster.steps) <= cluster.steps
      ensures OneReconcile(RequestSteps(old(cluster.steps)), StartRequest(req), RequestSteps(cluster.steps))
    {
      hide Execution, OneCall, UserOf;
      Start(cluster, req);
      ghost var started := cluster.steps;
      var jobRequest := new RequestObject(req);
      var found := GetJobRequest(jobRequest);
      if !found {
        return;
      }
      ghost var got := cluster.steps;
      TtlConstant(cluster);
      var age := cluster.world.store.now - jobRequest.created;
      if age >= resourceTtl {
        var deleted := ApiDeleteRequest(cluster, req);
        OneCallIsCalls(got, cluster.steps);
        CallsCompose(started, got, cluster.steps);
        return;
      }
      if Terminal(jobRequest.status.state) {
        return;
      }
      ReconcileLive(jobRequest);
      CallsCompose(started, got, cluster.steps);
    }

    /** The part of a reconcile after the request was found alive and unfinished. */
    method ReconcileLive(jobRequest: RequestObject)
      requires Ready(cluster) && jobRequest.Holds(jobRequest.base)
      requires cluster.world.request ==
               if UserOf(jobRequest.base.spec.requestedBy).None? then SetState(jobRequest.key, jobRequest.base, Malformed)
               else ReqListTargets(jobRequest.key, jobRequest.base)
      modifies cluster, jobRequest
      ensures Calls(old(cluster.steps), cluster.steps) && Ready(cluster) && cluster.world.request == ReqIdle
    {
      hide Execution, OneCall, UserOf, HandleState;
      var valid := ValidateRequestedByAnnotation(jobRequest);
      if !valid {
        return;
      }
      ghost var validated := cluster.steps;
      var resourceList := GetTargetResource(jobRequest);
      CallsCompose(old(cluster.steps), validated, cluster.steps);
      if resourceList.None? {
        return;
      }
      if |resourceList.value| == 0 {
        return;
      }
      ghost var targeted := cluster.steps;
      var jobTemplate := CreateJobTemplate(resourceList.value[0], jobRequest);
      CallsCompose(old(cluster.steps), targeted, cluster.steps);
      if jobTemplate.None? {
        return;
      }
      ghost var built := cluster.steps;
      var state := CalculateRequestState(jobRequest);
      CallsCompose(old(cluster.steps), built, cluster.steps);
      ghost var calculated := cluster.steps;
      HandleRequestState(state, jobRequest, jobTemplate.value);
      CallsCompose(old(cluster.steps), calculated, cluster.steps);
    }
  }
}
