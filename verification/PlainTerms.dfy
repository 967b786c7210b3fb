/** The terms in which the theorems speak: what can be read off the stored objects.  No controller uses them; the lemmas
    below tie them to what the controllers compute. */
module PlainTerms {
  import opened Wrappers
  import opened UserIdentities
  import opened Resources
  import opened JobTemplates
  import opened Protocol

  // ---------- people ----------

  /** The annotation is there, and parses. */
  ghost predicate Named(annotation: Option<string>) {
    annotation.Some? && ParseUserIdentity(annotation.value).Some?
  }

  /** Both annotations name a user, and it is the same one. */
  ghost predicate SameUser(a: Option<string>, b: Option<string>) {
    Named(a) && Named(b) && ParseUserIdentity(a.value).value.userName == ParseUserIdentity(b.value).value.userName
  }

  /** Both annotations name a user, and not the same one. */
  ghost predicate TwoUsers(a: Option<string>, b: Option<string>) {
    Named(a) && Named(b) && ParseUserIdentity(a.value).value.userName != ParseUserIdentity(b.value).value.userName
  }

  lemma NamedIsUser(annotation: Option<string>)
    ensures Named(annotation) <==> UserOf(annotation).Some?
  {
    hide ParseUserIdentity;
  }

  lemma UsersAreCompared(request: RequestSpec, review: ReviewSpec)
    ensures TwoUsers(request.requestedBy, review.reviewedBy) <==> TwoPersons(request, review)
    ensures SameUser(request.requestedBy, review.reviewedBy)
            <==> UserOf(request.requestedBy).Some? && UserOf(request.requestedBy) == UserOf(review.reviewedBy)
  {
    hide ParseUserIdentity;
  }

  // ---------- a request and what belongs to it ----------

  /** The Deployment it names, in its own namespace, has the container it names. */
  ghost predicate Targeted(s: Store, k: Key, spec: RequestSpec) {
    var d := Key(k.ns, spec.deployment);
    d in s.deployments && exists c :: c in s.deployments[d].containers && c.name == spec.container
  }

  /** A review in the same namespace names it. */
  ghost predicate Reviewed(s: Store, k: Key) {
    exists v :: v in s.reviews && v.ns == k.ns && s.reviews[v].spec.jobRequestName == k.name
  }

  /** The Job has this condition, and it is true. */
  ghost predicate Reports(job: Job, kind: ConditionType) {
    Condition(kind, "True") in job.conditions
  }

  /** The last outcome that the conditions report, from the end; the state before, if they report none. */
  function LastOutcome(conditions: seq<Condition>, before: RequestState): RequestState {
    var n := |conditions|;
    if n == 0 then before
    else if conditions[n - 1] == Condition(JobComplete, "True") then Complete
    else if conditions[n - 1] == Condition(JobFailed, "True") then Failed
    else LastOutcome(conditions[..n - 1], before)
  }

  /** The Job of this request: the containers of the Deployment with the requested name, in their order, with the requested
      command and arguments and otherwise unchanged; never restarted, never retried, owned by the request. */
  ghost predicate BuiltFrom(job: Job, d: Deployment, k: Key, spec: RequestSpec, indices: seq<nat>) {
    && Selects(indices, d.containers, spec.container)
    && |job.containers| == |indices|
    && (forall i :: 0 <= i < |indices| ==>
          job.containers[i] == d.containers[indices[i]].(command := [spec.command], args := spec.args))
    && job.restartPolicy == Never && job.backoffLimit == 0 && job.owner == Some(k) && job.conditions == []
    && job.podLabels == map[] && job.podAnnotations == map[] && job.podRest == d.podRest
  }

  lemma TargetedIsListed(s: Store, k: Key, spec: RequestSpec)
    ensures Targeted(s, k, spec)
            <==> ListTargets(s, k, spec) != [] && TargetContainers(ListTargets(s, k, spec)[0].containers, spec) != []
  {
    var d := Key(k.ns, spec.deployment);
    if d in s.deployments {
      NoTargetContainer(s.deployments[d].containers, spec);
    }
  }

  lemma ReviewedIsListed(s: Store, k: Key)
    ensures Reviewed(s, k) <==> HasReview(s, k)
  {
  }

  lemma TemplateIsBuilt(d: Deployment, k: Key, spec: RequestSpec) returns (indices: seq<nat>)
    ensures BuiltFrom(JobTemplate(d, k, spec), d, k, spec, indices)
  {
    hide Selects, TargetContainers;
    indices := TargetContainersFilter(d.containers, spec);
  }

  // ---------- writes ----------

  /** The status of the request is written, if it is another one; everything else stays. */
  ghost predicate Writes(s: Store, s': Store, k: Key, st: RequestStatus)
    requires k in s.requests
  {
    if s.requests[k].status == st then s' == s
    else
      && s'.rv == s.rv + 1
      && s'.requests == s.requests[k := s.requests[k].(version := s.rv + 1, status := st)]
      && s'.reviews == s.reviews && s'.jobs == s.jobs && s'.deployments == s.deployments
      && s'.now == s.now && s'.ttl == s.ttl
  }

  /** The state of the review is written; everything else stays. */
  ghost predicate Marks(s: Store, s': Store, v: Key, state: ReviewState)
    requires v in s.reviews
  {
    && s'.rv == s.rv + 1
    && s'.reviews == s.reviews[v := s.reviews[v].(version := s.rv + 1, state := state)]
    && s'.requests == s.requests && s'.jobs == s.jobs && s'.deployments == s.deployments
    && s'.now == s.now && s'.ttl == s.ttl
  }

  // ---------- the loop over a Job's conditions ----------

  /** It passes over whatever is not a reported outcome, and writes at the first one that is. */
  lemma {:induction false} FinishesAt(k: Key, base: JobRequest, st: RequestStatus, conditions: seq<Condition>) returns (i: nat)
    ensures i <= |conditions|
    ensures forall j :: 0 <= j < i ==>
              conditions[j] != Condition(JobComplete, "True") && conditions[j] != Condition(JobFailed, "True")
    ensures i < |conditions| ==> Condition(JobComplete, "True") in conditions || Condition(JobFailed, "True") in conditions
    ensures i == |conditions| ==> NextFinish(k, base, st, conditions) == Next(ReqIdle, [])
    ensures i < |conditions| ==>
              exists state :: WritesOutcome(NextFinish(k, base, st, conditions), k, base, st, conditions, i, state)
    decreases |conditions|
  {
    if conditions == [] {
      i := 0;
    } else if Finished(conditions[0]) {
      i := 0;
      assert WritesOutcome(NextFinish(k, base, st, conditions), k, base, st, conditions, 0, FinishState(conditions[0]));
    } else {
      i := FinishesAt(k, base, st, conditions[1..]);
      if i < |conditions[1..]| {
        var state :| WritesOutcome(NextFinish(k, base, st, conditions[1..]), k, base, st, conditions[1..], i, state);
        assert conditions[1..][i + 1..] == conditions[i + 2..];
        assert WritesOutcome(NextFinish(k, base, st, conditions), k, base, st, conditions, i + 1, state);
      }
      i := i + 1;
    }
  }

  /** At condition `i` the outcome it reports is going to be written; it is recorded if the status does not have it yet. */
  ghost predicate WritesOutcome(next: Next, k: Key, base: JobRequest, st: RequestStatus, conditions: seq<Condition>, i: nat,
                                state: RequestState)
  {
    && i < |conditions|
    && (state == Complete || state == Failed)
    && conditions[i] == Condition(if state == Complete then JobComplete else JobFailed, "True")
    && next.pc == ReqFinish(k, base, st.(state := state), conditions[i + 1..])
    && next.events == if st.state == state then [] else [state]
  }
}
