/** The stored objects and the predicates over them (api/v1/jobrequest_types.go, api/v1/jobrequestreview_types.go). */
module Resources {
  import opened Wrappers
  import opened UserIdentities

  /** Namespace and name; an object keeps both for life. */
  datatype Key = Key(ns: string, name: string)

  // ---------- JobRequest ----------

  datatype RequestState =
    | NoState | Pending | Approved | Rejected | Started | Complete | Failed | Malformed | Conflicted

  datatype RequestSpec = RequestSpec(
    requestedBy: Option<string>,
    deployment: string,
    container: string,
    command: string,
    args: seq<string>)

  datatype RequestStatus = RequestStatus(jobName: string, state: RequestState, reviewName: string) {
    predicate HasBeenReviewed() {
      !(state == NoState || state == Pending || state == Malformed)
    }

    predicate HasBeenRejected() {
      state == Rejected
    }

    predicate HasBeenApproved() {
      HasBeenReviewed() && !HasBeenRejected()
    }

    predicate WasReviewedBy(review: string) {
      reviewName == review
    }
  }

  const EMPTY_STATUS := RequestStatus("", NoState, "")

  datatype JobRequest = JobRequest(spec: RequestSpec, created: int, version: nat, status: RequestStatus)

  predicate Undecided(s: RequestState) {
    s == NoState || s == Pending
  }

  predicate Terminal(s: RequestState) {
    s == Complete || s == Failed || s == Malformed || s == Conflicted
  }

  // ---------- JobRequestReview ----------

  datatype ReviewState = NoReviewState | ReviewApproved | ReviewRejected | ReviewMalformed | ReviewNotFound | ReviewConflict

  /** The two decisions the custom resource definition admits. */
  datatype Decision = Approve | Reject

  datatype ReviewSpec = ReviewSpec(jobRequestName: string, decision: Decision, reviewedBy: Option<string>)

  datatype Review = Review(spec: ReviewSpec, created: int, version: nat, state: ReviewState)

  function RequestStateOf(d: Decision): RequestState {
    if d.Approve? then Approved else Rejected
  }

  function ReviewStateOf(d: Decision): ReviewState {
    if d.Approve? then ReviewApproved else ReviewRejected
  }

  /** The request a review is about lives in the review's own namespace. */
  function Target(review: Key, spec: ReviewSpec): Key {
    Key(review.ns, spec.jobRequestName)
  }

  // ---------- people ----------

  /** The user behind an annotation; none when it is missing or does not parse. */
  function UserOf(annotation: Option<string>): Option<string> {
    if annotation.None? then None else
    var id := ParseUserIdentity(annotation.value);
    if id.None? then None else Some(id.value.userName)
  }

  /** Both annotations name a user, and not the same one. */
  predicate TwoPersons(request: RequestSpec, review: ReviewSpec) {
    && UserOf(request.requestedBy).Some?
    && UserOf(review.reviewedBy).Some?
    && UserOf(request.requestedBy) != UserOf(review.reviewedBy)
  }

  // ---------- Deployments and Jobs ----------

  /** The fields the operator never looks at are carried along in `rest`. */
  datatype Container = Container(name: string, command: seq<string>, args: seq<string>, rest: string)

  datatype Deployment = Deployment(
    containers: seq<Container>,
    podLabels: map<string, string>,
    podAnnotations: map<string, string>,
    podRest: string)

  datatype ConditionType = JobComplete | JobFailed | OtherCondition(name: string)

  datatype Condition = Condition(kind: ConditionType, status: string)

  predicate Finished(c: Condition) {
    (c.kind.JobComplete? || c.kind.JobFailed?) && c.status == "True"
  }

  function FinishState(c: Condition): RequestState
    requires Finished(c)
  {
    if c.kind.JobComplete? then Complete else Failed
  }

  /** A Job never reports both outcomes. */
  predicate OneOutcome(conditions: seq<Condition>) {
    forall i, j :: 0 <= i < j < |conditions| && Finished(conditions[i]) && Finished(conditions[j]) ==>
      conditions[i].kind == conditions[j].kind
  }

  datatype RestartPolicy = Never | Always | OnFailure

  datatype Job = Job(
    containers: seq<Container>,
    podLabels: map<string, string>,
    podAnnotations: map<string, string>,
    podRest: string,
    restartPolicy: RestartPolicy,
    backoffLimit: int,
    owner: Option<Key>,
    conditions: seq<Condition>)
}
