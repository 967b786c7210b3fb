/** The two reconcilers and everyone else, as a state machine over one shared API store.

    A reconcile is cut at its API calls.  A program counter names the next call and
    carries what the reconciler has read so far; everything a reconciler computes
    between two calls belongs to the step of the earlier one.
 */
module Protocol {
  import opened Wrappers
  import opened Resources
  import opened JobTemplates

  // ---------- the API store ----------

  /** `rv` is the store's last resource version; every effective write takes the next one. */
  datatype Store = Store(
    ttl: int,
    now: int,
    rv: nat,
    requests: map<Key, JobRequest>,
    reviews: map<Key, Review>,
    jobs: map<Key, Job>,
    deployments: map<Key, Deployment>)

  /** `FaultApplied` is a call that took effect although its caller is told that it failed. */
  datatype Outcome = Ok | Fault | FaultApplied

  /** A status update is accepted when the version it was computed from is still the stored one. */
  predicate RequestCurrent(s: Store, k: Key, base: JobRequest) {
    k in s.requests && s.requests[k].version == base.version
  }

  predicate ReviewCurrent(s: Store, k: Key, base: Review) {
    k in s.reviews && s.reviews[k].version == base.version
  }

  /** A write that changes nothing keeps the version. */
  function PutRequestStatus(s: Store, k: Key, st: RequestStatus): Store
    requires k in s.requests
  {
    if s.requests[k].status == st then s
    else s.(rv := s.rv + 1, requests := s.requests[k := s.requests[k].(version := s.rv + 1, status := st)])
  }

  function PutReviewState(s: Store, k: Key, st: ReviewState): Store
    requires k in s.reviews
  {
    if s.reviews[k].state == st then s
    else s.(rv := s.rv + 1, reviews := s.reviews[k := s.reviews[k].(version := s.rv + 1, state := st)])
  }

  predicate RequestWriteLands(s: Store, k: Key, base: JobRequest, o: Outcome) {
    !o.Fault? && RequestCurrent(s, k, base)
  }

  function UpdateRequestStatus(s: Store, k: Key, base: JobRequest, st: RequestStatus, o: Outcome): Store {
    if RequestWriteLands(s, k, base, o) then PutRequestStatus(s, k, st) else s
  }

  predicate ReviewWriteLands(s: Store, k: Key, base: Review, o: Outcome) {
    !o.Fault? && ReviewCurrent(s, k, base)
  }

  function UpdateReviewState(s: Store, k: Key, base: Review, st: ReviewState, o: Outcome): Store {
    if ReviewWriteLands(s, k, base, o) then PutReviewState(s, k, st) else s
  }

  predicate StateIs(s: Store, k: Key, state: RequestState) {
    k in s.requests && s.requests[k].status.state == state
  }

  function ListTargets(s: Store, k: Key, spec: RequestSpec): seq<Deployment> {
    var d := Key(k.ns, spec.deployment);
    if d in s.deployments then [s.deployments[d]] else []
  }

  /** The reviews of a request that are in the store. */
  predicate HasReview(s: Store, k: Key) {
    exists v :: v in s.reviews && Target(v, s.reviews[v].spec) == k
  }

  // ---------- history ----------

  datatype DecisionRecord = DecisionRecord(request: Key, review: Key, verdict: Decision, at: nat)

  /** What happened so far; no reconciler reads it, except that a cached read of a
      review may return any copy ever stored. */
  datatype Log = Log(
    requestSpecs: map<Key, RequestSpec>,
    reviewSpecs: map<Key, ReviewSpec>,
    copies: set<(Key, Review)>,
    decisions: seq<DecisionRecord>,
    refused: set<Key>,
    creations: seq<Key>,
    foreignJobs: set<Key>,
    events: map<Key, seq<RequestState>>)

  function EventsOf(events: map<Key, seq<RequestState>>, k: Key): seq<RequestState> {
    if k in events then events[k] else []
  }

  /** Normal events recorded on a request. */
  function Recorded(events: map<Key, seq<RequestState>>, k: Key, more: seq<RequestState>): map<Key, seq<RequestState>> {
    if more == [] then events else events[k := EventsOf(events, k) + more]
  }

  // ---------- the request reconciler ----------

  /** The next API call, with what was read before it: `base` is the request as last read, `st` the status to write. */
  datatype RequestPc =
    | ReqIdle
    | ReqGet(key: Key)
    | ReqDelete(key: Key)
    | ReqListTargets(key: Key, base: JobRequest)
    | ReqListReviews(key: Key, base: JobRequest, template: Job)
    | ReqGetNewJob(key: Key, base: JobRequest, template: Job)
    | ReqCreateJob(key: Key, base: JobRequest, template: Job)
    | ReqGetRunningJob(key: Key, base: JobRequest)
    | ReqGetAgain(key: Key, base: JobRequest, conditions: seq<Condition>)
    | ReqFinish(key: Key, base: JobRequest, st: RequestStatus, rest: seq<Condition>)
    | ReqSetState(key: Key, base: JobRequest, st: RequestStatus)

  /** Where a reconcile goes on, and the Normal events it records on the way. */
  datatype Next = Next(pc: RequestPc, events: seq<RequestState>)

  function SetState(k: Key, base: JobRequest, state: RequestState): RequestPc {
    ReqSetState(k, base, base.status.(state := state))
  }

  function AfterGet(s: Store, k: Key, r: JobRequest): RequestPc {
    if s.now - r.created >= s.ttl then ReqDelete(k)
    else if Terminal(r.status.state) then ReqIdle
    else if UserOf(r.spec.requestedBy).None? then SetState(k, r, Malformed)
    else ReqListTargets(k, r)
  }

  function AfterListTargets(k: Key, r: JobRequest, items: seq<Deployment>): RequestPc {
    if items == [] then SetState(k, r, Malformed)
    else if TargetContainers(items[0].containers, r.spec) == [] then SetState(k, r, Malformed)
    else ReqListReviews(k, r, JobTemplate(items[0], k, r.spec))
  }

  datatype Listed = ListFailed | ListEmpty | ListNonEmpty

  function CalculateState(r: JobRequest, reviews: Listed): RequestState {
    if reviews.ListNonEmpty? then r.status.state else Pending
  }

  /** The branches on the calculated state, up to their first call. */
  function HandleState(k: Key, r: JobRequest, template: Job, state: RequestState): Next {
    match state
    case Pending => Next(SetState(k, r, Pending), [])
    case Approved => Next(ReqGetNewJob(k, r, template), [])
    case Rejected => Next(ReqIdle, [Rejected])
    case Started => Next(ReqGetRunningJob(k, r), [])
    case _ => Next(ReqIdle, [])
  }

  function AfterListReviews(k: Key, r: JobRequest, template: Job, reviews: Listed): Next {
    var next := HandleState(k, r, template, CalculateState(r, reviews));
    if reviews.ListEmpty? && r.status.state == NoState then Next(next.pc, [Pending] + next.events) else next
  }

  datatype Lookup = LookupFailed | Absent | Present

  function AfterGetNewJob(k: Key, r: JobRequest, template: Job, job: Lookup): Next {
    match job
    case Absent => Next(ReqCreateJob(k, r, template), [Approved])
    case LookupFailed => Next(ReqIdle, [])
    case Present => Next(SetState(k, r, Conflicted), [])
  }

  function AfterCreateJob(k: Key, r: JobRequest, ok: bool): Next {
    if ok then Next(ReqSetState(k, r, r.status.(jobName := k.name, state := Started)), [Started])
    else Next(SetState(k, r, Malformed), [])
  }

  function AfterGetRunningJob(k: Key, r: JobRequest, job: Option<Job>): RequestPc {
    if job.None? then SetState(k, r, Malformed) else ReqGetAgain(k, r, job.value.conditions)
  }

  /** The loop over the Job's conditions, up to its next status write. */
  function NextFinish(k: Key, base: JobRequest, st: RequestStatus, conditions: seq<Condition>): (next: Next)
    ensures next.pc.ReqIdle? || next.pc.ReqFinish?
  {
    if conditions == [] then Next(ReqIdle, [])
    else if !Finished(conditions[0]) then NextFinish(k, base, st, conditions[1..])
    else
      var state := FinishState(conditions[0]);
      Next(ReqFinish(k, base, st.(state := state), conditions[1..]), if st.state != state then [state] else [])
  }

  // ---------- the review reconciler ----------

  datatype ReviewPc =
    | RevIdle
    | RevGet(key: Key)
    | RevDelete(key: Key)
    | RevFindRequest(key: Key, review: Review)
    | RevDecide(key: Key, review: Review, base: JobRequest, st: RequestStatus)
    | RevSetState(key: Key, review: Review, state: ReviewState)

  function AfterReadReview(s: Store, k: Key, review: Review): ReviewPc {
    if s.now - review.created >= s.ttl then RevDelete(k)
    else if review.state != NoReviewState then RevIdle
    else if UserOf(review.spec.reviewedBy).None? then RevSetState(k, review, ReviewMalformed)
    else RevFindRequest(k, review)
  }

  function AfterFindRequest(k: Key, review: Review, r: JobRequest): ReviewPc {
    match r.status.state
    case NoState => RevIdle
    case Malformed => RevSetState(k, review, ReviewMalformed)
    case Conflicted => RevSetState(k, review, ReviewConflict)
    case Pending =>
      if UserOf(r.spec.requestedBy).None? || UserOf(review.spec.reviewedBy).None? then RevSetState(k, review, ReviewMalformed)
      else if UserOf(r.spec.requestedBy) == UserOf(review.spec.reviewedBy) then RevSetState(k, review, ReviewConflict)
      else RevDecide(k, review, r, r.status.(state := RequestStateOf(review.spec.decision), reviewName := k.name))
    case _ => if r.status.WasReviewedBy(k.name) then RevIdle else RevSetState(k, review, ReviewConflict)
  }

  // ---------- the whole system ----------

  datatype World = World(store: Store, log: Log, request: RequestPc, review: ReviewPc)

  datatype Step =
    | StartRequest(k: Key)
    | CallRequest(o: Outcome)
    | CrashRequest
    | StartReview(k: Key)
    | ReadReview(copy: Option<Review>)
    | CallReview(o: Outcome)
    | CrashReview
    | CreateRequest(k: Key, requestSpec: RequestSpec)
    | DeleteRequest(k: Key)
    | TouchRequest(k: Key)
    | CreateReview(k: Key, reviewSpec: ReviewSpec)
    | DeleteReview(k: Key)
    | TouchReview(k: Key)
    | PutDeployment(k: Key, deployment: Deployment)
    | RemoveDeployment(k: Key)
    | CreateJob(k: Key, job: Job)
    | SetJobConditions(k: Key, conditions: seq<Condition>)
    | DeleteJob(k: Key)
    | Tick(n: nat)

  predicate OfRequestWorker(s: Step) {
    s.StartRequest? || s.CallRequest? || s.CrashRequest?
  }

  predicate OfReviewWorker(s: Step) {
    s.StartReview? || s.ReadReview? || s.CallReview? || s.CrashReview?
  }

  /** One worker per controller; a name is used once; users do not write statuses, specs or annotations. */
  predicate Enabled(w: World, s: Step) {
    match s
    case StartRequest(_) => w.request.ReqIdle?
    case CallRequest(_) => !w.request.ReqIdle?
    case CrashRequest => true
    case StartReview(_) => w.review.RevIdle?
    case ReadReview(copy) => w.review.RevGet? && (copy.Some? ==> (w.review.key, copy.value) in w.log.copies)
    case CallReview(_) => !w.review.RevIdle? && !w.review.RevGet?
    case CrashReview => true
    case CreateRequest(k, _) => k !in w.log.requestSpecs
    case DeleteRequest(k) => k in w.store.requests
    case TouchRequest(k) => k in w.store.requests
    case CreateReview(k, _) => k !in w.log.reviewSpecs
    case DeleteReview(k) => k in w.store.reviews
    case TouchReview(k) => k in w.store.reviews
    case PutDeployment(_, _) => true
    case RemoveDeployment(_) => true
    case CreateJob(k, job) => k !in w.store.jobs && OneOutcome(job.conditions)
    case SetJobConditions(k, conditions) => k in w.store.jobs && OneOutcome(conditions)
    case DeleteJob(k) => true
    case Tick(_) => true
  }

  function Resume(w: World, k: Key, next: Next): World {
    w.(request := next.pc, log := w.log.(events := Recorded(w.log.events, k, next.events)))
  }

  function CallGet(w: World, o: Outcome): World
    requires w.request.ReqGet?
  {
    var k := w.request.key;
    if o.Ok? && k in w.store.requests then w.(request := AfterGet(w.store, k, w.store.requests[k])) else w.(request := ReqIdle)
  }

  function CallDelete(w: World, o: Outcome): World
    requires w.request.ReqDelete?
  {
    var k := w.request.key;
    w.(request := ReqIdle, store := if o.Fault? then w.store else w.store.(requests := w.store.requests - {k}))
  }

  function CallListTargets(w: World, o: Outcome): World
    requires w.request.ReqListTargets?
  {
    var ReqListTargets(k, base) := w.request;
    if o.Ok? then w.(request := AfterListTargets(k, base, ListTargets(w.store, k, base.spec))) else w.(request := ReqIdle)
  }

  function ReviewsListed(s: Store, k: Key, o: Outcome): Listed {
    if !o.Ok? then ListFailed else if HasReview(s, k) then ListNonEmpty else ListEmpty
  }

  function CallListReviews(w: World, o: Outcome): World
    requires w.request.ReqListReviews?
  {
    var ReqListReviews(k, base, template) := w.request;
    Resume(w, k, AfterListReviews(k, base, template, ReviewsListed(w.store, k, o)))
  }

  function CallGetNewJob(w: World, o: Outcome): World
    requires w.request.ReqGetNewJob?
  {
    var ReqGetNewJob(k, base, template) := w.request;
    var found := if !o.Ok? then LookupFailed else if k in w.store.jobs then Present else Absent;
    Resume(w, k, AfterGetNewJob(k, base, template, found))
  }

  predicate CreateLands(s: Store, k: Key, o: Outcome) {
    !o.Fault? && k !in s.jobs
  }

  function CallCreateJob(w: World, o: Outcome): World
    requires w.request.ReqCreateJob?
  {
    var ReqCreateJob(k, base, template) := w.request;
    var lands := CreateLands(w.store, k, o);
    var w' := if lands
              then w.(store := w.store.(jobs := w.store.jobs[k := template]), log := w.log.(creations := w.log.creations + [k]))
              else w;
    Resume(w', k, AfterCreateJob(k, base, lands && o.Ok?))
  }

  function CallGetRunningJob(w: World, o: Outcome): World
    requires w.request.ReqGetRunningJob?
  {
    var ReqGetRunningJob(k, base) := w.request;
    var job := if o.Ok? && k in w.store.jobs then Some(w.store.jobs[k]) else None;
    w.(request := AfterGetRunningJob(k, base, job))
  }

  function CallGetAgain(w: World, o: Outcome): World
    requires w.request.ReqGetAgain?
  {
    var ReqGetAgain(k, base, conditions) := w.request;
    if o.Ok? && k in w.store.requests then
      var r := w.store.requests[k];
      Resume(w, k, NextFinish(k, r, r.status, conditions))
    else w.(request := ReqIdle)
  }

  /** An accepted update hands back the object as stored; a refused one leaves the local copy as it was sent. */
  function CallFinish(w: World, o: Outcome): World
    requires w.request.ReqFinish?
  {
    var ReqFinish(k, base, st, rest) := w.request;
    var store := UpdateRequestStatus(w.store, k, base, st, o);
    var base' := if o.Ok? && RequestWriteLands(w.store, k, base, o) then store.requests[k] else base;
    Resume(w.(store := store), k, NextFinish(k, base', st, rest))
  }

  function CallSetState(w: World, o: Outcome): World
    requires w.request.ReqSetState?
  {
    var ReqSetState(k, base, st) := w.request;
    w.(request := ReqIdle, store := UpdateRequestStatus(w.store, k, base, st, o))
  }

  function RequestCall(w: World, o: Outcome): World {
    match w.request
    case ReqIdle => w
    case ReqGet(_) => CallGet(w, o)
    case ReqDelete(_) => CallDelete(w, o)
    case ReqListTargets(_, _) => CallListTargets(w, o)
    case ReqListReviews(_, _, _) => CallListReviews(w, o)
    case ReqGetNewJob(_, _, _) => CallGetNewJob(w, o)
    case ReqCreateJob(_, _, _) => CallCreateJob(w, o)
    case ReqGetRunningJob(_, _) => CallGetRunningJob(w, o)
    case ReqGetAgain(_, _, _) => CallGetAgain(w, o)
    case ReqFinish(_, _, _, _) => CallFinish(w, o)
    case ReqSetState(_, _, _) => CallSetState(w, o)
  }

  function CallRevDelete(w: World, o: Outcome): World
    requires w.review.RevDelete?
  {
    var k := w.review.key;
    w.(review := RevIdle, store := if o.Fault? then w.store else w.store.(reviews := w.store.reviews - {k}))
  }

  function CallFindRequest(w: World, o: Outcome): World
    requires w.review.RevFindRequest?
  {
    var RevFindRequest(k, review) := w.review;
    var target := Target(k, review.spec);
    w.(review := if !o.Ok? then RevIdle
                 else if target !in w.store.requests then RevSetState(k, review, ReviewNotFound)
                 else AfterFindRequest(k, review, w.store.requests[target]))
  }

  function CallDecide(w: World, o: Outcome): World
    requires w.review.RevDecide?
  {
    var RevDecide(k, review, base, st) := w.review;
    var target := Target(k, review.spec);
    var store := UpdateRequestStatus(w.store, target, base, st, o);
    var log := if RequestWriteLands(w.store, target, base, o)
               then w.log.(decisions := w.log.decisions + [DecisionRecord(target, k, review.spec.decision, store.rv)])
               else w.log.(refused := w.log.refused + {k});
    w.(store := store, log := log, review := RevSetState(k, review, ReviewStateOf(review.spec.decision)))
  }

  function WithCopy(w: World, k: Key): World
    requires k in w.store.reviews
  {
    w.(log := w.log.(copies := w.log.copies + {(k, w.store.reviews[k])}))
  }

  function CallRevSetState(w: World, o: Outcome): World
    requires w.review.RevSetState?
  {
    var RevSetState(k, review, state) := w.review;
    var w' := w.(review := RevIdle, store := UpdateReviewState(w.store, k, review, state, o));
    if k in w'.store.reviews then WithCopy(w', k) else w'
  }

  function ReviewCall(w: World, o: Outcome): World {
    match w.review
    case RevIdle => w
    case RevGet(_) => w
    case RevDelete(_) => CallRevDelete(w, o)
    case RevFindRequest(_, _) => CallFindRequest(w, o)
    case RevDecide(_, _, _, _) => CallDecide(w, o)
    case RevSetState(_, _, _) => CallRevSetState(w, o)
  }

  /** What users and the rest of the cluster do. */
  function Environment(w: World, s: Step): World
    requires Enabled(w, s) && !OfRequestWorker(s) && !OfReviewWorker(s)
  {
    var st := w.store;
    match s
    case CreateRequest(k, spec) =>
      w.(store := st.(rv := st.rv + 1, requests := st.requests[k := JobRequest(spec, st.now, st.rv + 1, EMPTY_STATUS)]),
         log := w.log.(requestSpecs := w.log.requestSpecs[k := spec]))
    case DeleteRequest(k) => w.(store := st.(requests := st.requests - {k}))
    case TouchRequest(k) =>
      w.(store := st.(rv := st.rv + 1, requests := st.requests[k := st.requests[k].(version := st.rv + 1)]))
    case CreateReview(k, spec) =>
      WithCopy(w.(store := st.(rv := st.rv + 1, reviews := st.reviews[k := Review(spec, st.now, st.rv + 1, NoReviewState)]),
                  log := w.log.(reviewSpecs := w.log.reviewSpecs[k := spec])), k)
    case DeleteReview(k) => w.(store := st.(reviews := st.reviews - {k}))
    case TouchReview(k) =>
      WithCopy(w.(store := st.(rv := st.rv + 1, reviews := st.reviews[k := st.reviews[k].(version := st.rv + 1)])), k)
    case PutDeployment(k, d) => w.(store := st.(deployments := st.deployments[k := d]))
    case RemoveDeployment(k) => w.(store := st.(deployments := st.deployments - {k}))
    case CreateJob(k, job) =>
      w.(store := st.(jobs := st.jobs[k := job]), log := w.log.(foreignJobs := w.log.foreignJobs + {k}))
    case SetJobConditions(k, conditions) =>
      w.(store := st.(jobs := st.jobs[k := st.jobs[k].(conditions := conditions)]))
    case DeleteJob(k) => w.(store := st.(jobs := st.jobs - {k}))
    case Tick(n) => w.(store := st.(now := st.now + n))
    case _ => w
  }

  function Apply(w: World, s: Step): World
    requires Enabled(w, s)
  {
    match s
    case StartRequest(k) => w.(request := ReqGet(k))
    case CallRequest(o) => RequestCall(w, o)
    case CrashRequest => w.(request := ReqIdle)
    case StartReview(k) => w.(review := RevGet(k))
    case ReadReview(copy) =>
      w.(review := if copy.None? then RevIdle else AfterReadReview(w.store, w.review.key, copy.value))
    case CallReview(o) => ReviewCall(w, o)
    case CrashReview => w.(review := RevIdle)
    case _ => Environment(w, s)
  }

  function InitialWorld(ttl: int, now: int): World {
    World(Store(ttl, now, 0, map[], map[], map[], map[]),
          Log(map[], map[], {}, [], {}, [], {}, map[]), ReqIdle, RevIdle)
  }

  // ---------- runs ----------

  /** Any interleaving, from an empty store. */
  ghost predicate Execution(ws: seq<World>, steps: seq<Step>) {
    && |ws| == |steps| + 1
    && ws[0] == InitialWorld(ws[0].store.ttl, ws[0].store.now)
    && forall i :: 0 <= i < |steps| ==> Enabled(ws[i], steps[i]) && ws[i + 1] == Apply(ws[i], steps[i])
  }

  /** This step would take the review out of the store. */
  predicate RemovesReview(w: World, s: Step, k: Key) {
    && k in w.store.reviews
    && (s == DeleteReview(k) || (s.CallReview? && w.review == RevDelete(k) && !s.o.Fault?))
  }

  /** This step writes a decision to its request. */
  predicate LandsDecision(w: World, s: Step) {
    && s.CallReview? && w.review.RevDecide?
    && RequestWriteLands(w.store, Key(w.review.key.ns, w.review.review.spec.jobRequestName), w.review.base, s.o)
  }

  /** Listing the reviews of a decided request does not fail, a review is not removed while the request it names is
      stored, and a decision that lands comes from a review that is stored. */
  ghost predicate Steady(w: World, s: Step) {
    && (s.CallRequest? && w.request.ReqListReviews? && !Undecided(w.request.base.status.state) ==> s.o.Ok?)
    && (forall k :: RemovesReview(w, s, k) ==> Key(k.ns, w.store.reviews[k].spec.jobRequestName) !in w.store.requests)
    && (LandsDecision(w, s) ==> w.review.key in w.store.reviews)
  }

  /** The request reconciler is past its first read. */
  predicate Holding(pc: RequestPc) {
    !pc.ReqIdle? && !pc.ReqGet? && !pc.ReqDelete?
  }

  /** Steady, without fault or crash; only versions may conflict. */
  ghost predicate Truthful(w: World, s: Step) {
    && Steady(w, s)
    && (s.CallRequest? || s.CallReview? ==> s.o.Ok?)
    && !s.CrashRequest? && !s.CrashReview?
  }

  /** And nobody edits the labels of a request while it is being reconciled. */
  ghost predicate FaultFree(w: World, s: Step) {
    Truthful(w, s) && (s.TouchRequest? && Holding(w.request) ==> s.k != w.request.key)
  }

  ghost predicate SteadyRun(ws: seq<World>, steps: seq<Step>) {
    Execution(ws, steps) && forall i :: 0 <= i < |steps| ==> Steady(ws[i], steps[i])
  }

  ghost predicate TruthfulRun(ws: seq<World>, steps: seq<Step>) {
    Execution(ws, steps) && forall i :: 0 <= i < |steps| ==> Truthful(ws[i], steps[i])
  }

  ghost predicate FaultFreeRun(ws: seq<World>, steps: seq<Step>) {
    Execution(ws, steps) && forall i :: 0 <= i < |steps| ==> FaultFree(ws[i], steps[i])
  }

  /** Nobody deletes a Job. */
  ghost predicate JobKeepingRun(ws: seq<World>, steps: seq<Step>) {
    Execution(ws, steps) && forall i :: 0 <= i < |steps| ==> !steps[i].DeleteJob?
  }
}
