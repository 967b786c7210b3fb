/** Whole executions.  An undisturbed reconcile is one way to continue an execution; and from an empty store, concrete
    executions reach each of the moves that the two reconcilers make against a simpler promise. */
module Scenarios {
  import opened Wrappers
  import opened UserIdentities
  import opened Resources
  import opened JobTemplates
  import opened Protocol
  import opened PlainTerms
  import opened Invariants
  import opened Frames
  import opened Interference
  import opened Rounds
  import opened Clusters

  // ---------- undisturbed reconciles are executions ----------

  datatype Trace = Trace(worlds: seq<World>, steps: seq<Step>)

  ghost predicate Runs(t: Trace) {
    |t.worlds| == |t.steps| + 1 && Execution(t.worlds, t.steps)
  }

  function Last(t: Trace): World
    requires t.worlds != []
  {
    t.worlds[|t.worlds| - 1]
  }

  /** The execution `t` goes on to `t'`. */
  ghost predicate GoesOn(t: Trace, t': Trace) {
    Runs(t') && t.steps <= t'.steps && t.worlds <= t'.worlds
  }

  lemma Extend(t: Trace, s: Step) returns (t': Trace)
    requires Runs(t) && Enabled(Last(t), s)
    ensures GoesOn(t, t') && t'.steps == t.steps + [s] && t'.worlds == t.worlds + [Apply(Last(t), s)]
  {
    hide Apply, Enabled;
    AppendWorld(t.worlds, t.steps, s);
    t' := Trace(t.worlds + [Apply(Last(t), s)], t.steps + [s]);
  }

  lemma {:induction false} UndisturbedCalls(t: Trace) returns (t': Trace)
    requires Runs(t)
    ensures GoesOn(t, t') && Last(t') == RunRequest(Last(t))
    decreases Stage(Last(t).request), ToGo(Last(t).request)
  {
    hide RequestCall, Stage, ToGo, Execution;
    t' := t;
    if !Last(t).request.ReqIdle? {
      StageDrops(Last(t));
      t' := Extend(t, CallRequest(Ok));
      t' := UndisturbedCalls(t');
    }
  }

  /** Every execution with an idle request worker can go on with an undisturbed reconcile. */
  lemma UndisturbedRequest(t: Trace, k: Key) returns (t': Trace)
    requires Runs(t) && Last(t).request.ReqIdle?
    ensures GoesOn(t, t') && Last(t') == ReconcileRequest(Last(t), k)
  {
    hide Execution, RunRequest;
    t' := Extend(t, StartRequest(k));
    t' := UndisturbedCalls(t');
  }

  lemma {:induction false} UndisturbedReviewCalls(t: Trace) returns (t': Trace)
    requires Runs(t)
    ensures GoesOn(t, t') && Last(t') == RunReview(Last(t))
    decreases ReviewStage(Last(t).review)
  {
    hide Execution, UserOf, UpdateRequestStatus, UpdateReviewState;
    t' := t;
    if !Last(t).review.RevIdle? && !Last(t).review.RevGet? {
      t' := Extend(t, CallReview(Ok));
      t' := UndisturbedReviewCalls(t');
    }
  }

  /** The cache answers a new reconcile with this copy. */
  lemma ReadCopy(t: Trace, v: Key, copy: Review) returns (t': Trace)
    requires Runs(t) && Last(t).review.RevIdle? && (v, copy) in Last(t).log.copies
    ensures GoesOn(t, t') && Last(t') == Last(t).(review := AfterReadReview(Last(t).store, v, copy))
  {
    hide Execution, AfterReadReview;
    t' := Extend(t, StartReview(v));
    t' := Extend(t', ReadReview(Some(copy)));
  }

  /** And every execution with an idle review worker with an undisturbed reconcile from any copy there has been. */
  lemma UndisturbedReview(t: Trace, v: Key, copy: Review) returns (t': Trace)
    requires Runs(t) && Last(t).review.RevIdle? && (v, copy) in Last(t).log.copies
    ensures GoesOn(t, t')
    ensures Last(t') == RunReview(Last(t).(review := AfterReadReview(Last(t).store, v, copy)))
  {
    hide Execution, AfterReadReview, RunReview;
    t' := ReadCopy(t, v, copy);
    t' := UndisturbedReviewCalls(t');
  }

  // ---------- two people and one Deployment ----------

  const REQUEST := Key("apps", "request")
  const REVIEW := Key("apps", "review")
  const DEPLOYMENT := Key("apps", "web")

  function Developer(user: string): string {
    Render(Arn("", "123456789012", "assumed-role", user + "-" + "developer", "s"))
  }

  function RequestOfAlice(): RequestSpec {
    RequestSpec(Some(Developer("alice")), "web", "app", "run", [])
  }

  function ReviewByBob(d: Decision): ReviewSpec {
    ReviewSpec("request", d, Some(Developer("bob")))
  }

  const APP := Container("app", [], [], "")
  const WEB := Deployment([APP], map[], map[], "")

  lemma DeveloperIs(user: string)
    requires user in {"alice", "bob"}
    ensures UserOf(Some(Developer(user))) == Some(user)
  {
    hide Render, ValidAccountId;
    assert Clean(user) && "-" + "developer" == "-developer" && "-developer" == VALID_GDS_USERS_ROLES[3];
    GdsRoundTrip("", "123456789012", user, "developer", "s");
  }

  lemma AliceAndBob(d: Decision)
    ensures TwoPersons(RequestOfAlice(), ReviewByBob(d))
    ensures UserOf(RequestOfAlice().requestedBy).Some? && UserOf(ReviewByBob(d).reviewedBy).Some?
  {
    hide Developer, UserOf;
    DeveloperIs("alice");
    DeveloperIs("bob");
  }

  /** Both workers are idle, and Alice's request and its Deployment are there. */
  ghost predicate Setting(w: World) {
    && w.request.ReqIdle? && w.review.RevIdle? && w.store.now == 0 && w.store.ttl == 100
    && DEPLOYMENT in w.store.deployments && w.store.deployments[DEPLOYMENT] == WEB
    && REQUEST in w.store.requests
    && w.store.requests[REQUEST].spec == RequestOfAlice() && w.store.requests[REQUEST].created == 0
    && REQUEST !in w.store.jobs && w.log.foreignJobs == {}
  }

  lemma SettingIsSound(w: World)
    requires Setting(w)
    ensures SoundRequest(w.store, REQUEST)
  {
    hide Developer, UserOf, Named;
    AliceAndBob(Approve);
    NamedIsUser(RequestOfAlice().requestedBy);
    assert APP in w.store.deployments[DEPLOYMENT].containers;
  }

  /** The copy of Bob's review as he created it. */
  ghost predicate CopyOfBob(copy: Review, d: Decision) {
    copy.spec == ReviewByBob(d) && copy.created == 0 && copy.state == NoReviewState
  }

  lemma NothingYet() returns (t: Trace)
    ensures Runs(t) && Last(t) == InitialWorld(100, 0)
  {
    t := Trace([InitialWorld(100, 0)], []);
  }

  // ---------- a Pending request ----------

  /** Alice's request has no state yet, no Job, and no stored review. */
  ghost predicate Fresh(w: World) {
    Setting(w) && StateIs(w.store, REQUEST, NoState) && !Reviewed(w.store, REQUEST)
  }

  /** Nothing but the request is different. */
  ghost predicate SameReviews(w: World, w': World) {
    w'.store.reviews == w.store.reviews && w'.log.copies == w.log.copies && w'.log.reviewSpecs == w.log.reviewSpecs
  }

  /** Alice's request is created, next to its Deployment. */
  lemma CreatedIn(t: Trace) returns (t': Trace)
    requires Runs(t) && Last(t).request.ReqIdle? && Last(t).review.RevIdle?
    requires Last(t).store.now == 0 && Last(t).store.ttl == 100 && Last(t).store.jobs == map[]
    requires Last(t).log.foreignJobs == {} && REQUEST !in Last(t).log.requestSpecs
    ensures GoesOn(t, t') && Setting(Last(t')) && StateIs(Last(t').store, REQUEST, NoState)
    ensures SameReviews(Last(t), Last(t')) && Last(t').log.events == Last(t).log.events
  {
    hide Execution, Developer;
    t' := Extend(t, CreateRequest(REQUEST, RequestOfAlice()));
    t' := Extend(t', PutDeployment(DEPLOYMENT, WEB));
  }

  /** Its first reconcile makes it Pending. */
  lemma PendingIn(t: Trace) returns (t': Trace)
    requires Runs(t) && Fresh(Last(t))
    ensures GoesOn(t, t') && Setting(Last(t')) && StateIs(Last(t').store, REQUEST, Pending) && SameReviews(Last(t), Last(t'))
  {
    hide Execution, ReconcileListing, ReconcileRequest, SoundRequest, Reviewed;
    var w := Last(t);
    t' := UndisturbedRequest(t, REQUEST);
    SettingIsSound(w);
    PendingAfterReconcile(w, REQUEST, Ok);
    ListingWell(w, REQUEST);
    ReconcileEnds(w, REQUEST);
    ReconcileRequestKeepsOrigins(w, REQUEST);
    FirstReconcileCreatesNothing(w);
  }

  lemma FirstReconcileCreatesNothing(w: World)
    requires Fresh(w) && SoundRequest(w.store, REQUEST)
    ensures ReconcileRequest(w, REQUEST).store.jobs == w.store.jobs
  {
    hide Reviewed, HasReview, UserOf, Developer, Buildable, ListTargets, TargetContainers;
    BuildableIsChecked(w.store, REQUEST, w.store.requests[REQUEST].spec);
    ReviewedIsListed(w.store, REQUEST);
    var w0 := w.(request := ReqGet(REQUEST));
    var w1 := RequestCall(w0, Ok);
    var w2 := RequestCall(w1, Ok);
    var w3 := RequestCall(w2, Ok);
    assert w1.request.ReqListTargets? && w2.request.ReqListReviews? && w3.request.ReqSetState?;
    assert RunRequest(w0) == RunRequest(w1) == RunRequest(w2) == RunRequest(w3) == RequestCall(w3, Ok);
  }

  // ---------- an approval from the cache ----------

  /** Bob's review is created and deleted; then Alice's request is created and becomes Pending. */
  lemma PendingWithoutReview() returns (t: Trace, copy: Review)
    ensures Runs(t) && Setting(Last(t)) && StateIs(Last(t).store, REQUEST, Pending)
    ensures Last(t).store.reviews == map[] && (REVIEW, copy) in Last(t).log.copies && CopyOfBob(copy, Approve)
  {
    hide Execution, Developer;
    t := NothingYet();
    t := Extend(t, CreateReview(REVIEW, ReviewByBob(Approve)));
    copy := Last(t).store.reviews[REVIEW];
    t := Extend(t, DeleteReview(REVIEW));
    t := CreatedIn(t);
    t := PendingIn(t);
  }

  lemma ApprovedFromTheCache() returns (t: Trace)
    ensures Runs(t) && Setting(Last(t)) && StateIs(Last(t).store, REQUEST, Approved) && Last(t).store.reviews == map[]
  {
    hide Execution, Developer, RunReview, AfterReadReview, TwoPersons;
    var copy;
    t, copy := PendingWithoutReview();
    var w := Last(t);
    AliceAndBob(Approve);
    CopyIsRead(w.store, copy, Approve);
    var read := w.(review := AfterReadReview(w.store, REVIEW, copy));
    DecidesFromCopy(read, REQUEST, REVIEW, copy);
    RunReviewEnds(read);
    RunReviewKeepsOrigins(read);
    t := UndisturbedReview(t, REVIEW, copy);
  }

  /** A review that was deleted before the request was even created approves it; the next reconcile undoes that. */
  lemma CachedApprovalHappens() returns (t: Trace, i: nat)
    ensures Runs(t) && i < |t.worlds| && t.worlds[i].store.reviews == map[]
    ensures StateIs(t.worlds[i].store, REQUEST, Approved) && StateIs(Last(t).store, REQUEST, Pending)
  {
    hide Execution, ReconcileListing, ReconcileRequest, SoundRequest;
    var approved := ApprovedFromTheCache();
    i := |approved.worlds| - 1;
    SettingIsSound(Last(approved));
    PendingAfterReconcile(Last(approved), REQUEST, Ok);
    ListingWell(Last(approved), REQUEST);
    t := UndisturbedRequest(approved, REQUEST);
    assert t.worlds[i] == approved.worlds[i];
  }

  lemma CopyIsRead(s: Store, copy: Review, d: Decision)
    requires CopyOfBob(copy, d) && s.now == 0 && s.ttl == 100
    ensures AfterReadReview(s, REVIEW, copy) == RevFindRequest(REVIEW, copy)
  {
    hide UserOf, Developer;
    AliceAndBob(d);
    ReviewIsRead(s, REVIEW, copy);
  }

  // ---------- a decided request ----------

  /** Bob's review of the Pending request is stored and has no state. */
  lemma ReviewedIn(d: Decision) returns (t: Trace, copy: Review)
    ensures Runs(t) && Setting(Last(t)) && StateIs(Last(t).store, REQUEST, Pending)
    ensures REVIEW in Last(t).store.reviews && Last(t).store.reviews[REVIEW] == copy && CopyOfBob(copy, d)
    ensures (REVIEW, copy) in Last(t).log.copies
  {
    hide Execution, Developer;
    t := NothingYet();
    t := CreatedIn(t);
    t := PendingIn(t);
    t := Extend(t, CreateReview(REVIEW, ReviewByBob(d)));
    copy := Last(t).store.reviews[REVIEW];
  }

  /** Bob has decided, and his review is stored. */
  lemma DecidedIn(d: Decision) returns (t: Trace)
    ensures Runs(t) && Setting(Last(t)) && StateIs(Last(t).store, REQUEST, RequestStateOf(d))
    ensures Reviewed(Last(t).store, REQUEST)
  {
    hide Execution, Developer, RunReview, AfterReadReview, Reviewed;
    var copy;
    t, copy := ReviewedIn(d);
    var w := Last(t);
    AliceAndBob(d);
    t := UndisturbedReview(t, REVIEW, copy);
    var read := w.(review := AfterReadReview(w.store, REVIEW, copy));
    CopyIsRead(w.store, copy, d);
    DecidesFromCopy(read, REQUEST, REVIEW, copy);
    RunReviewEnds(read);
    RunReviewKeepsOrigins(read);
    ReviewIsThere(Last(t).store, REVIEW);
  }

  lemma ReviewIsThere(s: Store, v: Key)
    requires v in s.reviews
    ensures Reviewed(s, Key(v.ns, s.reviews[v].spec.jobRequestName))
  {
  }

  // ---------- a failed list of reviews ----------

  /** One failed list turns an Approved request, whose review is stored, back to Pending. */
  lemma FailedListHappens() returns (t: Trace, i: nat)
    ensures Runs(t) && i < |t.worlds| && Reviewed(t.worlds[i].store, REQUEST)
    ensures StateIs(t.worlds[i].store, REQUEST, Approved) && StateIs(Last(t).store, REQUEST, Pending)
  {
    hide Execution, Developer, RunRequest, Reviewed, HasReview, UserOf, Buildable, ListTargets, TargetContainers;
    t := DecidedIn(Approve);
    var w, decided := Last(t), t;
    i := |t.worlds| - 1;
    SettingIsSound(w);
    BuildableIsChecked(w.store, REQUEST, w.store.requests[REQUEST].spec);
    PendingAfterReconcile(w, REQUEST, Fault);
    t := Extend(t, StartRequest(REQUEST));
    t := Extend(t, CallRequest(Ok));
    t := Extend(t, CallRequest(Ok));
    t := Extend(t, CallRequest(Fault));
    t := UndisturbedCalls(t);
    assert t.worlds[i] == decided.worlds[i];
  }

  // ---------- a rejected request ----------

  /** A Rejected request whose Deployment is removed becomes Malformed. */
  lemma RejectedMalformedHappens() returns (t: Trace, i: nat)
    ensures Runs(t) && i < |t.worlds|
    ensures StateIs(t.worlds[i].store, REQUEST, Rejected) && StateIs(Last(t).store, REQUEST, Malformed)
  {
    hide Execution, Developer, ReconcileRequest, Reviewed, UserOf;
    t := DecidedIn(Reject);
    var decided := t;
    i := |t.worlds| - 1;
    t := Extend(t, RemoveDeployment(DEPLOYMENT));
    RejectedAfterReconcile(Last(t), REQUEST);
    t := UndisturbedRequest(t, REQUEST);
    assert t.worlds[i] == decided.worlds[i];
  }

  // ---------- an edit between the Job and the Started write ----------

  /** Get, list of targets, list of reviews, and the look for the Job: all of them only read. */
  lemma FourCalls(w: World)
    requires w.request == ReqGet(REQUEST) && StateIs(w.store, REQUEST, Approved) && SoundRequest(w.store, REQUEST)
    requires Reviewed(w.store, REQUEST) && REQUEST !in w.store.jobs
    ensures var w1 := RequestCall(w, Ok); var w2 := RequestCall(w1, Ok);
            var w3 := RequestCall(w2, Ok); var w4 := RequestCall(w3, Ok);
            && w1.request.ReqListTargets? && w2.request.ReqListReviews? && w3.request.ReqGetNewJob?
            && w4.request.ReqCreateJob? && w4.request.key == REQUEST && w4.request.base == w.store.requests[REQUEST]
            && w4.store == w.store && w4.log == w.log.(events := w4.log.events)
  {
    hide Reviewed, HasReview, UserOf, Buildable, ListTargets, TargetContainers;
    BuildableIsChecked(w.store, REQUEST, w.store.requests[REQUEST].spec);
    ReviewedIsListed(w.store, REQUEST);
  }

  /** The calls of a reconcile of an Approved request, up to its Started write. */
  lemma CreatesTheJob(t: Trace) returns (t': Trace)
    requires Runs(t) && Setting(Last(t)) && StateIs(Last(t).store, REQUEST, Approved) && Reviewed(Last(t).store, REQUEST)
    ensures GoesOn(t, t') && AboutToWriteStarted(Last(t'), REQUEST) && SoundRequest(Last(t').store, REQUEST)
    ensures REQUEST in Last(t').log.creations && Last(t').log.foreignJobs == {}
  {
    hide Execution, Reviewed, SoundRequest, RequestCall, AboutToWriteStarted;
    SettingIsSound(Last(t));
    CurrentVersion(t);
    t' := Extend(t, StartRequest(REQUEST));
    FourCalls(Last(t'));
    t' := Extend(t', CallRequest(Ok));
    t' := Extend(t', CallRequest(Ok));
    t' := Extend(t', CallRequest(Ok));
    t' := Extend(t', CallRequest(Ok));
    JobIsCreated(Last(t'));
    t' := Extend(t', CallRequest(Ok));
  }

  lemma JobIsCreated(w: World)
    requires w.request.ReqCreateJob? && w.request.key == REQUEST && REQUEST !in w.store.jobs && REQUEST in w.store.requests
    requires SoundRequest(w.store, REQUEST) && Reviewed(w.store, REQUEST)
    requires w.store.requests[REQUEST] == w.request.base && w.request.base.status.state == Approved
    requires w.request.base.version <= w.store.rv
    ensures var w' := RequestCall(w, Ok);
            && AboutToWriteStarted(w', REQUEST) && SoundRequest(w'.store, REQUEST)
            && REQUEST in w'.log.creations && w'.log.foreignJobs == w.log.foreignJobs
  {
    hide Reviewed, Named;
    ReviewStays(w.store, RequestCall(w, Ok).store, REQUEST);
  }

  lemma CurrentVersion(t: Trace)
    requires Runs(t) && REQUEST in Last(t).store.requests
    ensures Last(t).store.requests[REQUEST].version <= Last(t).store.rv
  {
    InvAlways(t.worlds, t.steps, |t.steps|);
  }

  /** The refused write, one label edit after the creation. */
  lemma RefusedStarted() returns (t: Trace, i: nat)
    ensures Runs(t) && i + 1 == |t.steps| && t.steps[i] == CallRequest(Ok)
    ensures t.worlds[i].request.ReqSetState? && t.worlds[i].request.key == REQUEST && t.worlds[i].request.st.state == Started
    ensures REQUEST in t.worlds[i].store.requests && t.worlds[i + 1].store == t.worlds[i].store
    ensures StateIs(ReconcileRequest(Last(t), REQUEST).store, REQUEST, Conflicted) && Last(t).request.ReqIdle?
    ensures REQUEST in Last(t).log.creations && Last(t).log.foreignJobs == {}
  {
    hide Execution, Reviewed, ReconcileRequest, SoundRequest, RequestCall;
    t := DecidedIn(Approve);
    t := CreatesTheJob(t);
    EditedRequestDisownsItsJob(Last(t), REQUEST);
    t := Extend(t, TouchRequest(REQUEST));
    i := |t.steps|;
    WriteEnds(Last(t));
    t := Extend(t, CallRequest(Ok));
  }

  lemma WriteEnds(w: World)
    requires w.request.ReqSetState?
    ensures var w' := RequestCall(w, Ok); w'.request.ReqIdle? && w'.log == w.log
  {
  }

  /** The Started write is refused after an edit of labels, and the request ends Conflicted over the controller's own Job:
      nobody else has created any. */
  lemma DisownedJobHappens() returns (t: Trace, i: nat)
    ensures Runs(t) && i < |t.steps| && t.steps[i] == CallRequest(Ok)
    ensures t.worlds[i].request.ReqSetState? && t.worlds[i].request.key == REQUEST && t.worlds[i].request.st.state == Started
    ensures REQUEST in t.worlds[i].store.requests && t.worlds[i + 1].store == t.worlds[i].store
    ensures StateIs(Last(t).store, REQUEST, Conflicted)
    ensures REQUEST in Last(t).log.creations && Last(t).log.foreignJobs == {}
  {
    hide Execution, ReconcileRequest;
    var refused;
    refused, i := RefusedStarted();
    ReconcileEnds(Last(refused), REQUEST);
    t := UndisturbedRequest(refused, REQUEST);
    CreationsGrow(t, |refused.worlds| - 1);
    assert t.worlds[i] == refused.worlds[i] && t.worlds[i + 1] == refused.worlds[i + 1];
  }

  lemma CreationsGrow(t: Trace, i: nat)
    requires Runs(t) && i < |t.worlds|
    ensures t.worlds[i].log.creations <= Last(t).log.creations
  {
    LaterOver(t.worlds, t.steps, i, |t.worlds| - 1);
  }

  // ---------- a review that is marked although its decision was refused ----------

  /** A label edit between the review controller's read and its write: the review says Approved, the request is Pending. */
  lemma MarkedThoughRefusedHappens() returns (t: Trace)
    ensures Runs(t) && StateIs(Last(t).store, REQUEST, Pending)
    ensures REVIEW in Last(t).store.reviews && Last(t).store.reviews[REVIEW].state == ReviewApproved
  {
    hide Execution, AfterReadReview, RunReview, ReviewCall, UserOf;
    var copy;
    t, copy := AboutToDecide(Approve);
    t := Extend(t, TouchRequest(REQUEST));
    t := DecidesWithOutcome(t, Ok);
  }

  /** A failed call does the same, although the request is current. */
  lemma MarkedThoughFailedHappens() returns (t: Trace)
    ensures Runs(t) && StateIs(Last(t).store, REQUEST, Pending)
    ensures REVIEW in Last(t).store.reviews && Last(t).store.reviews[REVIEW].state == ReviewApproved
  {
    hide Execution, AfterReadReview, RunReview, ReviewCall, UserOf;
    var copy;
    t, copy := AboutToDecide(Approve);
    t := DecidesWithOutcome(t, Fault);
  }

  lemma DecidesWithOutcome(t: Trace, o: Outcome) returns (t': Trace)
    requires Runs(t) && Last(t).review.RevDecide? && Last(t).review.key in Last(t).store.reviews
    requires Last(t).store.reviews[Last(t).review.key] == Last(t).review.review
    ensures GoesOn(t, t')
    ensures var w := Last(t); var s' := Last(t').store; var v := w.review.key; var spec := w.review.review.spec;
            && v in s'.reviews
            && s'.reviews[v].state == (match spec.decision case Approve => ReviewApproved case Reject => ReviewRejected)
            && var k := Key(v.ns, spec.jobRequestName);
               if !o.Fault? && RequestCurrent(w.store, k, w.review.base)
               then StateIs(s', k, match spec.decision case Approve => Approved case Reject => Rejected)
               else s'.requests == w.store.requests
  {
    hide Execution, RunReview, ReviewCall, Apply, Enabled;
    InvAlways(t.worlds, t.steps, |t.steps|);
    ReviewPcHolds(Last(t), o);
    MarkedEvenIfRefused(Last(t), o);
    t' := Extend(t, CallReview(o));
    t' := UndisturbedReviewCalls(t');
  }

  lemma ReviewPcHolds(w: World, o: Outcome)
    requires Inv(w) && w.review.RevDecide?
    ensures ReviewPcInv(w) && Enabled(w, CallReview(o)) && Apply(w, CallReview(o)) == ReviewCall(w, o)
  {
    hide StoreInv, HistoryInv, RequestPcInv, ReviewPcInv, ReviewCall;
  }

  lemma AboutToDecide(d: Decision) returns (t: Trace, copy: Review)
    ensures Runs(t) && Last(t).request.ReqIdle? && StateIs(Last(t).store, REQUEST, Pending) && REVIEW in Last(t).store.reviews
    ensures Last(t).store.requests[REQUEST].version <= Last(t).store.rv
    ensures Last(t).store.now == 0 && Last(t).store.ttl == 100 && Last(t).store.requests[REQUEST].created == 0
    ensures Last(t).store.requests[REQUEST].spec == RequestOfAlice()
    ensures CopyOfBob(copy, d) && Last(t).store.reviews[REVIEW] == copy && (REVIEW, copy) in Last(t).log.copies
    ensures var pc := Last(t).review;
            && pc.RevDecide? && pc.key == REVIEW && pc.review == copy && pc.base == Last(t).store.requests[REQUEST]
  {
    hide Execution, Developer, AfterReadReview, UserOf;
    t, copy := ReviewedIn(d);
    CurrentVersion(t);
    CopyIsRead(Last(t).store, copy, d);
    AliceAndBob(d);
    t := ReadCopy(t, REVIEW, copy);
    t := Extend(t, CallReview(Ok));
  }

  // ---------- a review that is marked against its own decision ----------

  ghost predicate RejectedByBob(w: World) {
    exists d :: d in w.log.decisions && d.review == REVIEW && d.request == REQUEST && d.verdict == Reject
  }

  /** Bob has rejected the request, but his review has no state: the review controller crashed in between. */
  lemma RejectedUnmarked() returns (t: Trace, copy: Review)
    ensures Runs(t) && Last(t).request.ReqIdle? && Last(t).review.RevIdle? && StateIs(Last(t).store, REQUEST, Rejected)
    ensures Last(t).store.now == 0 && Last(t).store.ttl == 100 && Last(t).store.requests[REQUEST].created == 0
    ensures Last(t).store.requests[REQUEST].spec == RequestOfAlice()
    ensures REVIEW in Last(t).store.reviews && CopyOfBob(copy, Reject) && Last(t).store.reviews[REVIEW] == copy
    ensures (REVIEW, copy) in Last(t).log.copies
    ensures RejectedByBob(Last(t))
  {
    hide Execution, Developer, UserOf, Inv;
    t, copy := AboutToDecide(Reject);
    var w := Last(t);
    InvAlways(t.worlds, t.steps, |t.steps|);
    ReviewPcHolds(w, Ok);
    RejectionLands(w);
    t := Extend(t, CallReview(Ok));
    t := Extend(t, CrashReview);
  }

  lemma RejectionLands(w: World)
    requires ReviewPcInv(w) && w.review.RevDecide? && w.review.key == REVIEW && CopyOfBob(w.review.review, Reject)
    requires REQUEST in w.store.requests && w.review.base == w.store.requests[REQUEST]
    ensures var w' := ReviewCall(w, Ok);
            && StateIs(w'.store, REQUEST, Rejected) && w'.store.reviews == w.store.reviews && w'.request == w.request
            && w'.store.now == w.store.now && w'.store.ttl == w.store.ttl && w'.log.copies == w.log.copies
            && w'.store.requests[REQUEST].created == w.store.requests[REQUEST].created
            && w'.store.requests[REQUEST].spec == w.store.requests[REQUEST].spec
            && RejectedByBob(w')
  {
    hide TwoPersons, Developer;
    DecisionLanding(w, Ok);
    assert ReviewCall(w, Ok).log.decisions[|w.log.decisions|] in ReviewCall(w, Ok).log.decisions;
  }

  /** Then the Deployment is removed, the request becomes Malformed, and so does the review that rejected it. */
  lemma DeciderMarkedMalformedHappens() returns (t: Trace)
    ensures Runs(t) && REVIEW in Last(t).store.reviews && Last(t).store.reviews[REVIEW].state == ReviewMalformed
    ensures RejectedByBob(Last(t))
  {
    hide Execution, Developer, UserOf, ReconcileRequest, RunReview, AfterReadReview, Reviewed;
    var copy;
    t, copy := RejectedUnmarked();
    t := Extend(t, RemoveDeployment(Key(REQUEST.ns, RequestOfAlice().deployment)));
    var w := Last(t);
    RejectedAfterReconcile(w, REQUEST);
    ReconcileEnds(w, REQUEST);
    t := UndisturbedRequest(t, REQUEST);
    var w' := Last(t);
    CopyIsRead(w'.store, copy, Reject);
    MarksMalformed(w'.(review := RevFindRequest(REVIEW, copy)), copy);
    t := UndisturbedReview(t, REVIEW, copy);
  }

  lemma MarksMalformed(w: World, copy: Review)
    requires w.review == RevFindRequest(REVIEW, copy) && CopyOfBob(copy, Reject) && StateIs(w.store, REQUEST, Malformed)
    requires REVIEW in w.store.reviews && w.store.reviews[REVIEW] == copy
    ensures var w' := RunReview(w);
            && REVIEW in w'.store.reviews && w'.store.reviews[REVIEW].state == ReviewMalformed
            && w'.log.decisions == w.log.decisions
  {
    hide UserOf, Developer;
    var w1 := ReviewCall(w, Ok);
    assert w1.review == RevSetState(REVIEW, copy, ReviewMalformed);
    assert RunReview(w) == RunReview(w1);
    RevSetStateChanges(w1);
  }

  // ---------- a request that never gets a state ----------

  /** Bob's review comes before the first reconcile: the request has no state, and no reconcile of either changes anything. */
  lemma StuckWithoutState() returns (t: Trace)
    ensures Runs(t) && StateIs(Last(t).store, REQUEST, NoState) && REVIEW in Last(t).store.reviews
    ensures ReconcileRequest(Last(t), REQUEST).store == Last(t).store
    ensures ReconcileReview(Last(t), REVIEW).store == Last(t).store
  {
    hide Execution, Developer, ReconcileRequest, ReconcileReview, UserOf, Reviewed, Named, Targeted;
    t := NothingYet();
    t := CreatedIn(t);
    t := Extend(t, CreateReview(REVIEW, ReviewByBob(Approve)));
    AliceAndBob(Approve);
    NamedIsUser(ReviewByBob(Approve).reviewedBy);
    SettingIsSound(Last(t));
    ReviewIsThere(Last(t).store, REVIEW);
    RequestFixedPoint(Last(t), REQUEST);
    ReviewFixedPoint(Last(t), REVIEW);
  }

  // ---------- an event recorded twice ----------

  lemma ThreeCalls(w: World)
    requires w.request == ReqGet(REQUEST) && StateIs(w.store, REQUEST, NoState) && SoundRequest(w.store, REQUEST)
    requires !Reviewed(w.store, REQUEST)
    ensures var w1 := RequestCall(w, Ok); var w2 := RequestCall(w1, Ok); var w3 := RequestCall(w2, Ok);
            && w1.request.ReqListTargets? && w2.request.ReqListReviews?
            && w3 == w.(request := SetState(REQUEST, w.store.requests[REQUEST], Pending),
                        log := w.log.(events := Recorded(w.log.events, REQUEST, [Pending])))
  {
    hide Reviewed, HasReview, UserOf, Recorded, Buildable, ListTargets, TargetContainers;
    BuildableIsChecked(w.store, REQUEST, w.store.requests[REQUEST].spec);
    ReviewedIsListed(w.store, REQUEST);
    assert [Pending] + [] == [Pending];
  }

  /** The reconcile of a new request, up to its Pending write. */
  lemma WaitsForReview(t: Trace) returns (t': Trace)
    requires Runs(t) && Fresh(Last(t))
    ensures GoesOn(t, t')
    ensures Last(t') == Last(t).(request := SetState(REQUEST, Last(t).store.requests[REQUEST], Pending),
                                 log := Last(t).log.(events := Recorded(Last(t).log.events, REQUEST, [Pending])))
  {
    hide Execution, Reviewed, SoundRequest, RequestCall, Setting, Recorded;
    SettingIsSound(Last(t));
    SettingIsIdle(Last(t));
    t' := Extend(t, StartRequest(REQUEST));
    ThreeCalls(Last(t'));
    t' := Extend(t', CallRequest(Ok));
    t' := Extend(t', CallRequest(Ok));
    t' := Extend(t', CallRequest(Ok));
  }

  lemma SettingIsIdle(w: World)
    requires Setting(w)
    ensures w.request.ReqIdle? && REQUEST in w.store.requests
  {
  }

  /** An edit between the list and the Pending write gets that write refused, and the next reconcile records Pending again. */
  lemma PendingTwiceHappens() returns (t: Trace)
    ensures Runs(t) && EventsOf(Last(t).log.events, REQUEST) == [Pending, Pending]
  {
    hide Execution, Developer, Reviewed;
    t := NothingYet();
    t := CreatedIn(t);
    NoReviewListed(Last(t));
    CurrentVersion(t);
    t := RefusedPending(t);
    t := WaitsForReview(t);
  }

  lemma NoReviewListed(w: World)
    requires w.store.reviews == map[]
    ensures !Reviewed(w.store, REQUEST)
  {
  }

  lemma RefusedPending(t: Trace) returns (t': Trace)
    requires Runs(t) && Fresh(Last(t)) && REQUEST !in Last(t).log.events
    requires Last(t).store.requests[REQUEST].version <= Last(t).store.rv
    ensures GoesOn(t, t') && Fresh(Last(t')) && EventsOf(Last(t').log.events, REQUEST) == [Pending]
  {
    hide Execution, Developer, Reviewed, RequestCall;
    t' := WaitsForReview(t);
    EditRefuses(Last(t'));
    t' := Extend(t', TouchRequest(REQUEST));
    t' := Extend(t', CallRequest(Ok));
    ReviewStays(Last(t).store, Last(t').store, REQUEST);
  }

  lemma EditRefuses(w: World)
    requires w.request.ReqSetState? && w.request.key == REQUEST && REQUEST in w.store.requests
    requires w.store.requests[REQUEST] == w.request.base && w.request.base.version <= w.store.rv
    ensures var edited := Edited(w, REQUEST);
            RequestCall(edited, Ok) == edited.(request := ReqIdle)
  {
  }
}
