# Verification of the GOV.UK job request operator

The operator lets a person ask for a command to be run in a Kubernetes cluster (a JobRequest) and lets another person
approve or reject that request (a JobRequestReview). Two controllers, which never talk to each other, move every request
through `"" → Pending → Approved/Rejected → Started → Complete/Failed`, with the exits Malformed and Conflicted. This
project models both controllers, the parser of the identities they compare, the Job they build and the state tally,
and proves what they promise together: nobody's own approval ever runs a Job, decisions are not lost, terminal states
stay, every status change is progress.

`dafny verify dfyconfig.toml` checks all of it.

## How it is modelled

**The protocol** (`Protocol`) is a state machine over one API store. A reconcile is cut at its API calls: a program
counter names the next call and carries what was read before it. Every call has an outcome: it succeeds, it fails, or it
takes effect although the caller is told that it failed. A status update is accepted when the resource version it was
computed from is still the stored one; a write that changes nothing keeps the version. The request is read fresh, the
review from a cache that may answer with any copy there ever was, or with none. Between any two calls the other controller and
the environment may take any number of steps: creating, editing and deleting requests and reviews, putting and removing
Deployments, creating, finishing and deleting Jobs, letting time pass. Either controller may crash at any point. An
`Execution` is any interleaving of these steps from an empty store. The log (decisions, refused decisions, created Jobs,
foreign Jobs, Normal events) is history that no controller reads.

**The reconcilers** (`RequestReconciler`, `ReviewReconciler`) are classes whose methods overwrite the fields of an object
in memory and call a `Cluster` that changes under them: every API method first lets everybody else take any steps, then
fails in any way. Each API method demands that the protocol's program counter is at that very call with these very
arguments, and `Reconcile` ensures that the reconciler's own steps are exactly one protocol reconcile. A branch taken
wrongly, a write with another status, a skipped call or event has no proof. So every theorem about executions is a
theorem about this code.

**The proofs.** `Invariants` defines what every step keeps; `Frames` says what each kind of step leaves alone;
`Interference` proves the invariant under every interleaving. `Safety` holds the theorems about all executions,
`StatusMoves` says exactly when a status write is accepted and when a request leaves the usual path of states,
`DecisionMoves` exactly when a decision takes effect, `Origins` what the same reconcile had seen before a request became
Complete or Failed, before a Job was created and before a review got its state; `SteadyRuns`, `Progress` and `OwnJobs` treat steady executions,
`EventLogs` and `FaultFreeRuns` those without faults, `Rounds` whole undisturbed reconciles, `Convergence` and `Settling`
many rounds of them. `RequestEnds` and `ReviewEnds` say, case by case, how an undisturbed reconcile ends and what it records.
`Scenarios` proves that an undisturbed reconcile is one way to continue
an execution, and constructs concrete executions from an empty store that reach every exception listed below.

The theorems speak in the terms of `PlainTerms`: namespaces, names, fields, states, conditions and parsed annotations of the
stored objects. No operation of either controller is defined by these terms, and none of these terms by an operation, except
that a person is whoever the parser finds; what the parser finds is pinned by a grammar of its own (`UserIdentities.Means`).

- *Steady*: the reviews of a decided request are listed without failure; a review is not removed while the request it names
  is stored; and a decision that lands comes from a review that is stored. The last condition is needed: a review removed
  before its request exists can still sit in the cache and decide it, and the next reconcile of the request takes the
  decision back (`Scenarios.CachedApprovalHappens`).
- *Truthful*: steady, every call succeeds and is answered truthfully, and no crash; versions may still conflict.
- *Fault-free*: truthful, and nobody edits the labels of a request while it is being reconciled.

### Assumptions

- Users do not write statuses; spec and annotations are fixed after creation (an edit of labels is a step and takes a new
  version). A name is not used again within an execution.
- The decision of a review is Approved or Rejected, and a request's state is one of the listed ones; both are enumerations
  of the custom resource definitions. So the branch for an unknown state is never reached.
- A Job never reports both outcomes. Setting the owner reference on a fresh Job in the same namespace succeeds.
- One worker per controller.
- The age of an object is judged by the clock at the moment it was read.
- Strings are sequences of characters. All separators, prefixes, suffixes and digits the parser looks for are one-byte
  characters, so splitting characters and splitting bytes give the same parts.

### Where the code falls short of a simpler promise

Each of these has its exact condition, and an execution from an empty store in which it happens.

- A failed or empty list of reviews counts as Pending. So a decided request can go back to Pending: exactly by the accepted
  write of a reconcile whose list failed or was empty (`StatusMoves.PendingExactly`, `Rounds.PendingAfterReconcile`,
  `Scenarios.FailedListHappens`, `Scenarios.CachedApprovalHappens`).
- The Started write that follows the creation of a Job can be refused: exactly when the request's labels were edited since it
  was read (`StatusMoves.StartedRefusedExactly`). The request can then end Conflicted over the controller's own Job
  (`FaultFreeRuns.HonestConflicted`, `Scenarios.DisownedJobHappens`).
- A review is marked Approved or Rejected even when its decision did not take effect on the request: exactly when the call
  failed, the request was gone or no longer Pending, or its labels were edited since it was read
  (`DecisionMoves.DecisionLandsExactly`, `Rounds.MarkedEvenIfRefused`, `Scenarios.MarkedThoughRefusedHappens`,
  `Scenarios.MarkedThoughFailedHappens`).
- An event is recorded before the status it goes with is written. When that write is refused (of Pending over a new request,
  of Started, of Complete or Failed, or of Malformed after Approved was recorded), the log stays on the path of states until
  the next record, and then it leaves it: in truthful runs exactly then (`EventLogs.EventLogExactly`,
  `Scenarios.PendingTwiceHappens`).
- A request whose review arrives before its first reconcile stays without a state, and is a fixed point
  (`Rounds.RequestFixedPoint`, `Scenarios.StuckWithoutState`).
- Rejected is not in the list of terminal states: a rejected request is reconciled again and becomes Malformed exactly when
  its Job could no longer be built, and Pending exactly when it could and no review is left
  (`Rounds.RejectedAfterReconcile`, `StatusMoves.RejectedToMalformedExactly`, `Scenarios.RejectedMalformedHappens`).
- A stateless review is left alone by the request it decided only while that request is Rejected, Approved, Started,
  Complete or Failed; once the request is Malformed or Conflicted, even the review that decided it is marked so
  (`Rounds.ReviewFixedPoint`, `Scenarios.DeciderMarkedMalformedHappens`).

## Model

| member | source | states |
|---|---|---|
| Safety.TwoPersonRule | internal/controller/jobrequest_controller.go:351-381 | In every execution, when the controller puts a Job into the store, an earlier step of the review controller had written Approved and the review's name to that Pending request, for a review in the request's namespace that names it and says Approved, and the two annotations are there and parse to different user names |
| Safety.DecisionsAreTheWrites | internal/controller/jobrequestreview_controller.go:313-333 | A call of the review controller changes a request only by one recorded decision made from Pending, and records no decision without changing the request |
| Safety.DecisionWasWritten | internal/controller/jobrequestreview_controller.go:319-325 | Every decision in the history was written to its request, then Pending, by an earlier step of the review controller |
| Safety.NoLostDecision | internal/controller/jobrequest_controller.go:338-350 | A decision that lands between the request controller's read of an undecided request and the status write of that reconcile makes the write refused, changes nothing else, and is still in place afterwards |
| Safety.TerminalAbsorbing | internal/controller/jobrequest_controller.go:225-232 | Once Complete, Failed, Malformed or Conflicted is stored, no step of any execution changes the status again while the request exists |
| Safety.ReviewWriteOnce | internal/controller/jobrequestreview_controller.go:99-107 | Once a review has a state it keeps it, however old the cached copy the controller works from |
| Safety.StatusMirrorsHistory | api/v1/jobrequest_types.go:95-113 | In every reachable store, the predicate for approved holds exactly in Approved, Started, Complete, Failed and Conflicted, that for rejected exactly in Rejected, that for reviewed exactly in these six; in the first two cases the last decision on the request said so and was another person's; ReviewName is the name of the review that decided last, empty if none did; and Started, Complete and Failed carry the request's name as Job name and a Job the controller created |
| Safety.ReviewStateMirrorsHistory | internal/controller/jobrequestreview_controller.go:325-345 | A review marked Approved or Rejected made that decision take effect at some earlier step, unless its own request write was refused |
| Safety.CreationsAreTheJobs | internal/controller/jobrequest_controller.go:366-375 | The history of creations gains a request exactly when a call of the controller puts a Job of its name into the store, and no step of anybody else changes it |
| Safety.OneJobPerRequest | internal/controller/jobrequest_controller.go:351-399 | While nobody deletes Jobs, the controller creates at most one Job per request, with any faults, lost answers and crashes, and it is still there |
| StatusMoves.WriteAcceptedExactly | internal/controller/jobrequest_controller.go:465-471 | In every execution, every status write of the request controller, those of Complete and Failed included, finds its version current exactly when, since the request was last brought into memory, nobody edited its labels, no decision landed on it, and no write of an outcome took effect with its answer lost |
| StatusMoves.StartedRefusedExactly | internal/controller/jobrequest_controller.go:377-381 | In every execution, with any faults and crashes, the Started write of a request read as Approved finds its version stale exactly when the labels were edited since the read |
| StatusMoves.StartedStoredExactly | internal/controller/jobrequest_controller.go:377-381 | After that write the stored request is Started exactly when the call took effect and there was no such edit |
| StatusMoves.PendingExactly | internal/controller/jobrequest_controller.go:314-350 | In every execution, a stored request in any other state becomes Pending exactly by the accepted write of a reconcile whose list of reviews failed, or came when no stored review in its namespace named it |
| StatusMoves.RejectedToMalformedExactly | internal/controller/jobrequest_controller.go:118-156 | In every execution, a Rejected request becomes Malformed exactly by the accepted write of a reconcile that found no user in its annotation, no Deployment or no such container |
| DecisionMoves.DecisionLandsExactly | internal/controller/jobrequestreview_controller.go:313-345 | In every execution, a decision takes effect exactly when its call does, the request is still Pending and its labels were not edited since it was read; then the request is Approved or Rejected as the review says, otherwise no request changes; and marking the review Approved or Rejected comes next in either case |
| Origins.OutcomeWasReported | internal/controller/jobrequest_controller.go:412-459 | In every execution, a request becomes Complete only from Started and after the same reconcile saw its Job with a true Complete condition and no true Failed one, Failed the other way round; and the last event recorded on the request is then that outcome |
| Origins.JobWasBuilt | internal/controller/jobrequest_controller.go:259-312 | In every execution, before the controller puts a Job into the store, the same reconcile read the request as Approved, unexpired and with a requester that parses, then found the Deployment of that name in the request's namespace, then a review of it, then no Job of its name; the Job has the Deployment's containers of the requested name with the requested command and arguments, its other pod fields, no labels or annotations, no restarts, no retries, and the request as owner |
| Origins.MarkWasFound | internal/controller/jobrequestreview_controller.go:154-455 | In every execution, a review that gets a state had none, and the same reconcile had either read it without a reviewer that parses, which makes it Malformed, or found the store in the very condition that ReviewEnds.ReviewEndsExactly gives for that state, however stale the copy it worked from |
| Interference.InvStep | internal/controller/jobrequest_controller.go:56-177 | One step of anybody, from any world that satisfies the invariant, keeps it: what each reconciler holds in memory survives the other's steps |
| Interference.InvAlways | internal/controller/jobrequestreview_controller.go:51-152 | Every world of every execution satisfies the invariant |
| SteadyRuns.SingleDecision | internal/controller/jobrequestreview_controller.go:395-431 | In a steady run at most one decision ever takes effect on a request |
| SteadyRuns.DecisionIsFinal | internal/controller/jobrequest_controller.go:314-336 | In a steady run, once a decision is in, the request names that review for life and only reaches states which follow from that verdict; never "" or Pending |
| SteadyRuns.OtherReviewsLose | internal/controller/jobrequestreview_controller.go:398-431 | In a steady run every other review of a decided request has no state or ends in Conflict, Malformed or NotFound, unless its own request write was refused |
| SteadyRuns.RejectionIsFinal | internal/controller/jobrequest_controller.go:400-411 | In a steady run no Job is ever created for a rejected request, before or after, and its state can only be Rejected or Malformed; when it becomes Malformed is StatusMoves.RejectedToMalformedExactly |
| Progress.ReconcilersPay | internal/controller/jobrequest_controller.go:338-463 | In a steady run no step of either controller raises the potential, and every step that changes a status strictly lowers it |
| Progress.BoundedProgress | internal/controller/jobrequestreview_controller.go:357-431 | A steady run that created R requests and V reviews has at most 4R + V status changes, less the potential that is left |
| FaultFreeRuns.HonestConflicted | internal/controller/jobrequest_controller.go:377-399 | In a truthful run, with any label edits, a Conflicted request is so over a Job the controller created exactly when its Started write was refused before; otherwise somebody else created that Job |
| OwnJobs.ConflictedOverOwnJob | internal/controller/jobrequest_controller.go:351-399 | In a steady run, with any faults, crashes, lost answers and edits, a Conflicted request has never been Started; its Job is the controller's own exactly when one of its calls put it there, and somebody else's otherwise |
| OwnJobs.StartedThenConflicted | internal/controller/jobrequest_controller.go:338-463 | In every execution, a request that was Started stays Started, Complete, Failed or Malformed until it has been Pending again |
| EventLogs.EventLogExactly | internal/controller/jobrequest_controller.go:338-463 | In a truthful run, with any label edits, the Normal events recorded on a request, with repeated Rejected collapsed, are a prefix of Pending, Approved, Started, and Complete or Failed, or of Pending, Rejected, exactly when none was recorded after another whose own status write was refused |
| FaultFreeRuns.EventLogFollowsStates | internal/controller/jobrequest_controller.go:338-463 | So without label edits during a reconcile they always are |
| Rounds.RequestReconcileIsolated | internal/controller/jobrequest_controller.go:56-177 | From any store, with any outcomes and wherever it stops, a request reconcile changes nothing but that request's status, or removes it, and at most adds the Job of its name; existing Jobs stay as they are |
| Rounds.ReviewReconcileIsolated | internal/controller/jobrequestreview_controller.go:51-152 | From any store and any copy read, a review reconcile changes nothing but that review and the status of the one request the copy names in the review's own namespace |
| Rounds.RequestFixedPoint | internal/controller/jobrequest_controller.go:314-463 | An undisturbed reconcile of a sound request leaves the store as it is exactly when the request is Pending, terminal, "" or Rejected with a review, or Started with a review and an unfinished Job |
| Rounds.ReviewFixedPoint | internal/controller/jobrequestreview_controller.go:357-431 | An undisturbed reconcile of a sound review leaves the store as it is exactly when the review has a state, or its request has none, or was decided by it and is Rejected, Approved, Started, Complete or Failed |
| Rounds.JointFixedPoint | internal/controller/jobrequest_controller.go:338-463 | From any sound store, a full round over all requests and then all reviews, in any order, changes nothing exactly when every request and every review is settled |
| Rounds.SteadyFixedPoint | internal/controller/jobrequest_controller.go:314-336 | In stores a steady run can reach, the condition on requests is: none Approved, none "" without a review, every Started one with an existing unfinished Job |
| Rounds.PendingAfterReconcile | internal/controller/jobrequest_controller.go:314-350 | After an undisturbed reconcile of a sound request that was neither Pending nor terminal, the request is Pending exactly when its list of reviews failed or was empty |
| Rounds.RejectedAfterReconcile | internal/controller/jobrequest_controller.go:118-156 | After an undisturbed reconcile of an unexpired Rejected request, it is Malformed exactly when its annotation, Deployment or container is missing, Pending exactly when none is and no review is stored, and Rejected otherwise |
| RequestEnds.PrunedExactly | internal/controller/jobrequest_controller.go:80-108 | An undisturbed reconcile deletes a request exactly when its age has reached the limit, whatever its state, and then changes and records nothing else |
| RequestEnds.FinishedIsLeft | internal/controller/jobrequest_controller.go:110-116 | A younger one that is Complete, Failed, Malformed or Conflicted is left as it is, and nothing is recorded |
| RequestEnds.UnreadyIsMalformed | internal/controller/jobrequest_controller.go:118-156 | A live one without a requester that parses, a Deployment of that name in its namespace, or a container of that name in it, becomes Malformed; nothing else changes |
| RequestEnds.UnreviewedIsPending | internal/controller/jobrequest_controller.go:321-350 | A ready one in any live state becomes Pending when the list of its reviews fails or no stored review in its namespace names it; Pending is recorded exactly when the list was empty and the request new |
| RequestEnds.ReviewedIsLeft | internal/controller/jobrequest_controller.go:335-411 | A ready one with a review that is new, Pending or Rejected is left as it is; each reconcile of a Rejected one records Rejected |
| RequestEnds.ApprovedIsStarted | internal/controller/jobrequest_controller.go:351-384 | A ready Approved one with a review and without a Job gets the Job built from its Deployment, is Started with its own name as Job name, and Approved and Started are recorded |
| RequestEnds.ApprovedMeetsJob | internal/controller/jobrequest_controller.go:390-398 | With a Job of its name in the store it becomes Conflicted instead, and nothing is recorded |
| RequestEnds.StartedExactly | internal/controller/jobrequest_controller.go:412-459 | A ready Started one with a review is afterwards Complete exactly when its Job has a true Complete condition, Failed exactly when it has a true Failed one, Malformed exactly without a Job, and Started otherwise; exactly the outcome is recorded |
| RequestEnds.StartedTakesLastOutcome | internal/controller/jobrequest_controller.go:439-457 | For any conditions, both outcomes in any order included, the request ends with the last outcome reported, and nothing but its status changes |
| RequestEnds.FailedReadEnds | internal/controller/jobrequest_controller.go:206-246 | A failed read, list of Deployments or look for a new Job ends the reconcile without any change or record |
| RequestEnds.FailedLookupIsMalformed | internal/controller/jobrequest_controller.go:413-429 | A failed look for the Job of a Started request makes it Malformed |
| RequestEnds.FailedCreationIsMalformed | internal/controller/jobrequest_controller.go:366-375 | A creation that fails makes the request Malformed; when only its answer was lost, the Job is there all the same |
| ReviewEnds.ReviewPrunedExactly | internal/controller/jobrequestreview_controller.go:74-97 | An undisturbed reconcile deletes a review exactly when its age has reached the limit, and then changes nothing else |
| ReviewEnds.MarkedIsLeft | internal/controller/jobrequestreview_controller.go:99-107 | A younger one that has a state is left as it is |
| ReviewEnds.UnnamedIsMalformed | internal/controller/jobrequestreview_controller.go:154-179 | One without a reviewer that parses becomes Malformed; nothing else changes |
| ReviewEnds.ReviewEndsExactly | internal/controller/jobrequestreview_controller.go:216-455 | Any other ends NotFound exactly when no request of that name is in its namespace; Malformed exactly when the request is, or is Pending without a requester that parses; Conflict exactly when the request is Conflicted, Pending by the same person, or decided under another review's name; Approved or Rejected exactly when it is Pending by another person, as the review says; and without a state exactly when the request has none or was decided under its own name |
| ReviewEnds.ConflictEnds | internal/controller/jobrequestreview_controller.go:293-431 | In each case of Conflict only the review changes |
| ReviewEnds.DecisionEnds | internal/controller/jobrequestreview_controller.go:313-355 | A review of a Pending request by another person writes its decision and its name to the request, then marks itself, and changes nothing else |
| ReviewEnds.FailedFindIsLeft | internal/controller/jobrequestreview_controller.go:206-214 | A failed look for the request leaves everything as it was |
| Convergence.RoundDrops | internal/controller/jobrequestreview_controller.go:357-431 | A full round over a sound store of a steady run keeps it so, and either lowers the potential or changes nothing; the latter exactly when everything is settled |
| Convergence.Converges | internal/controller/jobrequest_controller.go:338-463 | From any such store at most as many rounds as it has potential change anything, and after that many rounds everything is settled and stays so |
| Settling.TwoRoundsSettle | internal/controller/jobrequestreview_controller.go:357-431 | From any such store two full rounds settle every request and every review, and no further round changes anything |
| Convergence.RoundsHappen | internal/controller/jobrequest_controller.go:56-177 | Every execution with idle controllers can go on with any number of such rounds |
| Scenarios.UndisturbedRequest | internal/controller/jobrequest_controller.go:56-177 | Every execution with an idle request controller can go on with an undisturbed reconcile of any request |
| Scenarios.UndisturbedReview | internal/controller/jobrequestreview_controller.go:51-152 | Every execution with an idle review controller can go on with an undisturbed reconcile from any copy of a review that ever was |
| Scenarios.CachedApprovalHappens | internal/controller/jobrequestreview_controller.go:181-197 | An execution: a review deleted before its request is created approves it from the cache, with no review stored; the next reconcile makes it Pending |
| Scenarios.FailedListHappens | internal/controller/jobrequest_controller.go:321-324 | An execution: one failed list turns an Approved request, whose review is stored, back to Pending |
| Scenarios.DisownedJobHappens | internal/controller/jobrequest_controller.go:351-399 | An execution: a Started write is refused after a label edit, and the request is Conflicted although the controller created the Job and nobody else created any |
| Scenarios.RejectedMalformedHappens | internal/controller/jobrequest_controller.go:247-254 | An execution: a Rejected request becomes Malformed after its Deployment is removed |
| Scenarios.MarkedThoughRefusedHappens | internal/controller/jobrequestreview_controller.go:325-345 | An execution: the review is Approved and its request still Pending |
| Scenarios.MarkedThoughFailedHappens | internal/controller/jobrequestreview_controller.go:325-345 | An execution: the same after a failed call on a request that is current |
| Scenarios.DeciderMarkedMalformedHappens | internal/controller/jobrequestreview_controller.go:369-382 | An execution: a review that rejected its request, and crashed before its mark, ends Malformed after the Deployment is removed |
| Scenarios.StuckWithoutState | internal/controller/jobrequest_controller.go:335-336 | An execution: a request without a state, which has a review, and which neither reconcile changes any more |
| Scenarios.PendingTwiceHappens | internal/controller/jobrequest_controller.go:326-350 | An execution: the events of a request are Pending and Pending |
| Rounds.ApprovalFromTheCacheIsUndone | internal/controller/jobrequestreview_controller.go:182 | A review that is only in the cache approves a Pending request, and the next reconcile turns it back to Pending exactly when no other review of it is stored |
| Rounds.EditedRequestDisownsItsJob | internal/controller/jobrequest_controller.go:377-399 | A label edit between the creation of the Job and the Started write gets that write refused, and the next reconcile marks the request Conflicted over the controller's own Job; StatusMoves.StartedRefusedExactly gives the condition, Scenarios.DisownedJobHappens reaches it |
| Rounds.MarkedEvenIfRefused | internal/controller/jobrequestreview_controller.go:319-345 | Whatever the outcome of the request write, the review is then marked with the decision; the request takes it exactly when the call takes effect at the version that was read |
| Rounds.SamePersonConflicts | internal/controller/jobrequestreview_controller.go:293-317 | A review of a Pending request whose two annotations name one user ends in Conflict with every request untouched and no decision recorded, whatever it decides |
| Rounds.SameGdsUserConflicts | internal/controller/jobrequestreview_controller.go:240-311 | The same for any two gds-users ARNs of one user: accounts, roles, sessions and regions make no difference |
| Rounds.SameEntraUserConflicts | internal/controller/jobrequestreview_controller.go:240-311 | The same for any two EntraID ARNs with one session name |
| UserIdentities.ParseExactly | api/v1/user_identity.go:9-92 | The parser answers with an identity exactly when the string means it: an ARN with colon-free region and account, an account that starts with twelve digits, a resource of three parts that starts with assumed-role, and a role name that is the user, a hyphen and fulladmin, tempadmin, platformengineer, developer, readonly or ithctester, or, if it ends in none of these, a session with an @, which is the user |
| UserIdentities.ParseRendered | api/v1/user_identity.go:24-51 | A rendered ARN parses to exactly the identity its parts denote: gds-users before EntraID, and none otherwise |
| UserIdentities.GdsRoundTrip | api/v1/user_identity.go:70-81 | Rendering any user in any of the six roles, named one by one, under any account of twelve digits and more, and parsing it returns the same account, user and role |
| UserIdentities.EntraRoundTrip | api/v1/user_identity.go:83-92 | Rendering any EntraID identity and parsing it returns the same account, user and role, provided its role name does not end in a hyphen and one of the six roles |
| UserIdentities.SuffixUnique | api/v1/user_identity.go:9-16 | At most one suffix that is a hyphen and hyphen-free text matches any role name |
| UserIdentities.OrderOfRolesIrrelevant | api/v1/user_identity.go:70-81 | Any list with the same suffixes, in any order and with repetitions, gives the same result for every role name |
| UserIdentities.GdsMatch | api/v1/user_identity.go:70-81 | A user and role are returned exactly when the role name is the user name, a hyphen and the role, with hyphen and role listed |
| UserIdentities.SplitJoin | api/v1/user_identity.go:25-33 | Splitting what was joined from separator-free parts returns the parts |
| UserIdentities.JoinSplit | api/v1/user_identity.go:25-33 | Joining the parts of a split returns the string; below the limit no part holds the separator |
| UserIdentities.ParseGdsUsersARN | api/v1/user_identity.go:70-81 | The loop with its early return finds nothing exactly when the role name does not end in a hyphen and one of the six roles, and otherwise splits it there |
| UserIdentities.ParseUserIdentityFromARN | api/v1/user_identity.go:24-51 | The parser with its reassigned identity answers with exactly the identity that the string means, and with none when it means nothing |
| JobTemplates.RetrieveContainersFromResource | internal/controller/jobrequest_controller.go:300-312 | The loop computes the target containers and leaves the Deployment's containers as they are |
| JobTemplates.TargetContainersFilter | internal/controller/jobrequest_controller.go:300-312 | The target containers are, in order, exactly the containers of the requested name, with only command and args replaced |
| JobTemplates.NoTargetContainer | internal/controller/jobrequest_controller.go:259-273 | There is no target container exactly when the Deployment has no container of that name |
| Metrics.TallyResourceState | internal/metrics/collector.go:153-161 | Each total grows by the number of items in that state, no other key appears, and the sum of all totals grows by the length of the list |
| Metrics.TallyRequests | internal/metrics/collector.go:56-63 | From the zeroed map, each total is the number of positions in the list whose request is in that state, and the totals sum to the length of the list |
| Metrics.MetricCollector.EmitRequestMetrics | internal/metrics/collector.go:75-94 | In whatever order the totals are visited, exactly the gauges with a total are set to it and the others keep their value |
| Metrics.MetricCollector.EmitReviewMetrics | internal/metrics/collector.go:106-121 | The same for the gauges of reviews |
| Metrics.MetricCollector.Collect | internal/metrics/collector.go:39-63 | After a successful collect the gauges are those of the seven and five states, and each is the number of positions in the list whose resource is in that state, whatever it was before; a failed list leaves all gauges alone |
| RequestReconciler.JobRequestReconciler.Reconcile | internal/controller/jobrequest_controller.go:56-177 | Under any interference and any faults, the reconciler's own steps are exactly one reconcile of the protocol, started for this request and carried to its end, and the events it recorded are the protocol's |
| RequestReconciler.JobRequestReconciler.GetJobRequest | internal/controller/jobrequest_controller.go:206-223 | One fresh read; the object holds what was read, and the protocol is where that reading leads |
| RequestReconciler.JobRequestReconciler.ValidateRequestedByAnnotation | internal/controller/jobrequest_controller.go:179-204 | Valid exactly on the protocol's path to the Deployment; otherwise the Malformed write is made and the reconcile is over |
| RequestReconciler.JobRequestReconciler.GetTargetResource | internal/controller/jobrequest_controller.go:234-257 | A non-empty list leads on from that list; an error or an empty list, after the Malformed write, ends the reconcile |
| RequestReconciler.JobRequestReconciler.CreateJobTemplate | internal/controller/jobrequest_controller.go:259-298 | The Job has the Deployment's containers of the requested name with the requested command and arguments, and the fields named at Origins.JobWasBuilt; exactly without a target container the Malformed write ends the reconcile; the caller's object is not changed |
| RequestReconciler.JobRequestReconciler.CalculateRequestState | internal/controller/jobrequest_controller.go:314-336 | The returned state and the event recorded for a new request are those on which the protocol goes on |
| RequestReconciler.JobRequestReconciler.HandleRequestState | internal/controller/jobrequest_controller.go:338-463 | From any calculated state the remaining calls, writes and events are the protocol's, to its end |
| RequestReconciler.JobRequestReconciler.HandleApproved | internal/controller/jobrequest_controller.go:351-399 | Lookup, creation, and the Started, Malformed or Conflicted write with their events are the protocol's, to its end |
| RequestReconciler.JobRequestReconciler.HandleStarted | internal/controller/jobrequest_controller.go:412-459 | Lookup, second read and the writes from the Job's conditions are the protocol's, to its end |
| RequestReconciler.JobRequestReconciler.FinishFromConditions | internal/controller/jobrequest_controller.go:437-457 | The loop, which writes as it goes and continues from whatever version the last write left in memory, takes exactly the protocol's writes and events, and leaves the last reported outcome in memory |
| RequestReconciler.JobRequestReconciler.SetRequestState | internal/controller/jobrequest_controller.go:465-471 | Changes the state in memory and sends it; an accepted update brings the stored version into memory, a refused one leaves the changed state there |
| ReviewReconciler.JobRequestReviewReconciler.Reconcile | internal/controller/jobrequestreview_controller.go:51-152 | Under any interference, any stale cache and any faults, the reconciler's own steps are exactly one reconcile of the protocol, started for this review and carried to its end |
| ReviewReconciler.JobRequestReviewReconciler.GetJobRequestReview | internal/controller/jobrequestreview_controller.go:181-197 | One cached read; the object holds the copy, and the protocol is where that copy leads |
| ReviewReconciler.JobRequestReviewReconciler.ValidateReviewedByAnnotation | internal/controller/jobrequestreview_controller.go:154-179 | Valid exactly on the protocol's path to the request; otherwise the Malformed write is made and the reconcile is over |
| ReviewReconciler.JobRequestReviewReconciler.GetJobRequest | internal/controller/jobrequestreview_controller.go:199-230 | A non-empty list leads on from its first item; an error, or an empty list after the NotFound write, ends the reconcile |
| ReviewReconciler.JobRequestReviewReconciler.ValidateReviewerAndRequesterDiffer | internal/controller/jobrequestreview_controller.go:240-311 | True exactly when both annotations name users and these differ; then nothing has happened; otherwise the Malformed or Conflict write ends the reconcile |
| ReviewReconciler.JobRequestReviewReconciler.HandleReviewDecision | internal/controller/jobrequestreview_controller.go:313-355 | The request write and then, whatever became of it, the review write are the protocol's, to its end |
| ReviewReconciler.JobRequestReviewReconciler.HandleReviewState | internal/controller/jobrequestreview_controller.go:357-455 | For every state of the request the remaining calls and writes are the protocol's, to its end |
| ReviewReconciler.JobRequestReviewReconciler.SetReviewState | internal/controller/jobrequestreview_controller.go:232-238 | Changes the state in memory and sends it, which ends the reconcile |

## Left out

- The result and error a reconcile returns, and with them requeueing and back-off: any reconcile may start at any time.
- Watches and the work queue, for the same reason; leader election and manager set-up, except that each controller has one worker.
- Warning events, and the events recorded on reviews: only the Normal events on requests are followed.
- Logs, counters, labels and the histogram of review times: nothing is decided by them.
- Real time: the clock is an integer and the time to live is fixed.
- Owner references as a cause of garbage collection: the removal of a Job is a step of the environment.
- The parts of a pod that the operator copies unchanged: carried as an opaque value.
- The error of SetControllerReference (the Malformed write and the Job returned all the same): it cannot occur for a fresh Job in the request's namespace.
- The branch of the review controller for a request in an unknown state, which the custom resource definition excludes.
- The admission of annotations and decisions by webhooks and schemas: not part of this model.
- Other list options, pagination and the API server's own conflict retries.
