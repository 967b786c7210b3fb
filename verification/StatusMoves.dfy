/** Exactly when a status write of the request reconciler is accepted, and when it makes a move that the usual path of
    states does not have: back to Pending, or from Rejected to Malformed.  For every execution. */
module StatusMoves {
  import opened Resources
  import opened JobTemplates
  import opened Protocol
  import opened PlainTerms
  import opened Invariants
  import opened Frames
  import opened Interference
  import opened Safety

  // ---------- when a status write is accepted ----------

  /** The steps that give a request a new version behind the request reconciler's back: an edit of its labels, or a
      decision on it. */
  predicate Edits(w: World, s: Step, k: Key) {
    s == TouchRequest(k) || (LandsDecision(w, s) && Key(w.review.key.ns, w.review.review.spec.jobRequestName) == k)
  }

  /** An outcome is written, but the reconciler is told that it was not, and keeps the old version in memory. */
  predicate LosesAnswer(w: World, s: Step, k: Key) {
    && s == CallRequest(FaultApplied) && w.request.ReqFinish? && w.request.key == k
    && RequestCurrent(w.store, k, w.request.base) && w.store.requests[k].status != w.request.st
  }

  /** The call brings the stored request into memory: either read of it, or an accepted write of an outcome. */
  predicate Loads(w: World, s: Step, k: Key) {
    && s == CallRequest(Ok) && k in w.store.requests
    && (w.request == ReqGet(k)
        || (w.request.ReqGetAgain? && w.request.key == k)
        || (w.request.ReqFinish? && w.request.key == k && RequestCurrent(w.store, k, w.request.base)))
  }

  /** The reconciler has `r` in memory. */
  predicate FromReading(pc: RequestPc, k: Key, r: JobRequest) {
    Holding(pc) && pc.key == k && pc.base == r
  }

  /** It has nothing in memory, and will not have without a new start. */
  predicate Over(pc: RequestPc) {
    pc.ReqIdle? || pc.ReqDelete?
  }

  lemma OverStep(w: World, s: Step)
    requires Enabled(w, s) && Over(w.request) && !s.StartRequest?
    ensures Over(Apply(w, s).request)
  {
    hide ReviewCall;
    if s.CallReview? {
      ReviewCallFootprint(w, s.o);
    }
  }

  lemma {:induction false} OverStays(ws: seq<World>, steps: seq<Step>, n: nat, i: nat)
    requires Execution(ws, steps) && n <= i < |ws| && Over(ws[n].request)
    requires forall q :: n <= q < i ==> !steps[q].StartRequest?
    ensures Over(ws[i].request)
    decreases i - n
  {
    hide Apply, Enabled, Over;
    if n < i {
      OverStays(ws, steps, n, i - 1);
      OverStep(ws[i - 1], steps[i - 1]);
    }
  }

  lemma LoadedCall(w: World, k: Key)
    requires Inv(w) && Loads(w, CallRequest(Ok), k) && !Over(RequestCall(w, Ok).request)
    ensures var w' := RequestCall(w, Ok);
            k in w'.store.requests && FromReading(w'.request, k, w'.store.requests[k])
  {
    hide StoreInv, HistoryInv, ReviewPcInv, UserOf;
    if w.request.ReqGetAgain? {
      var r := w.store.requests[k];
      NextFinishHolds(k, r, r.status, w.request.conditions);
    } else if w.request.ReqFinish? {
      var stored := UpdateRequestStatus(w.store, k, w.request.base, w.request.st, Ok).requests[k];
      NextFinishHolds(k, stored, w.request.st, w.request.rest);
    }
  }

  /** A call that loads nothing keeps what is in memory, and the stored request too unless its answer is lost. */
  lemma FromReadingCall(w: World, o: Outcome, k: Key, r: JobRequest)
    requires FromReading(w.request, k, r) && !Loads(w, CallRequest(o), k) && !Over(RequestCall(w, o).request)
    requires k in w.store.requests
    ensures FromReading(RequestCall(w, o).request, k, r)
    ensures var w' := RequestCall(w, o);
            && k in w'.store.requests
            && if LosesAnswer(w, CallRequest(o), k) then w'.store.requests[k].version == w.store.rv + 1
               else w'.store.requests[k] == w.store.requests[k]
  {
    if w.request.ReqFinish? {
      NextFinishHolds(k, r, w.request.st, w.request.rest);
    }
  }

  lemma FromReadingStep(w: World, s: Step, k: Key, r: JobRequest)
    requires Enabled(w, s) && FromReading(w.request, k, r) && !s.StartRequest? && !Loads(w, s, k)
    requires !Over(Apply(w, s).request) && k in w.store.requests
    ensures FromReading(Apply(w, s).request, k, r)
  {
    hide RequestCall, ReviewCall, FromReading, Loads;
    if s.CallRequest? {
      FromReadingCall(w, s.o, k, r);
    } else if s.CallReview? {
      ReviewCallFootprint(w, s.o);
    }
  }

  lemma ReviewCallEdits(w: World, o: Outcome, k: Key)
    requires ReviewPcInv(w) && k in w.store.requests
    ensures k in ReviewCall(w, o).store.requests
    ensures if Edits(w, CallReview(o), k) then ReviewCall(w, o).store.requests[k].version == w.store.rv + 1
            else ReviewCall(w, o).store.requests[k] == w.store.requests[k]
  {
    hide TwoPersons;
    if !w.review.RevDecide? {
      OtherReviewCall(w, o);
    } else if LandsDecision(w, CallReview(o)) {
      DecisionLanding(w, o);
    }
  }

  lemma EnvironmentEdits(w: World, s: Step, k: Key)
    requires Enabled(w, s) && OfEnvironment(s) && RequestsOk(w)
    requires k in w.store.requests && k in Environment(w, s).store.requests
    ensures if Edits(w, s, k) then Environment(w, s).store.requests[k].version == w.store.rv + 1
            else Environment(w, s).store.requests[k] == w.store.requests[k]
  {
    hide Environment, Enabled;
    if s.CreateRequest? || s.DeleteRequest? || s.TouchRequest? {
      RequestEdits(w, s, k);
    } else {
      OtherEditsKeepRequests(w, s);
    }
  }

  lemma RequestEdits(w: World, s: Step, k: Key)
    requires Enabled(w, s) && RequestsOk(w) && (s.CreateRequest? || s.DeleteRequest? || s.TouchRequest?)
    requires k in w.store.requests && k in Environment(w, s).store.requests
    ensures if s == TouchRequest(k) then Environment(w, s).store.requests[k].version == w.store.rv + 1
            else Environment(w, s).store.requests[k] == w.store.requests[k]
  {
  }

  lemma OtherEditsKeepRequests(w: World, s: Step)
    requires Enabled(w, s) && OfEnvironment(s) && !s.CreateRequest? && !s.DeleteRequest? && !s.TouchRequest?
    ensures Environment(w, s).store.requests == w.store.requests
  {
  }

  /** The stored request leaves the version in memory behind. */
  predicate Outdates(w: World, s: Step, k: Key) {
    Edits(w, s, k) || LosesAnswer(w, s, k)
  }

  lemma OutdateStep(w: World, s: Step, k: Key, r: JobRequest)
    requires Inv(w) && Enabled(w, s) && FromReading(w.request, k, r) && !s.StartRequest? && !Loads(w, s, k)
    requires !Over(Apply(w, s).request) && k in w.store.requests && k in Apply(w, s).store.requests
    ensures if Outdates(w, s, k) then Apply(w, s).store.requests[k].version == w.store.rv + 1
            else Apply(w, s).store.requests[k] == w.store.requests[k]
  {
    hide RequestCall, ReviewCall, Environment, Over, FromReading, Loads;
    hide RequestPcInv, ReviewPcInv, HistoryInv, CopiesOk, JobsOk, RequestsOk;
    if s.CallRequest? {
      FromReadingCall(w, s.o, k, r);
    } else if s.CallReview? {
      ReviewCallEdits(w, s.o, k);
    } else if OfEnvironment(s) {
      EnvironmentEdits(w, s, k);
    }
  }

  /** What is in memory is current exactly while nothing outdated it. */
  lemma {:induction false} ReadingCurrent(ws: seq<World>, steps: seq<Step>, m: nat, n: nat, k: Key, r: JobRequest)
    requires Execution(ws, steps) && m < n < |ws|
    requires k in ws[m + 1].store.requests && ws[m + 1].store.requests[k] == r && k in ws[n].store.requests
    requires FromReading(ws[m + 1].request, k, r)
    requires forall q :: m < q < n ==> !steps[q].StartRequest? && !Loads(ws[q], steps[q], k)
    requires forall q :: m < q <= n ==> !Over(ws[q].request)
    ensures FromReading(ws[n].request, k, r) && r.version <= ws[n].store.requests[k].version <= ws[n].store.rv
    ensures ws[n].store.requests[k].version == r.version <==> forall q :: m < q < n ==> !Outdates(ws[q], steps[q], k)
    decreases n - m
  {
    hide Apply, Enabled, Outdates, FromReading, Over, Loads, RequestPcInv, ReviewPcInv, HistoryInv;
    InvAlways(ws, steps, n);
    if m + 1 < n {
      StaysStored(ws, steps, m + 1, n - 1, n, k);
      ReadingCurrent(ws, steps, m, n - 1, k, r);
      InvAlways(ws, steps, n - 1);
      FromReadingStep(ws[n - 1], steps[n - 1], k, r);
      OutdateStep(ws[n - 1], steps[n - 1], k, r);
    }
  }

  /** Every status write of the request reconciler is accepted exactly when, since the request came into memory, nobody
      edited its labels, no decision landed on it, and no write of an outcome took effect with its answer lost. */
  lemma WriteAcceptedExactly(ws: seq<World>, steps: seq<Step>, m: nat, i: nat, k: Key)
    requires Execution(ws, steps) && m < i < |ws|
    requires Loads(ws[m], steps[m], k)
    requires forall q :: m < q < i ==> !steps[q].StartRequest? && !Loads(ws[q], steps[q], k)
    requires (ws[i].request.ReqSetState? || ws[i].request.ReqFinish?) && k in ws[i].store.requests
    ensures k in ws[m + 1].store.requests
    ensures FromReading(ws[i].request, k, ws[m + 1].store.requests[k])
    ensures RequestCurrent(ws[i].store, k, ws[i].request.base)
            <==> forall q :: m < q < i ==> !Edits(ws[q], steps[q], k) && !LosesAnswer(ws[q], steps[q], k)
  {
    hide Enabled, Edits, LosesAnswer, UserOf, Inv;
    forall q | m < q <= i
      ensures !Over(ws[q].request)
    {
      if Over(ws[q].request) {
        OverStays(ws, steps, q, i);
      }
    }
    InvAlways(ws, steps, m);
    assert !Over(ws[m + 1].request);
    LoadedCall(ws[m], k);
    ReadingCurrent(ws, steps, m, i, k, ws[m + 1].store.requests[k]);
  }

  // ---------- the Started write ----------

  /** The reconcile is at its second read or past it, or over: it has no other status to write. */
  predicate Off(pc: RequestPc) {
    pc.ReqIdle? || pc.ReqDelete? || pc.ReqGetAgain? || pc.ReqFinish?
  }

  lemma OffStep(w: World, s: Step)
    requires Enabled(w, s) && !s.StartRequest?
    ensures Off(w.request) ==> Off(Apply(w, s).request)
    ensures !w.request.ReqGet? ==> !Apply(w, s).request.ReqGet?
  {
    hide ReviewCall, UpdateRequestStatus;
    if s.CallReview? {
      ReviewCallFootprint(w, s.o);
    }
  }

  lemma {:induction false} OffStays(ws: seq<World>, steps: seq<Step>, n: nat, i: nat)
    requires Execution(ws, steps) && n <= i < |ws|
    requires forall q :: n <= q < i ==> !steps[q].StartRequest?
    ensures Off(ws[n].request) ==> Off(ws[i].request)
    ensures !ws[n].request.ReqGet? ==> !ws[i].request.ReqGet?
    decreases i - n
  {
    hide Apply, Enabled, Off;
    if n < i {
      OffStays(ws, steps, n, i - 1);
      OffStep(ws[i - 1], steps[i - 1]);
    }
  }

  /** Between the first read and a write before the second one, nothing else is loaded and no answer is lost. */
  lemma ReadsOnce(ws: seq<World>, steps: seq<Step>, m: nat, i: nat, k: Key)
    requires Execution(ws, steps) && m < i < |ws|
    requires ws[m].request == ReqGet(k) && steps[m].CallRequest?
    requires forall q :: m < q < i ==> !steps[q].StartRequest?
    requires ws[i].request.ReqSetState?
    ensures forall q :: m < q < i ==> !Loads(ws[q], steps[q], k) && !LosesAnswer(ws[q], steps[q], k)
  {
    hide Enabled, UserOf;
    forall q | m < q < i
      ensures !Loads(ws[q], steps[q], k) && !LosesAnswer(ws[q], steps[q], k)
    {
      OffStays(ws, steps, m + 1, q);
      OffStays(ws, steps, q, i);
    }
  }

  /** The Started write is refused exactly when the labels of the request were edited since it was read as Approved,
      whatever faults, crashes and lost answers there were. */
  lemma StartedRefusedExactly(ws: seq<World>, steps: seq<Step>, m: nat, i: nat, k: Key)
    requires Execution(ws, steps) && m < i < |ws|
    requires ws[m].request == ReqGet(k) && steps[m] == CallRequest(Ok) && StateIs(ws[m].store, k, Approved)
    requires forall q :: m < q < i ==> !steps[q].StartRequest?
    requires ws[i].request.ReqSetState? && ws[i].request.st.state == Started && k in ws[i].store.requests
    ensures RequestCurrent(ws[i].store, k, ws[i].request.base)
            <==> forall q :: m < q < i ==> steps[q] != TouchRequest(k)
  {
    hide Enabled, Apply, Loads, LosesAnswer;
    ReadsOnce(ws, steps, m, i, k);
    FirstReadLoads(ws[m], k);
    WriteAcceptedExactly(ws, steps, m, i, k);
    forall q | m < q < i && LandsDecision(ws[q], steps[q])
      ensures Key(ws[q].review.key.ns, ws[q].review.review.spec.jobRequestName) != k
    {
      ApprovedStays(ws, steps, m, q, i, k);
      InvAlways(ws, steps, q);
      DecidesPending(ws[q], steps[q]);
    }
  }

  lemma FirstReadLoads(w: World, k: Key)
    requires w.request == ReqGet(k) && k in w.store.requests
    ensures Loads(w, CallRequest(Ok), k) && RequestCall(w, Ok).store == w.store
  {
  }

  /** So the request is Started after that write exactly when the call took effect and nobody edited the labels. */
  lemma StartedStoredExactly(ws: seq<World>, steps: seq<Step>, m: nat, i: nat, k: Key)
    requires Execution(ws, steps) && m < i < |steps| && steps[i].CallRequest?
    requires ws[m].request == ReqGet(k) && steps[m] == CallRequest(Ok) && StateIs(ws[m].store, k, Approved)
    requires forall q :: m < q < i ==> !steps[q].StartRequest?
    requires ws[i].request.ReqSetState? && ws[i].request.st.state == Started && k in ws[i].store.requests
    ensures StateIs(ws[i + 1].store, k, Started)
            <==> !steps[i].o.Fault? && forall q :: m < q < i ==> steps[q] != TouchRequest(k)
  {
    hide Enabled, UserOf, Loads, LosesAnswer;
    StartedRefusedExactly(ws, steps, m, i, k);
    ReadsOnce(ws, steps, m, i, k);
    FirstReadLoads(ws[m], k);
    WriteAcceptedExactly(ws, steps, m, i, k);
    InvAlways(ws, steps, i);
    HeldApproved(ws[i], k, ws[m].store.requests[k]);
    WriteEffect(ws[i], steps[i].o);
  }

  lemma WriteEffect(w: World, o: Outcome)
    requires w.request.ReqSetState? && w.request.key in w.store.requests
    ensures var w' := RequestCall(w, o);
            && w.request.key in w'.store.requests
            && w'.store.requests[w.request.key].status ==
               if RequestWriteLands(w.store, w.request.key, w.request.base, o) then w.request.st
               else w.store.requests[w.request.key].status
  {
  }

  /** A request read as Approved is Approved until the reconcile writes. */
  lemma ApprovedStays(ws: seq<World>, steps: seq<Step>, m: nat, q: nat, i: nat, k: Key)
    requires Execution(ws, steps) && m < q < i < |ws|
    requires ws[m].request == ReqGet(k) && steps[m] == CallRequest(Ok) && StateIs(ws[m].store, k, Approved)
    requires forall n :: m < n < i ==> !steps[n].StartRequest?
    requires ws[i].request.ReqSetState? && k in ws[i].store.requests
    ensures StateIs(ws[q].store, k, Approved)
  {
    hide Enabled, UserOf, Loads, LosesAnswer, Inv;
    forall n | m < n <= i
      ensures !Over(ws[n].request)
    {
      if Over(ws[n].request) {
        OverStays(ws, steps, n, i);
      }
    }
    ReadsOnce(ws, steps, m, i, k);
    FirstReadLoads(ws[m], k);
    InvAlways(ws, steps, m);
    assert !Over(ws[m + 1].request);
    LoadedCall(ws[m], k);
    StaysStored(ws, steps, m, q, i, k);
    ReadingCurrent(ws, steps, m, q, k, ws[m].store.requests[k]);
    InvAlways(ws, steps, q);
    OffStays(ws, steps, q, i);
    HeldApproved(ws[q], k, ws[m].store.requests[k]);
  }

  lemma HeldApproved(w: World, k: Key, r: JobRequest)
    requires Inv(w) && FromReading(w.request, k, r) && !w.request.ReqFinish?
    requires r.status.state == Approved && k in w.store.requests
    ensures w.store.requests[k].status == r.status
  {
    hide StoreInv, HistoryInv, ReviewPcInv;
  }

  lemma DecidesPending(w: World, s: Step)
    requires Inv(w) && LandsDecision(w, s)
    ensures StateIs(w.store, Key(w.review.key.ns, w.review.review.spec.jobRequestName), Pending)
  {
    hide TwoPersons;
    DecisionLanding(w, s.o);
  }

  // ---------- where a status write comes from ----------

  /** Step `i` is the accepted status write of a reconcile of `k`, which step `m` decided on. */
  ghost predicate WriteFrom(ws: seq<World>, steps: seq<Step>, m: nat, i: nat, k: Key)
    requires Execution(ws, steps) && i < |steps|
  {
    && m < i && steps[m].CallRequest? && (forall q :: m < q < i ==> !OfRequestWorker(steps[q]))
    && ws[i].request == ws[m + 1].request && ws[i].request.ReqSetState? && ws[i].request.key == k
    && steps[i].CallRequest? && RequestWriteLands(ws[i].store, k, ws[i].request.base, steps[i].o)
  }

  lemma OthersKeepPc(w: World, s: Step)
    requires Enabled(w, s) && !OfRequestWorker(s)
    ensures Apply(w, s).request == w.request
  {
    hide ReviewCall;
    if s.CallReview? {
      ReviewCallFootprint(w, s.o);
    }
  }

  /** What the request reconciler is about to do was decided on by its last call. */
  lemma {:induction false} LastCall(ws: seq<World>, steps: seq<Step>, i: nat) returns (m: nat)
    requires Execution(ws, steps) && i < |ws| && !ws[i].request.ReqIdle? && !ws[i].request.ReqGet?
    ensures m < i && steps[m].CallRequest? && ws[m + 1].request == ws[i].request
    ensures forall q :: m < q < i ==> !OfRequestWorker(steps[q])
    decreases i
  {
    hide Enabled, Environment, RequestCall, ReviewCall;
    if i > 0 && !OfRequestWorker(steps[i - 1]) {
      OthersKeepPc(ws[i - 1], steps[i - 1]);
      m := LastCall(ws, steps, i - 1);
    } else {
      m := i - 1;
    }
  }

  /** A status other than Pending changes only by an accepted write of the request reconciler. */
  lemma ChangedByWrite(w: World, s: Step, k: Key)
    requires Inv(w) && Enabled(w, s) && k in w.store.requests && k in Apply(w, s).store.requests
    requires w.store.requests[k].status.state != Pending
    requires Apply(w, s).store.requests[k].status != w.store.requests[k].status
    ensures s.CallRequest? && (w.request.ReqSetState? || w.request.ReqFinish?) && w.request.key == k
    ensures RequestWriteLands(w.store, k, w.request.base, s.o)
    ensures w.store.requests[k].status == w.request.base.status
    ensures Apply(w, s).store.requests[k].status == w.request.st
  {
    hide RequestCall, ReviewCall, Environment, ReviewPcInv, HistoryInv;
    if s.CallRequest? {
      ChangedByCall(w, s.o, k);
    } else if s.CallReview? {
      ReviewCallMovesPending(w, s.o);
    } else if OfEnvironment(s) {
      EnvironmentKeeps(w, s);
    }
  }

  lemma ChangedByCall(w: World, o: Outcome, k: Key)
    requires RequestPcInv(w) && k in w.store.requests && k in RequestCall(w, o).store.requests
    requires RequestCall(w, o).store.requests[k].status != w.store.requests[k].status
    ensures (w.request.ReqSetState? || w.request.ReqFinish?) && w.request.key == k
    ensures RequestWriteLands(w.store, k, w.request.base, o)
    ensures w.store.requests[k].status == w.request.base.status
    ensures RequestCall(w, o).store.requests[k].status == w.request.st
  {
    if w.request.ReqSetState? || w.request.ReqFinish? {
      assert RequestCall(w, o).store == UpdateRequestStatus(w.store, w.request.key, w.request.base, w.request.st, o);
    } else {
      OtherRequestCall(w, o);
    }
  }

  /** Finishing never writes Pending or Malformed. */
  lemma FinishWrites(w: World)
    requires RequestPcInv(w) && w.request.ReqFinish?
    ensures w.request.st.state in {Complete, Failed}
  {
  }

  lemma AcceptedWrite(w: World, o: Outcome)
    requires w.request.ReqSetState? && RequestWriteLands(w.store, w.request.key, w.request.base, o)
    ensures StateIs(RequestCall(w, o).store, w.request.key, w.request.st.state)
  {
  }

  // ---------- back to Pending ----------

  /** The call that listed the reviews of `k` failed, or no stored review in its namespace names it. */
  ghost predicate FoundUnreviewed(w: World, s: Step, k: Key) {
    && s.CallRequest? && w.request.ReqListReviews? && w.request.key == k
    && (!s.o.Ok? || !exists v :: v in w.store.reviews && v.ns == k.ns && w.store.reviews[v].spec.jobRequestName == k.name)
  }

  lemma UnreviewedWritesPending(w: World, o: Outcome, k: Key)
    requires FoundUnreviewed(w, CallRequest(o), k)
    ensures RequestCall(w, o).request == SetState(k, w.request.base, Pending)
  {
    hide HasReview;
    ReviewedIsListed(w.store, k);
  }

  lemma PendingWriteIsUnreviewed(w: World, o: Outcome)
    requires w.request.ReqListReviews? && w.request.base.status.state != Pending
    requires RequestCall(w, o).request.ReqSetState?
    ensures RequestCall(w, o).request.st.state == Pending ==> FoundUnreviewed(w, CallRequest(o), w.request.key)
  {
    hide HasReview;
    ReviewedIsListed(w.store, w.request.key);
  }

  /** A stored request that is not Pending becomes Pending exactly by the accepted write of a reconcile that failed to list
      its reviews, or found none. */
  lemma PendingExactly(ws: seq<World>, steps: seq<Step>, i: nat, k: Key)
    requires Execution(ws, steps) && i < |steps|
    requires k in ws[i].store.requests && ws[i].store.requests[k].status.state != Pending
    ensures StateIs(ws[i + 1].store, k, Pending)
            <==> exists m: nat :: WriteFrom(ws, steps, m, i, k) && FoundUnreviewed(ws[m], steps[m], k)
  {
    hide Enabled, RequestCall, ReviewCall, Environment, HistoryInv, StoreInv, ReviewPcInv, RequestPcInv, FoundUnreviewed;
    InvAlways(ws, steps, i);
    if StateIs(ws[i + 1].store, k, Pending) {
      ChangedByWrite(ws[i], steps[i], k);
      if ws[i].request.ReqFinish? {
        FinishWrites(ws[i]);
      }
      var m := LastCall(ws, steps, i);
      if !ws[m].request.ReqListReviews? {
        NoOtherPendingWrite(ws[m], steps[m].o);
      }
      BaseOfListing(ws[m], steps[m].o);
      PendingWriteIsUnreviewed(ws[m], steps[m].o);
      assert WriteFrom(ws, steps, m, i, k) && FoundUnreviewed(ws[m], steps[m], k);
    }
    forall m: nat | WriteFrom(ws, steps, m, i, k) && FoundUnreviewed(ws[m], steps[m], k)
      ensures StateIs(ws[i + 1].store, k, Pending)
    {
      UnreviewedWritesPending(ws[m], steps[m].o, k);
      AcceptedWrite(ws[i], steps[i].o);
    }
  }

  lemma BaseOfListing(w: World, o: Outcome)
    requires w.request.ReqListReviews? && RequestCall(w, o).request.ReqSetState?
    ensures RequestCall(w, o).request.base == w.request.base && RequestCall(w, o).request.key == w.request.key
  {
  }

  // ---------- from Rejected to Malformed ----------

  /** The call found that no Job can be built: its read found no user in the annotation, or its list no target. */
  ghost predicate FoundUnbuildable(w: World, s: Step, k: Key) {
    && s == CallRequest(Ok)
    && ((w.request == ReqGet(k) && k in w.store.requests && !Named(w.store.requests[k].spec.requestedBy))
        || (w.request.ReqListTargets? && w.request.key == k && !Targeted(w.store, k, w.request.base.spec)))
  }

  lemma UnbuildableWritesMalformed(w: World, o: Outcome, k: Key)
    requires FoundUnbuildable(w, CallRequest(o), k) && RequestCall(w, o).request.ReqSetState?
    ensures RequestCall(w, o).request.st.state == Malformed && RequestCall(w, o).request.key == k
  {
    hide UserOf, Named, Targeted;
    Buildables(w);
  }

  lemma MalformedWriteIsUnbuildable(w: World, o: Outcome)
    requires RequestPcInv(w) && RequestCall(w, o).request.ReqSetState?
    requires RequestCall(w, o).request.st.state == Malformed && RequestCall(w, o).request.base.status.state == Rejected
    ensures FoundUnbuildable(w, CallRequest(o), RequestCall(w, o).request.key)
  {
    hide UserOf, Named, Targeted, Seen, Held, Backed;
    Buildables(w);
  }

  /** What the two checks of the reconciler find, in plain terms. */
  lemma Buildables(w: World)
    ensures w.request.ReqGet? && w.request.key in w.store.requests ==>
              var spec := w.store.requests[w.request.key].spec; Named(spec.requestedBy) <==> UserOf(spec.requestedBy).Some?
    ensures w.request.ReqListTargets? ==>
              var spec := w.request.base.spec; var items := ListTargets(w.store, w.request.key, spec);
              Targeted(w.store, w.request.key, spec) <==> items != [] && TargetContainers(items[0].containers, spec) != []
  {
    hide UserOf, Named, Targeted, TargetContainers, ListTargets;
    if w.request.ReqGet? && w.request.key in w.store.requests {
      NamedIsUser(w.store.requests[w.request.key].spec.requestedBy);
    } else if w.request.ReqListTargets? {
      TargetedIsListed(w.store, w.request.key, w.request.base.spec);
    }
  }

  /** A Rejected request becomes Malformed exactly by the accepted write of a reconcile that found no user in its
      annotation, no Deployment, or no such container. */
  lemma RejectedToMalformedExactly(ws: seq<World>, steps: seq<Step>, i: nat, k: Key)
    requires Execution(ws, steps) && i < |steps| && StateIs(ws[i].store, k, Rejected)
    ensures StateIs(ws[i + 1].store, k, Malformed)
            <==> exists m: nat :: WriteFrom(ws, steps, m, i, k) && FoundUnbuildable(ws[m], steps[m], k)
  {
    hide Enabled, RequestCall, ReviewCall, Environment, HistoryInv, StoreInv, ReviewPcInv, RequestPcInv, FoundUnbuildable;
    InvAlways(ws, steps, i);
    if StateIs(ws[i + 1].store, k, Malformed) {
      ChangedByWrite(ws[i], steps[i], k);
      if ws[i].request.ReqFinish? {
        FinishWrites(ws[i]);
      }
      var m := LastCall(ws, steps, i);
      InvAlways(ws, steps, m);
      MalformedWriteIsUnbuildable(ws[m], steps[m].o);
      assert WriteFrom(ws, steps, m, i, k) && FoundUnbuildable(ws[m], steps[m], k);
    }
    forall m: nat | WriteFrom(ws, steps, m, i, k) && FoundUnbuildable(ws[m], steps[m], k)
      ensures StateIs(ws[i + 1].store, k, Malformed)
    {
      UnbuildableWritesMalformed(ws[m], steps[m].o, k);
      AcceptedWrite(ws[i], steps[i].o);
    }
  }
}
