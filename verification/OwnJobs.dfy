/** Whose Job a Conflicted request met, in executions with any faults, crashes, lost answers and edits. */
module OwnJobs {
  import opened Resources
  import opened Protocol
  import opened Invariants
  import opened Frames
  import opened Interference
  import opened SteadyRuns
  import opened Safety
  import opened StatusMoves

  // ---------- somebody created it ----------

  ghost predicate JobKnown(w: World, k: Key) {
    k in w.log.creations || k in w.log.foreignJobs
  }

  ghost predicate ConflictKnown(w: World, k: Key) {
    && (StateIs(w.store, k, Conflicted) ==> JobKnown(w, k))
    && (w.request.ReqSetState? && w.request.key == k && w.request.st.state == Conflicted ==> JobKnown(w, k))
  }

  lemma ConflictWriteKnown(w: World, o: Outcome, k: Key)
    requires JobsOk(w) && RequestPcInv(w)
    ensures var pc := RequestCall(w, o).request;
            pc.ReqSetState? && pc.key == k && pc.st.state == Conflicted ==> JobKnown(w, k)
  {
    hide UserOf, UpdateRequestStatus;
  }

  lemma ConflictKnownStep(w: World, s: Step, k: Key)
    requires Inv(w) && Enabled(w, s) && ConflictKnown(w, k)
    ensures ConflictKnown(Apply(w, s), k)
  {
    hide RequestCall, ReviewCall, Environment, HistoryInv, ReviewPcInv, RequestsOk, CopiesOk, JobsOk, RequestPcInv;
    var w' := Apply(w, s);
    LaterStep(w, s);
    if StateIs(w'.store, k, Conflicted) && !StateIs(w.store, k, Conflicted) {
      ConflictIsWritten(w, s, k);
    }
    if JobKnown(w, k) {
    } else if s.CallRequest? {
      ConflictWriteKnown(w, s.o, k);
    } else if s.CallReview? {
      ReviewCallFootprint(w, s.o);
    } else if OfEnvironment(s) {
      EnvironmentKeeps(w, s);
    }
  }

  lemma ConflictIsWritten(w: World, s: Step, k: Key)
    requires Inv(w) && Enabled(w, s) && StateIs(Apply(w, s).store, k, Conflicted) && !StateIs(w.store, k, Conflicted)
    ensures w.request.ReqSetState? && w.request.key == k && w.request.st.state == Conflicted
  {
    hide RequestCall, ReviewCall, Environment, HistoryInv, ReviewPcInv, RequestsOk, CopiesOk, JobsOk;
    if s.CallRequest? {
      ConflictCall(w, s.o, k);
    } else if s.CallReview? {
      ReviewCallFootprint(w, s.o);
      DecisionCall(w, s.o, k);
    } else if OfEnvironment(s) {
      EnvironmentKeeps(w, s);
    }
  }

  lemma ConflictCall(w: World, o: Outcome, k: Key)
    requires RequestPcInv(w) && StateIs(RequestCall(w, o).store, k, Conflicted) && !StateIs(w.store, k, Conflicted)
    ensures w.request.ReqSetState? && w.request.key == k && w.request.st.state == Conflicted
  {
    RequestCallFootprint(w, o);
    ChangedByCall(w, o, k);
    if w.request.ReqFinish? {
      FinishWrites(w);
    }
  }

  lemma {:induction false} ConflictAlwaysKnown(ws: seq<World>, steps: seq<Step>, i: nat, k: Key)
    requires Execution(ws, steps) && i < |ws|
    ensures ConflictKnown(ws[i], k)
  {
    hide Apply, Enabled, Inv;
    if i > 0 {
      ConflictAlwaysKnown(ws, steps, i - 1, k);
      InvAlways(ws, steps, i - 1);
      ConflictKnownStep(ws[i - 1], steps[i - 1], k);
    }
  }

  // ---------- once Started ----------

  predicate OnceStarted(state: RequestState) {
    state in {Started, Complete, Failed, Malformed}
  }

  lemma OnceStartedStep(w: World, s: Step, k: Key)
    requires Inv(w) && Enabled(w, s) && k in w.store.requests && k in Apply(w, s).store.requests
    requires OnceStarted(w.store.requests[k].status.state)
    ensures OnceStarted(Apply(w, s).store.requests[k].status.state) || StateIs(Apply(w, s).store, k, Pending)
  {
    hide Apply, Enabled, HistoryInv, ReviewPcInv, StoreInv;
    if Apply(w, s).store.requests[k].status != w.store.requests[k].status {
      ChangedByWrite(w, s, k);
    }
  }

  /** A request that was Started is Conflicted only after having been Pending again. */
  lemma {:induction false} StartedThenConflicted(ws: seq<World>, steps: seq<Step>, n: nat, i: nat, k: Key)
    requires Execution(ws, steps) && n <= i < |ws| && StateIs(ws[n].store, k, Started) && k in ws[i].store.requests
    ensures OnceStarted(ws[i].store.requests[k].status.state)
            || exists q :: n < q <= i && StateIs(ws[q].store, k, Pending)
    decreases i - n
  {
    hide Apply, Enabled, Inv, StateIs;
    if n == i {
      StartedIs(ws[n].store, k);
    } else {
      StartedIs(ws[n].store, k);
      StaysStored(ws, steps, n, i - 1, i, k);
      StartedThenConflicted(ws, steps, n, i - 1, k);
      if OnceStarted(ws[i - 1].store.requests[k].status.state) {
        InvAlways(ws, steps, i - 1);
        OnceStartedStep(ws[i - 1], steps[i - 1], k);
      }
    }
  }

  lemma StartedIs(s: Store, k: Key)
    requires StateIs(s, k, Started)
    ensures k in s.requests && OnceStarted(s.requests[k].status.state)
  {
  }

  // ---------- whose it is ----------

  /** A call of the controller puts the Job of this name into the store. */
  predicate PutsJob(w: World, s: Step, w': World, k: Key) {
    s.CallRequest? && k !in w.store.jobs && k in w'.store.jobs
  }

  lemma {:induction false} CreationHappened(ws: seq<World>, steps: seq<Step>, i: nat, k: Key) returns (j: nat)
    requires Execution(ws, steps) && i < |ws| && k in ws[i].log.creations
    ensures j < i && PutsJob(ws[j], steps[j], ws[j + 1], k)
    decreases i
  {
    hide Apply, Enabled;
    if k in ws[i - 1].log.creations {
      j := CreationHappened(ws, steps, i - 1, k);
    } else {
      CreationsAreTheJobs(ws, steps, i - 1, k);
      CreationAdded(ws, steps, i - 1, k);
      j := i - 1;
    }
  }

  lemma CreationAdded(ws: seq<World>, steps: seq<Step>, i: nat, k: Key)
    requires Execution(ws, steps) && i < |steps|
    requires k !in ws[i].log.creations && k in ws[i + 1].log.creations
    ensures ws[i + 1].log.creations == ws[i].log.creations + [k]
  {
    hide Enabled, RequestCall;
    CreationsAreTheJobs(ws, steps, i, k);
    OneCreation(ws[i], steps[i].o, k);
  }

  lemma OneCreation(w: World, o: Outcome, k: Key)
    requires k !in w.log.creations && k in RequestCall(w, o).log.creations
    ensures RequestCall(w, o).log.creations == w.log.creations + [k]
  {
    if Reads(w.request) {
      ReadsKeepStore(w, o);
    }
  }

  lemma NeverStarted(ws: seq<World>, steps: seq<Step>, n: nat, i: nat, k: Key)
    requires SteadyRun(ws, steps) && n <= i < |ws| && StateIs(ws[i].store, k, Conflicted)
    ensures !StateIs(ws[n].store, k, Started)
  {
    hide Apply, Enabled, Steady;
    if StateIs(ws[n].store, k, Started) {
      StatusMirrorsHistory(ws, steps, n, k);
      StartedThenConflicted(ws, steps, n, i, k);
      var q :| n < q <= i && StateIs(ws[q].store, k, Pending);
      DecisionIsFinal(ws, steps, n, q, LastDecision(ws[n].log.decisions, k).value);
    }
  }

  /** In a steady run with any faults, crashes, lost answers and edits: a Conflicted request has never been Started, so no
      Started write of it ever took effect; the controller created its Job exactly when one of its calls put it there; and
      if not, somebody else did. */
  lemma ConflictedOverOwnJob(ws: seq<World>, steps: seq<Step>, i: nat, k: Key)
    requires SteadyRun(ws, steps) && i < |ws| && StateIs(ws[i].store, k, Conflicted)
    ensures k in ws[i].log.creations <==> exists j: nat :: j < i && PutsJob(ws[j], steps[j], ws[j + 1], k)
    ensures forall n: nat :: n <= i ==> !StateIs(ws[n].store, k, Started)
    ensures k in ws[i].log.creations || k in ws[i].log.foreignJobs
  {
    hide Apply, Enabled, Steady, PutsJob, StateIs, Inv;
    ConflictAlwaysKnown(ws, steps, i, k);
    forall n: nat | n <= i
      ensures !StateIs(ws[n].store, k, Started)
    {
      NeverStarted(ws, steps, n, i, k);
    }
    if k in ws[i].log.creations {
      var j := CreationHappened(ws, steps, i, k);
    }
    forall j: nat | j < i && PutsJob(ws[j], steps[j], ws[j + 1], k)
      ensures k in ws[i].log.creations
    {
      PutIsLogged(ws, steps, j, k);
      LaterOver(ws, steps, j + 1, i);
    }
  }

  lemma PutIsLogged(ws: seq<World>, steps: seq<Step>, j: nat, k: Key)
    requires Execution(ws, steps) && j < |steps| && PutsJob(ws[j], steps[j], ws[j + 1], k)
    ensures k in ws[j + 1].log.creations
  {
    hide Apply, Enabled;
    CreationsAreTheJobs(ws, steps, j, k);
    assert (ws[j].log.creations + [k])[|ws[j].log.creations|] == k;
  }
}
