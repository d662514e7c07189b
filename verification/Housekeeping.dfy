/**
What sweeps and prunes may and may not do to a run (workerpool.go:662-811): the
recovery-attempt limit bounds a run's starts and takeovers, a dead executor's run stays
adoptable, and pruning execution rows moves Unsettled's answer only one way, with the
exact condition under which that is true.
 */
module Housekeeping {
  import opened Values
  import opened Tables
  import opened Fleet
  import opened FleetInvariants
  import opened FleetPromises

  // ---- The recovery-attempt limit ----

  predicate StartsRun(c: Config, s: State, a: Action, id: string) {
    || ((a.Dequeue? || a.Recover?) && a.id == id && CanStart(s, a.pid, id) && Started(c, s.runs[id], s.procs[a.pid].executor).state.Pending?)
    || (a.StartDirect? && a.id == id)
  }

  predicate TakesOver(s: State, a: Action, id: string) {
    || (a.Sweep? && a.pid in s.procs && id in s.runs
        && Adoptable(s.leases, s.now, s.procs[a.pid].app, s.procs[a.pid].version, s.procs[a.pid].stale, s.runs[id]))
    || (a.Requeue? && a.id == id)
  }

  function StartsIn(c: Config, s: State, acts: seq<Action>, id: string): nat
    decreases |acts|
  {
    if acts == [] || !Enabled(c, s, acts[0]) then 0
    else (if StartsRun(c, s, acts[0], id) then 1 else 0) + StartsIn(c, Next(c, s, acts[0]), acts[1..], id)
  }

  function TakeoversIn(c: Config, s: State, acts: seq<Action>, id: string): nat
    decreases |acts|
  {
    if acts == [] || !Enabled(c, s, acts[0]) then 0
    else (if TakesOver(s, acts[0], id) then 1 else 0) + TakeoversIn(c, Next(c, s, acts[0]), acts[1..], id)
  }

  /** Starts the run has left. */
  function Budget(c: Config, s: State, id: string): nat {
    if id !in s.runs then c.limit else if s.runs[id].attempts <= c.limit then c.limit - s.runs[id].attempts else 0
  }

  function InHand(s: State, id: string): nat { if id in s.runs && s.runs[id].state.Pending? then 1 else 0 }

  lemma SweepSpends(c: Config, s: State, pid: nat, id: string)
    requires Launched(s, pid)
    ensures Budget(c, Next(c, s, Sweep(pid)), id) == Budget(c, s, id)
    ensures InHand(Next(c, s, Sweep(pid)), id) + (if TakesOver(s, Sweep(pid), id) then 1 else 0) == InHand(s, id)
  {
    AdoptableIsPendingEverywhere(s, pid);
    hide Adoptable, NextLeases, NextRows, NextProcs, NextWork;
  }

  lemma OwnStepSpends(c: Config, s: State, a: Action, id: string)
    requires Enabled(c, s, a) && OnRun(a, id) && !a.Sweep? && a != Resume(id)
    ensures Budget(c, Next(c, s, a), id) + (if StartsRun(c, s, a, id) then 1 else 0) <= Budget(c, s, id)
    ensures
      Budget(c, Next(c, s, a), id) + InHand(Next(c, s, a), id) + (if TakesOver(s, a, id) then 1 else 0)
        <= Budget(c, s, id) + InHand(s, id)
  {
    hide NextLeases, NextRows, NextProcs, NextWork;
  }

  /** No step but Resume gives a start back, each start uses one up, and each takeover
      needs a start before it. */
  lemma StepSpends(c: Config, s: State, a: Action, id: string)
    requires Enabled(c, s, a) && a != Resume(id)
    ensures Budget(c, Next(c, s, a), id) + (if StartsRun(c, s, a, id) then 1 else 0) <= Budget(c, s, id)
    ensures
      Budget(c, Next(c, s, a), id) + InHand(Next(c, s, a), id) + (if TakesOver(s, a, id) then 1 else 0)
        <= Budget(c, s, id) + InHand(s, id)
  {
    if !OnRun(a, id) {
      RunUntouched(c, s, a, id);
    } else if a.Sweep? {
      SweepSpends(c, s, a.pid, id);
    } else {
      OwnStepSpends(c, s, a, id);
    }
    hide Enabled, Next, Adoptable;
  }

  /** In any trace without a Resume of the run, its starts are bounded by the starts its
      limit leaves it, and its takeovers by one more than that if it is running already. */
  lemma {:induction false} StartsAndTakeoversBounded(c: Config, s: State, acts: seq<Action>, t: State, id: string)
    requires Reaches(c, s, acts, t) && Resume(id) !in acts
    ensures StartsIn(c, s, acts, id) + Budget(c, t, id) <= Budget(c, s, id)
    ensures TakeoversIn(c, s, acts, id) + Budget(c, t, id) + InHand(t, id) <= Budget(c, s, id) + InHand(s, id)
    decreases |acts|
  {
    hide Enabled, Next, StartsRun, TakesOver, Budget, InHand;
    if acts != [] {
      StepSpends(c, s, acts[0], id);
      StartsAndTakeoversBounded(c, Next(c, s, acts[0]), acts[1..], t, id);
    }
  }

  /** The run is dead-lettered, and nobody's code is on it. */
  ghost predicate Parked(s: State, id: string) {
    id in s.runs && s.runs[id].state.RetriesExceeded? && forall x | x in s.work :: x.run != id
  }

  lemma ParkedStepStays(c: Config, s: State, a: Action, id: string)
    requires Enabled(c, s, a) && a != Resume(id) && Parked(s, id)
    ensures Parked(Next(c, s, a), id) && !TakesOver(s, a, id) && !StartsRun(c, s, a, id)
    ensures Next(c, s, a).runs[id] == s.runs[id].(executor := Next(c, s, a).runs[id].executor)
  {
    hide NextLeases, NextRows, NextProcs, NextWork, Adoptable, Started, Takeover;
    forall x | x in Next(c, s, a).work ensures x.run != id {
      if x !in s.work { NewOnlyByStart(c, s, a, x); }
    }
    if !OnRun(a, id) {
      RunUntouched(c, s, a, id);
    } else if a.Sweep? {
      SweepKeepsFinal(c, s, a.pid, id);
      AdoptableIsPendingEverywhere(s, a.pid);
    }
  }

  /** A dead-lettered run is never adopted or started again until somebody resumes it. */
  lemma {:induction false} ParkedStaysParked(c: Config, s: State, acts: seq<Action>, t: State, id: string)
    requires Parked(s, id) && Reaches(c, s, acts, t) && Resume(id) !in acts
    ensures Parked(t, id) && t.runs[id] == s.runs[id].(executor := t.runs[id].executor)
    ensures StartsIn(c, s, acts, id) == 0 && TakeoversIn(c, s, acts, id) == 0
    decreases |acts|
  {
    hide Enabled, Next, StartsRun, TakesOver;
    if acts != [] {
      ParkedStepStays(c, s, acts[0], id);
      ParkedStaysParked(c, Next(c, s, acts[0]), acts[1..], t, id);
    }
  }

  /** And a dead-lettered run has nobody's code on it, while it is its executor's own. */
  lemma OwnedIsParked(s: State, id: string)
    requires Owned(s, id) && id in s.runs && s.runs[id].state.RetriesExceeded?
    ensures Parked(s, id)
  {
  }

  // ---- Resume ----

  predicate CanResume(s: State, id: string) { id in s.runs && Resumable(s.runs[id]) }

  /** A cancellation before the first start, or a start past the limit. */
  predicate Reopens(c: Config, s: State, a: Action, id: string) {
    && id in s.runs
    && ((a == Cancel(id) && s.runs[id].attempts == 0)
        || ((a.Dequeue? || a.Recover?) && a.id == id && Parks(c, s.runs[id])))
  }

  function ReopensIn(c: Config, s: State, acts: seq<Action>, id: string): nat
    decreases |acts|
  {
    if acts == [] || !Enabled(c, s, acts[0]) then 0
    else (if Reopens(c, s, acts[0], id) then 1 else 0) + ReopensIn(c, Next(c, s, acts[0]), acts[1..], id)
  }

  function Count(acts: seq<Action>, a: Action): nat {
    if acts == [] then 0 else (if acts[0] == a then 1 else 0) + Count(acts[1..], a)
  }

  /** What makes a run that Resume refuses one that it admits. */
  lemma ReopensExactly(c: Config, s: State, a: Action, id: string)
    requires Enabled(c, s, a) && id in s.runs && !CanResume(s, id)
    ensures CanResume(Next(c, s, a), id) <==> Reopens(c, s, a, id)
  {
    hide NextLeases, NextRows, NextProcs, NextWork, Adoptable;
    if !OnRun(a, id) {
      RunUntouched(c, s, a, id);
      hide Enabled, NextRuns;
    }
  }

  lemma ResumeStep(c: Config, s: State, a: Action, id: string)
    requires Enabled(c, s, a) && id in s.runs
    ensures id in Next(c, s, a).runs
    ensures CanResume(s, id) ==> !Reopens(c, s, a, id)
    ensures a == Resume(id) ==> CanResume(s, id) && !CanResume(Next(c, s, a), id)
  {
    RunsStay(c, s, a);
    hide NextLeases, NextRows, NextProcs, NextWork, Adoptable;
  }

  /** Every Resume that applies uses up one reopening of the run, so that of two Resumes,
      or of a Resume and the start of a run it puts back, only one applies: the second
      waits until the run has been cancelled before a start, or a start has parked it. */
  lemma {:induction false} ResumeAppliesOnce(c: Config, s: State, acts: seq<Action>, t: State, id: string)
    requires id in s.runs && Reaches(c, s, acts, t)
    ensures Count(acts, Resume(id)) + (if CanResume(t, id) then 1 else 0)
            <= ReopensIn(c, s, acts, id) + (if CanResume(s, id) then 1 else 0)
    decreases |acts|
  {
    hide Enabled, Next, CanResume, Reopens;
    if acts != [] {
      ResumeStep(c, s, acts[0], id);
      if !CanResume(s, id) { ReopensExactly(c, s, acts[0], id); }
      ResumeAppliesOnce(c, Next(c, s, acts[0]), acts[1..], t, id);
    }
  }

  /** What an applied Resume gives the run: a fresh budget of starts, and a place on its
      own queue, or on DBOS's internal one if it records none. Nothing else of its row
      changes, and no other run, lease, row or process does. */
  lemma ResumeRevives(c: Config, s: State, id: string)
    requires Enabled(c, s, Resume(id))
    ensures
      var t := Next(c, s, Resume(id));
      && Budget(c, t, id) == c.limit
      && t == s.(runs := t.runs) && t.runs.Keys == s.runs.Keys
      && (forall r | r in s.runs && r != id :: t.runs[r] == s.runs[r])
      && t.runs[id].state.Enqueued?
      && t.runs[id].queue == (if s.runs[id].queue == "" then "_dbos_internal_queue" else s.runs[id].queue)
      && t.runs[id] == s.runs[id].(state := t.runs[id].state, queue := t.runs[id].queue, attempts := t.runs[id].attempts)
  {
  }

  /** So the next start of it succeeds, by whichever process can start it: it is not parked
      again, but PENDING on that process, with that process's code on it. */
  lemma ResumedRunStarts(c: Config, s: State, id: string, pid: nat)
    requires Enabled(c, s, Resume(id)) && c.limit > 0 && CanStart(Next(c, s, Resume(id)), pid, id)
    ensures
      var t := Next(c, s, Resume(id));
      && Enabled(c, t, Dequeue(pid, id))
      && var u := Next(c, t, Dequeue(pid, id));
      && u.runs[id].state.Pending? && u.runs[id].executor == s.procs[pid].executor && u.runs[id].attempts == 1
      && Slot(pid, id) in u.work && u.work[Slot(pid, id)] == ENTERED
  {
  }

  /** A run cancelled before its first start is resumed outside its queue: the
      cancellation has cleared it. */
  lemma CancelledThenResumed(c: Config, s: State, id: string)
    requires Enabled(c, s, Cancel(id)) && s.runs[id].attempts == 0
    ensures
      var t := Next(c, s, Cancel(id));
      && t.runs[id].state.Cancelled? && Enabled(c, t, Resume(id))
      && Next(c, t, Resume(id)).runs[id].queue == "_dbos_internal_queue"
  {
  }

  // ---- Adoption ----

  /** A run whose executor is dead by `threshold`, for sweepers of `app` at `version`. */
  predicate Stranded(s: State, id: string, app: string, version: string, threshold: nat) {
    id in s.runs && Adoptable(s.leases, s.now, app, version, threshold, s.runs[id])
  }

  predicate Reclaims(a: Action, executor: string) { a.Claim? && a.proc.executor == executor }

  lemma NobodyIsThatExecutor(c: Config, s: State, id: string, app: string, version: string, threshold: nat)
    requires Leased(c, s) && Held(s, id) && Stranded(s, id, app, version, threshold) && threshold >= c.patience
    ensures forall pid | pid in s.procs :: s.procs[pid].executor != s.runs[id].executor
    ensures forall x | x in s.work :: x.run != id
  {
    assert forall pid | pid in s.procs :: LeasedAt(c, s, pid);
    assert forall x | x in s.work && x.run == id :: x.pid in s.procs;
  }

  /** Pruning never takes away a lease while its executor owns a run that could be adopted. */
  lemma PruneSparesNeeded(s: State, executor: string, pruner: string, age: nat)
    requires executor in s.leases && Needed(s.runs, executor, s.leases[executor].app)
    ensures executor in PruneLeases(s.leases, s.runs, s.now, pruner, age)
    ensures PruneLeases(s.leases, s.runs, s.now, pruner, age)[executor] == s.leases[executor]
  {
    hide Needed, Stale;
  }

  /** The guard is exact: a lease goes when it is the pruner's application's, past the
      horizon, and no stranded run would lose its way back with it. */
  lemma {:induction false} PruneIsExact(s: State, executor: string, pruner: string, age: nat)
    requires executor in s.leases && s.leases[executor].app == pruner && Stale(s.leases[executor], s.now, age)
    ensures executor !in PruneLeases(s.leases, s.runs, s.now, pruner, age) <==>
            !exists id :: id in s.runs && Stranded(s, id, pruner, s.runs[id].version, age) && s.runs[id].executor == executor
  {
    if Needed(s.runs, executor, pruner) {
      var id :| id in s.runs && s.runs[id].executor == executor && s.runs[id].state.Pending?
                && (s.runs[id].app == Some(pruner) || s.runs[id].app.None?);
      assert Stranded(s, id, pruner, s.runs[id].version, age);
    }
  }

  /** And the horizon lies far beyond the one by which runs are taken over: a lease is
      pruned only after a hundred of the pruner's thresholds without a beat. */
  lemma PruneLagsTakeover(c: Config, s: State, pid: nat, executor: string)
    requires Enabled(c, s, PruneLeaseRows(pid)) && executor in s.leases
    requires executor !in Next(c, s, PruneLeaseRows(pid)).leases
    ensures s.now - s.leases[executor].beat > 100 * s.procs[pid].stale && s.leases[executor].app == s.procs[pid].app
  {
  }

  lemma StrandedRunStays(c: Config, s: State, a: Action, id: string, executor: string)
    requires Enabled(c, s, a) && id in s.runs && s.runs[id].state.Pending? && s.runs[id].executor == executor
    requires forall pid | pid in s.procs :: s.procs[pid].executor != executor
    requires forall x | x in s.work :: x.run != id
    requires a != Cancel(id) && !TakesOver(s, a, id) && !Disturbs(s, a, id)
    ensures id in Next(c, s, a).runs && Next(c, s, a).runs[id] == s.runs[id]
  {
    hide NextLeases, NextRows, NextProcs, NextWork, Adoptable, Started;
    if !OnRun(a, id) {
      RunUntouched(c, s, a, id);
      hide Enabled, NextRuns;
    }
  }

  lemma StrandedLeaseStays(c: Config, s: State, a: Action, executor: string)
    requires Enabled(c, s, a) && executor in s.leases && Needed(s.runs, executor, s.leases[executor].app)
    requires forall pid | pid in s.procs :: s.procs[pid].executor != executor
    requires !Reclaims(a, executor)
    ensures executor in Next(c, s, a).leases && Next(c, s, a).leases[executor] == s.leases[executor]
    ensures Next(c, s, a).now >= s.now
  {
    hide NextRuns, NextRows, NextProcs, NextWork, Stale, Needed, LiveLease;
    if a.PruneLeaseRows? {
      PruneSparesNeeded(s, executor, s.procs[a.pid].app, PruneAge(s.procs[a.pid].stale));
      hide PruneLeases;
    }
  }

  lemma StrandedStep(c: Config, s: State, a: Action, id: string, app: string, version: string, threshold: nat)
    requires Leased(c, s) && Held(s, id) && Enabled(c, s, a)
    requires Stranded(s, id, app, version, threshold) && threshold >= c.patience
    requires a != Cancel(id) && !Reclaims(a, s.runs[id].executor) && !TakesOver(s, a, id) && !Disturbs(s, a, id)
    ensures Stranded(Next(c, s, a), id, app, version, threshold) && Next(c, s, a).runs[id] == s.runs[id]
  {
    hide Enabled, Next, TakesOver, Leased, Held, Disturbs;
    NobodyIsThatExecutor(c, s, id, app, version, threshold);
    var executor := s.runs[id].executor;
    assert Needed(s.runs, executor, s.leases[executor].app);
    StrandedRunStays(c, s, a, id, executor);
    StrandedLeaseStays(c, s, a, executor);
  }

  /** A dead executor's run stays adoptable, through crashes, prunes and everything else,
      until it is taken over or cancelled, its executor ID is claimed again, or a caller
      starts the run's ID again. */
  lemma {:induction false} StrandedStaysAdoptable(
      c: Config, s: State, acts: seq<Action>, t: State, id: string, app: string, version: string, threshold: nat)
    requires Inv(c, s) && Owned(s, id) && Stranded(s, id, app, version, threshold) && threshold >= c.patience
    requires Reaches(c, s, acts, t) && Undisturbed(c, s, acts, id) && Cancel(id) !in acts
    requires forall a | a in acts :: !Reclaims(a, s.runs[id].executor)
    ensures TakeoversIn(c, s, acts, id) == 0 ==> Stranded(t, id, app, version, threshold) && t.runs[id] == s.runs[id]
    decreases |acts|
  {
    hide Leased, OneToAnId, Staffed, Rowed, Held, Exclusive, Enabled, Next, Stranded, TakesOver, Disturbs;
    if acts != [] && !TakesOver(s, acts[0], id) {
      StepKeepsInv(c, s, acts[0]);
      StepKeepsHeld(c, s, acts[0], id);
      StepKeepsExclusive(c, s, acts[0], id);
      StrandedStep(c, s, acts[0], id, app, version, threshold);
      assert forall a | a in acts[1..] :: a in acts;
      StrandedStaysAdoptable(c, Next(c, s, acts[0]), acts[1..], t, id, app, version, threshold);
    }
  }

  /** A sweep at the run's application and version adopts it: it goes back to its own
      queue, or to the internal one if it has none. Its attempts stay as they were, and a
      run without an application gets the sweeper's; nothing else of its row changes. */
  lemma SweepAdopts(c: Config, s: State, id: string, pid: nat)
    requires Launched(s, pid) && Stranded(s, id, s.procs[pid].app, s.procs[pid].version, s.procs[pid].stale)
    ensures
      var run := Next(c, s, Sweep(pid)).runs[id];
      && run.state.Enqueued? && run.app == Some(s.procs[pid].app)
      && run.queue == (if s.runs[id].queue == "" then "_dbos_internal_queue" else s.runs[id].queue)
      && run == s.runs[id].(state := run.state, queue := run.queue, app := run.app)
  {
  }

  /** And it changes no run but those: PENDING, at the sweeper's version, the sweeper's
      application's or nobody's, and named for an executor of that application whose lease
      has not been renewed within the sweeper's threshold. */
  lemma SweepTakesOnlyTheDead(c: Config, s: State, id: string, pid: nat)
    requires Launched(s, pid) && id in s.runs
    ensures
      var p, run := s.procs[pid], s.runs[id];
      Next(c, s, Sweep(pid)).runs[id] != run <==>
        && run.state.Pending? && run.version == p.version && (run.app == Some(p.app) || run.app == None)
        && run.executor in s.leases && s.leases[run.executor].app == p.app
        && s.now - s.leases[run.executor].beat > p.stale
  {
  }

  /** A tombstoned lease is stale at once, by any threshold the clock has outlived. */
  lemma LeaveStrands(c: Config, s: State, pid: nat, id: string, sweeper: Process)
    requires Inv(c, s) && pid in s.procs && id in s.runs
    requires s.runs[id].state.Pending? && s.runs[id].executor == s.procs[pid].executor
    requires s.leases[s.procs[pid].executor].app == sweeper.app && s.runs[id].version == sweeper.version
    requires s.runs[id].app == Some(sweeper.app) || s.runs[id].app.None?
    requires EPOCH < s.now - sweeper.stale
    ensures Stranded(Next(c, s, Leave(pid)), id, sweeper.app, sweeper.version, sweeper.stale)
  {
    hide Rowed, OneToAnId, Staffed;
  }

  // ---- Pruning execution rows ----

  /** Whatever the tables hold, this prune never turns an executing run into a settled one. */
  ghost predicate NeverSettles(leases: Leases, now: int, app: string, age: nat) {
    forall runs: Runs, rows: Rows, id | id in runs && Executing(runs, leases, rows, now, id) ::
      Executing(runs, leases, PruneRows(rows, leases, now, app, age), now, id)
  }

  /** No lease is past the pruner's horizon and yet live by its own threshold. */
  ghost predicate HorizonBeyondThresholds(leases: Leases, now: int, app: string, age: nat) {
    forall e | e in leases && leases[e].app == app && Stale(leases[e], now, age) :: !LiveLease(leases, e, now)
  }

  lemma PruneKeepsExecuting(runs: Runs, leases: Leases, rows: Rows, now: int, app: string, age: nat, id: string)
    requires HorizonBeyondThresholds(leases, now, app, age)
    requires id in runs && Executing(runs, leases, rows, now, id)
    ensures Executing(runs, leases, PruneRows(rows, leases, now, app, age), now, id)
  {
    var left := PruneRows(rows, leases, now, app, age);
    if OpenOnLive(rows, leases, now, id) {
      var k :| k in rows && k.run == id && rows[k].open && LiveLease(leases, k.executor, now);
      assert k in left && left[k] == rows[k];
    }
  }

  /** Pruning moves the answer only toward "executing" exactly when the pruner's horizon
      lies beyond every executor's own stale threshold. Nothing in the fleet compares the
      two: the horizon is a hundred times the pruner's threshold, not the owner's. */
  lemma {:induction false} PruneDirection(leases: Leases, now: int, app: string, age: nat)
    ensures NeverSettles(leases, now, app, age) <==> HorizonBeyondThresholds(leases, now, app, age)
  {
    if HorizonBeyondThresholds(leases, now, app, age) {
      forall runs: Runs, rows: Rows, id | id in runs && Executing(runs, leases, rows, now, id)
        ensures Executing(runs, leases, PruneRows(rows, leases, now, app, age), now, id)
      {
        PruneKeepsExecuting(runs, leases, rows, now, app, age, id);
      }
    } else {
      var e :| e in leases && leases[e].app == app && Stale(leases[e], now, age) && LiveLease(leases, e, now);
      var runs: Runs := map["r" := Run(Cancelled, e, 0, "", None, "")];
      var key := RowKey(e, "r");
      var rows: Rows := map[key := Row(0, true)];
      assert key in rows && key.run == "r" && rows[key].open;
      assert Executing(runs, leases, rows, now, "r");
      assert PruneRows(rows, leases, now, app, age) == map[];
    }
  }

  /** A threshold no longer than a hundred of the pruner's is enough. */
  lemma HorizonSuffices(leases: Leases, now: int, app: string, threshold: nat)
    requires forall e | e in leases && leases[e].app == app :: leases[e].staleAfter <= PruneAge(threshold)
    ensures HorizonBeyondThresholds(leases, now, app, PruneAge(threshold))
  {
  }

  /** The other way, pruning does count: a settled run reads as executing again exactly
      when it was cancelled after a start, its row names a live executor, and the prune
      takes the last of its execution rows. */
  lemma {:induction false} PruneUnsettles(s: State, id: string, app: string, age: nat)
    requires SettledIn(s, id)
    ensures
      var left := PruneRows(s.rows, s.leases, s.now, app, age);
      var run := s.runs[id];
      Unsettled(s.runs, s.leases, left, s.now, id) <==>
        && run.state.Cancelled? && run.attempts > 0 && LiveLease(s.leases, run.executor, s.now)
        && forall k | k in s.rows && k.run == id :: PrunesRow(s.leases, k, s.now, app, age)
  {
    var left := PruneRows(s.rows, s.leases, s.now, app, age);
    assert forall k | k in left :: k in s.rows && s.rows[k] == left[k];
    assert forall k | k in s.rows && k !in left :: PrunesRow(s.leases, k, s.now, app, age);
    if HasRow(left, id) {
      var k :| k in left && k.run == id;
      assert k in s.rows && !PrunesRow(s.leases, k, s.now, app, age);
    }
  }
}
