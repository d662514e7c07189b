/**
Every action of the fleet keeps Fleet.Inv: who holds which lease, whose code is where, and
which execution rows are open. Every action but one keeps Fleet.Owned, for each run by
itself: the run's row names the one process whose code is on it. The exception is a caller
that starts a PENDING run's ID again on another executor.
 */
module FleetInvariants {
  import opened Values
  import opened Tables
  import opened Fleet

  /** The actions that may write this run's row. */
  predicate OnRun(a: Action, id: string) {
    || a.Sweep?
    || ((a.Enqueue? || a.Undelay? || a.Cancel? || a.Resume?) && a.id == id)
    || ((a.StartDirect? || a.Dequeue? || a.Recover? || a.Requeue? || a.Restart? || a.Finish?) && a.id == id)
  }

  lemma RunUntouched(c: Config, s: State, a: Action, id: string)
    requires Enabled(c, s, a) && !OnRun(a, id)
    ensures id in Next(c, s, a).runs <==> id in s.runs
    ensures id in s.runs ==> Next(c, s, a).runs[id] == s.runs[id]
  {
    hide Enabled, NextLeases, NextRows, NextWork, NextProcs, Takeover, Started;
  }

  lemma ProcessStays(c: Config, s: State, a: Action, pid: nat)
    requires Enabled(c, s, a) && pid in Next(c, s, a).procs
    ensures pid in s.procs ==>
              && Next(c, s, a).procs[pid] == s.procs[pid].(launched := Next(c, s, a).procs[pid].launched)
              && !(a.Leave? && a.pid == pid)
    ensures pid !in s.procs ==> a.Claim? && a.pid == pid
  {
    hide NextRuns, NextLeases, NextRows, NextWork;
  }

  /** Only OpenRow and End change which row an activity has. */
  lemma ActivityKeepsRow(c: Config, s: State, a: Action, x: Slot)
    requires Enabled(c, s, a) && x in Next(c, s, a).work
    requires !(a.OpenRow? && x == Slot(a.pid, a.id)) && !(a.End? && x == Slot(a.pid, a.id))
    ensures Next(c, s, a).work[x] == ENTERED || x in s.work
    ensures Next(c, s, a).work[x] != ENTERED ==>
              && Next(c, s, a).work[x].row == s.work[x].row && Next(c, s, a).work[x].over == s.work[x].over
              && (Next(c, s, a).work[x].stage ==>
                    s.work[x].stage || (!s.work[x].over && (x.pid in s.procs && s.procs[x.pid].tracked ==> s.work[x].row.Some?)))
  {
    hide NextRuns, NextLeases, NextRows, NextProcs;
  }

  lemma PruneSparesLiving(c: Config, s: State, pruner: nat, pid: nat)
    requires pruner in s.procs && LeasedAt(c, s, pruner) && pid in s.procs && LeasedAt(c, s, pid)
    ensures
      var left := PruneLeases(s.leases, s.runs, s.now, s.procs[pruner].app, PruneAge(s.procs[pruner].stale));
      s.procs[pid].executor in left && left[s.procs[pid].executor] == s.leases[s.procs[pid].executor]
  {
    hide Needed;
  }

  lemma LeaseKept(c: Config, s: State, a: Action, pid: nat)
    requires Leased(c, s) && OneToAnId(s) && Enabled(c, s, a) && pid in s.procs && !(a.Leave? && a.pid == pid)
    ensures
      var e := s.procs[pid].executor;
      && e in s.leases && e in NextLeases(c, s, a)
      && (NextLeases(c, s, a)[e] == s.leases[e] || NextLeases(c, s, a)[e] == LeaseOf(s.procs[pid], pid, s.now))
  {
    assert LeasedAt(c, s, pid);
    if a.PruneLeaseRows? {
      assert LeasedAt(c, s, a.pid);
      PruneSparesLiving(c, s, a.pid, pid);
    }
    hide Leased, PruneLeases, PruneAge;
  }

  lemma StepKeepsLease(c: Config, s: State, a: Action, pid: nat)
    requires Leased(c, s) && OneToAnId(s) && Enabled(c, s, a) && pid in Next(c, s, a).procs
    ensures LeasedAt(c, Next(c, s, a), pid)
  {
    ProcessStays(c, s, a, pid);
    if pid in s.procs {
      ProcessKeepsLease(c, s, a, pid);
    } else {
      hide NextRuns, NextRows, NextWork, Leased, OneToAnId;
    }
  }

  lemma ProcessKeepsLease(c: Config, s: State, a: Action, pid: nat)
    requires Leased(c, s) && OneToAnId(s) && Enabled(c, s, a) && pid in Next(c, s, a).procs && pid in s.procs
    ensures LeasedAt(c, Next(c, s, a), pid)
  {
    assert LeasedAt(c, s, pid);
    ProcessStays(c, s, a, pid);
    LeaseKept(c, s, a, pid);
    TickIsInTime(c, s, a, pid);
    hide Enabled, NextRuns, NextRows, NextWork, NextLeases, NextProcs, Leased, OneToAnId;
  }

  lemma TickIsInTime(c: Config, s: State, a: Action, pid: nat)
    requires Enabled(c, s, a) && pid in s.procs
    ensures a.Tick? ==> s.procs[pid].executor in s.leases && s.leases[s.procs[pid].executor].beat >= s.now + 1 - c.patience
  {
  }

  lemma StepKeepsIds(c: Config, s: State, a: Action)
    requires OneToAnId(s) && Enabled(c, s, a)
    ensures OneToAnId(Next(c, s, a))
  {
    hide NextRuns, NextLeases, NextRows, NextWork;
  }

  lemma StepKeepsLeases(c: Config, s: State, a: Action)
    requires Leased(c, s) && OneToAnId(s) && Enabled(c, s, a)
    ensures Leased(c, Next(c, s, a)) && OneToAnId(Next(c, s, a))
  {
    StepKeepsIds(c, s, a);
    hide Enabled, Next;
    forall pid | pid in Next(c, s, a).procs ensures LeasedAt(c, Next(c, s, a), pid) {
      StepKeepsLease(c, s, a, pid);
    }
  }

  /** No sweeper finds a live process's lease stale. */
  lemma SweepsSpareTheLiving(c: Config, s: State, sweeper: nat, id: string, pid: nat)
    requires Leased(c, s) && Launched(s, sweeper) && id in s.runs && pid in s.procs
    requires s.runs[id].executor == s.procs[pid].executor
    ensures !Adoptable(s.leases, s.now, s.procs[sweeper].app, s.procs[sweeper].version, s.procs[sweeper].stale, s.runs[id])
  {
    assert LeasedAt(c, s, pid) && LeasedAt(c, s, sweeper);
  }

  /** A run that can be started here, or that is nobody's, has nobody's code on it. */
  lemma NobodyOn(c: Config, s: State, pid: nat, id: string)
    requires Held(s, id) && OneToAnId(s) && CanStart(s, pid, id)
    requires s.runs[id].state.Enqueued? || (s.runs[id].state.Pending? && s.runs[id].executor == s.procs[pid].executor)
    ensures forall x | x in s.work :: x.run != id
  {
    forall x | x in s.work ensures x.run != id {
      assert x == Slot(x.pid, x.run);
    }
  }

  lemma AdoptableIsPending(leases: Leases, now: int, app: string, version: string, threshold: nat, run: Run)
    requires Adoptable(leases, now, app, version, threshold, run)
    ensures run.state.Pending?
  {
  }

  /** Code comes onto a run only by a start, and then onto a run with no code on it. */
  lemma NewOnlyByStart(c: Config, s: State, a: Action, x: Slot)
    requires Enabled(c, s, a) && x in Next(c, s, a).work && x !in s.work
    ensures (a.StartDirect? || a.Dequeue? || a.Recover?) && x == Slot(a.pid, a.id)
  {
    hide NextRuns, NextLeases, NextRows, NextProcs;
  }

  lemma StepKeepsStaff(c: Config, s: State, a: Action)
    requires Staffed(s) && Enabled(c, s, a)
    ensures Staffed(Next(c, s, a))
  {
    forall x | x in Next(c, s, a).work
      ensures x.pid in Next(c, s, a).procs && Next(c, s, a).procs[x.pid].launched && x.run in Next(c, s, a).runs
    {
      StaffStays(c, s, a, x);
    }
  }

  lemma StaffStays(c: Config, s: State, a: Action, x: Slot)
    requires Staffed(s) && Enabled(c, s, a) && x in Next(c, s, a).work
    ensures x.pid in Next(c, s, a).procs && Next(c, s, a).procs[x.pid].launched
    ensures x.run in Next(c, s, a).runs
  {
    if x !in s.work { NewOnlyByStart(c, s, a, x); }
    RunsStay(c, s, a);
    StaffStaysLaunched(c, s, a, x);
  }

  lemma StaffStaysLaunched(c: Config, s: State, a: Action, x: Slot)
    requires Staffed(s) && Enabled(c, s, a) && x in Next(c, s, a).work
    requires x !in s.work ==> (a.StartDirect? || a.Dequeue? || a.Recover?) && x == Slot(a.pid, a.id)
    ensures x.pid in Next(c, s, a).procs && Next(c, s, a).procs[x.pid].launched
  {
    hide NextRuns, NextLeases, NextRows;
  }

  /** A run is never deleted, and a started one is there. */
  lemma RunsStay(c: Config, s: State, a: Action)
    requires Enabled(c, s, a)
    ensures forall id | id in s.runs :: id in Next(c, s, a).runs
    ensures a.StartDirect? || a.Dequeue? || a.Recover? ==> a.id in Next(c, s, a).runs
  {
    hide NextLeases, NextRows, NextWork, NextProcs, Adoptable, Started;
  }

  // ---- One run, undisturbed ----

  lemma SweepKeepsHeld(c: Config, s: State, pid: nat, id: string)
    requires Leased(c, s) && Held(s, id) && Launched(s, pid)
    ensures Held(Next(c, s, Sweep(pid)), id)
  {
    var p := s.procs[pid];
    if id in s.runs {
      if Adoptable(s.leases, s.now, p.app, p.version, p.stale, s.runs[id]) {
        forall x | x in s.work && x.run == id ensures s.runs[id].executor != s.procs[x.pid].executor {
          if s.runs[id].executor == s.procs[x.pid].executor { SweepsSpareTheLiving(c, s, pid, id, x.pid); }
        }
      }
    }
    hide Adoptable, NextLeases, NextRows, Leased;
    forall r | r in s.runs && Adoptable(s.leases, s.now, p.app, p.version, p.stale, s.runs[r]) ensures s.runs[r].state.Pending? {
      AdoptableIsPending(s.leases, s.now, p.app, p.version, p.stale, s.runs[r]);
    }
  }

  lemma StartKeepsHeld(c: Config, s: State, a: Action)
    requires (a.Dequeue? || a.Recover? || a.Requeue?) && Held(s, a.id) && OneToAnId(s) && Enabled(c, s, a)
    ensures Held(Next(c, s, a), a.id)
  {
    hide NextLeases, NextRows;
    NobodyOn(c, s, a.pid, a.id);
  }

  lemma FinishKeepsHeld(c: Config, s: State, a: Action)
    requires a.Finish? && Owned(s, a.id) && Enabled(c, s, a)
    ensures Held(Next(c, s, a), a.id)
  {
    hide NextLeases, NextRows;
    forall x | x in s.work && x.run == a.id ensures x == Slot(a.pid, a.id) {
    }
  }

  lemma StartsAlone(c: Config, s: State, a: Action)
    requires a.StartDirect? || a.Dequeue? || a.Recover?
    requires Held(s, a.id) && Staffed(s) && OneToAnId(s) && Enabled(c, s, a)
    ensures forall x | x in s.work :: x.run != a.id
  {
    hide Next;
    if !a.StartDirect? {
      NobodyOn(c, s, a.pid, a.id);
    }
  }

  lemma DirectStartHeld(c: Config, s: State, a: Action)
    requires a.StartDirect? && Held(s, a.id) && Staffed(s) && OneToAnId(s) && Enabled(c, s, a)
    ensures Held(Next(c, s, a), a.id)
  {
    hide NextLeases, NextRows;
    StartsAlone(c, s, a);
  }

  /** The actions left write the row without moving the run off its executor. */
  lemma OtherWriteKeepsHeld(c: Config, s: State, a: Action, id: string)
    requires Held(s, id) && Staffed(s) && Enabled(c, s, a) && !Disturbs(s, a, id) && OnRun(a, id)
    requires a.Enqueue? || a.Undelay? || a.Cancel? || a.Resume? || a.Restart?
    ensures Held(Next(c, s, a), id)
  {
    hide NextLeases, NextRows;
  }

  lemma UntouchedKeepsHeld(c: Config, s: State, a: Action, id: string)
    requires Held(s, id) && Enabled(c, s, a) && !OnRun(a, id)
    ensures Held(Next(c, s, a), id)
  {
    RunUntouched(c, s, a, id);
    var t := Next(c, s, a);
    forall x | x in t.work && x.run == id
      ensures x.pid in t.procs && id in t.runs && Claims(t.runs[id], t.procs[x.pid].executor)
    {
      if x !in s.work { NewOnlyByStart(c, s, a, x); }
      WorkerStays(c, s, a, x);
    }
    hide NextRuns, NextLeases, NextRows, NextWork, NextProcs;
  }

  lemma WorkerStays(c: Config, s: State, a: Action, x: Slot)
    requires Enabled(c, s, a) && x in s.work && x in Next(c, s, a).work && x.pid in s.procs
    ensures x.pid in Next(c, s, a).procs && Next(c, s, a).procs[x.pid].executor == s.procs[x.pid].executor
  {
    hide NextRuns, NextLeases, NextRows;
  }

  lemma StepKeepsHeld(c: Config, s: State, a: Action, id: string)
    requires Inv(c, s) && Owned(s, id) && Enabled(c, s, a) && !Disturbs(s, a, id)
    ensures Held(Next(c, s, a), id)
  {
    hide Rowed, Leased, OneToAnId, Enabled, Next, Held, Exclusive;
    if !OnRun(a, id) {
      UntouchedKeepsHeld(c, s, a, id);
    } else if a.Sweep? {
      LaunchedSweeps(c, s, a);
      SweepKeepsHeld(c, s, a.pid, id);
    } else if a.Dequeue? || a.Recover? || a.Requeue? {
      StartKeepsHeld(c, s, a);
    } else if a.Finish? {
      FinishKeepsHeld(c, s, a);
    } else if a.StartDirect? {
      DirectStartHeld(c, s, a);
    } else {
      OtherWriteKeepsHeld(c, s, a, id);
    }
  }

  lemma LaunchedSweeps(c: Config, s: State, a: Action)
    requires a.Sweep? && Enabled(c, s, a)
    ensures Launched(s, a.pid)
  {
  }

  lemma StepKeepsExclusive(c: Config, s: State, a: Action, id: string)
    requires Inv(c, s) && Owned(s, id) && Enabled(c, s, a)
    ensures Exclusive(Next(c, s, a), id)
  {
    if (a.StartDirect? || a.Dequeue? || a.Recover?) && a.id == id {
      StartsAlone(c, s, a);
    }
    forall x | x in Next(c, s, a).work ensures x in s.work || ((a.StartDirect? || a.Dequeue? || a.Recover?) && x == Slot(a.pid, a.id)) {
      if x !in s.work { NewOnlyByStart(c, s, a, x); }
    }
    hide Enabled, Next, Leased, Held, Rowed, OneToAnId, Staffed;
  }

  /** The rows of a live process's activities survive every statement on the table. */
  predicate RowStands(s: State, rows: Rows, x: Slot) {
    x in s.work && x.pid in s.procs && s.work[x].row.Some? ==>
      var key := RowKey(s.procs[x.pid].executor, x.run);
      key in rows && rows[key] == Row(s.work[x].row.value, true)
  }

  lemma RowsStand(c: Config, s: State, a: Action, x: Slot)
    requires Inv(c, s) && Enabled(c, s, a)
    requires !(a.OpenRow? && x == Slot(a.pid, a.id)) && !(a.End? && x == Slot(a.pid, a.id))
    ensures RowStands(s, Next(c, s, a).rows, x)
  {
    assert RowedAt(s, x);
    hide NextRuns, NextLeases, NextProcs, NextWork, Rowed;
    assert x == Slot(x.pid, x.run);
  }

  lemma StepKeepsRowAt(c: Config, s: State, a: Action, x: Slot)
    requires Inv(c, s) && Enabled(c, s, a)
    ensures RowedAt(Next(c, s, a), x)
  {
    assert x == Slot(x.pid, x.run);
    if !(a.OpenRow? && x == Slot(a.pid, a.id)) && !(a.End? && x == Slot(a.pid, a.id)) {
      RowsStand(c, s, a, x);
      OthersKeepRow(c, s, a, x);
    } else {
      hide NextRuns, NextLeases, Leased;
    }
  }

  lemma OthersKeepRow(c: Config, s: State, a: Action, x: Slot)
    requires Staffed(s) && RowedAt(s, x) && Enabled(c, s, a) && RowStands(s, Next(c, s, a).rows, x)
    requires !(a.OpenRow? && x == Slot(a.pid, a.id)) && !(a.End? && x == Slot(a.pid, a.id))
    ensures RowedAt(Next(c, s, a), x)
  {
    if x in Next(c, s, a).work && x.pid in Next(c, s, a).procs {
      ProcessStays(c, s, a, x.pid);
      ActivityKeepsRow(c, s, a, x);
    }
    hide Enabled, Next;
  }

  lemma StepKeepsRows(c: Config, s: State, a: Action)
    requires Inv(c, s) && Enabled(c, s, a)
    ensures Rowed(Next(c, s, a))
  {
    hide Inv, Enabled, Next;
    forall x: Slot ensures RowedAt(Next(c, s, a), x) {
      StepKeepsRowAt(c, s, a, x);
    }
  }

  lemma StepKeepsInv(c: Config, s: State, a: Action)
    requires Inv(c, s) && Enabled(c, s, a)
    ensures Inv(c, Next(c, s, a))
  {
    hide Leased, OneToAnId, Staffed, Rowed, Enabled, Next;
    StepKeepsLeases(c, s, a);
    StepKeepsStaff(c, s, a);
    StepKeepsRows(c, s, a);
  }

  lemma {:induction false} ReachableKeepsInv(c: Config, s: State, acts: seq<Action>, t: State)
    requires Inv(c, s) && Reaches(c, s, acts, t)
    ensures Inv(c, t)
    decreases |acts|
  {
    hide Inv, Enabled, Next;
    if acts != [] {
      StepKeepsInv(c, s, acts[0]);
      ReachableKeepsInv(c, Next(c, s, acts[0]), acts[1..], t);
    }
  }

  /** A run stays its process's own through every trace that does not disturb it. */
  lemma {:induction false} UndisturbedKeepsOwned(c: Config, s: State, acts: seq<Action>, t: State, id: string)
    requires Inv(c, s) && Owned(s, id) && Reaches(c, s, acts, t) && Undisturbed(c, s, acts, id)
    ensures Owned(t, id)
    decreases |acts|
  {
    hide Inv, Held, Exclusive, Enabled, Next, Disturbs;
    if acts != [] {
      StepKeepsInv(c, s, acts[0]);
      StepKeepsHeld(c, s, acts[0], id);
      StepKeepsExclusive(c, s, acts[0], id);
      UndisturbedKeepsOwned(c, Next(c, s, acts[0]), acts[1..], t, id);
    }
  }
}
