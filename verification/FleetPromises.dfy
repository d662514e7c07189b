/**
What the fleet promises of a run whose ID no caller has started again on another executor
while it was PENDING: it is executed by one process at a time, and once Unsettled does not
report it, it stays out of every stage until somebody resumes it. FleetScenes has the runs
in which that caller breaks both.
 */
module FleetPromises {
  import opened Values
  import opened Tables
  import opened Fleet
  import opened FleetInvariants

  // ---- Exclusive execution ----

  /** After any trace in which no caller started the run's ID again on another executor
      while it was PENDING, at most one live process is executing the run, and it is the
      one the run's row names, unless the run has been cancelled under it. */
  lemma {:induction false} ExclusiveExecution(
      c: Config, now: int, acts: seq<Action>, t: State, p: nat, q: nat, id: string)
    requires Reaches(c, Boot(now), acts, t) && Undisturbed(c, Boot(now), acts, id)
    requires Slot(p, id) in t.work && Slot(q, id) in t.work
    ensures p == q && p in t.procs && id in t.runs
    ensures !t.runs[id].state.Cancelled? ==> t.runs[id].state.Pending? && t.runs[id].executor == t.procs[p].executor
    ensures t.runs[id].state.Cancelled? ==> !Resumable(t.runs[id])
  {
    UndisturbedKeepsOwned(c, Boot(now), acts, t, id);
    assert Slot(p, id) == Slot(q, id) by { hide Held; }
  }

  // ---- Unsettled ----

  /** The snapshot shows the run final and not executing. */
  predicate SettledIn(s: State, id: string) {
    id in s.runs && !Unsettled(s.runs, s.leases, s.rows, s.now, id)
  }

  /** The fleet's own knowledge of a run: whoever's code is on it tracks its executions,
      or else nobody ever recorded one and the run's row still names that executor. */
  ghost predicate Known(s: State, id: string) {
    forall x | x in s.work && x.run == id && x.pid in s.procs && id in s.runs ::
      s.procs[x.pid].tracked || (!HasRow(s.rows, id) && s.runs[id].executor == s.procs[x.pid].executor)
  }

  /** The run is final, and code that is still on it is on a cancelled run and between
      two stages. */
  ghost predicate Quiet(s: State, id: string) {
    && id in s.runs && Terminal(s.runs[id].state)
    && forall x | x in s.work && x.run == id :: s.runs[id].state.Cancelled? && !s.work[x].stage
  }

  lemma LiveProcessHasLiveLease(c: Config, s: State, pid: nat)
    requires Leased(c, s) && pid in s.procs
    ensures LiveLease(s.leases, s.procs[pid].executor, s.now)
  {
    assert LeasedAt(c, s, pid);
  }

  /** A stage that is executing shows in the snapshot. */
  lemma StageShows(c: Config, s: State, x: Slot)
    requires Inv(c, s) && Held(s, x.run) && x in s.work && s.work[x].stage && Known(s, x.run)
    ensures Unsettled(s.runs, s.leases, s.rows, s.now, x.run)
  {
    var p := s.procs[x.pid];
    assert RowedAt(s, x);
    LiveProcessHasLiveLease(c, s, x.pid);
    if p.tracked {
      var key := RowKey(p.executor, x.run);
      assert key in s.rows && key.run == x.run && s.rows[key].open;
    }
  }

  lemma AdoptableIsPendingEverywhere(s: State, pid: nat)
    requires pid in s.procs
    ensures forall id | id in s.runs && Adoptable(s.leases, s.now, s.procs[pid].app, s.procs[pid].version, s.procs[pid].stale, s.runs[id]) ::
              s.runs[id].state.Pending?
  {
  }

  lemma SweepKeepsFinal(c: Config, s: State, pid: nat, id: string)
    requires Launched(s, pid) && id in s.runs && Terminal(s.runs[id].state)
    ensures id in Next(c, s, Sweep(pid)).runs && Next(c, s, Sweep(pid)).runs[id] == s.runs[id]
  {
    AdoptableIsPendingEverywhere(s, pid);
    hide Adoptable, NextLeases, NextRows, NextProcs, NextWork;
  }

  lemma QuietStateLasts(c: Config, s: State, a: Action, id: string)
    requires Enabled(c, s, a) && Quiet(s, id) && a != Resume(id)
    ensures id in Next(c, s, a).runs && Next(c, s, a).runs[id].state == s.runs[id].state
  {
    hide NextLeases, NextRows, NextProcs, NextWork, Started, Takeover;
    if !OnRun(a, id) {
      RunUntouched(c, s, a, id);
    } else if a.Sweep? {
      SweepKeepsFinal(c, s, a.pid, id);
    }
  }

  lemma NoStageBegins(c: Config, s: State, a: Action, x: Slot)
    requires Enabled(c, s, a) && Quiet(s, x.run) && x in Next(c, s, a).work
    ensures x in s.work && !Next(c, s, a).work[x].stage
  {
    if x !in s.work { NewOnlyByStart(c, s, a, x); }
    hide NextRuns, NextLeases, NextRows, NextProcs;
  }

  lemma QuietLasts(c: Config, s: State, a: Action, id: string)
    requires Enabled(c, s, a) && Quiet(s, id) && a != Resume(id)
    ensures Quiet(Next(c, s, a), id) && Next(c, s, a).runs[id].state == s.runs[id].state
  {
    QuietStateLasts(c, s, a, id);
    forall x | x in Next(c, s, a).work && x.run == id ensures x in s.work && !Next(c, s, a).work[x].stage {
      NoStageBegins(c, s, a, x);
    }
    hide Enabled, Next;
  }

  lemma {:induction false} QuietAllAlong(c: Config, s: State, id: string, acts: seq<Action>, t: State)
    requires Quiet(s, id) && Reaches(c, s, acts, t) && Resume(id) !in acts
    ensures Quiet(t, id) && t.runs[id].state == s.runs[id].state
    decreases |acts|
  {
    hide Quiet, Enabled, Next;
    if acts != [] {
      QuietLasts(c, s, acts[0], id);
      QuietAllAlong(c, Next(c, s, acts[0]), id, acts[1..], t);
    }
  }

  /** If Unsettled does not report a run that was nobody's but its executor's so far, its
      state is final, no live process is inside any of its stages, and none enters one,
      whatever else happens, until somebody resumes the run. */
  lemma {:induction false} SettledStaysSettled(
      c: Config, now: int, before: seq<Action>, s: State, id: string, acts: seq<Action>, t: State)
    requires Reaches(c, Boot(now), before, s) && Undisturbed(c, Boot(now), before, id)
    requires SettledIn(s, id) && Known(s, id)
    requires Reaches(c, s, acts, t) && Resume(id) !in acts
    ensures id in t.runs && t.runs[id].state == s.runs[id].state && Terminal(t.runs[id].state)
    ensures forall pid :: !InStage(t, pid, id)
  {
    ReachableKeepsInv(c, Boot(now), before, s);
    UndisturbedKeepsOwned(c, Boot(now), before, s, id);
    forall x | x in s.work && x.run == id ensures !s.work[x].stage {
      if s.work[x].stage { StageShows(c, s, x); }
    }
    assert Quiet(s, id) by { hide Inv, Exclusive; }
    QuietAllAlong(c, s, id, acts, t);
  }
}
