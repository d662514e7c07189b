/**
A fleet of worker-pool executors over one database, as a state machine: every SQL
statement of duro's, every transition DBOS makes on a run's row, and every point at
which an executor's code on a run can be, is one guarded action. A trace is any
interleaving of them: crashes, restarts under the same executor ID, sweeps, cancels,
resumes and prunes wherever they fall.

What DBOS and the deployment are trusted for is in the guards: a live process beats
before its lease is older than any threshold in the fleet (Tick), one process at a time
uses an executor ID (Claim), a process that tombstones its lease is gone (Leave), a
dequeue and the start that follows it are one step (Dequeue), an executor does not start
a run it is executing (Recover), and a stage starts only after a check that the run is
not cancelled (EnterStage).
 */
module Fleet {
  import opened Values
  import opened Tables

  /** `patience`: no stale threshold in the fleet is shorter. `limit`: starts before DBOS
      dead-letters a run. */
  datatype Config = Config(patience: nat, limit: nat)

  /** One process, by the nonce it was born with. */
  datatype Process = Process(executor: string, app: string, version: string, stale: nat, tracked: bool, launched: bool)

  datatype Slot = Slot(pid: nat, run: string)

  /** A process's code on a run: its body has been entered; `row` is the token of the
      execution row it has opened; `stage`: a stage is executing; `over`: the body has
      returned and DBOS has not acted on it yet. */
  datatype Activity = Activity(row: Option<nat>, stage: bool, over: bool)

  const ENTERED := Activity(None, false, false)

  datatype State = State(
    now: int, runs: Runs, leases: Leases, rows: Rows, procs: map<nat, Process>, work: map<Slot, Activity>)

  datatype Action =
    | Tick
    // a process's life (app.go:234-315)
    | Claim(pid: nat, proc: Process)
    | CloseOrphans(pid: nat)
    | Launch(pid: nat)
    | Renew(pid: nat)
    | Crash(pid: nat)
    | Leave(pid: nat)
    // a run's life
    | Enqueue(id: string, run: Run)
    | Undelay(id: string)
    | StartDirect(pid: nat, id: string)
    | Dequeue(pid: nat, id: string)
    | Recover(pid: nat, id: string)
    | Requeue(pid: nat, id: string)
    | Sweep(pid: nat)
    | Cancel(id: string)
    | Resume(id: string)
    | Restart(pid: nat, id: string)   // a caller starts an existing ID again: DBOS rewrites executor_id
    // an execution
    | OpenRow(pid: nat, id: string, token: nat)
    | EnterStage(pid: nat, id: string)
    | LeaveStage(pid: nat, id: string)
    | End(pid: nat, id: string, written: bool)
    | RetryEnd(pid: nat, id: string, token: nat)
    | Finish(pid: nat, id: string, ok: bool)
    | Interrupted(pid: nat, id: string)
    // housekeeping
    | PruneExecutionRows(pid: nat)
    | PruneLeaseRows(pid: nat)

  predicate Launched(s: State, pid: nat) { pid in s.procs && s.procs[pid].launched }

  predicate CanStart(s: State, pid: nat, id: string) {
    && Launched(s, pid) && id in s.runs && Slot(pid, id) !in s.work
    && s.runs[id].version == s.procs[pid].version
    && (s.runs[id].app == Some(s.procs[pid].app) || s.runs[id].app.None?)
  }

  predicate InBody(s: State, pid: nat, id: string) {
    pid in s.procs && id in s.runs && Slot(pid, id) in s.work
  }

  function LeaseOf(p: Process, pid: nat, now: int): Lease { Lease(p.app, p.version, now, pid, p.stale) }

  /** DBOS's start: it counts the attempt, and past the limit it parks the run. */
  predicate Parks(c: Config, run: Run) { run.attempts + 1 > c.limit }

  function Started(c: Config, run: Run, executor: string): Run {
    if Parks(c, run) then run.(state := RetriesExceeded, attempts := run.attempts + 1, queue := "")
    else run.(state := Pending, executor := executor, attempts := run.attempts + 1)
  }

  predicate Enabled(c: Config, s: State, a: Action) {
    match a
    case Tick =>
      forall pid | pid in s.procs ::
        s.procs[pid].executor in s.leases && s.leases[s.procs[pid].executor].beat >= s.now + 1 - c.patience
    case Claim(pid, p) =>
      && pid !in s.procs && !p.launched && p.stale >= c.patience
      && (forall q | q in s.procs :: s.procs[q].executor != p.executor)
      && (forall x | x in s.work :: x.pid != pid)
    case CloseOrphans(pid) => pid in s.procs && !s.procs[pid].launched
    case Launch(pid) => pid in s.procs && !s.procs[pid].launched
    case Renew(pid) => pid in s.procs
    case Crash(pid) => pid in s.procs
    case Leave(pid) => pid in s.procs
    case Enqueue(id, run) => id !in s.runs && run.attempts == 0 && (run.state.Enqueued? || run.state.Delayed?)
    case Undelay(id) => id in s.runs && s.runs[id].state.Delayed?
    case StartDirect(pid, id) => Launched(s, pid) && id !in s.runs && c.limit > 0
    case Dequeue(pid, id) => CanStart(s, pid, id) && s.runs[id].state.Enqueued?
    case Recover(pid, id) =>
      CanStart(s, pid, id) && s.runs[id].state.Pending? && s.runs[id].executor == s.procs[pid].executor
    case Requeue(pid, id) =>
      && CanStart(s, pid, id) && s.runs[id].state.Pending? && s.runs[id].executor == s.procs[pid].executor
      && s.runs[id].queue != ""
    case Sweep(pid) => Launched(s, pid)
    case Cancel(id) => id in s.runs && !Terminal(s.runs[id].state)
    case Resume(id) => id in s.runs && Resumable(s.runs[id])
    case Restart(pid, id) => Launched(s, pid) && id in s.runs
    case OpenRow(pid, id, token) =>
      && InBody(s, pid, id) && s.work[Slot(pid, id)] == ENTERED && s.procs[pid].tracked
      && (forall k | k in s.rows :: s.rows[k].token != token)
    case EnterStage(pid, id) =>
      && InBody(s, pid, id) && !s.work[Slot(pid, id)].stage && !s.work[Slot(pid, id)].over
      && (s.procs[pid].tracked ==> s.work[Slot(pid, id)].row.Some?)
      && !s.runs[id].state.Cancelled?
    case LeaveStage(pid, id) => InBody(s, pid, id) && s.work[Slot(pid, id)].stage
    case End(pid, id, written) => InBody(s, pid, id) && !s.work[Slot(pid, id)].stage && !s.work[Slot(pid, id)].over
    case RetryEnd(pid, id, token) =>
      pid in s.procs && (Slot(pid, id) in s.work ==> s.work[Slot(pid, id)].row != Some(token))
    case Finish(pid, id, _) => InBody(s, pid, id) && s.work[Slot(pid, id)].over
    case Interrupted(pid, id) => InBody(s, pid, id) && s.work[Slot(pid, id)].over
    case PruneExecutionRows(pid) => Launched(s, pid)
    case PruneLeaseRows(pid) => Launched(s, pid)
  }

  // ---- What an action does, table by table ----

  function NextProcs(c: Config, s: State, a: Action): map<nat, Process>
    requires Enabled(c, s, a)
  {
    match a
    case Claim(pid, p) => s.procs[pid := p]
    case Launch(pid) => s.procs[pid := s.procs[pid].(launched := true)]
    case Crash(pid) => s.procs - {pid}
    case Leave(pid) => s.procs - {pid}
    case _ => s.procs
  }

  function NextLeases(c: Config, s: State, a: Action): Leases
    requires Enabled(c, s, a)
  {
    match a
    case Claim(pid, p) => ClaimLease(s.leases, p.executor, LeaseOf(p, pid, s.now))
    case Renew(pid) => Beat(s.leases, s.procs[pid].executor, LeaseOf(s.procs[pid], pid, s.now))
    case Leave(pid) => Tombstone(s.leases, s.procs[pid].executor, pid)
    case PruneLeaseRows(pid) => PruneLeases(s.leases, s.runs, s.now, s.procs[pid].app, PruneAge(s.procs[pid].stale))
    case _ => s.leases
  }

  function NextRuns(c: Config, s: State, a: Action): Runs
    requires Enabled(c, s, a)
  {
    match a
    case Enqueue(id, run) => s.runs[id := run]
    case Undelay(id) => s.runs[id := s.runs[id].(state := Enqueued)]
    case StartDirect(pid, id) =>
      s.runs[id := Run(Pending, s.procs[pid].executor, 1, s.procs[pid].version, Some(s.procs[pid].app), "")]
    case Dequeue(pid, id) => s.runs[id := Started(c, s.runs[id], s.procs[pid].executor)]
    case Recover(pid, id) => s.runs[id := Started(c, s.runs[id], s.procs[pid].executor)]
    case Requeue(_, id) => s.runs[id := s.runs[id].(state := Enqueued)]
    case Sweep(pid) => Takeover(s.runs, s.leases, s.now, s.procs[pid].app, s.procs[pid].version, s.procs[pid].stale)
    case Cancel(id) => s.runs[id := CancelledRun(s.runs[id])]
    case Resume(id) => s.runs[id := Resumed(s.runs[id])]
    case Restart(pid, id) => s.runs[id := s.runs[id].(executor := s.procs[pid].executor)]
    case Finish(pid, id, ok) =>
      // DBOS does not overwrite a cancellation with an outcome
      if s.runs[id].state.Cancelled? then s.runs else s.runs[id := s.runs[id].(state := if ok then Success else Failure)]
    case _ => s.runs
  }

  function NextRows(c: Config, s: State, a: Action): Rows
    requires Enabled(c, s, a)
  {
    match a
    case CloseOrphans(pid) => CloseOrphaned(s.rows, s.procs[pid].executor)
    case OpenRow(pid, id, token) => StartExecution(s.rows, s.procs[pid].executor, id, token)
    case End(pid, id, written) =>
      var row := s.work[Slot(pid, id)].row;
      if written && row.Some? then EndExecution(s.rows, s.procs[pid].executor, id, row.value) else s.rows
    case RetryEnd(pid, id, token) => EndExecution(s.rows, s.procs[pid].executor, id, token)
    case PruneExecutionRows(pid) => PruneRows(s.rows, s.leases, s.now, s.procs[pid].app, PruneAge(s.procs[pid].stale))
    case _ => s.rows
  }

  function Without(work: map<Slot, Activity>, pid: nat): map<Slot, Activity> {
    map x | x in work && x.pid != pid :: work[x]
  }

  function NextWork(c: Config, s: State, a: Action): map<Slot, Activity>
    requires Enabled(c, s, a)
  {
    match a
    case Crash(pid) => Without(s.work, pid)
    case Leave(pid) => Without(s.work, pid)
    case StartDirect(pid, id) => s.work[Slot(pid, id) := ENTERED]
    case Dequeue(pid, id) => if Parks(c, s.runs[id]) then s.work else s.work[Slot(pid, id) := ENTERED]
    case Recover(pid, id) => if Parks(c, s.runs[id]) then s.work else s.work[Slot(pid, id) := ENTERED]
    case OpenRow(pid, id, token) => s.work[Slot(pid, id) := Activity(Some(token), false, false)]
    case EnterStage(pid, id) => s.work[Slot(pid, id) := s.work[Slot(pid, id)].(stage := true)]
    case LeaveStage(pid, id) => s.work[Slot(pid, id) := s.work[Slot(pid, id)].(stage := false)]
    case End(pid, id, _) => s.work[Slot(pid, id) := Activity(None, false, true)]
    case Finish(pid, id, _) => s.work - {Slot(pid, id)}
    case Interrupted(pid, id) => s.work - {Slot(pid, id)}
    case _ => s.work
  }

  function Next(c: Config, s: State, a: Action): State
    requires Enabled(c, s, a)
  {
    State(if a.Tick? then s.now + 1 else s.now,
          NextRuns(c, s, a), NextLeases(c, s, a), NextRows(c, s, a), NextProcs(c, s, a), NextWork(c, s, a))
  }

  ghost predicate Reaches(c: Config, s: State, acts: seq<Action>, t: State)
    decreases |acts|
  {
    if acts == [] then s == t
    else Enabled(c, s, acts[0]) && Reaches(c, Next(c, s, acts[0]), acts[1..], t)
  }

  function Boot(now: int): State { State(now, map[], map[], map[], map[], map[]) }

  predicate InStage(s: State, pid: nat, id: string) {
    Slot(pid, id) in s.work && s.work[Slot(pid, id)].stage
  }

  // ---- Invariants ----

  /** A live process holds its lease, and it is fresh by every threshold there is. */
  ghost predicate LeasedAt(c: Config, s: State, pid: nat)
    requires pid in s.procs
  {
    var p := s.procs[pid];
    && p.stale >= c.patience
    && p.executor in s.leases
    && s.leases[p.executor].nonce == pid
    && s.leases[p.executor].staleAfter == p.stale
    && !Stale(s.leases[p.executor], s.now, c.patience)
  }

  ghost predicate Leased(c: Config, s: State) {
    forall pid | pid in s.procs :: LeasedAt(c, s, pid)
  }

  ghost predicate OneToAnId(s: State) {
    forall p, q | p in s.procs && q in s.procs && s.procs[p].executor == s.procs[q].executor :: p == q
  }

  /** What a run's row must say while a process's code is on the run. */
  predicate Claims(run: Run, executor: string) {
    || (run.state.Pending? && run.executor == executor)
    || (run.state.Cancelled? && run.attempts > 0)
  }

  /** A process's code is on runs there are, and the process is there for it. */
  ghost predicate Staffed(s: State) {
    forall x | x in s.work :: x.pid in s.procs && s.procs[x.pid].launched && x.run in s.runs
  }

  ghost predicate Held(s: State, id: string) {
    && (forall x | x in s.work && x.run == id ::
          x.pid in s.procs && id in s.runs && Claims(s.runs[id], s.procs[x.pid].executor))
    && (id in s.runs && s.runs[id].state.Pending? ==> s.runs[id].attempts > 0)
  }

  ghost predicate Exclusive(s: State, id: string) {
    forall x, y | x in s.work && y in s.work && x.run == id && y.run == id :: x == y
  }

  /** The execution row of a tracked activity is open under its token until its end. */
  ghost predicate RowedAt(s: State, x: Slot) {
    x in s.work && x.pid in s.procs ==>
      && (s.work[x].row.Some? ==>
            var key := RowKey(s.procs[x.pid].executor, x.run);
            key in s.rows && s.rows[key] == Row(s.work[x].row.value, true))
      && (s.work[x].stage && s.procs[x.pid].tracked ==> s.work[x].row.Some?)
      && (s.work[x].over ==> !s.work[x].stage)
  }

  ghost predicate Rowed(s: State) {
    forall x: Slot :: RowedAt(s, x)
  }

  /** What every action keeps, whoever does what. */
  ghost predicate Inv(c: Config, s: State) {
    Leased(c, s) && OneToAnId(s) && Staffed(s) && Rowed(s)
  }

  /** What holds of a run besides, until somebody starts its ID again on another executor
      while it is PENDING. */
  ghost predicate Owned(s: State, id: string) { Held(s, id) && Exclusive(s, id) }

  /** The action that takes a PENDING run's row away from the executor it names. */
  predicate Disturbs(s: State, a: Action, id: string) {
    && a.Restart? && a.id == id && a.pid in s.procs
    && id in s.runs && s.runs[id].state.Pending? && s.runs[id].executor != s.procs[a.pid].executor
  }

  ghost predicate Undisturbed(c: Config, s: State, acts: seq<Action>, id: string)
    decreases |acts|
  {
    acts == []
    || (!Disturbs(s, acts[0], id) && Enabled(c, s, acts[0]) && Undisturbed(c, Next(c, s, acts[0]), acts[1..], id))
  }
}
