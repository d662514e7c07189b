/**
The three tables of worker-pool mode and the SQL statements on them, each one a
function from table to table: workflow_status (as far as duro's own statements read or
write it), the leases of duro's heartbeat table, and the execution rows
(workerpool.go:409-474, 710-791; executions.go:55-102, 389-410; control.go:89-94).
 */
module Tables {
  import opened Values

  datatype RunState = Pending | Enqueued | Delayed | Success | Failure | Cancelled | RetriesExceeded

  /** State.Terminal (status.go:26-32). */
  predicate Terminal(s: RunState) { s.Success? || s.Failure? || s.Cancelled? || s.RetriesExceeded? }

  /** A row of workflow_status. app None is a migrated v0 row's NULL; queue "" is a run
      that records no queue. */
  datatype Run = Run(state: RunState, executor: string, attempts: nat, version: string, app: Option<string>, queue: string)

  datatype Lease = Lease(app: string, version: string, beat: int, nonce: nat, staleAfter: nat)

  datatype Row = Row(token: nat, open: bool)

  datatype RowKey = RowKey(executor: string, run: string)

  type Runs = map<string, Run>
  type Leases = map<string, Lease>
  type Rows = map<RowKey, Row>

  const INTERNAL_QUEUE := "_dbos_internal_queue"

  /** COALESCE(NULLIF(queue_name, ''), internal). */
  function KeepQueue(queue: string): string { if queue == "" then INTERNAL_QUEUE else queue }

  // ---- Leases ----

  /** claimLease (workerpool.go:412-426): unconditional. */
  function ClaimLease(leases: Leases, executor: string, lease: Lease): Leases {
    leases[executor := lease]
  }

  /** beat (workerpool.go:438-458): only over a lease with this nonce, or none. */
  predicate BeatApplies(leases: Leases, executor: string, nonce: nat) {
    executor in leases ==> leases[executor].nonce == nonce
  }

  function Beat(leases: Leases, executor: string, lease: Lease): Leases {
    if BeatApplies(leases, executor, lease.nonce) then leases[executor := lease] else leases
  }

  const EPOCH := 0

  function Tombstone(leases: Leases, executor: string, nonce: nat): Leases {
    if executor in leases && leases[executor].nonce == nonce
    then leases[executor := leases[executor].(beat := EPOCH)] else leases
  }

  predicate Stale(lease: Lease, now: int, threshold: nat) { lease.beat < now - threshold }

  /** A lease judged by the threshold its own executor heartbeats with. */
  predicate LiveLease(leases: Leases, executor: string, now: int) {
    executor in leases && !Stale(leases[executor], now, leases[executor].staleAfter)
  }

  // ---- Takeover and pruning ----

  /** takeoverSQL's WHERE, for a sweeper of `app` at `version` with `threshold`. */
  predicate Adoptable(leases: Leases, now: int, app: string, version: string, threshold: nat, run: Run) {
    && run.state.Pending?
    && run.version == version
    && (run.app == Some(app) || run.app.None?)
    && run.executor in leases
    && leases[run.executor].app == app
    && Stale(leases[run.executor], now, threshold)
  }

  /** takeoverSQL's SET: recovery_attempts is not touched. */
  function Adopt(run: Run, app: string): Run {
    run.(state := Enqueued, queue := KeepQueue(run.queue), app := if run.app.None? then Some(app) else run.app)
  }

  function Takeover(runs: Runs, leases: Leases, now: int, app: string, version: string, threshold: nat): Runs {
    map id | id in runs ::
      if Adoptable(leases, now, app, version, threshold, runs[id]) then Adopt(runs[id], app) else runs[id]
  }

  /** The lease of `executor` is consulted for a run that is still to be taken over. */
  predicate Needed(runs: Runs, executor: string, app: string) {
    exists id :: id in runs && runs[id].executor == executor && runs[id].state.Pending?
                 && (runs[id].app == Some(app) || runs[id].app.None?)
  }

  predicate PrunesLease(runs: Runs, executor: string, lease: Lease, now: int, app: string, age: nat) {
    lease.app == app && Stale(lease, now, age) && !Needed(runs, executor, lease.app)
  }

  function PruneLeases(leases: Leases, runs: Runs, now: int, app: string, age: nat): Leases {
    map e | e in leases && !PrunesLease(runs, e, leases[e], now, app, age) :: leases[e]
  }

  predicate PrunesRow(leases: Leases, key: RowKey, now: int, app: string, age: nat) {
    key.executor in leases && leases[key.executor].app == app && Stale(leases[key.executor], now, age)
  }

  function PruneRows(rows: Rows, leases: Leases, now: int, app: string, age: nat): Rows {
    map k | k in rows && !PrunesRow(leases, k, now, app, age) :: rows[k]
  }

  /** leasePruneAge (workerpool.go:333). */
  function PruneAge(threshold: nat): nat { 100 * threshold }

  // ---- Execution rows ----

  function StartExecution(rows: Rows, executor: string, run: string, token: nat): Rows {
    rows[RowKey(executor, run) := Row(token, true)]
  }

  function EndExecution(rows: Rows, executor: string, run: string, token: nat): Rows {
    var key := RowKey(executor, run);
    if key in rows && rows[key] == Row(token, true) then rows[key := Row(token, false)] else rows
  }

  function CloseOrphaned(rows: Rows, executor: string): Rows {
    map k | k in rows :: if k.executor == executor then rows[k].(open := false) else rows[k]
  }

  // ---- Resume and Cancel ----

  /** resumeSQL's guard (control.go:94). */
  predicate Resumable(run: Run) {
    run.state.RetriesExceeded? || (run.state.Cancelled? && run.attempts == 0)
  }

  function Resumed(run: Run): Run {
    run.(state := Enqueued, queue := KeepQueue(run.queue), attempts := 0)
  }

  /** DBOS's cancel, which clears the queue (control.go:45, 117-119). */
  function CancelledRun(run: Run): Run { run.(state := Cancelled, queue := "") }

  // ---- Unsettled ----

  predicate HasRow(rows: Rows, run: string) { exists k :: k in rows && k.run == run }

  predicate OpenOnLive(rows: Rows, leases: Leases, now: int, run: string) {
    exists k :: k in rows && k.run == run && rows[k].open && LiveLease(leases, k.executor, now)
  }

  /** unsettledSQL's `executing` column (executions.go:389-408). */
  predicate Executing(runs: Runs, leases: Leases, rows: Rows, now: int, id: string)
    requires id in runs
  {
    || OpenOnLive(rows, leases, now, id)
    || (runs[id].state.Cancelled? && runs[id].attempts > 0 && LiveLease(leases, runs[id].executor, now) && !HasRow(rows, id))
  }

  predicate Unsettled(runs: Runs, leases: Leases, rows: Rows, now: int, id: string)
    requires id in runs
  {
    !Terminal(runs[id].state) || Executing(runs, leases, rows, now, id)
  }
}
