/**
The statements in the form the program issues them: a database whose tables are changed
in place, the lease holder and sweeper that one process runs (workerpool.go), Resume
(control.go) and Unsettled (executions.go:423-466), and the order of Launch and Close
(app.go:234-315).
 */
module WorkerPool {
  import opened Values
  import T = Tables

  class Database {
    var now: int
    var runs: T.Runs
    var leases: T.Leases
    var rows: T.Rows

    constructor (now: int, runs: T.Runs, leases: T.Leases, rows: T.Rows)
      ensures this.now == now && this.runs == runs && this.leases == leases && this.rows == rows
    {
      this.now, this.runs, this.leases, this.rows := now, runs, leases, rows;
    }
  }

  class Pool {
    const db: Database
    const appName: string
    const version: string
    const executorID: string
    const nonce: nat
    const staleThreshold: nat

    constructor (db: Database, appName: string, version: string, executorID: string, nonce: nat, staleThreshold: nat)
      ensures this.db == db && this.appName == appName && this.version == version
      ensures this.executorID == executorID && this.nonce == nonce && this.staleThreshold == staleThreshold
    {
      this.db, this.appName, this.version := db, appName, version;
      this.executorID, this.nonce, this.staleThreshold := executorID, nonce, staleThreshold;
    }

    function Lease(now: int): T.Lease { T.Lease(appName, version, now, nonce, staleThreshold) }

    method ClaimLease()
      modifies db`leases
      ensures db.leases == T.ClaimLease(old(db.leases), executorID, Lease(db.now))
      ensures T.LiveLease(db.leases, executorID, db.now)
    {
      db.leases := db.leases[executorID := Lease(db.now)];
    }

    /** A beat never touches another process's lease, and says so. */
    method Beat() returns (stolen: bool)
      modifies db`leases
      ensures db.leases == T.Beat(old(db.leases), executorID, Lease(db.now))
      ensures stolen <==> executorID in old(db.leases) && old(db.leases)[executorID].nonce != nonce
      ensures stolen ==> db.leases == old(db.leases)
      ensures !stolen ==> T.LiveLease(db.leases, executorID, db.now)
    {
      if executorID !in db.leases {
        db.leases := db.leases[executorID := Lease(db.now)];
        return false;
      }
      stolen := db.leases[executorID].nonce != nonce;
      if !stolen {
        db.leases := db.leases[executorID := Lease(db.now)];
      }
    }

    method Tombstone()
      modifies db`leases
      ensures db.leases == T.Tombstone(old(db.leases), executorID, nonce)
      ensures forall e | e in old(db.leases) && old(db.leases)[e].nonce != nonce :: db.leases[e] == old(db.leases)[e]
    {
      if executorID in db.leases && db.leases[executorID].nonce == nonce {
        db.leases := db.leases[executorID := db.leases[executorID].(beat := T.EPOCH)];
      }
    }

    /** firstBeat (workerpool.go:478-490): afterwards the ID is live and a predecessor's
        rows are closed, before anything is dequeued. */
    method FirstBeat()
      modifies db`leases, db`rows
      ensures db.leases == T.ClaimLease(old(db.leases), executorID, Lease(db.now))
      ensures db.rows == T.CloseOrphaned(old(db.rows), executorID)
      ensures T.LiveLease(db.leases, executorID, db.now)
      ensures forall k | k in db.rows && k.executor == executorID :: !db.rows[k].open
    {
      ClaimLease();
      var rows := db.rows;
      db.rows := map k | k in rows :: if k.executor == executorID then rows[k].(open := false) else rows[k];
    }

    /** takeover (workerpool.go:725-752): exactly the stranded runs go back to a queue. */
    method Takeover() returns (ids: set<string>)
      modifies db`runs
      ensures db.runs == T.Takeover(old(db.runs), db.leases, db.now, appName, version, staleThreshold)
      ensures forall id :: id in ids <==>
                id in old(db.runs) && T.Adoptable(db.leases, db.now, appName, version, staleThreshold, old(db.runs)[id])
      ensures forall id | id in ids :: db.runs[id].state.Enqueued? && db.runs[id].queue != ""
      ensures forall id | id in db.runs :: db.runs[id].attempts == old(db.runs)[id].attempts
      ensures forall id | id in db.runs && id !in ids :: db.runs[id] == old(db.runs)[id]
    {
      var dead := set e | e in db.leases && db.leases[e].app == appName && T.Stale(db.leases[e], db.now, staleThreshold);
      var runs := db.runs;
      ids := set id | id in runs && runs[id].state.Pending? && runs[id].version == version
                      && (runs[id].app == Some(appName) || runs[id].app.None?) && runs[id].executor in dead;
      db.runs := map id | id in runs :: if id in ids then T.Adopt(runs[id], appName) else runs[id];
    }

    /** pruneLeases (workerpool.go:796-811): the execution rows first, by the leases that
        are about to go. */
    method PruneLeases() returns (pruned: nat)
      modifies db`leases, db`rows
      ensures db.rows == T.PruneRows(old(db.rows), old(db.leases), db.now, appName, T.PruneAge(staleThreshold))
      ensures db.leases == T.PruneLeases(old(db.leases), db.runs, db.now, appName, T.PruneAge(staleThreshold))
      ensures pruned == |old(db.leases).Keys - db.leases.Keys|
      ensures forall e | e in old(db.leases) && e !in db.leases :: forall k | k in db.rows :: k.executor != e
    {
      hide T.Needed, T.Stale;
      var age := T.PruneAge(staleThreshold);
      var leases := db.leases;
      db.rows := T.PruneRows(db.rows, leases, db.now, appName, age);
      db.leases := T.PruneLeases(leases, db.runs, db.now, appName, age);
      var gone := set e | e in leases && e !in db.leases;
      assert leases.Keys - db.leases.Keys == gone;
      pruned := |gone|;
    }
  }

  // ---- Resume ----

  datatype ResumeAnswer =
    | Resumed
    | NeedsID
    | NotFound
    | RunTerminal       // ErrRunTerminal
    | RunInFlight       // ErrRunInFlight
    | ChangedMeanwhile
    | RunActive         // ErrRunActive

  /** resumeRun's reading of the status when the transition did not apply (control.go:165-181). */
  function Explain(row: Option<T.Run>): ResumeAnswer {
    match row
    case None => NotFound
    case Some(run) =>
      if run.state.Success? || run.state.Failure? then RunTerminal
      else if run.state.Cancelled? && run.attempts > 0 then RunInFlight
      else if run.state.Cancelled? || run.state.RetriesExceeded? then ChangedMeanwhile
      else RunActive
  }

  /** `later`: the run's row as the status read after the transition finds it. */
  method ResumeRun(db: Database, id: string, later: Option<T.Run>) returns (r: ResumeAnswer)
    modifies db`runs
    ensures id == "" ==> r == NeedsID && db.runs == old(db.runs)
    ensures id != "" && id in old(db.runs) && T.Resumable(old(db.runs)[id]) ==>
              && r == Resumed && db.runs == old(db.runs)[id := T.Resumed(old(db.runs)[id])]
              && db.runs[id].state.Enqueued? && db.runs[id].attempts == 0
              && db.runs[id].queue == (if old(db.runs)[id].queue == "" then "_dbos_internal_queue" else old(db.runs)[id].queue)
    ensures id != "" && !(id in old(db.runs) && T.Resumable(old(db.runs)[id])) ==>
              r == Explain(later) && r != Resumed && db.runs == old(db.runs)
  {
    if id == "" {
      return NeedsID;
    }
    if id in db.runs {
      var run := db.runs[id];
      if run.state.RetriesExceeded? || (run.state.Cancelled? && run.attempts == 0) {
        db.runs := db.runs[id := run.(state := T.Enqueued, queue := T.KeepQueue(run.queue), attempts := 0)];
        return Resumed;
      }
    }
    if later.None? {
      return NotFound;
    }
    match later.value.state {
      case Success => return RunTerminal;
      case Failure => return RunTerminal;
      case Cancelled => return if later.value.attempts > 0 then RunInFlight else ChangedMeanwhile;
      case RetriesExceeded => return ChangedMeanwhile;
      case _ => return RunActive;
    }
  }

  /** The catch-all answer takes a race: read in the state the transition saw, a refused
      run is finished, in flight or active, and each answer says which. */
  lemma RefusalsExplained(run: T.Run)
    requires !T.Resumable(run)
    ensures Explain(Some(run)) != ChangedMeanwhile
    ensures Explain(Some(run)) == RunTerminal <==> run.state.Success? || run.state.Failure?
    ensures Explain(Some(run)) == RunInFlight <==> run.state.Cancelled? && run.attempts > 0
    ensures Explain(Some(run)) == RunActive <==> !T.Terminal(run.state)
  {
  }

  // ---- Unsettled ----

  datatype UnsettledRun = UnsettledRun(id: string, state: T.RunState, executing: bool)

  datatype Answer = Unknown(id: string) | Report(runs: seq<UnsettledRun>)

  datatype QueryRow = QueryRow(state: T.RunState, executing: bool)

  /** unsettledSQL: the requested runs there are, in one snapshot. */
  function Query(runs: T.Runs, leases: T.Leases, rows: T.Rows, now: int, ids: seq<string>): map<string, QueryRow> {
    map id | id in ids && id in runs :: QueryRow(runs[id].state, T.Executing(runs, leases, rows, now, id))
  }

  /** One entry for each unsettled run of `unique`, in order. */
  function Entries(found: map<string, QueryRow>, unique: seq<string>): seq<UnsettledRun>
    requires forall id | id in unique :: id in found
  {
    if unique == [] then []
    else
      var id := unique[|unique| - 1];
      var row := found[id];
      Entries(found, unique[..|unique| - 1])
      + if !T.Terminal(row.state) || row.executing then [UnsettledRun(id, row.state, row.executing)] else []
  }

  /** unsettledRuns (executions.go:423-466). */
  method UnsettledRuns(db: Database, ids: seq<string>) returns (answer: Answer)
    ensures answer.Unknown? <==> exists i :: 0 <= i < |ids| && ids[i] !in db.runs
    ensures answer.Unknown? ==>
              exists k :: 0 <= k < |ids| && ids[k] == answer.id && answer.id !in db.runs && forall j | 0 <= j < k :: ids[j] in db.runs
    ensures answer.Report? ==>
              var found := Query(db.runs, db.leases, db.rows, db.now, ids);
              (forall id | id in Unique(ids) :: id in found) && answer.runs == Entries(found, Unique(ids))
  {
    if |ids| == 0 {
      return Report([]);
    }
    var found := Query(db.runs, db.leases, db.rows, db.now, ids);
    var unsettled: seq<UnsettledRun> := [];
    var seen := {};
    for i := 0 to |ids|
      invariant forall j | 0 <= j < i :: ids[j] in db.runs
      invariant forall id :: id in seen <==> id in Unique(ids[..i])
      invariant forall id | id in Unique(ids[..i]) :: id in found
      invariant unsettled == Entries(found, Unique(ids[..i]))
    {
      var id := ids[i];
      assert ids[..i + 1][..i] == ids[..i];
      if id in seen {
        UniqueKeepsFirsts(ids[..i]);
        continue;
      }
      seen := seen + {id};
      if id !in found {
        return Unknown(id);
      }
      var row := found[id];
      if !T.Terminal(row.state) || row.executing {
        unsettled := unsettled + [UnsettledRun(id, row.state, row.executing)];
      }
      assert Unique(ids[..i + 1])[..|Unique(ids[..i + 1])| - 1] == Unique(ids[..i]);
    }
    assert ids[..|ids|] == ids;
    return Report(unsettled);
  }

  predicate Reported(row: QueryRow) { !T.Terminal(row.state) || row.executing }

  lemma {:induction false} EntriesExact(found: map<string, QueryRow>, unique: seq<string>)
    requires forall id | id in unique :: id in found
    requires forall i, j | 0 <= i < j < |unique| :: unique[i] != unique[j]
    ensures
      var list := Entries(found, unique);
      && (forall u | u in list ::
            u.id in unique && Reported(found[u.id]) && u == UnsettledRun(u.id, found[u.id].state, found[u.id].executing))
      && (forall id | id in unique && Reported(found[id]) ::
            UnsettledRun(id, found[id].state, found[id].executing) in list)
      && (forall i, j | 0 <= i < j < |list| :: list[i].id != list[j].id)
    decreases |unique|
  {
    if unique != [] {
      var n := |unique| - 1;
      EntriesExact(found, unique[..n]);
      var init := Entries(found, unique[..n]);
      var list := Entries(found, unique);
      assert unique == unique[..n] + [unique[n]];
      assert unique[n] !in unique[..n];
      assert forall i | 0 <= i < |init| :: list[i] == init[i] && init[i] in init;
    }
  }

  /** What the caller reads off a report: exactly the unsettled ones among the runs it
      asked for, each once, with the snapshot's state. */
  lemma {:induction false} ReportIsExact(runs: T.Runs, leases: T.Leases, rows: T.Rows, now: int, ids: seq<string>)
    requires forall id | id in ids :: id in runs
    ensures
      var found := Query(runs, leases, rows, now, ids);
      && (forall id | id in Unique(ids) :: id in found)
      && var list := Entries(found, Unique(ids));
      && (forall id | id in ids :: (exists u :: u in list && u.id == id) <==> T.Unsettled(runs, leases, rows, now, id))
      && (forall u | u in list ::
            u.id in ids && u.state == runs[u.id].state && u.executing == T.Executing(runs, leases, rows, now, u.id))
      && (forall i, j | 0 <= i < j < |list| :: list[i].id != list[j].id)
  {
    hide T.Executing;
    UniqueKeepsFirsts(ids);
    var found := Query(runs, leases, rows, now, ids);
    EntriesExact(found, Unique(ids));
    var list := Entries(found, Unique(ids));
    forall id | id in ids && T.Unsettled(runs, leases, rows, now, id) ensures exists u :: u in list && u.id == id {
      assert UnsettledRun(id, found[id].state, found[id].executing) in list;
    }
  }

  // ---- Launch and Close ----

  datatype Event = LeaseClaimed | EngineStarted | BeatStarted | MaintenanceStopped | EngineStopped | BeatStopped | Tombstoned

  /** An executor is never dequeuing while observably dead: its lease comes before its
      queue runners, beats go on until they have stopped, and the tombstone is last,
      once, and final. */
  ghost predicate Ordered(log: seq<Event>) {
    && (forall i | 0 <= i < |log| && log[i] == EngineStarted :: LeaseClaimed in log[..i] && Tombstoned !in log[..i])
    && (forall i | 0 <= i < |log| && log[i] == EngineStopped :: MaintenanceStopped in log[..i])
    && (forall i | 0 <= i < |log| && log[i] == BeatStopped :: EngineStopped in log[..i])
    && (forall i | 0 <= i < |log| && log[i] == Tombstoned :: BeatStopped in log[..i] && Tombstoned !in log[..i])
  }

  class App {
    const wp: Pool
    var launchStarted: bool
    var closed: bool        // closeOnce has run, and with it the pool's close
    ghost var log: seq<Event>

    ghost predicate Valid()
      reads this
    {
      Ordered(log) && (Tombstoned in log ==> closed)
    }

    constructor (wp: Pool)
      ensures Valid() && this.wp == wp && !launchStarted && !closed && log == []
    {
      this.wp, launchStarted, closed, log := wp, false, false, [];
    }

    ghost method Note(e: Event)
      modifies `log
      ensures log == old(log) + [e]
      ensures Ordered(old(log))
              && (e == EngineStarted ==> LeaseClaimed in old(log) && Tombstoned !in old(log))
              && (e == EngineStopped ==> MaintenanceStopped in old(log))
              && (e == BeatStopped ==> EngineStopped in old(log))
              && (e == Tombstoned ==> BeatStopped in old(log) && Tombstoned !in old(log))
              ==> Ordered(log)
    {
      log := log + [e];
      assert forall i | 0 <= i <= |old(log)| :: log[..i] == old(log)[..i];
      assert old(log)[..|old(log)|] == old(log);
    }

    /** What fails is an argument: the first beat, DBOS's launch, applying the schedules. */
    method Launch(beatFails: bool, engineFails: bool, schedulesFail: bool) returns (ok: bool)
      requires Valid()
      modifies this`launchStarted, this`closed, this`log, wp.db`leases, wp.db`rows
      ensures Valid() && old(log) <= log
      ensures ok ==> !old(launchStarted) && !old(closed) && launchStarted && BeatStarted in log
      ensures ok ==> T.LiveLease(wp.db.leases, wp.executorID, wp.db.now)
      ensures old(launchStarted) ==> !ok && log == old(log)
    {
      hide Ordered;
      if launchStarted {
        return false;
      }
      launchStarted := true;
      if beatFails || closed {
        launchStarted := false;
        return false;
      }
      wp.FirstBeat();
      Note(LeaseClaimed);
      if engineFails {
        Close();
        return false;
      }
      Note(EngineStarted);
      if schedulesFail {
        Close();
        return false;
      }
      Note(BeatStarted);
      return true;
    }

    method Close()
      requires Valid()
      modifies this`closed, this`log, wp.db`leases
      ensures Valid() && old(log) <= log && closed
      ensures wp.db.leases == if old(closed) then old(wp.db.leases) else T.Tombstone(old(wp.db.leases), wp.executorID, wp.nonce)
      ensures !old(closed) ==> log != [] && log[|log| - 1] == Tombstoned
    {
      hide Ordered, T.Tombstone;
      Note(MaintenanceStopped);
      Note(EngineStopped);
      if !closed {
        closed := true;
        Note(BeatStopped);
        wp.Tombstone();
        Note(Tombstoned);
      }
    }
  }
}
