/**
The tracker in its own form: the two maps under the mutex and the loops over them
(executions.go:107-329), one method for each stretch between two unlocks. Each method is
proved against the function that the small-step system in Tracker uses for it.
 */
module ExecutionTracker {
  import opened Values
  import opened Tables
  import Tracker

  /** One try of recordStart's write: whether it commits, whether it reports success,
      and whether the context has ended by the time it is back. */
  datatype Attempt = Attempt(commits: bool, ok: bool, ctxEnded: bool)

  /** The ids and tokens that a lock's holder copied out of a map. */
  ghost predicate Lists(ids: seq<string>, tokens: seq<nat>, m: map<string, nat>) {
    && |ids| == |tokens|
    && (forall i | 0 <= i < |ids| :: ids[i] in m && m[ids[i]] == tokens[i])
    && (forall id | id in m :: id in ids)
    && (forall i, j | 0 <= i < j < |ids| :: ids[i] != ids[j])
  }

  function SetOf(ids: seq<string>): set<string> { set id | id in ids }

  class ExecutionTracker {
    const executorID: string
    var rows: Rows              // dbos.duro_run_executions
    var running: map<string, nat>
    var unended: map<string, nat>
    var interrupted: set<nat>   // the executions whose contexts carry errRunCancelled

    constructor (executorID: string, rows: Rows)
      ensures this.executorID == executorID && this.rows == rows
      ensures running == map[] && unended == map[] && interrupted == {}
    {
      this.executorID, this.rows := executorID, rows;
      running, unended, interrupted := map[], map[], {};
    }

    /** recordStart: tries until a write reports success or the context ends; one of the
        two comes. A failed begin may leave its row behind, open. */
    method RecordStart(run: string, token: nat, attempts: seq<Attempt>) returns (ok: bool)
      requires forall a | a in attempts :: a.ok ==> a.commits
      requires exists a :: a in attempts && (a.ok || a.ctxEnded)
      modifies `rows
      ensures ok ==> rows == StartExecution(old(rows), executorID, run, token)
      ensures rows == old(rows) || rows == StartExecution(old(rows), executorID, run, token)
      ensures ok <==> exists k :: 0 <= k < |attempts| && attempts[k].ok
                                  && forall j | 0 <= j < k :: !attempts[j].ok && !attempts[j].ctxEnded
    {
      for i := 0 to |attempts|
        invariant forall j | 0 <= j < i :: !attempts[j].ok && !attempts[j].ctxEnded
        invariant rows == old(rows) || rows == StartExecution(old(rows), executorID, run, token)
      {
        if attempts[i].commits {
          rows := StartExecution(rows, executorID, run, token);
        }
        if attempts[i].ok {
          return true;
        }
        if attempts[i].ctxEnded {
          return false;
        }
      }
      return false;
    }

    /** begin (executions.go:184-204), with no other goroutine at its locks. */
    method Begin(run: string, token: nat, attempts: seq<Attempt>) returns (ok: bool)
      requires forall a | a in attempts :: a.ok ==> a.commits
      requires exists a :: a in attempts && (a.ok || a.ctxEnded)
      modifies `rows, `running, `unended
      ensures ok ==>
                && rows == StartExecution(old(rows), executorID, run, token)
                && running == old(running)[run := token] && unended == old(unended) - {run}
      ensures !ok ==> running == old(running) && unended == old(unended)[run := token]
      ensures forall k | k in old(rows) && k != RowKey(executorID, run) :: k in rows && rows[k] == old(rows)[k]
    {
      ok := RecordStart(run, token, attempts);
      if !ok {
        unended := unended[run := token];
      } else {
        running := running[run := token];
        unended := unended - {run};
      }
    }

    /** end, up to its first unlock (executions.go:236-240). */
    method Leave(run: string, token: nat)
      modifies `running
      ensures running == Tracker.Forget(old(running), run, token)
    {
      if run in running && running[run] == token {
        running := running - {run};
      }
    }

    /** end, from its failed write on (executions.go:245-252). */
    method QueueClose(run: string, token: nat)
      modifies `unended
      ensures unended == if run in running then old(unended) else old(unended)[run := token]
    {
      if run !in running {
        unended := unended[run := token];
      }
    }

    /** end as a whole, when nobody else takes the lock in between: the row is closed or
        its close is queued, and no other run is touched. */
    method End(run: string, token: nat, commits: bool, ok: bool)
      requires ok ==> commits
      requires run in running && running[run] == token
      requires RowKey(executorID, run) in rows && rows[RowKey(executorID, run)] == Row(token, true)
      modifies `rows, `running, `unended
      ensures running == old(running) - {run}
      ensures RowKey(executorID, run) in rows && rows[RowKey(executorID, run)] == Row(token, !commits)
      ensures rows[RowKey(executorID, run)].open ==> run in unended && unended[run] == token
      ensures unended == if ok then old(unended) else old(unended)[run := token]
      ensures forall k | k in old(rows) && k != RowKey(executorID, run) :: k in rows && rows[k] == old(rows)[k]
    {
      Leave(run, token);
      if commits {
        rows := EndExecution(rows, executorID, run, token);
      }
      if !ok {
        QueueClose(run, token);
      }
    }

    /** Copying a map out under the lock, in whatever order the map is ranged over. */
    method Copy(m: map<string, nat>) returns (ids: seq<string>, tokens: seq<nat>)
      ensures Lists(ids, tokens, m)
    {
      ids, tokens := [], [];
      var left := m.Keys;
      while left != {}
        invariant left <= m.Keys && |ids| == |tokens|
        invariant forall i | 0 <= i < |ids| :: ids[i] in m && ids[i] !in left && m[ids[i]] == tokens[i]
        invariant forall id | id in m :: id in left || id in ids
        invariant forall i, j | 0 <= i < j < |ids| :: ids[i] != ids[j]
        decreases left
      {
        var id :| id in left;
        ids, tokens := ids + [id], tokens + [m[id]];
        left := left - {id};
      }
    }

    /** cancelObserved's last stretch (executions.go:292-300): `asked` is what its first
        stretch copied, `cancelled` what the database answered. */
    method CancelContexts(asked: map<string, nat>, cancelled: seq<string>)
      modifies `interrupted
      ensures interrupted == old(interrupted) + Tracker.Interrupts(running, asked, SetOf(cancelled))
    {
      for i := 0 to |cancelled|
        invariant interrupted == old(interrupted) + Tracker.Interrupts(running, asked, SetOf(cancelled[..i]))
      {
        var id := cancelled[i];
        assert cancelled[..i + 1] == cancelled[..i] + [id];
        if id in running && id in asked && running[id] == asked[id] {
          interrupted := interrupted + {running[id]};
        }
        assert SetOf(cancelled[..i + 1]) == SetOf(cancelled[..i]) + {id};
        assert Tracker.Interrupts(running, asked, SetOf(cancelled[..i + 1]))
            == Tracker.Interrupts(running, asked, SetOf(cancelled[..i])) + Tracker.Interrupts(running, asked, {id});
      }
      assert cancelled[..|cancelled|] == cancelled;
    }

    /** cancelObserved as a whole, when nobody else takes the lock in between: it reaches
        exactly the executions whose runs are cancelled. */
    method CancelObserved(cancelledRuns: set<string>, queryFails: bool) returns (ok: bool)
      modifies `interrupted
      ensures ok ==> forall t :: t in interrupted <==>
                t in old(interrupted) || exists run :: run in running && run in cancelledRuns && running[run] == t
      ensures !ok ==> interrupted == old(interrupted)
    {
      var ids, tokens := Copy(running);
      if |ids| == 0 {
        return true;
      }
      if queryFails {
        return false;
      }
      var cancelled := [];
      for i := 0 to |ids|
        invariant forall id :: id in cancelled <==> id in ids[..i] && id in cancelledRuns
      {
        assert ids[..i + 1] == ids[..i] + [ids[i]];
        if ids[i] in cancelledRuns {
          cancelled := cancelled + [ids[i]];
        }
      }
      assert ids[..|ids|] == ids;
      CancelContexts(running, cancelled);
      return true;
    }

    /** retryEnds' last stretch (executions.go:321-327). */
    method ForgetCloses(ids: seq<string>, tokens: seq<nat>, ghost closes: map<string, nat>)
      requires Lists(ids, tokens, closes)
      modifies `unended
      ensures unended == Tracker.ForgetAll(old(unended), closes)
    {
      for i := 0 to |ids|
        invariant forall id :: id in unended <==> id in old(unended) && !(id in ids[..i] && closes[id] == old(unended)[id])
        invariant forall id | id in unended :: unended[id] == old(unended)[id]
      {
        assert ids[..i + 1] == ids[..i] + [ids[i]];
        if ids[i] in unended && unended[ids[i]] == tokens[i] {
          unended := unended - {ids[i]};
        }
      }
      assert ids[..|ids|] == ids;
    }

    /** retryEnds as a whole, when nobody else takes the lock in between. */
    method RetryEnds(commits: bool, ok: bool) returns (ids: seq<string>)
      requires ok ==> commits
      modifies `rows, `unended
      ensures rows == if commits then Tracker.EndExecutions(old(rows), executorID, old(unended)) else old(rows)
      ensures commits ==> forall run | run in old(unended) && RowKey(executorID, run) in rows ::
                !(rows[RowKey(executorID, run)] == Row(old(unended)[run], true))
      ensures forall k | k in old(rows) :: k in rows && rows[k].token == old(rows)[k].token
                && (rows[k] != old(rows)[k] ==> k.executor == executorID && k.run in old(unended) && old(unended)[k.run] == rows[k].token)
      ensures ok ==> unended == map[]
      ensures !ok ==> unended == old(unended)
    {
      var tokens;
      ids, tokens := Copy(unended);
      if |ids| == 0 {
        assert unended == map[];
        assert Tracker.EndExecutions(rows, executorID, unended) == rows;
        return;
      }
      ghost var closes := unended;
      if commits {
        rows := Tracker.EndExecutions(rows, executorID, unended);
      }
      if ok {
        ForgetCloses(ids, tokens, closes);
      }
    }
  }
}
