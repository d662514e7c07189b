/**
Runs of the fleet from its boot that show what the guarantees need. A caller that starts a
PENDING run's ID again on another executor (register.go:124-127 offers the ID as the
idempotency key, executions.go:376-377 says what DBOS does) takes the run's row away from
the process executing it; once that executor leaves, a sweep hands the run to a third one
while the first is still at it. Two more runs reach the states in which pruning unsettles a
run, and in which Unsettled does not see one.
 */
module FleetScenes {
  import opened Values
  import opened Tables
  import opened Fleet
  import opened FleetInvariants
  import opened FleetPromises

  lemma {:induction false} Onward(c: Config, s: State, acts: seq<Action>, u: State, a: Action)
    requires Reaches(c, s, acts, u) && Enabled(c, u, a)
    ensures Reaches(c, s, acts + [a], Next(c, u, a))
    decreases |acts|
  {
    hide Enabled, Next;
    if acts == [] {
      assert acts + [a] == [a];
    } else {
      Onward(c, Next(c, s, acts[0]), acts[1..], u, a);
      assert (acts + [a])[1..] == acts[1..] + [a];
    }
  }

  lemma {:induction false} Joined(c: Config, s: State, acts: seq<Action>, u: State, more: seq<Action>, t: State)
    requires Reaches(c, s, acts, u) && Reaches(c, u, more, t)
    ensures Reaches(c, s, acts + more, t)
    decreases |acts|
  {
    hide Enabled, Next;
    if acts == [] {
      assert acts + more == more;
    } else {
      Joined(c, Next(c, s, acts[0]), acts[1..], u, more, t);
      assert (acts + more)[1..] == acts[1..] + more;
    }
  }

  // ---- A caller starts a PENDING run's ID again ----

  /** `a` is at work on a PENDING run; `b`, of another executor, and `d` can start it too. */
  ghost predicate Disturbable(c: Config, s: State, a: nat, b: nat, d: nat, id: string) {
    && a != b && a != d && Slot(a, id) in s.work && Slot(d, id) !in s.work
    && Launched(s, b) && Launched(s, d) && s.procs[b].executor != s.procs[d].executor
    && id in s.runs && s.runs[id].state.Pending? && !Parks(c, s.runs[id])
    && s.runs[id].executor != s.procs[b].executor
    && s.runs[id].version == s.procs[d].version
    && (s.runs[id].app == Some(s.procs[d].app) || s.runs[id].app.None?)
    && s.procs[b].app == s.procs[d].app
    && s.procs[b].executor in s.leases && s.leases[s.procs[b].executor].nonce == b
    && s.leases[s.procs[b].executor].app == s.procs[b].app
    && EPOCH < s.now - s.procs[d].stale
  }

  function Handover(b: nat, d: nat, id: string): seq<Action> { [Restart(b, id), Leave(b), Sweep(d), Dequeue(d, id)] }

  /** What the handover leaves alone until its last step: the work of the others. */
  lemma HandoverToSweep(c: Config, s: State, a: nat, b: nat, d: nat, id: string) returns (u: State)
    requires Disturbable(c, s, a, b, d, id)
    ensures Disturbs(s, Restart(b, id), id)
    ensures Reaches(c, s, [Restart(b, id), Leave(b)], u)
    ensures u == s.(runs := s.runs[id := s.runs[id].(executor := s.procs[b].executor)],
                    leases := Tombstone(s.leases, s.procs[b].executor, b), procs := s.procs - {b}, work := Without(s.work, b))
  {
    var s1 := Next(c, s, Restart(b, id));
    u := Next(c, s1, Leave(b));
    assert [Restart(b, id), Leave(b)][1..] == [Leave(b)];
  }

  lemma HandoverFromSweep(c: Config, u: State, d: nat, id: string) returns (t: State)
    requires Launched(u, d) && Stranded(u, id, d) && Slot(d, id) !in u.work && !Parks(c, u.runs[id])
    ensures Reaches(c, u, [Sweep(d), Dequeue(d, id)], t)
    ensures t.work == u.work[Slot(d, id) := ENTERED]
    ensures id in t.runs && t.runs[id].state.Pending? && t.runs[id].executor == u.procs[d].executor
    ensures t.procs == u.procs && t.rows == u.rows && t.now == u.now && t.leases == u.leases
  {
    var v := Next(c, u, Sweep(d));
    t := Next(c, v, Dequeue(d, id));
    assert [Sweep(d), Dequeue(d, id)][1..] == [Dequeue(d, id)];
  }

  predicate Stranded(s: State, id: string, d: nat) {
    && d in s.procs && id in s.runs
    && Adoptable(s.leases, s.now, s.procs[d].app, s.procs[d].version, s.procs[d].stale, s.runs[id])
  }

  /** Exclusive execution needs the condition it is stated under: wherever a caller on a
      second executor can start a PENDING run's ID again, a third executor can come to
      execute the run beside the first. */
  lemma {:induction false} DisturbedRunsTwice(c: Config, s: State, a: nat, b: nat, d: nat, id: string) returns (t: State)
    requires Disturbable(c, s, a, b, d, id)
    ensures Reaches(c, s, Handover(b, d, id), t) && !Undisturbed(c, s, Handover(b, d, id), id)
    ensures t.work == Without(s.work, b)[Slot(d, id) := ENTERED] && Slot(a, id) in t.work && !Exclusive(t, id)
    ensures id in t.runs && t.runs[id].state.Pending? && t.runs[id].executor == s.procs[d].executor
    ensures t.procs == s.procs - {b} && t.rows == s.rows && t.now == s.now
    ensures t.leases == Tombstone(s.leases, s.procs[b].executor, b)
  {
    var u := HandoverToSweep(c, s, a, b, d, id);
    t := HandoverFromSweep(c, u, d, id);
    Joined(c, s, [Restart(b, id), Leave(b)], u, [Sweep(d), Dequeue(d, id)], t);
    hide Enabled, Next, Adoptable, Disturbable;
    assert [Restart(b, id), Leave(b)] + [Sweep(d), Dequeue(d, id)] == Handover(b, d, id);
    assert Slot(a, id) in t.work && Slot(d, id) in t.work;
  }

  // ---- Runs from the boot ----

  const RUN := "r"
  const APP := "app"
  const VERSION := "v"

  function Member(executor: string, tracked: bool): Process { Process(executor, APP, VERSION, 1, tracked, false) }

  lemma Claimed(c: Config, u: State, pid: nat, p: Process)
    requires pid !in u.procs && !p.launched && p.stale >= c.patience
    requires forall q | q in u.procs :: u.procs[q].executor != p.executor
    requires forall x | x in u.work :: x.pid != pid
    ensures Enabled(c, u, Claim(pid, p))
    ensures Next(c, u, Claim(pid, p)) == u.(leases := u.leases[p.executor := LeaseOf(p, pid, u.now)], procs := u.procs[pid := p])
  {
  }

  lemma Launches(c: Config, u: State, pid: nat)
    requires pid in u.procs && !u.procs[pid].launched
    ensures Enabled(c, u, Launch(pid))
    ensures Next(c, u, Launch(pid)) == u.(procs := u.procs[pid := u.procs[pid].(launched := true)])
  {
  }

  /** A process claims its lease and launches. */
  lemma Joins(c: Config, s: State, acts: seq<Action>, u: State, pid: nat, p: Process)
      returns (more: seq<Action>, v: State)
    requires Reaches(c, s, acts, u) && pid !in u.procs && !p.launched && p.stale >= c.patience
    requires forall q | q in u.procs :: u.procs[q].executor != p.executor
    requires forall x | x in u.work :: x.pid != pid
    ensures Reaches(c, s, more, v) && more == acts + [Claim(pid, p)] + [Launch(pid)]
    ensures v == u.(leases := u.leases[p.executor := LeaseOf(p, pid, u.now)], procs := u.procs[pid := p.(launched := true)])
  {
    hide Enabled, Next, Reaches;
    Claimed(c, u, pid, p);
    Onward(c, s, acts, u, Claim(pid, p));
    var u1 := Next(c, u, Claim(pid, p));
    Launches(c, u1, pid);
    Onward(c, s, acts + [Claim(pid, p)], u1, Launch(pid));
    more, v := acts + [Claim(pid, p)] + [Launch(pid)], Next(c, u1, Launch(pid));
    assert u.procs[pid := p][pid := p.(launched := true)] == u.procs[pid := p.(launched := true)];
  }

  lemma StartsDirectly(c: Config, u: State, pid: nat, id: string)
    requires Launched(u, pid) && id !in u.runs && c.limit > 0
    ensures Enabled(c, u, StartDirect(pid, id))
    ensures
      var p := u.procs[pid];
      Next(c, u, StartDirect(pid, id))
        == u.(runs := u.runs[id := Run(Pending, p.executor, 1, p.version, Some(p.app), "")], work := u.work[Slot(pid, id) := ENTERED])
  {
  }

  lemma Opens(c: Config, u: State, pid: nat, id: string, token: nat)
    requires InBody(u, pid, id) && u.work[Slot(pid, id)] == ENTERED && u.procs[pid].tracked
    requires forall k | k in u.rows :: u.rows[k].token != token
    ensures Enabled(c, u, OpenRow(pid, id, token))
    ensures Next(c, u, OpenRow(pid, id, token))
            == u.(rows := StartExecution(u.rows, u.procs[pid].executor, id, token),
                  work := u.work[Slot(pid, id) := Activity(Some(token), false, false)])
  {
  }

  lemma Stages(c: Config, u: State, pid: nat, id: string)
    requires InBody(u, pid, id) && !u.work[Slot(pid, id)].stage && !u.work[Slot(pid, id)].over
    requires (u.procs[pid].tracked ==> u.work[Slot(pid, id)].row.Some?) && !u.runs[id].state.Cancelled?
    ensures Enabled(c, u, EnterStage(pid, id))
    ensures Next(c, u, EnterStage(pid, id)) == u.(work := u.work[Slot(pid, id) := u.work[Slot(pid, id)].(stage := true)])
  {
  }

  /** A process whose body has been entered opens its row and enters its stage. */
  lemma Works(c: Config, s: State, acts: seq<Action>, u: State, pid: nat, id: string, token: nat)
      returns (more: seq<Action>, v: State)
    requires Reaches(c, s, acts, u) && InBody(u, pid, id) && u.work[Slot(pid, id)] == ENTERED && u.procs[pid].tracked
    requires (forall k | k in u.rows :: u.rows[k].token != token) && !u.runs[id].state.Cancelled?
    ensures Reaches(c, s, more, v) && more == acts + [OpenRow(pid, id, token)] + [EnterStage(pid, id)]
    ensures v == u.(rows := StartExecution(u.rows, u.procs[pid].executor, id, token),
                    work := u.work[Slot(pid, id) := Activity(Some(token), true, false)])
  {
    hide Enabled, Next, Reaches;
    Opens(c, u, pid, id, token);
    Onward(c, s, acts, u, OpenRow(pid, id, token));
    var u1 := Next(c, u, OpenRow(pid, id, token));
    Stages(c, u1, pid, id);
    Onward(c, s, acts + [OpenRow(pid, id, token)], u1, EnterStage(pid, id));
    more, v := acts + [OpenRow(pid, id, token)] + [EnterStage(pid, id)], Next(c, u1, EnterStage(pid, id));
    assert u1.work[Slot(pid, id) := Activity(Some(token), true, false)] == u.work[Slot(pid, id) := Activity(Some(token), true, false)];
  }

  /** Three executors of one application, of which the first has started a run. */
  lemma {:induction false} ThreeAndARun() returns (c: Config, acts: seq<Action>, u: State)
    ensures c.limit == 5 && Reaches(c, Boot(100), acts, u)
    ensures u.now == 100 && u.rows == map[] && u.work == map[Slot(1, RUN) := ENTERED]
    ensures u.runs == map[RUN := Run(Pending, "A", 1, VERSION, Some(APP), "")]
    ensures forall e | e in u.leases :: u.leases[e].app == APP && u.leases[e].beat == 100 && u.leases[e].staleAfter == 1
    ensures "A" in u.leases && "B" in u.leases && "C" in u.leases && u.leases["B"].nonce == 2
    ensures u.procs == map[1 := Member("A", true).(launched := true), 2 := Member("B", true).(launched := true),
                           3 := Member("C", true).(launched := true)]
  {
    hide Enabled, Next, Reaches;
    c := Config(1, 5);
    Empty(c, Boot(100));
    var acts1, u1 := Joins(c, Boot(100), [], Boot(100), 1, Member("A", true));
    var acts2, u2 := Joins(c, Boot(100), acts1, u1, 2, Member("B", true));
    var acts3, u3 := Joins(c, Boot(100), acts2, u2, 3, Member("C", true));
    StartsDirectly(c, u3, 1, RUN);
    Onward(c, Boot(100), acts3, u3, StartDirect(1, RUN));
    acts := acts3 + [StartDirect(1, RUN)];
    u := Next(c, u3, StartDirect(1, RUN));
  }

  lemma Empty(c: Config, s: State)
    ensures Reaches(c, s, [], s)
  {
  }

  /** Two live processes inside stages of one run. */
  lemma {:induction false} TwoExecuteOneRun() returns (c: Config, acts: seq<Action>, t: State)
    ensures Reaches(c, Boot(100), acts, t) && 1 in t.procs && 3 in t.procs
    ensures InStage(t, 1, RUN) && InStage(t, 3, RUN)
  {
    hide Enabled, Next, Reaches, Undisturbed, Exclusive;
    var acts0, u0;
    c, acts0, u0 := ThreeAndARun();
    var acts1, u1 := Works(c, Boot(100), acts0, u0, 1, RUN, 7);
    var u2 := DisturbedRunsTwice(c, u1, 1, 2, 3, RUN);
    Joined(c, Boot(100), acts1, u1, Handover(2, 3, RUN), u2);
    acts, t := Works(c, Boot(100), acts1 + Handover(2, 3, RUN), u2, 3, RUN, 8);
  }

  /** The body returns, and its row is closed. */
  lemma Ends(c: Config, u: State, pid: nat, id: string, token: nat)
    requires InBody(u, pid, id) && u.work[Slot(pid, id)] == Activity(Some(token), false, false)
    requires RowKey(u.procs[pid].executor, id) in u.rows && u.rows[RowKey(u.procs[pid].executor, id)] == Row(token, true)
    ensures Enabled(c, u, End(pid, id, true))
    ensures Next(c, u, End(pid, id, true))
            == u.(rows := u.rows[RowKey(u.procs[pid].executor, id) := Row(token, false)],
                  work := u.work[Slot(pid, id) := Activity(None, false, true)])
  {
  }

  lemma Succeeds(c: Config, u: State, pid: nat, id: string)
    requires InBody(u, pid, id) && u.work[Slot(pid, id)].over && !u.runs[id].state.Cancelled?
    ensures Enabled(c, u, Finish(pid, id, true))
    ensures Next(c, u, Finish(pid, id, true))
            == u.(runs := u.runs[id := u.runs[id].(state := Success)], work := u.work - {Slot(pid, id)})
  {
  }

  lemma Finishes(c: Config, s: State, acts: seq<Action>, u: State, pid: nat, id: string, token: nat)
      returns (more: seq<Action>, v: State)
    requires Reaches(c, s, acts, u)
    requires InBody(u, pid, id) && u.work[Slot(pid, id)] == ENTERED && u.procs[pid].tracked && u.rows == map[]
    requires u.runs[id].state.Pending?
    ensures Reaches(c, s, more, v)
    ensures v == u.(runs := u.runs[id := u.runs[id].(state := Success)], work := u.work - {Slot(pid, id)},
                    rows := map[RowKey(u.procs[pid].executor, id) := Row(token, false)])
  {
    hide Enabled, Next, Reaches;
    Opens(c, u, pid, id, token);
    Onward(c, s, acts, u, OpenRow(pid, id, token));
    var u1 := Next(c, u, OpenRow(pid, id, token));
    Ends(c, u1, pid, id, token);
    Onward(c, s, acts + [OpenRow(pid, id, token)], u1, End(pid, id, true));
    var u2 := Next(c, u1, End(pid, id, true));
    Succeeds(c, u2, pid, id);
    more := acts + [OpenRow(pid, id, token)] + [End(pid, id, true)];
    Onward(c, s, more, u2, Finish(pid, id, true));
    more, v := more + [Finish(pid, id, true)], Next(c, u2, Finish(pid, id, true));
    assert u2.work - {Slot(pid, id)} == u.work - {Slot(pid, id)};
  }

  /** And a run that the snapshot shows settled, with everybody tracked, whose stage a
      process that has only just come to it enters afterwards. */
  lemma {:induction false} SettledTooSoon() returns (c: Config, before: seq<Action>, s: State, acts: seq<Action>, t: State)
    ensures Reaches(c, Boot(100), before, s) && SettledIn(s, RUN) && Known(s, RUN)
    ensures Reaches(c, s, acts, t) && Resume(RUN) !in acts && InStage(t, 1, RUN)
  {
    hide Enabled, Next, Reaches, Undisturbed, Exclusive;
    var acts0, u0;
    c, acts0, u0 := ThreeAndARun();
    var u1 := DisturbedRunsTwice(c, u0, 1, 2, 3, RUN);
    Joined(c, Boot(100), acts0, u0, Handover(2, 3, RUN), u1);
    before, s := Finishes(c, Boot(100), acts0 + Handover(2, 3, RUN), u1, 3, RUN, 8);
    Empty(c, s);
    acts, t := Works(c, s, [], s, 1, RUN, 9);
  }

  // ---- Pruning counts, and untracked adopters do not show ----

  lemma CancelsRun(c: Config, u: State, id: string)
    requires id in u.runs && u.runs[id].state.Pending?
    ensures Enabled(c, u, Cancel(id)) && Next(c, u, Cancel(id)) == u.(runs := u.runs[id := CancelledRun(u.runs[id])])
  {
  }

  lemma Leaves(c: Config, u: State, pid: nat)
    requires pid in u.procs
    ensures Enabled(c, u, Leave(pid))
    ensures Next(c, u, Leave(pid))
            == u.(leases := Tombstone(u.leases, u.procs[pid].executor, pid), procs := u.procs - {pid}, work := Without(u.work, pid))
  {
  }

  /** A tracking executor that has opened its row for a run it started. */
  lemma {:induction false} OneAndARun() returns (c: Config, acts: seq<Action>, u: State)
    ensures c == Config(1, 5) && Reaches(c, Boot(1000), acts, u)
    ensures u == State(1000, map[RUN := Run(Pending, "gone", 1, VERSION, Some(APP), "")],
                       map["gone" := Lease(APP, VERSION, 1000, 1, 1)], map[RowKey("gone", RUN) := Row(7, true)],
                       map[1 := Member("gone", true).(launched := true)],
                       map[Slot(1, RUN) := Activity(Some(7), false, false)])
  {
    hide Enabled, Next, Reaches;
    c := Config(1, 5);
    Empty(c, Boot(1000));
    var acts1, u1 := Joins(c, Boot(1000), [], Boot(1000), 1, Member("gone", true));
    StartsDirectly(c, u1, 1, RUN);
    Onward(c, Boot(1000), acts1, u1, StartDirect(1, RUN));
    var u2 := Next(c, u1, StartDirect(1, RUN));
    Opens(c, u2, 1, RUN, 7);
    Onward(c, Boot(1000), acts1 + [StartDirect(1, RUN)], u2, OpenRow(1, RUN, 7));
    acts, u := acts1 + [StartDirect(1, RUN)] + [OpenRow(1, RUN, 7)], Next(c, u2, OpenRow(1, RUN, 7));
    assert u.work == map[Slot(1, RUN) := Activity(Some(7), false, false)];
  }

  /** Pruning counts: a run tracked to its end on one executor, whose ID a caller on
      another executor has since started again, is settled until its rows are pruned. */
  lemma {:induction false} PrunedRowsCount() returns (c: Config, acts: seq<Action>, s: State)
    ensures Reaches(c, Boot(1000), acts, s) && SettledIn(s, RUN)
    ensures Enabled(c, s, PruneExecutionRows(2)) && !SettledIn(Next(c, s, PruneExecutionRows(2)), RUN)
  {
    hide Reaches;
    var acts0, u0;
    c, acts0, u0 := OneAndARun();
    var acts1, u1 := CancelledAndGone(c, acts0, u0);
    var acts2, u2 := Joins(c, Boot(1000), acts1, u1, 2, Member("caller", true));
    Onward(c, Boot(1000), acts2, u2, Restart(2, RUN));
    acts, s := acts2 + [Restart(2, RUN)], Next(c, u2, Restart(2, RUN));
    PrunesTheLastRow(c, s);
  }

  lemma CancelledAndGone(c: Config, acts: seq<Action>, u: State) returns (more: seq<Action>, v: State)
    requires Reaches(c, Boot(1000), acts, u)
    requires u == State(1000, map[RUN := Run(Pending, "gone", 1, VERSION, Some(APP), "")],
                        map["gone" := Lease(APP, VERSION, 1000, 1, 1)], map[RowKey("gone", RUN) := Row(7, true)],
                        map[1 := Member("gone", true).(launched := true)],
                        map[Slot(1, RUN) := Activity(Some(7), false, false)])
    ensures Reaches(c, Boot(1000), more, v)
    ensures v == State(1000, map[RUN := Run(Cancelled, "gone", 1, VERSION, Some(APP), "")],
                       map["gone" := Lease(APP, VERSION, EPOCH, 1, 1)], map[RowKey("gone", RUN) := Row(7, false)],
                       map[], map[])
  {
    hide Enabled, Next, Reaches;
    CancelsRun(c, u, RUN);
    Onward(c, Boot(1000), acts, u, Cancel(RUN));
    var u1 := Next(c, u, Cancel(RUN));
    Ends(c, u1, 1, RUN, 7);
    Onward(c, Boot(1000), acts + [Cancel(RUN)], u1, End(1, RUN, true));
    var u2 := Next(c, u1, End(1, RUN, true));
    Leaves(c, u2, 1);
    more := acts + [Cancel(RUN)] + [End(1, RUN, true)];
    Onward(c, Boot(1000), more, u2, Leave(1));
    more, v := more + [Leave(1)], Next(c, u2, Leave(1));
  }

  lemma PrunesTheLastRow(c: Config, s: State)
    requires s.now == 1000 && s.rows == map[RowKey("gone", RUN) := Row(7, false)] && Launched(s, 2) && s.procs[2] == Member("caller", true).(launched := true)
    requires s.runs == map[RUN := Run(Cancelled, "caller", 1, VERSION, Some(APP), "")]
    requires s.leases == map["gone" := Lease(APP, VERSION, EPOCH, 1, 1), "caller" := Lease(APP, VERSION, 1000, 2, 1)]
    ensures SettledIn(s, RUN) && Enabled(c, s, PruneExecutionRows(2)) && !SettledIn(Next(c, s, PruneExecutionRows(2)), RUN)
  {
    var key := RowKey("gone", RUN);
    assert key in s.rows && key.run == RUN;
    assert forall k | k in s.rows :: PrunesRow(s.leases, k, s.now, APP, PruneAge(1));
    assert PruneRows(s.rows, s.leases, s.now, APP, PruneAge(1)) == map[];
  }

  /** Unsettled's blind spot, in a fleet only partly on execution tracking: a run that a
      tracking executor once recorded, adopted by an executor that does not track. */
  lemma {:induction false} UntrackedAdopterGoesUnseen() returns (c: Config, acts: seq<Action>, s: State)
    ensures Reaches(c, Boot(1000), acts, s)
    ensures InStage(s, 2, RUN) && 2 in s.procs && !s.procs[2].tracked && SettledIn(s, RUN)
  {
    hide Enabled, Next, Reaches;
    var acts0, u0;
    c, acts0, u0 := OneAndARun();
    Leaves(c, u0, 1);
    Onward(c, Boot(1000), acts0, u0, Leave(1));
    var u1 := Next(c, u0, Leave(1));
    var acts2, u2 := Joins(c, Boot(1000), acts0 + [Leave(1)], u1, 2, Member("here", false));
    var u3 := HandoverFromSweep(c, u2, 2, RUN);
    Joined(c, Boot(1000), acts2, u2, [Sweep(2), Dequeue(2, RUN)], u3);
    var acts3 := acts2 + [Sweep(2), Dequeue(2, RUN)];
    Stages(c, u3, 2, RUN);
    Onward(c, Boot(1000), acts3, u3, EnterStage(2, RUN));
    var u4 := Next(c, u3, EnterStage(2, RUN));
    CancelsRun(c, u4, RUN);
    Onward(c, Boot(1000), acts3 + [EnterStage(2, RUN)], u4, Cancel(RUN));
    acts, s := acts3 + [EnterStage(2, RUN)] + [Cancel(RUN)], Next(c, u4, Cancel(RUN));
    assert RowKey("gone", RUN) in s.rows;
  }
}
