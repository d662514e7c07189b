/**
What Parallel promises under every schedule, from the invariants in ParallelStage: the
concurrency bound, progress, nothing left running past the stage, a genuine error behind
every cancellation, and the same completion after every crash.
 */
module ParallelPromises {
  import opened Values
  import opened ParallelChoice
  import opened ParallelStage

  lemma InvHolds(cfg: Config, acts: seq<Action>, t: State)
    requires Runs(cfg, BOOT, acts, t)
    ensures Inv(cfg, t)
  {
    RunsKeepInv(cfg, BOOT, acts, t);
  }

  /** At most max stage functions execute at once, whatever the schedule. */
  lemma {:induction false} ConcurrencyBound(cfg: Config, acts: seq<Action>, t: State)
    requires cfg.max > 0 && Runs(cfg, BOOT, acts, t)
    ensures Count(Executes(), t.proc.steps) <= cfg.max
  {
    InvHolds(cfg, acts, t);
    CountAtMost(Executes(), Holds(), t.proc.steps);
  }

  /** What a step goroutine or its forwarder does next, if nothing else happens. */
  function Onward(cfg: Config, p: Phase, i: nat): Option<Action> {
    match p
    case Spawned => Some(Start(i))
    case Running(_) => Some(Return(i, SKIPPED, false))
    case Returned(_) => Some(Record(i))
    case Recorded(_) => if Direct(cfg) then None else Some(Take(i))
    case Taken(_) => Some(Notice(i))
    case Seen(_) => Some(Hand(i))
    case Watched(_) => Some(Free(i))
    case Freed(_) => None
  }

  /** A launch blocked on the semaphore has an unfinished step ahead of it, and so
      does a drain or a collection that waits: the goroutine it waits for can move. */
  lemma {:induction false} BlockedHasStepAhead(cfg: Config, acts: seq<Action>, t: State) returns (i: nat)
    requires Runs(cfg, BOOT, acts, t)
    requires
      || (t.proc.control.Wanting? && !Enabled(cfg, t, Acquire))
      || ((t.proc.control.Draining? || t.proc.control.Collecting?) && !Enabled(cfg, t, Receive) && !Enabled(cfg, t, Deliver))
    ensures i < |t.proc.steps| && Onward(cfg, t.proc.steps[i], i).Some?
    ensures Enabled(cfg, t, Onward(cfg, t.proc.steps[i], i).value)
  {
    assert Placed(cfg, t) && Metered(cfg, t) by { InvHolds(cfg, acts, t); hide Runs; }
    hide Runs, Next;
    if t.proc.control.Wanting? {
      i := CountFinds(Holds(), t.proc.steps);
    } else {
      i := t.proc.control.n;
    }
  }

  /** Moves left before every launched step and its forwarder are through. */
  function Rank(cfg: Config, p: Phase): nat {
    match p
    case Spawned => 7 + cfg.retries
    case Running(tries) => 6 + tries
    case Returned(_) => 5
    case Recorded(_) => 4
    case Taken(_) => 3
    case Seen(_) => 2
    case Watched(_) => 1
    case Freed(_) => 0
  }

  function Left(cfg: Config, steps: seq<Phase>): nat {
    if steps == [] then 0 else Left(cfg, steps[..|steps| - 1]) + Rank(cfg, steps[|steps| - 1])
  }

  lemma {:induction false} LeftUpdate(cfg: Config, steps: seq<Phase>, i: nat, to: Phase)
    requires i < |steps|
    ensures Left(cfg, steps[i := to]) == Left(cfg, steps) - Rank(cfg, steps[i]) + Rank(cfg, to)
  {
    var n := |steps| - 1;
    if i == n {
      assert steps[i := to][..n] == steps[..n];
    } else {
      assert steps[i := to][..n] == steps[..n][i := to];
      LeftUpdate(cfg, steps[..n], i, to);
    }
  }

  /** Moves a decided item that has not been read yet is good for. */
  function Ahead(cfg: Config, items: nat): nat {
    if items == 0 then 0 else Ahead(cfg, items - 1) + 11 + cfg.retries
  }

  function Measure(cfg: Config, s: State): nat
    requires s.proc.read <= s.db.count
  {
    var p := s.proc;
    Ahead(cfg, s.db.count - p.read) + Left(cfg, p.steps)
    + match p.control
      case Reading => s.db.count + 2
      case Wanting => s.db.count + 12 + cfg.retries
      case Holding => s.db.count + 11 + cfg.retries
      case Draining(n) => 1 + if n <= s.db.count then s.db.count - n else 0
      case Collecting(n) => 1 + if n <= s.db.count then s.db.count - n else 0
      case Failed => 0
      case Done(_) => 0
  }

  lemma RankFalls(cfg: Config, s: State, a: Action)
    requires Enabled(cfg, s, a) && OnStep(a)
    ensures
      var t := Next(cfg, s, a);
      && a.i < |s.proc.steps| && t.proc.steps == s.proc.steps[a.i := t.proc.steps[a.i]]
      && Rank(cfg, t.proc.steps[a.i]) < Rank(cfg, s.proc.steps[a.i])
  {
    hide Marked, Genuine, Wrapped;
  }

  lemma StepMoveCounts(cfg: Config, s: State, a: Action)
    requires s.proc.read <= s.db.count && Enabled(cfg, s, a) && OnStep(a)
    ensures Next(cfg, s, a).proc.read == s.proc.read && Next(cfg, s, a).db.count == s.db.count
    ensures Measure(cfg, Next(cfg, s, a)) < Measure(cfg, s)
  {
    RankFalls(cfg, s, a);
    StepsMoveOn(cfg, s, a);
    LeftUpdate(cfg, s.proc.steps, a.i, Next(cfg, s, a).proc.steps[a.i]);
    hide Left, Ahead, Rank, Enabled, Next, Ready, Settled;
  }

  lemma ControlMoveCounts(cfg: Config, s: State, a: Action)
    requires Placed(cfg, s) && Enabled(cfg, s, a) && s.db.ending.Some? && !a.Crash? && !OnStep(a)
    ensures Next(cfg, s, a).proc.read <= Next(cfg, s, a).db.count && Next(cfg, s, a).db.ending.Some?
    ensures Measure(cfg, Next(cfg, s, a)) < Measure(cfg, s)
  {
    hide Ready, Settled, Outs;
    if a.Go? {
      assert Next(cfg, s, a).proc.steps[..|s.proc.steps|] == s.proc.steps;
    }
  }

  lemma EveryMoveCounts(cfg: Config, s: State, a: Action)
    requires Inv(cfg, s) && Enabled(cfg, s, a) && s.db.ending.Some? && !a.Crash?
    ensures Next(cfg, s, a).proc.read <= Next(cfg, s, a).db.count && Next(cfg, s, a).db.ending.Some?
    ensures Measure(cfg, Next(cfg, s, a)) < Measure(cfg, s)
  {
    assert s.proc.read <= s.db.count by { hide Metered, Logged, Caused, Signalled; }
    if OnStep(a) {
      StepsMoveOn(cfg, s, a);
      StepMoveCounts(cfg, s, a);
    } else {
      ControlMoveCounts(cfg, s, a);
    }
    hide Enabled, Next, Placed, Metered, Logged, Caused, Signalled;
  }

  /** Nothing can go on for ever: once the source's end is decided, a process that
      does not crash makes at most Measure more moves, */
  lemma {:induction false} AttemptEnds(cfg: Config, s: State, acts: seq<Action>, t: State)
    requires Inv(cfg, s) && s.db.ending.Some? && Runs(cfg, s, acts, t) && Crash !in acts
    ensures |acts| <= Measure(cfg, s)
    decreases |acts|
  {
    hide Enabled, Next, Metered, Logged, Caused, Signalled;
    if acts != [] {
      StepKeepsInv(cfg, s, acts[0]);
      EveryMoveCounts(cfg, s, acts[0]);
      AttemptEnds(cfg, Next(cfg, s, acts[0]), acts[1..], t);
    }
  }

  /** and it never comes to rest before the stage has delivered its Error or Complete. */
  lemma {:induction false} NeverStuck(cfg: Config, acts: seq<Action>, t: State) returns (a: Action)
    requires Runs(cfg, BOOT, acts, t) && !t.proc.control.Failed? && !t.proc.control.Done?
    ensures Enabled(cfg, t, a) && !a.Crash?
  {
    InvHolds(cfg, acts, t);
    var c := t.proc.control;
    if c.Reading? {
      a := if t.proc.read < t.db.count then ReadItem
           else ReadEnd(if t.db.ending.Some? then t.db.ending.value else Ended);
    } else if c.Holding? {
      a := Go;
    } else if c.Wanting? && Enabled(cfg, t, Acquire) {
      a := Acquire;
    } else if !c.Wanting? && Enabled(cfg, t, Receive) {
      a := Receive;
    } else if !c.Wanting? && Enabled(cfg, t, Deliver) {
      a := Deliver;
    } else {
      var i := BlockedHasStepAhead(cfg, acts, t);
      a := Onward(cfg, t.proc.steps[i], i).value;
    }
  }

  /** When the stage delivers its Error or Complete, no launched step is running, and
      each has its record: nothing after the stage is recorded before all of its
      slots are. Where there are forwarders, each has handed its outcome over. */
  lemma {:induction false} NothingRunsPastTheStage(cfg: Config, acts: seq<Action>, t: State)
    requires Runs(cfg, BOOT, acts, t) && (t.proc.control.Failed? || t.proc.control.Done?)
    ensures |t.proc.steps| == t.proc.read
    ensures forall i | 0 <= i < |t.proc.steps| :: Settled(t.proc.steps[i]) && i in t.db.log
    ensures cfg.max > 0 || cfg.cancel ==> forall i | 0 <= i < |t.proc.steps| :: t.proc.steps[i].Watched? || t.proc.steps[i].Freed?
    ensures t.proc.control.Done? ==>
              && |t.proc.control.outs| == t.db.count
              && forall i | 0 <= i < t.db.count :: i in t.db.log && t.db.log[i] == Values.Recorded(t.proc.control.outs[i])
  {
    InvHolds(cfg, acts, t);
  }

  lemma EndedNotBroken(cfg: Config, t: State)
    requires Placed(cfg, t) && t.proc.control.Done?
    ensures t.db.ending == Some(Ended)
  {
  }

  /** Every record is honest about how it came about, under every schedule: outside
      `halted` it is what the step's function returned; inside, a failure that carries the
      mark. */
  lemma {:induction false} RecordsAreHonest(cfg: Config, acts: seq<Action>, t: State, i: nat)
    requires Runs(cfg, BOOT, acts, t) && i in t.db.log
    ensures i !in t.db.halted ==> i in t.db.returned && t.db.log[i] == Values.Recorded(t.db.returned[i])
    ensures i in t.db.halted ==> t.db.log[i].Fail? && Contains(t.db.log[i].err.msg, SIBLING_MARK)
    ensures i !in t.db.halted && t.db.log[i].Fail? && !t.db.forged ==> !Contains(t.db.log[i].err.msg, SIBLING_MARK)
  {
    hide Runs, Placed, Metered, Caused, Signalled, Fired;
    InvHolds(cfg, acts, t);
  }

  lemma {:induction false} SomeGenuine(cfg: Config, acts: seq<Action>, t: State)
    requires cfg.cancel && Runs(cfg, BOOT, acts, t) && t.proc.control.Done? && !t.db.forged
    requires exists i | 0 <= i < |t.proc.control.outs| :: t.proc.control.outs[i].Fail?
    ensures FirstGenuine(t.proc.control.outs) < |t.proc.control.outs|
  {
    hide Runs, Placed, Metered, Signalled, Fired, Honoured;
    NothingRunsPastTheStage(cfg, acts, t);
    InvHolds(cfg, acts, t);
    EndedNotBroken(cfg, t);
    var outs := t.proc.control.outs;
    FirstGenuineMeaning(outs);
    var i :| 0 <= i < |outs| && outs[i].Fail?;
    RecordingKeepsMarks(outs[i]);
    assert i in t.db.log;
    if !Genuine(outs[i]) { assert Marked(t.db.log[i]); }
    if Genuine(outs[i]) { assert Genuine(t.db.log[i]); }
    assert GenuineIn(t.db.log);
    var j :| j in t.db.log && Genuine(t.db.log[j]);
    RecordingKeepsMarks(outs[j]);
    assert Genuine(outs[j]);
  }

  /** With sibling cancellation the stage's error is the first failure in input order of a
      step that ended on its own terms, and what that step's function returned, whatever
      mix of live, retried and replayed outcomes came in: a halted sibling never masks it,
      and is never alone. The premise is that no stage function forges the mark. */
  lemma {:induction false} CancellationNeverMasks(cfg: Config, acts: seq<Action>, t: State) returns (g: nat)
    requires cfg.cancel && Runs(cfg, BOOT, acts, t) && t.proc.control.Done? && !t.db.forged
    requires exists i | 0 <= i < |t.proc.control.outs| :: t.proc.control.outs[i].Fail?
    ensures
      var outs := t.proc.control.outs;
      && g < |outs| && outs[g].Fail? && g !in t.db.halted
      && (forall i | 0 <= i < g :: outs[i].Ok? || i in t.db.halted)
      && g in t.db.returned && Values.Recorded(outs[g]) == Values.Recorded(t.db.returned[g])
      && ParallelError(outs, true) == Some(outs[g].err)
  {
    hide Runs;
    NothingRunsPastTheStage(cfg, acts, t);
    SomeGenuine(cfg, acts, t);
    var outs := t.proc.control.outs;
    FirstFailureMeaning(outs);
    FirstGenuineMeaning(outs);
    g := FirstGenuine(outs);
    forall i | 0 <= i < |outs|
      ensures i !in t.db.halted ==> i in t.db.returned && Values.Recorded(outs[i]) == Values.Recorded(t.db.returned[i])
      ensures outs[i].Fail? ==> (i in t.db.halted <==> IsSiblingCancellation(outs[i]))
    {
      RecordsAreHonest(cfg, acts, t, i);
      RecordingKeepsMarks(outs[i]);
    }
    assert FirstFailure(outs) < |outs|;
  }

  lemma RunsNowhere(cfg: Config, s: State)
    ensures Runs(cfg, s, [], s)
  {
  }

  lemma RunsFrom(cfg: Config, s: State, a: Action, rest: seq<Action>, t: State)
    requires Enabled(cfg, s, a) && Runs(cfg, Next(cfg, s, a), rest, t)
    ensures Runs(cfg, s, [a] + rest, t)
  {
    assert ([a] + rest)[1..] == rest;
  }

  /** From a step's record to the end of the stage. */
  lemma ForgedOutcomeDelivered(s: State, out: Outcome) returns (acts: seq<Action>, t: State)
    requires s.proc == Process(1, Reading, [Recorded(out)], 0, false) && s.db.count == 1 && s.db.ending.None?
    requires Marked(out)
    ensures Runs(Config(0, true, 0), s, acts, t) && t.proc.control == Done([out])
  {
    hide Runs, Marked;
    var cfg := Config(0, true, 0);
    var s1 := s.(proc := s.proc.(steps := [Taken(out)]));
    var s2 := s.(proc := s.proc.(steps := [Seen(out)]));
    var s3 := s.(proc := s.proc.(steps := [Watched(out)]));
    var s4 := Next(cfg, s3, ReadEnd(Ended));
    var s5 := Next(cfg, s4, Receive);
    t := Next(cfg, s5, Deliver);
    assert [Recorded(out)][0 := Taken(out)] == [Taken(out)];
    assert [Taken(out)][0 := Seen(out)] == [Seen(out)];
    assert [Seen(out)][0 := Watched(out)] == [Watched(out)];
    assert Outs([Watched(out)]) == [out];
    RunsNowhere(cfg, t);
    RunsFrom(cfg, s5, Deliver, [], t);
    RunsFrom(cfg, s4, Receive, [Deliver] + [], t);
    RunsFrom(cfg, s3, ReadEnd(Ended), [Receive] + ([Deliver] + []), t);
    RunsFrom(cfg, s2, Hand(0), [ReadEnd(Ended)] + ([Receive] + ([Deliver] + [])), t);
    acts := [Hand(0)] + ([ReadEnd(Ended)] + ([Receive] + ([Deliver] + [])));
    RunsFrom(cfg, s1, Notice(0), acts, t);
    acts := [Notice(0)] + acts;
    RunsFrom(cfg, s, Take(0), acts, t);
    acts := [Take(0)] + acts;
  }

  /** That premise is needed: a function whose own error carries the mark makes the
      stage complete with no genuine failure among its outcomes. */
  lemma {:induction false} ForgedMarkMasks(e: Error) returns (acts: seq<Action>, t: State)
    requires Marked(Fail(e))
    ensures Runs(Config(0, true, 0), BOOT, acts, t) && t.proc.control == Done([Fail(e)])
    ensures ParallelError([Fail(e)], true) == Some(e) && !Genuine(Fail(e))
  {
    FirstFailureMeaning([Fail(e)]);
    FirstGenuineMeaning([Fail(e)]);
    hide Runs, Marked;
    var cfg := Config(0, true, 0);
    var out := Fail(e);
    var s1 := Next(cfg, BOOT, ReadItem);
    var s2 := Next(cfg, s1, Go);
    var s3 := Next(cfg, s2, Start(0));
    var s4 := Next(cfg, s3, Return(0, out, false));
    var s5 := Next(cfg, s4, Record(0));
    assert s5.proc.steps == [Recorded(out)];
    acts, t := ForgedOutcomeDelivered(s5, out);
    RunsFrom(cfg, s4, Record(0), acts, t);
    acts := [Record(0)] + acts;
    RunsFrom(cfg, s3, Return(0, out, false), acts, t);
    acts := [Return(0, out, false)] + acts;
    RunsFrom(cfg, s2, Start(0), acts, t);
    acts := [Start(0)] + acts;
    RunsFrom(cfg, s1, Go, acts, t);
    acts := [Go] + acts;
    RunsFrom(cfg, BOOT, ReadItem, acts, t);
    acts := [ReadItem] + acts;
  }

  /** A process that goes on from s, without crashing, by `acts`. */
  ghost predicate Continues(cfg: Config, s: State, acts: seq<Action>, t: State) {
    Runs(cfg, s, acts, t) && Crash !in acts
  }

  /** Every function executing in t was executing in s already, in the same attempt of its step. */
  ghost predicate NothingEntered(s: State, t: State) {
    forall i | 0 <= i < |t.proc.steps| && t.proc.steps[i].Running? ::
      i < |s.proc.steps| && s.proc.steps[i] == t.proc.steps[i]
  }

  lemma SignalledStep(cfg: Config, s: State, a: Action)
    requires cfg.cancel && s.proc.signal && Enabled(cfg, s, a) && !a.Crash?
    ensures NothingEntered(s, Next(cfg, s, a)) && Next(cfg, s, a).proc.signal
  {
    hide Marked, Genuine, Wrapped, Outs;
  }

  lemma {:induction false} SignalledStaysQuiet(cfg: Config, s: State, acts: seq<Action>, t: State)
    requires cfg.cancel && s.proc.signal && Continues(cfg, s, acts, t)
    ensures NothingEntered(s, t) && t.proc.signal
    decreases |acts|
  {
    hide Enabled, Next;
    if acts != [] {
      SignalledStep(cfg, s, acts[0]);
      SignalledStaysQuiet(cfg, Next(cfg, s, acts[0]), acts[1..], t);
    }
  }

  /** Once a genuinely failed step has given its slot back, no function is called any
      more, on any continuation of the process: not for an item launched on that slot,
      nor for one launched before it, nor again for a step that is being retried. */
  lemma {:induction false} FreedSlotLaunchesNothing(
      cfg: Config, acts: seq<Action>, s: State, failed: nat, more: seq<Action>, t: State)
    requires cfg.cancel && Runs(cfg, BOOT, acts, s)
    requires failed < |s.proc.steps| && s.proc.steps[failed].Freed? && Genuine(s.proc.steps[failed].out)
    requires Continues(cfg, s, more, t)
    ensures forall i | 0 <= i < |t.proc.steps| && t.proc.steps[i].Running? ::
              i < |s.proc.steps| && s.proc.steps[i] == t.proc.steps[i]
  {
    InvHolds(cfg, acts, s);
    assert s.proc.signal by { hide Runs, Placed, Metered, Logged, Caused; }
    SignalledStaysQuiet(cfg, s, more, t);
  }

  /** Nor once an error from outside has reached a stage that cancels siblings: it calls
      nothing more while it waits its steps out, and passes the error on after that. */
  lemma {:induction false} DrainingCallsNothing(cfg: Config, acts: seq<Action>, s: State, more: seq<Action>, t: State)
    requires cfg.cancel && Runs(cfg, BOOT, acts, s) && (s.proc.control.Draining? || s.proc.control.Failed?)
    requires Continues(cfg, s, more, t)
    ensures forall i | 0 <= i < |t.proc.steps| && t.proc.steps[i].Running? ::
              i < |s.proc.steps| && s.proc.steps[i] == t.proc.steps[i]
  {
    InvHolds(cfg, acts, s);
    assert s.proc.signal by { hide Runs, Placed, Metered, Logged, Caused, Signalled, Honoured; }
    SignalledStaysQuiet(cfg, s, more, t);
  }

  lemma {:induction false} RecordsLast(cfg: Config, s: State, acts: seq<Action>, t: State)
    requires Inv(cfg, s) && Runs(cfg, s, acts, t)
    ensures forall i | i in s.db.log :: i in t.db.log && t.db.log[i] == s.db.log[i]
    ensures s.db.ending == Some(Ended) ==> t.db.ending == Some(Ended) && t.db.count == s.db.count
    decreases |acts|
  {
    if acts != [] {
      StepKeepsInv(cfg, s, acts[0]);
      LogOnlyGrows(cfg, s, acts[0]);
      RecordsLast(cfg, Next(cfg, s, acts[0]), acts[1..], t);
    }
  }

  /** However often the process crashes after the stage has completed, whenever it
      completes again it completes with the same outcomes, up to error identity. */
  lemma {:induction false} CompletesTheSameAgain(cfg: Config, acts: seq<Action>, s: State, more: seq<Action>, t: State)
    requires Runs(cfg, BOOT, acts, s) && s.proc.control.Done?
    requires Runs(cfg, s, more, t) && t.proc.control.Done?
    ensures |s.proc.control.outs| == |t.proc.control.outs|
    ensures forall i | 0 <= i < |s.proc.control.outs| ::
              Values.Recorded(s.proc.control.outs[i]) == Values.Recorded(t.proc.control.outs[i])
  {
    InvHolds(cfg, acts, s);
    RunsKeepInv(cfg, s, more, t);
    RecordsLast(cfg, s, more, t);
    NothingRunsPastTheStage(cfg, acts, s);
  }
}
