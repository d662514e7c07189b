/**
Parallel as a small-step system (parallel.go:35-209): the workflow goroutine that
launches and drains, one goroutine a step, one forwarder a step, the semaphore and
the failure signal. Each action below is one point at which the Go scheduler may
switch; a schedule is any sequence of them. A crash forgets the process and keeps
the database: the step records, and the part of the source's event stream that
upstream records have already decided (a replay repeats it).
 */
module ParallelStage {
  import opened Values
  import opened ParallelChoice

  /** max 0: no semaphore. `retries`: how often DBOS may run a failed body again. */
  datatype Config = Config(max: nat, cancel: bool, retries: nat)

  /** How the source's stream ends. Broke stands for each way an error reaches the
      stage from outside: the upstream's, stageState's, and dbos.Go's. */
  datatype Ending = Broke | Ended

  /** A step, from dbos.Go to its forwarder's last act. */
  datatype Phase =
    | Spawned                  // the step goroutine has not looked at its record yet
    | Running(tries: nat)      // the stage function is executing; `tries` more may follow
    | Returned(out: Outcome)   // cancellableBody has returned
    | Recorded(out: Outcome)   // the outcome is in the database and in dbos.Go's channel
    | Taken(out: Outcome)      // the forwarder has received it
    | Seen(out: Outcome)       // and has fired the signal, if the error is genuine
    | Watched(out: Outcome)    // and has put it into the watched channel
    | Freed(out: Outcome)      // and has given the slot back

  /** Where the workflow goroutine is. */
  datatype Control =
    | Reading
    | Wanting                    // at `sem <- struct{}{}`
    | Holding                    // about to call dbos.Go
    | Draining(n: nat)           // in drainLaunched
    | Collecting(n: nat)         // in the completion path
    | Failed                     // delivered an outside error
    | Done(outs: seq<Outcome>)   // delivered what ParallelError makes of outs

  datatype Process = Process(read: nat, control: Control, steps: seq<Phase>, sem: nat, signal: bool)

  /** `count` items and `ending` are decided. The rest is history. `forged`: some stage
      function has returned an error that carries the sibling mark of its own accord.
      `returned`: what each step's function returned last. `halted`: the steps that the
      signal kept from ending on their own terms: called not at all, or returning with
      their context cancelled once it was up. */
  datatype Database = Database(
    count: nat, ending: Option<Ending>, log: map<nat, Outcome>, forged: bool, returned: map<nat, Outcome>, halted: set<nat>)

  datatype State = State(db: Database, proc: Process)

  datatype Action =
    | ReadItem
    | ReadEnd(ending: Ending)
    | Acquire
    | Go
    | Start(i: nat)
    | Return(i: nat, out: Outcome, canceled: bool)  // canceled: errors.Is(err, context.Canceled)
    | Retry(i: nat)            // the function failed, and DBOS calls cancellableBody again
    | Record(i: nat)
    | Take(i: nat)
    | Notice(i: nat)
    | Hand(i: nat)
    | Free(i: nat)
    | Receive
    | Deliver
    | Crash

  const SKIPPED := Fail(Error(SIBLING_MARK + " (step skipped)", Plain))

  function Cancelled(e: Error): Outcome { Fail(Wrap(SIBLING_MARK + ": ", e)) }

  predicate Marked(o: Outcome) { IsSiblingCancellation(o) }
  predicate Genuine(o: Outcome) { o.Fail? && !Marked(o) }

  /** cancellableBody's last word on what the function returned (parallel.go:203-207). */
  function Wrapped(cfg: Config, signal: bool, out: Outcome, canceled: bool): Outcome {
    if cfg.cancel && signal && canceled && out.Fail? then Cancelled(out.err) else out
  }

  /** Without a semaphore and a signal there are no forwarders (parallel.go:108-111). */
  predicate Direct(cfg: Config) { cfg.max == 0 && !cfg.cancel }

  predicate Settled(p: Phase) { !p.Spawned? && !p.Running? && !p.Returned? }

  /** The channel the workflow goroutine reads holds this step's outcome. */
  predicate Ready(cfg: Config, p: Phase) {
    if Direct(cfg) then Settled(p) else p.Watched? || p.Freed?
  }

  predicate Full(cfg: Config, p: Process) { cfg.max > 0 && p.sem >= cfg.max }

  const FRESH_PROCESS := Process(0, Reading, [], 0, false)
  const BOOT := State(Database(0, None, map[], false, map[], {}), FRESH_PROCESS)

  predicate Enabled(cfg: Config, s: State, a: Action) {
    var p := s.proc;
    match a
    case ReadItem => p.control.Reading? && (p.read < s.db.count || s.db.ending.None?)
    case ReadEnd(e) => p.control.Reading? && p.read == s.db.count && (s.db.ending.None? || s.db.ending.value == e)
    case Acquire => p.control.Wanting? && !Full(cfg, p)
    case Go => p.control.Holding?
    case Start(i) => i < |p.steps| && p.steps[i].Spawned?
    case Return(i, _, _) => i < |p.steps| && p.steps[i].Running?
    case Retry(i) => i < |p.steps| && p.steps[i].Running? && p.steps[i].tries > 0
    case Record(i) => i < |p.steps| && p.steps[i].Returned?
    case Take(i) => !Direct(cfg) && i < |p.steps| && p.steps[i].Recorded?
    case Notice(i) => i < |p.steps| && p.steps[i].Taken?
    case Hand(i) => i < |p.steps| && p.steps[i].Seen?
    case Free(i) => i < |p.steps| && p.steps[i].Watched?
    case Receive =>
      (p.control.Draining? || p.control.Collecting?) && p.control.n < |p.steps| && Ready(cfg, p.steps[p.control.n])
    case Deliver => (p.control.Draining? || p.control.Collecting?) && p.control.n == |p.steps|
    case Crash => true
  }

  function Moved(p: Process, i: nat, to: Phase): Process
    requires i < |p.steps|
  {
    p.(steps := p.steps[i := to])
  }

  function Outs(steps: seq<Phase>): (outs: seq<Outcome>)
    ensures |outs| == |steps|
  {
    seq(|steps|, i requires 0 <= i < |steps| => if Settled(steps[i]) then steps[i].out else SKIPPED)
  }

  /** Which steps the signal has kept from ending on their own terms. */
  function NextHalted(cfg: Config, s: State, a: Action): set<nat> {
    var up := cfg.cancel && s.proc.signal;
    match a
    case Start(i) => if i in s.db.log then s.db.halted else if up then s.db.halted + {i} else s.db.halted - {i}
    case Return(i, out, canceled) => if up && canceled && out.Fail? then s.db.halted + {i} else s.db.halted - {i}
    case Retry(i) => if up then s.db.halted + {i} else s.db.halted - {i}
    case _ => s.db.halted
  }

  function Next(cfg: Config, s: State, a: Action): State
    requires Enabled(cfg, s, a)
  {
    var p := s.proc;
    match a
    case ReadItem =>
      var db := if p.read < s.db.count then s.db else s.db.(count := s.db.count + 1);
      State(db, p.(read := p.read + 1, control := if cfg.max > 0 then Wanting else Holding))
    case ReadEnd(e) =>
      State(s.db.(ending := Some(e)),
            if e.Broke? then p.(control := Draining(0), signal := p.signal || cfg.cancel)
            else p.(control := Collecting(0)))
    case Acquire => s.(proc := p.(control := Holding, sem := p.sem + 1))
    case Go => s.(proc := p.(control := Reading, steps := p.steps + [Spawned]))
    case Start(i) =>
      State(s.db.(halted := NextHalted(cfg, s, a)), Moved(p, i, if i in s.db.log then Recorded(s.db.log[i])
                             else if cfg.cancel && p.signal then Returned(SKIPPED)
                             else Running(cfg.retries)))
    case Return(i, out, canceled) =>
      State(s.db.(forged := s.db.forged || Marked(out), returned := s.db.returned[i := out], halted := NextHalted(cfg, s, a)),
            Moved(p, i, Returned(Wrapped(cfg, p.signal, out, canceled))))
    case Retry(i) =>
      State(s.db.(halted := NextHalted(cfg, s, a)), Moved(p, i, if cfg.cancel && p.signal then Returned(SKIPPED) else Running(p.steps[i].tries - 1)))
    case Record(i) =>
      var out := p.steps[i].out;
      State(s.db.(log := s.db.log[i := Values.Recorded(out)]), Moved(p, i, Recorded(out)))
    case Take(i) => s.(proc := Moved(p, i, Taken(p.steps[i].out)))
    case Notice(i) =>
      var out := p.steps[i].out;
      s.(proc := Moved(p.(signal := p.signal || (cfg.cancel && Genuine(out))), i, Seen(out)))
    case Hand(i) => s.(proc := Moved(p, i, Watched(p.steps[i].out)))
    case Free(i) =>
      s.(proc := Moved(p.(sem := if p.sem > 0 then p.sem - 1 else 0), i, Freed(p.steps[i].out)))
    case Receive =>
      s.(proc := p.(control := if p.control.Draining? then Draining(p.control.n + 1) else Collecting(p.control.n + 1)))
    case Deliver =>
      s.(proc := p.(control := if p.control.Draining? then Failed else Done(Outs(p.steps))))
    case Crash => s.(proc := FRESH_PROCESS)
  }

  /** s runs to t by the schedule `acts`. */
  ghost predicate Runs(cfg: Config, s: State, acts: seq<Action>, t: State)
    decreases |acts|
  {
    if acts == [] then s == t
    else Enabled(cfg, s, acts[0]) && Runs(cfg, Next(cfg, s, acts[0]), acts[1..], t)
  }

  // ---- Counting ----

  function Count(f: Phase -> bool, steps: seq<Phase>): nat {
    if steps == [] then 0 else Count(f, steps[..|steps| - 1]) + if f(steps[|steps| - 1]) then 1 else 0
  }

  function Holds(): Phase -> bool { (p: Phase) => !p.Freed? }
  function Executes(): Phase -> bool { (p: Phase) => p.Running? }

  lemma {:induction false} CountUpdate(f: Phase -> bool, steps: seq<Phase>, i: nat, to: Phase)
    requires i < |steps|
    ensures Count(f, steps[i := to]) == Count(f, steps) - (if f(steps[i]) then 1 else 0) + if f(to) then 1 else 0
  {
    var n := |steps| - 1;
    if i == n {
      assert steps[i := to][..n] == steps[..n];
    } else {
      assert steps[i := to][..n] == steps[..n][i := to];
      CountUpdate(f, steps[..n], i, to);
    }
  }

  lemma {:induction false} CountAtMost(f: Phase -> bool, g: Phase -> bool, steps: seq<Phase>)
    requires forall p :: f(p) ==> g(p)
    ensures Count(f, steps) <= Count(g, steps)
  {
    if steps != [] { CountAtMost(f, g, steps[..|steps| - 1]); }
  }

  lemma {:induction false} CountFinds(f: Phase -> bool, steps: seq<Phase>) returns (i: nat)
    requires Count(f, steps) > 0
    ensures i < |steps| && f(steps[i])
  {
    var n := |steps| - 1;
    if f(steps[n]) { i := n; } else { i := CountFinds(f, steps[..n]); }
  }

  // ---- What every schedule keeps ----

  ghost predicate GenuineIn(log: map<nat, Outcome>) { exists i :: i in log && Genuine(log[i]) }

  predicate Pending(c: Control) { c.Wanting? || c.Holding? }

  /** The control point agrees with what has been read and received. */
  ghost predicate Placed(cfg: Config, s: State) {
    var p := s.proc;
    && p.read <= s.db.count
    && |p.steps| + (if Pending(p.control) then 1 else 0) == p.read
    && (p.control.Draining? || p.control.Failed? ==> s.db.ending == Some(Broke) && p.read == s.db.count)
    && (p.control.Collecting? || p.control.Done? ==> s.db.ending == Some(Ended) && p.read == s.db.count)
    && (p.control.Draining? || p.control.Collecting? ==>
          p.control.n <= |p.steps| && forall i | 0 <= i < p.control.n :: Ready(cfg, p.steps[i]))
    && (p.control.Failed? || p.control.Done? ==> forall i | 0 <= i < |p.steps| :: Ready(cfg, p.steps[i]))
    && (p.control.Done? ==> p.control.outs == Outs(p.steps))
  }

  /** The semaphore holds one token for each slot taken and not given back. */
  ghost predicate Metered(cfg: Config, s: State) {
    cfg.max > 0 ==>
      && s.proc.sem == Count(Holds(), s.proc.steps) + (if s.proc.control.Holding? then 1 else 0)
      && s.proc.sem <= cfg.max
  }

  ghost predicate Logged(s: State) {
    && (forall i | i in s.db.log :: i < s.db.count && Values.Recorded(s.db.log[i]) == s.db.log[i])
    && (forall i | 0 <= i < |s.proc.steps| && Settled(s.proc.steps[i]) ::
          i in s.db.log && s.db.log[i] == Values.Recorded(s.proc.steps[i].out))
    && (forall i | 0 <= i < |s.proc.steps| && (s.proc.steps[i].Running? || s.proc.steps[i].Returned?) :: i !in s.db.log)
  }

  /** A fired signal has a recorded cause, and so has every mark. */
  ghost predicate Caused(cfg: Config, s: State) {
    var cause := GenuineIn(s.db.log) || s.db.ending == Some(Broke);
    && (s.proc.signal ==> cfg.cancel && cause)
    && (forall i | i in s.db.log && Marked(s.db.log[i]) :: s.db.forged || cause)
    && (forall i | 0 <= i < |s.proc.steps| && s.proc.steps[i].Returned? && Marked(s.proc.steps[i].out) :: s.db.forged || cause)
  }

  /** Past Notice, a genuine failure has fired the signal. */
  ghost predicate Signalled(cfg: Config, s: State) {
    forall i | 0 <= i < |s.proc.steps| ::
      var p := s.proc.steps[i];
      cfg.cancel && (p.Seen? || p.Watched? || p.Freed?) && Genuine(p.out) ==> s.proc.signal
  }

  /** Whether the signal is up when the stage is waiting out its steps after an error. */
  ghost predicate Fired(cfg: Config, s: State) {
    cfg.cancel && (s.proc.control.Draining? || s.proc.control.Failed?) ==> s.proc.signal
  }

  /** An outcome of step i is what its function returned, or the mark of its being halted. */
  ghost predicate Honours(db: Database, i: nat, out: Outcome) {
    if i in db.halted then Marked(out)
    else i in db.returned && Values.Recorded(out) == Values.Recorded(db.returned[i]) && (Marked(out) ==> db.forged)
  }

  ghost predicate Honoured(s: State) {
    && (forall i | i in s.db.log :: Honours(s.db, i, s.db.log[i]))
    && (forall i | 0 <= i < |s.proc.steps| && s.proc.steps[i].Returned? :: Honours(s.db, i, s.proc.steps[i].out))
  }

  ghost predicate Inv(cfg: Config, s: State) {
    Placed(cfg, s) && Metered(cfg, s) && Logged(s) && Caused(cfg, s) && Signalled(cfg, s) && Fired(cfg, s) && Honoured(s)
  }

  lemma RecordingKeepsMarks(o: Outcome)
    ensures Marked(Values.Recorded(o)) == Marked(o) && Genuine(Values.Recorded(o)) == Genuine(o)
    ensures Values.Recorded(Values.Recorded(o)) == Values.Recorded(o)
  {
  }

  predicate OnStep(a: Action) {
    a.Start? || a.Return? || a.Retry? || a.Record? || a.Take? || a.Notice? || a.Hand? || a.Free?
  }

  /** What a step goroutine or a forwarder does to its step; its outcome stays once it has one. */
  lemma StepsMoveOn(cfg: Config, s: State, a: Action)
    requires Enabled(cfg, s, a) && OnStep(a)
    ensures
      var p, q := s.proc, Next(cfg, s, a).proc;
      && q.read == p.read && q.control == p.control && |q.steps| == |p.steps|
      && (forall i | 0 <= i < |p.steps| && Ready(cfg, p.steps[i]) :: Ready(cfg, q.steps[i]))
      && (forall i | 0 <= i < |p.steps| && Settled(p.steps[i]) :: Settled(q.steps[i]) && q.steps[i].out == p.steps[i].out)
      && Next(cfg, s, a).db.count == s.db.count && Next(cfg, s, a).db.ending == s.db.ending
  {
    hide Marked, Genuine, Wrapped;
  }

  lemma StepKeepsPlaced(cfg: Config, s: State, a: Action)
    requires Inv(cfg, s) && Enabled(cfg, s, a)
    ensures Placed(cfg, Next(cfg, s, a))
  {
    hide Marked, Genuine, Wrapped, GenuineIn, Metered, Logged, Caused, Signalled, Fired, Honoured;
    if OnStep(a) {
      StepsMoveOn(cfg, s, a);
      hide Enabled, Next;
      ReadyIsSettled(cfg, s.proc.steps);
    } else {
      ControlKeepsPlaced(cfg, s, a);
    }
  }

  lemma ReadyIsSettled(cfg: Config, steps: seq<Phase>)
    ensures forall i | 0 <= i < |steps| && Ready(cfg, steps[i]) :: Settled(steps[i])
  {
  }

  lemma ControlKeepsPlaced(cfg: Config, s: State, a: Action)
    requires Placed(cfg, s) && Enabled(cfg, s, a) && !OnStep(a)
    ensures Placed(cfg, Next(cfg, s, a))
  {
    hide Marked, Genuine, Wrapped, Ready, Settled, Outs;
  }

  lemma StepKeepsMetered(cfg: Config, s: State, a: Action)
    requires Inv(cfg, s) && Enabled(cfg, s, a)
    ensures Metered(cfg, Next(cfg, s, a))
  {
    hide Marked, Genuine, Wrapped, GenuineIn;
    var t := Next(cfg, s, a);
    if a.Go? {
      assert t.proc.steps[..|t.proc.steps| - 1] == s.proc.steps;
    } else if a.Start? || a.Return? || a.Retry? || a.Record? || a.Take? || a.Notice? || a.Hand? || a.Free? {
      CountUpdate(Holds(), s.proc.steps, a.i, t.proc.steps[a.i]);
    }
  }

  lemma StepKeepsLogged(cfg: Config, s: State, a: Action)
    requires Inv(cfg, s) && Enabled(cfg, s, a)
    ensures Logged(Next(cfg, s, a))
  {
    hide Marked, Genuine, Wrapped, GenuineIn;
  }

  /** Records are never overwritten: a step that has one is replayed. */
  lemma LogOnlyGrows(cfg: Config, s: State, a: Action)
    requires Inv(cfg, s) && Enabled(cfg, s, a)
    ensures forall i | i in s.db.log :: i in Next(cfg, s, a).db.log && Next(cfg, s, a).db.log[i] == s.db.log[i]
  {
    hide Marked, Genuine, Wrapped, GenuineIn;
  }

  lemma CauseLasts(cfg: Config, s: State, a: Action)
    requires Inv(cfg, s) && Enabled(cfg, s, a)
    ensures GenuineIn(s.db.log) ==> GenuineIn(Next(cfg, s, a).db.log)
    ensures s.db.ending == Some(Broke) ==> Next(cfg, s, a).db.ending == Some(Broke)
  {
    hide Marked, Genuine, Wrapped;
    LogOnlyGrows(cfg, s, a);
    if GenuineIn(s.db.log) {
      var i :| i in s.db.log && Genuine(s.db.log[i]);
      assert Genuine(Next(cfg, s, a).db.log[i]);
    }
  }

  lemma StepKeepsCaused(cfg: Config, s: State, a: Action)
    requires Inv(cfg, s) && Enabled(cfg, s, a)
    ensures Caused(cfg, Next(cfg, s, a))
  {
    hide GenuineIn, Marked, Genuine;
    var t := Next(cfg, s, a);
    CauseLasts(cfg, s, a);
    if a.Record? {
      RecordingKeepsMarks(s.proc.steps[a.i].out);
    } else if a.Notice? && Genuine(s.proc.steps[a.i].out) {
      RecordingKeepsMarks(s.proc.steps[a.i].out);
      NoticeHasCause(s, a.i);
    }
  }

  lemma NoticeHasCause(s: State, i: nat)
    requires i in s.db.log && Genuine(s.db.log[i])
    ensures GenuineIn(s.db.log)
  {
  }

  lemma StepKeepsSignalled(cfg: Config, s: State, a: Action)
    requires Inv(cfg, s) && Enabled(cfg, s, a)
    ensures Signalled(cfg, Next(cfg, s, a))
  {
    hide GenuineIn, Marked, Genuine;
  }

  lemma StepKeepsFired(cfg: Config, s: State, a: Action)
    requires Fired(cfg, s) && Enabled(cfg, s, a)
    ensures Fired(cfg, Next(cfg, s, a))
  {
    hide Marked, Genuine, Wrapped;
  }

  lemma HaltedIsMarked(e: Error)
    ensures Marked(SKIPPED) && Marked(Cancelled(e))
  {
    assert OccursAt(SKIPPED.err.msg, SIBLING_MARK, 0);
    assert OccursAt(Cancelled(e).err.msg, SIBLING_MARK, 0);
  }

  /** Whatever the step's outcome becomes, it is honest about how it came about. */
  lemma StepHonours(cfg: Config, s: State, a: Action)
    requires Logged(s) && Honoured(s) && Enabled(cfg, s, a) && (a.Start? || a.Return? || a.Retry? || a.Record?)
    ensures
      var t := Next(cfg, s, a);
      && (t.proc.steps[a.i].Returned? ==> Honours(t.db, a.i, t.proc.steps[a.i].out))
      && (a.Record? ==> Honours(t.db, a.i, t.db.log[a.i]))
  {
    if a.Return? && a.out.Fail? { HaltedIsMarked(a.out.err); }
    if a.Start? || a.Retry? { HaltedIsMarked(SKIPPED.err); }
    if a.Record? { RecordingKeepsMarks(s.proc.steps[a.i].out); }
    hide Marked, Genuine;
  }

  /** And nothing else touches what is known of a step. */
  lemma OthersHonoured(cfg: Config, s: State, a: Action, i: nat, out: Outcome)
    requires Honours(s.db, i, out) && Enabled(cfg, s, a)
    requires (a.Start? || a.Return? || a.Retry?) && a.i == i ==> a.Start? && i in s.db.log
    ensures Honours(Next(cfg, s, a).db, i, out)
  {
    hide Marked, Genuine, Wrapped;
  }

  lemma StepKeepsHonoured(cfg: Config, s: State, a: Action)
    requires Logged(s) && Honoured(s) && Enabled(cfg, s, a)
    ensures Honoured(Next(cfg, s, a))
  {
    hide Honours, Marked, Genuine, Wrapped, NextHalted;
    var t := Next(cfg, s, a);
    if a.Start? || a.Return? || a.Retry? || a.Record? { StepHonours(cfg, s, a); }
    forall i | i in t.db.log ensures Honours(t.db, i, t.db.log[i]) {
      if !(a.Record? && a.i == i) { OthersHonoured(cfg, s, a, i, s.db.log[i]); }
    }
    forall i | 0 <= i < |t.proc.steps| && t.proc.steps[i].Returned? ensures Honours(t.db, i, t.proc.steps[i].out) {
      if !((a.Start? || a.Return? || a.Retry?) && a.i == i) { OthersHonoured(cfg, s, a, i, s.proc.steps[i].out); }
    }
  }

  lemma StepKeepsInv(cfg: Config, s: State, a: Action)
    requires Inv(cfg, s) && Enabled(cfg, s, a)
    ensures Inv(cfg, Next(cfg, s, a))
  {
    hide Placed, Metered, Logged, Caused, Signalled, Fired, Honoured, Enabled, Next;
    StepKeepsPlaced(cfg, s, a);
    StepKeepsMetered(cfg, s, a);
    StepKeepsLogged(cfg, s, a);
    StepKeepsCaused(cfg, s, a);
    StepKeepsSignalled(cfg, s, a);
    StepKeepsFired(cfg, s, a);
    StepKeepsHonoured(cfg, s, a);
  }

  lemma {:induction false} RunsKeepInv(cfg: Config, s: State, acts: seq<Action>, t: State)
    requires Inv(cfg, s) && Runs(cfg, s, acts, t)
    ensures Inv(cfg, t)
    decreases |acts|
  {
    hide Inv, Enabled, Next;
    if acts != [] {
      StepKeepsInv(cfg, s, acts[0]);
      RunsKeepInv(cfg, Next(cfg, s, acts[0]), acts[1..], t);
    }
  }
}
