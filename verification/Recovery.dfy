/**
Runs over crashes. A run is a sequence of attempts, each a process that replays
the log left by the ones before it, answers the remaining steps afresh, and dies
(or finishes) having recorded some of the outcomes it produced. The log is a
partial map, not a prefix: Parallel and Alongside hand out step IDs before the
outcomes exist, so a crash leaves gaps.
 */
module Recovery {
  import opened Values
  import opened Pipelines
  import opened Engine
  import opened Replay
  import opened Determinism

  /** What RunAll is called with. */
  datatype Job = Job(p: Pipeline, shape: string, input: Value)

  /** DBOS keeps a step's name and its outcome, errors by message alone. */
  datatype Record = Record(name: string, out: Outcome)
  type Log = map<nat, Record>

  /** One process's try: the outcomes it records at step IDs that had none, and
      how many step IDs it takes before it dies. */
  datatype Attempt = Attempt(live: Answers, fuel: nat)

  function Replayed(log: Log): Answers {
    map s | s in log :: Recorded(log[s].out)
  }

  /** RunAsStep returns the record where there is one. */
  function AnswersOf(log: Log, at: Attempt): Answers {
    at.live + Replayed(log)
  }

  function Execute(job: Job, a: Answers, fuel: nat): Final {
    RunAll(job.p, job.shape, job.input, a, fuel)
  }

  function Play(job: Job, log: Log, at: Attempt): Final {
    Execute(job, AnswersOf(log, at), at.fuel)
  }

  /** An attempt only records outcomes of steps it launched and had no record of. */
  ghost predicate Legal(job: Job, log: Log, at: Attempt) {
    at.live.Keys !! log.Keys && forall s | s in at.live :: s < |Play(job, log, at).w.trace|
  }

  function Commit(job: Job, log: Log, at: Attempt): Log
    requires Legal(job, log, at)
  {
    log + map s | s in at.live :: Record(Play(job, log, at).w.trace[s].name, Recorded(at.live[s]))
  }

  ghost predicate LegalHistory(job: Job, h: seq<Attempt>)
    decreases |h|, 0
  {
    h == [] || (LegalHistory(job, h[..|h| - 1]) && Legal(job, LogAfter(job, h[..|h| - 1]), h[|h| - 1]))
  }

  /** The log left by a history of attempts. */
  ghost function LogAfter(job: Job, h: seq<Attempt>): Log
    requires LegalHistory(job, h)
    decreases |h|, 1
  {
    if h == [] then map[] else Commit(job, LogAfter(job, h[..|h| - 1]), h[|h| - 1])
  }

  /** Every record sits at the step ID, and under the name, that a run over this
      log's own outcomes asks for. This is what DBOS checks as it replays. */
  ghost predicate Replayable(job: Job, log: Log, fuel: nat) {
    var w := Execute(job, Replayed(log), fuel).w;
    forall s | s in log :: s < |w.trace| && log[s].name == w.trace[s].name
  }

  lemma CommitAgrees(job: Job, log: Log, at: Attempt)
    requires Legal(job, log, at)
    ensures Agree(Replayed(log), Replayed(Commit(job, log, at)))
    ensures Agree(AnswersOf(log, at), Replayed(Commit(job, log, at)))
  {
    var next := Commit(job, log, at);
    forall s | s in AnswersOf(log, at) ensures s in next && LikeOutcome(AnswersOf(log, at)[s], Replayed(next)[s]) {
      if s in log { assert s !in at.live; }
    }
  }

  /** One more attempt leaves a log that is still replayable. */
  lemma CommitReplayable(job: Job, log: Log, at: Attempt, fuel: nat)
    requires Legal(job, log, at) && Replayable(job, log, fuel) && at.fuel <= fuel
    ensures Replayable(job, Commit(job, log, at), fuel)
  {
    hide Execute, Play, AnswersOf;
    var next := Commit(job, log, at);
    CommitAgrees(job, log, at);
    Restart(job, Replayed(log), Replayed(next), fuel, 0);
    Restart(job, AnswersOf(log, at), Replayed(next), at.fuel, fuel - at.fuel);
    PlayIs(job, log, at);
    var before, during, after := Execute(job, Replayed(log), fuel).w.trace, Play(job, log, at).w.trace, Execute(job, Replayed(next), fuel).w.trace;
    assert before <= after && during <= after;
    forall s | s in next ensures s < |after| && next[s].name == after[s].name {
      if s in log { assert s !in at.live && next[s] == log[s]; }
    }
  }

  lemma PlayIs(job: Job, log: Log, at: Attempt)
    ensures Play(job, log, at) == Execute(job, AnswersOf(log, at), at.fuel)
  {}

  lemma Restart(job: Job, a: Answers, b: Answers, fuel: nat, k: nat)
    requires Agree(a, b)
    ensures var f, g := Execute(job, a, fuel), Execute(job, b, fuel + k);
            && f.w.trace <= g.w.trace
            && Follows(a, b, k, f.w, g.w)
            && (f.w.status.Alive? ==> g.w.status.Alive? && g.w.trace == f.w.trace && LikeResult(f.res, g.res))
  {
    Simulation(job.p, job.shape, job.input, a, b, fuel, k);
  }

  ghost predicate FuelBound(h: seq<Attempt>, fuel: nat) {
    forall i | 0 <= i < |h| :: h[i].fuel <= fuel
  }

  lemma {:induction false} HistoryReplayable(job: Job, h: seq<Attempt>, fuel: nat)
    requires LegalHistory(job, h) && FuelBound(h, fuel)
    ensures Replayable(job, LogAfter(job, h), fuel)
    decreases |h|
  {
    if h != [] {
      HistoryReplayable(job, h[..|h| - 1], fuel);
      CommitReplayable(job, LogAfter(job, h[..|h| - 1]), h[|h| - 1], fuel);
    }
  }

  lemma {:induction false} PrefixLegal(job: Job, h: seq<Attempt>, i: nat)
    requires LegalHistory(job, h) && i <= |h|
    ensures LegalHistory(job, h[..i])
    ensures i < |h| ==> Legal(job, LogAfter(job, h[..i]), h[i])
    decreases |h|
  {
    if i < |h| {
      PrefixLegal(job, h[..|h| - 1], i);
      assert h[..|h| - 1][..i] == h[..i];
    } else {
      assert h[..i] == h;
    }
  }

  /** Records are never lost or changed, and whatever an attempt received agrees
      with what the final log says. */
  lemma {:induction false} LogOnlyGrows(job: Job, h: seq<Attempt>, i: nat)
    requires LegalHistory(job, h) && i < |h|
    ensures LegalHistory(job, h[..i]) && Legal(job, LogAfter(job, h[..i]), h[i])
    ensures forall s | s in LogAfter(job, h[..i]) :: s in LogAfter(job, h) && LogAfter(job, h)[s] == LogAfter(job, h[..i])[s]
    ensures Agree(AnswersOf(LogAfter(job, h[..i]), h[i]), Replayed(LogAfter(job, h)))
    decreases |h|
  {
    PrefixLegal(job, h, i);
    var init, last := h[..|h| - 1], h[|h| - 1];
    CommitAgrees(job, LogAfter(job, init), last);
    if i < |h| - 1 {
      LogOnlyGrows(job, init, i);
      assert init[..i] == h[..i];
      var a, b, c := AnswersOf(LogAfter(job, h[..i]), h[i]), Replayed(LogAfter(job, init)), Replayed(LogAfter(job, h));
      assert Agree(a, b) && Agree(b, c);
    } else {
      assert h[..i] == init;
    }
  }

  /**
  The replay theorem for runs. Whatever crashed before it and whatever comes
  after it, an attempt asks for a prefix of the requests a single crash-free run
  over the final log's outcomes asks for; at every step ID that ends up recorded
  it asks under the recorded name; and an attempt that finishes has that run's
  values, or its error message.
   */
  lemma CrashReplay(job: Job, h: seq<Attempt>, i: nat, fuel: nat)
    requires LegalHistory(job, h) && FuelBound(h, fuel) && i < |h|
    ensures LegalHistory(job, h[..i])
    ensures var log := LogAfter(job, h);
            var one := Execute(job, Replayed(log), fuel);
            var try := Play(job, LogAfter(job, h[..i]), h[i]);
            && try.w.trace <= one.w.trace
            && (forall s | s in log && s < |try.w.trace| :: try.w.trace[s].name == log[s].name)
            && (try.w.status.Alive? ==>
                  one.w.status.Alive? && one.w.trace == try.w.trace && LikeResult(try.res, one.res))
  {
    hide Execute, Play, AnswersOf, Replayed;
    LogOnlyGrows(job, h, i);
    HistoryReplayable(job, h, fuel);
    PlayIs(job, LogAfter(job, h[..i]), h[i]);
    Restart(job, AnswersOf(LogAfter(job, h[..i]), h[i]), Replayed(LogAfter(job, h)), h[i].fuel, fuel - h[i].fuel);
  }

  /** Two attempts of one run that both finish finish alike. */
  lemma FinishedAlike(job: Job, h: seq<Attempt>, i: nat, j: nat)
    requires LegalHistory(job, h) && i < |h| && j < |h|
    ensures LegalHistory(job, h[..i]) && LegalHistory(job, h[..j])
    ensures var f, g := Play(job, LogAfter(job, h[..i]), h[i]), Play(job, LogAfter(job, h[..j]), h[j]);
            f.w.status.Alive? && g.w.status.Alive? ==> f.w.trace == g.w.trace && LikeResult(f.res, g.res)
  {
    hide Execute, Play, AnswersOf, Replayed;
    var fuel := MaxFuel(h);
    CrashReplay(job, h, i, fuel);
    CrashReplay(job, h, j, fuel);
  }

  function MaxFuel(h: seq<Attempt>): (fuel: nat)
    ensures FuelBound(h, fuel)
  {
    if h == [] then 0
    else
      var rest := MaxFuel(h[1..]);
      assert forall i | 1 <= i < |h| :: h[i] == h[1..][i - 1];
      if h[0].fuel > rest then h[0].fuel else rest
  }

  function Without(log: Log, gone: set<nat>): Log {
    map s | s in log && s !in gone :: log[s]
  }

  /**
  Losing in-flight outcomes is harmless. Take away any records the pipeline had
  not yet received, such as those of a Parallel stage still launching: the run
  over what is left is the same run, to the last request.
   */
  lemma LostInFlight(job: Job, log: Log, gone: set<nat>, fuel: nat)
    requires Replayable(job, log, fuel)
    requires gone !! Execute(job, Replayed(log), fuel).w.used
    ensures Execute(job, Replayed(Without(log, gone)), fuel).w == Execute(job, Replayed(log), fuel).w
    ensures Replayable(job, Without(log, gone), fuel)
  {
    hide Execute;
    Restart(job, Replayed(Without(log, gone)), Replayed(log), fuel, 0);
  }
}
