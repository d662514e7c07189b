/** What a pipeline's author can count on, for whole attempts and whole stages. */
module Guarantees {
  import opened Values
  import opened Pipelines
  import opened Engine
  import opened Replay
  import opened Recovery
  import opened Safety

  /**
  Every attempt, however it ends. A step ID that was taken but never received is
  the one the process died waiting for, or was taken ahead of time by a Parallel or
  an Alongside. An attempt that finishes has received every step ID it took, each
  has its outcome recorded, and its error is never ERR_ABORTED.
   */
  lemma AttemptSettles(job: Job, a: Answers, fuel: nat)
    requires Honest(a)
    ensures var f := Execute(job, a, fuel);
            && Accounted(Ahead(job.p), a, f.w)
            && (f.w.status.Alive? ==> forall s: nat | s < |f.w.trace| :: s in f.w.used)
            && (f.w.status.Alive? && f.res.Failed? ==> f.res.err.id != Aborted)
  {
    hide RunStep, Collect, Raised, Tripped, FlagRaised;
    var w0 := World(fuel, [], {}, {}, false, Alive);
    var req := Request(SHAPE_STEP_NAME, Unit, NoExtra);
    StepSafe(a, Ahead(job.p), {}, {}, w0, req);
    var g := RunStep(a, w0, req);
    ShapeStepIsHonest(a, w0, req);
    var sc := Scope(Ahead(job.p), Cast(job.p), |g.w.trace|, {}, false);
    CollectSafe(a, sc, job.p, job.input, g.w);
    var s := Collect(a, job.p, job.input, g.w);
    if s.w.status.Alive? && s.err.Some? && !g.w.aborted { FaultIsReal(a, sc, s.w, s.err.value); }
  }

  lemma ShapeStepIsHonest(a: Answers, w: World, req: Request)
    requires Honest(a) && w.status.Alive? && !w.aborted
    ensures var g := RunStep(a, w, req);
            g.w.status.Alive? ==> (g.out.Fail? ==> g.out.err.id != Aborted) && (g.out.Ok? ==> !g.w.aborted)
  {
  }

  /** A world between two steps of a workflow: what has been taken is received, with its
      outcome, or was taken ahead of time. */
  ghost predicate Between(a: Answers, w: World) {
    && w.status.Alive?
    && (forall s | s in w.used :: s < |w.trace| && s in a)
    && (forall s | s in w.ahead :: s < |w.trace|)
    && (forall s: nat | s < |w.trace| && s !in w.used :: s in w.ahead)
  }

  /** What one run of p, begun in w, is judged by. */
  ghost function ScopeOf(p: Pipeline, w: World): Scope {
    Scope(Ahead(p) + (set s: nat | s < |w.trace| :: w.trace[s].name), Cast(p), |w.trace|, w.ahead, false)
  }

  lemma BetweenIsReady(a: Answers, p: Pipeline, w: World)
    requires Between(a, w)
    ensures Ready(a, ScopeOf(p, w), w)
  {
  }

  /**
  What a scope fails with (duro.go:502-533). A finished run of an embedded pipeline
  that failed did so with what one of its stages makes of an outcome of this run: the
  one that raised the flag, and then the flag is up; or with a Loop's bound. A flag
  that is up was raised like that, and the run failed. ERR_ABORTED is never the result.
   */
  lemma FailureRaisesFlag(a: Answers, p: Pipeline, v: Value, w: World)
    requires Honest(a) && Between(a, w) && !w.aborted
    ensures var s := Collect(a, p, v, w);
            var sc := ScopeOf(p, w);
            s.w.status.Alive? ==>
              && (s.err.Some? ==> Raised(a, sc, s.w, s.err.value) || Tripped(a, sc, s.w, s.err.value))
              && (s.err.Some? ==> s.err.value.id != Aborted)
              && (s.w.aborted ==> s.err.Some? && FlagRaised(a, sc, s.w))
  {
    hide Collect, Raised, Tripped, FlagRaised;
    var sc := ScopeOf(p, w);
    BetweenIsReady(a, p, w);
    CollectSafe(a, sc, p, v, w);
    var s := Collect(a, p, v, w);
    if s.w.status.Alive? && s.err.Some? { FaultIsReal(a, sc, s.w, s.err.value); }
  }

  /** A stage that takes step IDs ahead of time is behind all of them when it is done: an
      item that has come through an Alongside has every step ID taken on the way received,
      so nothing behind it is recorded before they are. */
  lemma AlongsideIsABarrier(a: Answers, name: string, p: Pipeline, v: Value, w: World)
    requires Between(a, w) && !w.aborted
    ensures var g := AlongsideItem(a, name, p, v, w);
            g.0.status.Alive? ==>
              && |w.trace| in a
              && forall s: nat | |w.trace| <= s < |g.0.trace| :: s in g.0.used && s in a
  {
    hide AlongsideItem, Raised, Tripped, FlagRaised;
    var st := Alongside(name, p);
    var sc := ScopeOf(Then(st, Empty), w);
    BetweenIsReady(a, Then(st, Empty), w);
    assert Ahead(Then(st, Empty)) == {name} + Ahead(p) + {};
    assert CastStage(st) <= sc.cast;
    AlongsideSafe(a, sc, name, p, v, w);
    AlongsideTakesOne(a, name, p, v, w);
  }

  /** And a Parallel that has completed has every outcome of its batch. */
  lemma {:induction false} ParallelIsABarrier(a: Answers, c: Chain, w: World)
    requires c.Op? && c.stage.Parallel?
    ensures DoneParallel(a, c, w).w.status.Alive? ==>
              forall s | s in c.st.slots :: s in a && s in DoneParallel(a, c, w).w.used
  {
    hide EmitParallel;
    DrainsAll(a, w, c.st.slots);
  }

  lemma {:induction false} DrainsAll(a: Answers, w: World, slots: seq<nat>)
    ensures Drain(a, w, slots).status.Alive? ==> forall s | s in slots :: s in a && s in Drain(a, w, slots).used
    decreases |slots|
  {
    if slots != [] {
      DrainGrows(a, Await(a, w, slots[0]), slots[1..]);
      DrainsAll(a, Await(a, w, slots[0]), slots[1..]);
      assert slots == [slots[0]] + slots[1..];
    }
  }

  lemma AlongsideTakesOne(a: Answers, name: string, p: Pipeline, v: Value, w: World)
    requires w.status.Alive? && !w.aborted
    ensures var g := AlongsideItem(a, name, p, v, w); g.0.status.Alive? ==> |g.0.trace| > |w.trace|
  {
    hide Collect, RunStep;
  }

  /** A Rescue, in terms of the answers. The outer flag goes up exactly when the handler
      step fails: nothing inside the embedded pipeline can raise it. When the embedded run
      fails, what it had emitted is dropped, the handler is asked with the item and the
      failure's message, and its answer is what the stage emits; it is not asked otherwise. */
  lemma RescueShields(a: Answers, name: string, p: Pipeline, v: Value, w: World)
    requires w.status.Alive? && !w.aborted
    ensures var s, g := Collect(a, p, v, w), RescueItem(a, name, p, v, w);
            g.0.status.Alive? ==>
              && (g.0.aborted <==> s.err.Some? && Answer(a, |s.w.trace|).Fail?)
              && (g.1.Break? <==> g.0.aborted)
              && (s.err.Some? ==>
                    && g.0.trace == s.w.trace + [Request(name, v, Cause(s.err.value.msg))]
                    && |s.w.trace| in a
                    && g.1 == match a[|s.w.trace|] case Ok(x) => Emit([x]) case Fail(e) => Break(e))
              && (s.err.None? ==> g.0.trace == s.w.trace && g.1 == Emit(s.outs))
  {
    hide Collect;
    assert w.(aborted := false) == w;
  }

  /** An Alongside, in terms of the answers. Its side step is asked for before anything of
      the embedded pipeline. A failure of the embedded run is the stage's; otherwise, and
      only then, a failed side step has its rescue step asked for, whose failure would be
      the stage's. Else the item goes on as it came. */
  lemma AlongsideDecides(a: Answers, name: string, p: Pipeline, v: Value, w: World)
    requires w.status.Alive? && !w.aborted
    ensures var s, g := Collect(a, p, v, LaunchAhead(w, Request(name, v, NoExtra))), AlongsideItem(a, name, p, v, w);
            g.0.status.Alive? ==>
              && w.trace + [Request(name, v, NoExtra)] <= s.w.trace && |w.trace| in a
              && (s.err.Some? ==> g.1 == Break(s.err.value) && g.0.trace == s.w.trace)
              && (s.err.None? && a[|w.trace|].Ok? ==> g.1 == Emit([v]) && g.0.trace == s.w.trace)
              && (s.err.None? && a[|w.trace|].Fail? && !s.w.aborted ==>
                    && g.0.trace == s.w.trace + [Request(name, v, Cause(a[|w.trace|].err.msg))]
                    && |s.w.trace| in a
                    && g.1 == match a[|s.w.trace|] case Ok(_) => Emit([v]) case Fail(e) => Break(e))
  {
    hide Collect;
  }

  // ---- Sub ----

  function Concat(p: Pipeline, q: Pipeline): Pipeline {
    match p
    case Empty => q
    case Then(s, rest) => Then(s, Concat(rest, q))
  }

  lemma {:induction false} SubscribeConcat(p: Pipeline, q: Pipeline, dest: Chain)
    ensures Subscribe(Concat(p, q), dest) == Subscribe(p, Subscribe(q, dest))
  {
    match p
    case Empty =>
    case Then(s, rest) => SubscribeConcat(rest, q, dest);
  }

  /** Sub asks for, records and emits exactly what its stages would, spliced in
      where it stands: it is not an execution of its own. */
  lemma SubIsSplicing(before: Pipeline, name: string, inner: Pipeline, after: Pipeline, shape: string, input: Value, a: Answers, fuel: nat)
    ensures RunAll(Concat(before, Then(Sub(name, inner), after)), shape, input, a, fuel)
         == RunAll(Concat(before, Concat(inner, after)), shape, input, a, fuel)
  {
    hide Feed;
    var sink := Sink([], Open);
    SubscribeConcat(before, Then(Sub(name, inner), after), sink);
    SubscribeConcat(before, Concat(inner, after), sink);
    SubscribeConcat(inner, after, sink);
  }

  // ---- The shape guard ----

  /** A run recorded under one fingerprint and replayed by code with another fails
      before any stage takes a step ID, and says both fingerprints. */
  lemma ShapeGuard(job: Job, log: Log, fuel: nat)
    requires 0 in log && log[0].out.Ok? && log[0].out.value.Key? && fuel > 0
    requires log[0].out.value.k != job.shape
    ensures var f := Execute(job, Replayed(log), fuel);
            f.w.status.Alive? && f.w.trace == [Request(SHAPE_STEP_NAME, Unit, NoExtra)]
            && f.res == Failed(ShapeError(log[0].out.value.k, job.shape))
  {
    hide Collect;
  }

  // ---- Forking ----

  /** ForkWorkflow copies the records below the start step. */
  function Below(log: Log, start: nat): Log {
    map s | s in log && s < start :: log[s]
  }

  /** The records below any step ID are themselves a replayable log, gaps and all. */
  lemma ForkReplayable(job: Job, log: Log, start: nat, fuel: nat)
    requires Replayable(job, log, fuel)
    ensures Replayable(job, Below(log, start), fuel)
    ensures Execute(job, Replayed(Below(log, start)), fuel).w.trace <= Execute(job, Replayed(log), fuel).w.trace
  {
    hide Execute;
    var small := Below(log, start);
    Restart(job, Replayed(small), Replayed(log), fuel, 0);
    AttemptSettles(job, Replayed(small), fuel);
  }

  datatype StepInfo = StepInfo(name: string, id: nat)

  /** The recorded steps of a run, as GetWorkflowSteps lists them, in any order. */
  ghost predicate Lists(steps: seq<StepInfo>, log: Log) {
    && (forall i | 0 <= i < |steps| :: steps[i].id in log && log[steps[i].id].name == steps[i].name)
    && (forall s | s in log :: StepInfo(log[s].name, s) in steps)
  }

  /** ForkFromStage's choice of start step (fork.go:46-54): the smallest step ID
      recorded under the stage's name. -1 stands for the refusal. */
  method StartStep(steps: seq<StepInfo>, stage: string, ghost log: Log) returns (start: int)
    requires Lists(steps, log)
    ensures start == -1 <==> forall s | s in log :: log[s].name != stage
    ensures start != -1 ==> start >= 0 && start in log && log[start].name == stage
    ensures start != -1 ==> forall s | s in log && log[s].name == stage :: start <= s
  {
    start := -1;
    for i := 0 to |steps|
      invariant start == -1 ==> forall j | 0 <= j < i :: steps[j].name != stage
      invariant start != -1 ==> start >= 0 && exists j | 0 <= j < i :: steps[j] == StepInfo(stage, start)
      invariant start != -1 ==> forall j | 0 <= j < i && steps[j].name == stage :: start <= steps[j].id
    {
      if steps[i].name == stage && (start == -1 || steps[i].id < start) {
        start := steps[i].id;
        assert steps[i] == StepInfo(stage, start);
      }
    }
    forall s | s in log && log[s].name == stage ensures start != -1 && start <= s {
      assert StepInfo(stage, s) in steps;
    }
  }

  /**
  Forking at that step: the fork's log replays, every record below the stage is
  reused as it was, and no execution of the stage is.
   */
  lemma ForkAtStage(job: Job, log: Log, stage: string, start: nat, fuel: nat)
    requires Replayable(job, log, fuel)
    requires start in log && log[start].name == stage
    requires forall s | s in log && log[s].name == stage :: start <= s
    ensures var fork := Below(log, start);
            && Replayable(job, fork, fuel)
            && (forall s | s in log && s < start :: s in fork && fork[s] == log[s])
            && (forall s | s in fork :: fork[s].name != stage)
            && (var w := Execute(job, Replayed(fork), fuel).w;
                start <= |w.trace| && (start < |w.trace| ==> w.trace[start].name == stage))
  {
    hide Execute;
    var fork := Below(log, start);
    ForkReplayable(job, log, start, fuel);
    Restart(job, Replayed(fork), Replayed(log), fuel, 0);
    AttemptSettles(job, Replayed(fork), fuel);
  }
}
