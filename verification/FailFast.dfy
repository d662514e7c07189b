/**
Fail-fast: the package promises that once any stage fails, items behind the failure run
no further stage (duro.go:32-34). It holds of every scope in which no Loop carries a
bound, and there it holds to the letter: no step ID is taken once the failure has reached
the scope's result. A Loop that trips its bound fails without raising the scope's abort
flag (flow.go:188-190), so items behind it still run the stages in front of it.
 */
module FailFast {
  import opened Values
  import opened Pipelines
  import opened Engine
  import opened Safety
  import opened Guarantees

  // ---- Scopes without a bound ----

  /** No Loop of the scope carries a bound. What a Rescue embeds is a scope of its own. */
  predicate UnboundedStage(s: Stage)
    decreases s
  {
    match s
    case Switch(_, cases) => UnboundedCases(cases)
    case Loop(_, body, bound) => bound == 0 && Unbounded(body)
    case Sub(_, p) => Unbounded(p)
    case Via(_, p) => Unbounded(p)
    case Alongside(_, p) => Unbounded(p)
    case _ => true
  }

  predicate Unbounded(p: Pipeline)
    decreases p
  {
    match p
    case Empty => true
    case Then(s, rest) => UnboundedStage(s) && Unbounded(rest)
  }

  predicate UnboundedCases(cases: Cases)
    decreases cases
  {
    match cases
    case NoCase => true
    case Case(_, arm, rest) => Unbounded(arm) && UnboundedCases(rest)
  }

  ghost predicate NoBounds(cast: iset<Stage>) { forall s | s in cast && s.Loop? :: s.bound == 0 }

  lemma {:induction false} UnboundedStageHasNoBounds(s: Stage)
    requires UnboundedStage(s)
    ensures NoBounds(CastStage(s))
    decreases s
  {
    match s
    case Switch(_, cases) => UnboundedCasesHaveNoBounds(cases);
    case Loop(_, body, _) => UnboundedHasNoBounds(body);
    case Sub(_, p) => UnboundedHasNoBounds(p);
    case Via(_, p) => UnboundedHasNoBounds(p);
    case Alongside(_, p) => UnboundedHasNoBounds(p);
    case _ =>
  }

  lemma {:induction false} UnboundedHasNoBounds(p: Pipeline)
    requires Unbounded(p)
    ensures NoBounds(Cast(p))
    decreases p
  {
    match p
    case Empty =>
    case Then(s, rest) =>
      UnboundedStageHasNoBounds(s);
      UnboundedHasNoBounds(rest);
  }

  lemma {:induction false} UnboundedCasesHaveNoBounds(cases: Cases)
    requires UnboundedCases(cases)
    ensures NoBounds(CastCases(cases))
    decreases cases
  {
    match cases
    case NoCase =>
    case Case(_, arm, rest) =>
      UnboundedHasNoBounds(arm);
      UnboundedCasesHaveNoBounds(rest);
  }

  /** The end of the scope's result, when p has run on v from w. */
  ghost function ResultEnd(a: Answers, p: Pipeline, v: Value, w: World): End {
    Collector(Feed(a, Subscribe(p, Sink([], Open)), v, w).c).end
  }

  lemma CollectReadsResultEnd(a: Answers, p: Pipeline, v: Value, w: World)
    ensures var s, end := Collect(a, p, v, w), ResultEnd(a, p, v, w);
            && (s.err.Some? <==> end.Errored?)
            && (s.err.Some? ==> s.err.value == end.err)
  {
    hide Feed;
    var c := Subscribe(p, Sink([], Open));
    var r := Feed(a, c, v, w);
    TerminatorOfSubscribe(p, Sink([], Open));
    SameTerminator(c, r.c);
    CollectorOfTerminator(r.c);
  }

  /** Any scope: if a step ID was taken after the failure had reached the result, or if the
      flag is down, then the failure is a Loop's bound. */
  lemma {:induction false} OnlyABoundGoesOn(a: Answers, p: Pipeline, v: Value, w: World)
    requires Honest(a) && Between(a, w) && !w.aborted
    ensures var s, end, sc := Collect(a, p, v, w), ResultEnd(a, p, v, w), ScopeOf(p, w);
            s.w.status.Alive? && s.err.Some? ==>
              && end.Errored? && end.at <= |s.w.trace|
              && (end.at < |s.w.trace| || !s.w.aborted ==> Tripped(a, sc, s.w, s.err.value))
              && (!Tripped(a, sc, s.w, s.err.value) ==> Raised(a, sc, s.w, s.err.value))
  {
    hide Collect, Feed, Raised, Tripped, FlagRaised, Fault;
    var sc := ScopeOf(p, w);
    BetweenIsReady(a, p, w);
    FeedCollects(a, sc, p, v, w);
    CollectReadsResultEnd(a, p, v, w);
    CollectIsFeed(a, p, v, w);
    RaisedHasFlag(a, sc, Collect(a, p, v, w));
  }

  lemma CollectIsFeed(a: Answers, p: Pipeline, v: Value, w: World)
    ensures Collect(a, p, v, w).w == Feed(a, Subscribe(p, Sink([], Open)), v, w).w
  {
    hide Feed;
  }

  lemma RaisedHasFlag(a: Answers, sc: Scope, s: Collected)
    ensures s.err.Some? && Raised(a, sc, s.w, s.err.value) ==> s.w.aborted
  {
  }

  /** No stage function returns duro.ErrMaxIterations of its own accord. */
  ghost predicate ClaimsNoBound(a: Answers) {
    forall s | s in a :: a[s].Fail? ==> a[s].err.id != MaxIterations
  }

  lemma RaisedIsNoBound(a: Answers, sc: Scope, w: World, e: Error)
    requires ClaimsNoBound(a) && Raised(a, sc, w, e)
    ensures e.id != MaxIterations
  {
  }

  /** The other way round too: a scope's failure is not the one that has its flag up if
      and only if one of the scope's Loops hit its bound, and the failure is that. */
  lemma {:induction false} LeavesFlagExactlyAtBound(a: Answers, p: Pipeline, v: Value, w: World)
    requires Honest(a) && ClaimsNoBound(a) && Between(a, w) && !w.aborted
    ensures var s, sc := Collect(a, p, v, w), ScopeOf(p, w);
            s.w.status.Alive? && s.err.Some? ==>
              && (!Raised(a, sc, s.w, s.err.value) <==> Tripped(a, sc, s.w, s.err.value))
              && (Tripped(a, sc, s.w, s.err.value) <==> s.err.value.id == MaxIterations)
  {
    hide Collect, Feed, Raised, FlagRaised, ResultEnd;
    var s, sc := Collect(a, p, v, w), ScopeOf(p, w);
    assert s.err.Some? && Tripped(a, sc, s.w, s.err.value) ==> s.err.value.id == MaxIterations;
    hide Tripped;
    OnlyABoundGoesOn(a, p, v, w);
    if s.err.Some? && Raised(a, sc, s.w, s.err.value) { RaisedIsNoBound(a, sc, s.w, s.err.value); }
  }

  /** Fail-fast, for every scope without a bound: a run of it fails exactly when its flag
      is up; then its error is what a stage makes of the last outcome asked for, or of one
      of a Parallel's batch; and no step ID is taken once the failure has reached it. */
  lemma {:induction false} FailsFast(a: Answers, p: Pipeline, v: Value, w: World)
    requires Honest(a) && Between(a, w) && !w.aborted && Unbounded(p)
    ensures var s, end := Collect(a, p, v, w), ResultEnd(a, p, v, w);
            s.w.status.Alive? ==>
              && (s.err.Some? <==> s.w.aborted)
              && (s.err.Some? ==>
                    && end.Errored? && end.at == |s.w.trace|
                    && Raised(a, ScopeOf(p, w), s.w, s.err.value))
  {
    hide Collect, Feed, Raised, FlagRaised, ResultEnd;
    var s, sc := Collect(a, p, v, w), ScopeOf(p, w);
    UnboundedHasNoBounds(p);
    assert s.err.Some? ==> !Tripped(a, sc, s.w, s.err.value);
    hide Tripped;
    OnlyABoundGoesOn(a, p, v, w);
    FailureRaisesFlag(a, p, v, w);
  }

  // ---- A bound ----

  const IDENTITY: Value -> Value := x => x
  const BODY := Then(Pure("id", IDENTITY), Empty)
  const STUBBORN := Loop("l", BODY, 1)
  const TWO_ITEMS := Then(Leaf(Expand, "x"), Then(Leaf(Step, "s"), Then(STUBBORN, Empty)))

  const NEVER: Answers := map[0 := Ok(Key("shape")), 1 := Ok(Items([Num(1), Num(2)])), 2 := Ok(Num(1)), 3 := Ok(Bool(false)), 4 := Ok(Num(2))]

  lemma BodyKeeps(a: Answers, v: Value, w: World)
    requires w.status.Alive?
    ensures Collect(a, BODY, v, w) == Collected(w, [v], None)
  {
    var sink := Sink([], Open);
    var op := Op(Pure("id", IDENTITY), Open, Initial(Pure("id", IDENTITY)), sink);
    assert Subscribe(BODY, sink) == op by { assert Subscribe(Empty, sink) == sink; }
    assert Item(a, op.stage, v, w) == (w, Emit([v]));
    assert PushNext(a, sink, v, w) == R(Sink([v], Open), w);
    assert PushAll(a, sink, [v], w) == R(Sink([v], Open), w);
    var op1 := op.(next := Sink([v], Open));
    assert PushNext(a, op, v, w) == R(op1, w);
    BodyCompletes(a, op1, v, w);
    var op2 := Op(op.stage, Completed, op.st, Sink([v], Completed));
    assert Feed(a, op, v, w) == R(op2, w);
    assert Terminator(op2) == Terminator(Sink([v], Completed)) == Sink([v], Completed);
  }

  lemma BodyCompletes(a: Answers, op: Chain, v: Value, w: World)
    requires w.status.Alive? && op == Op(Pure("id", IDENTITY), Open, OpState(false, Unit, [], []), Sink([v], Open))
    ensures PushDone(a, op, w) == R(Op(op.stage, Completed, op.st, Sink([v], Completed)), w)
  {
    assert PushDone(a, op.next, w) == R(Sink([v], Completed), w);
    assert DoneOp(a, Op(op.stage, Completed, op.st, op.next), w) == R(Op(op.stage, Completed, op.st, Sink([v], Completed)), w);
  }

  const LOOP_OP := Op(STUBBORN, Open, OpState(false, Unit, [], []), Sink([], Open))
  const TRIPPED := BoundError("l", 1)
  /** The Loop after its bound, when `at` step IDs had been taken. */
  function LoopTripped(at: nat): Chain {
    Op(STUBBORN, Open, OpState(true, Unit, [], []), Sink([], Errored(TRIPPED, at)))
  }

  /** One refused iteration trips the bound, and the flag stays down. */
  lemma BoundTrips(a: Answers, v: Value, w: World)
    requires w.status.Alive? && !w.aborted && w.fuel > 0 && |w.trace| in a && a[|w.trace|] == Ok(Bool(false))
    ensures var g := RunStep(a, w, Request("l", v, NoExtra));
            g.w.status.Alive? && !g.w.aborted && PushNext(a, LOOP_OP, v, w) == R(LoopTripped(|g.w.trace|), g.w)
  {
    hide Collect;
    BodyKeeps(a, v, w);
    var g := RunStep(a, w, Request("l", v, NoExtra));
    assert LoopVerdict(a, "l", BODY, 1, 1, v, w) == (g.w, Break(TRIPPED));
    assert LoopItem(a, "l", BODY, 1, 1, v, w) == (g.w, Break(TRIPPED));
    assert Item(a, STUBBORN, v, w) == (g.w, Break(TRIPPED));
    assert PushError(a, Sink([], Open), TRIPPED, g.w) == R(Sink([], Errored(TRIPPED, |g.w.trace|)), g.w);
  }

  /** The stage in front of the Loop, for any item: it takes its step ID. */
  lemma StepInFront(a: Answers, loop: Chain, loop1: Chain, v: Value, w: World, w1: World)
    requires w.status.Alive? && !w.aborted && w.fuel > 0 && |w.trace| in a && a[|w.trace|] == Ok(v)
    requires var g := RunStep(a, w, Request("s", v, NoExtra));
             PushNext(a, loop, v, g.w) == R(loop1, w1)
    ensures var op := Op(Leaf(Step, "s"), Open, OpState(false, Unit, [], []), loop);
            PushNext(a, op, v, w) == R(op.(next := loop1), w1)
  {
    hide PushNext;
    var op := Op(Leaf(Step, "s"), Open, OpState(false, Unit, [], []), loop);
    var g := RunStep(a, w, Request("s", v, NoExtra));
    assert Item(a, op.stage, v, w) == (g.w, Emit([v]));
    assert PushAll(a, loop1, [], w1) == R(loop1, w1);
    assert [v][1..] == [];
    assert PushAll(a, loop, [v], g.w) == R(loop1, w1);
    assert NextItem(a, op, v, w) == R(op.(next := loop1), w1);
    NextIsItem(a, op, v, w);
  }

  lemma NextIsItem(a: Answers, c: Chain, v: Value, w: World)
    requires w.status.Alive? && c.Op? && c.end.Open? && !c.st.failed && (c.stage.Leaf? || c.stage.Pure?)
    ensures PushNext(a, c, v, w) == NextItem(a, c, v, w)
  {}

  const ASKED := [Request(SHAPE_STEP_NAME, Unit, NoExtra), Request("x", Unit, NoExtra), Request("s", Num(1), NoExtra),
                  Request("l", Num(1), NoExtra), Request("s", Num(2), NoExtra)]

  /** The world after the first n answered steps. */
  function After(n: nat): World
    requires n <= 5
  {
    World(9 - n, ASKED[..n], UpTo(n), {}, false, Alive)
  }

  function UpTo(n: nat): set<nat> {
    if n == 0 then {} else UpTo(n - 1) + {n - 1}
  }

  lemma NthStep(n: nat)
    requires n < 5
    ensures RunStep(NEVER, After(n), ASKED[n]) == Got(After(n + 1), NEVER[n])
  {
    assert ASKED[..n] + [ASKED[n]] == ASKED[..n + 1];
    assert UpTo(n + 1) == UpTo(n) + {n};
  }

  lemma BothItemsCollected()
    ensures Collect(NEVER, TWO_ITEMS, Unit, After(1)) == Collected(After(5), [], Some(TRIPPED))
  {
    hide PushNext, PushDone, PushAll, Item, RunStep, Collect;
    NthStep(1);
    BothItems();
    LoopCompletes(NEVER, LoopTripped(4), After(5));
    TwoItemsRun(NEVER, LoopTripped(4), Op(STUBBORN, Completed, LoopTripped(4).st, LoopTripped(4).next), After(1), After(2), After(5));
  }

  lemma LoopCompletes(a: Answers, loop: Chain, w: World)
    requires w.status.Alive? && loop.Op? && loop.stage == STUBBORN && loop.end.Open? && loop.st.failed
    ensures PushDone(a, loop, w) == R(loop.(end := Completed), w)
  {
  }

  /** The first item fails at the Loop's bound, and the item behind it still runs
      the stage in front of the Loop. */
  lemma BoundIsNotFailFast()
    ensures var f := RunAll(TWO_ITEMS, "shape", Unit, NEVER, 9);
            && f.w.status.Alive? && f.res == Failed(BoundError("l", 1)) && !f.w.aborted
            && |f.w.trace| == 5 && f.w.trace[4] == Request("s", Num(2), NoExtra)
  {
    hide RunStep, Collect, BoundError;
    NthStep(0);
    BothItemsCollected();
    assert After(0) == World(9, [], {}, {}, false, Alive);
    assert ASKED[..5] == ASKED;
  }

  lemma BothItems()
    ensures var st := OpState(false, Unit, [], []);
            PushAll(NEVER, Op(Leaf(Step, "s"), Open, st, LOOP_OP), [Num(1), Num(2)], After(2))
              == R(Op(Leaf(Step, "s"), Open, st, LoopTripped(4)), After(5))
  {
    hide PushNext, RunStep;
    var a, st := NEVER, OpState(false, Unit, [], []);
    var step, step1 := Op(Leaf(Step, "s"), Open, st, LOOP_OP), Op(Leaf(Step, "s"), Open, st, LoopTripped(4));
    NthStep(2); NthStep(3); NthStep(4);
    BoundTrips(a, Num(1), After(3));
    StepInFront(a, LOOP_OP, LoopTripped(4), Num(1), After(2), After(4));
    Ignored(a, Num(2), After(5));
    StepInFront(a, LoopTripped(4), LoopTripped(4), Num(2), After(4), After(5));
    assert [Num(1), Num(2)][1..] == [Num(2)] && [Num(2)][1..] == [];
    assert PushAll(a, step1, [], After(5)) == R(step1, After(5));
    assert PushAll(a, step1, [Num(2)], After(4)) == R(step1, After(5));
  }

  lemma Ignored(a: Answers, v: Value, w: World)
    ensures PushNext(a, LoopTripped(4), v, w) == R(LoopTripped(4), w)
  {}

  /** loop1: the Loop after both items; loop2: after its completion. */
  lemma TwoItemsRun(a: Answers, loop1: Chain, loop2: Chain, w: World, w1: World, w2: World)
    requires w.status.Alive? && w2.status.Alive?
    requires RunStep(a, w, Request("x", Unit, NoExtra)) == Got(w1, Ok(Items([Num(1), Num(2)]))) && w1.status.Alive?
    requires var st := OpState(false, Unit, [], []);
             PushAll(a, Op(Leaf(Step, "s"), Open, st, LOOP_OP), [Num(1), Num(2)], w1) == R(Op(Leaf(Step, "s"), Open, st, loop1), w2)
    requires PushDone(a, loop1, w2) == R(loop2, w2) && Terminator(loop2) == Sink([], Errored(TRIPPED, 4))
    ensures Collect(a, TWO_ITEMS, Unit, w) == Collected(w2, [], Some(TRIPPED))
  {
    hide PushAll, RunStep;
    var st := OpState(false, Unit, [], []);
    var sink := Sink([], Open);
    var step, step1 := Op(Leaf(Step, "s"), Open, st, LOOP_OP), Op(Leaf(Step, "s"), Open, st, loop1);
    var expand := Op(Leaf(Expand, "x"), Open, st, step);
    assert Subscribe(Empty, sink) == sink;
    assert Subscribe(Then(STUBBORN, Empty), sink) == LOOP_OP;
    assert Subscribe(Then(Leaf(Step, "s"), Then(STUBBORN, Empty)), sink) == step;
    assert Subscribe(TWO_ITEMS, sink) == expand;
    assert Item(a, expand.stage, Unit, w) == (w1, Emit([Num(1), Num(2)]));
    assert NextItem(a, expand, Unit, w) == R(expand.(next := step1), w2);
    NextIsItem(a, expand, Unit, w);
    LeafCompletes(a, step1, loop2, w2);
    var step2 := Op(step.stage, Completed, st, loop2);
    LeafCompletes(a, expand.(next := step1), step2, w2);
    assert Terminator(Op(expand.stage, Completed, st, step2)) == Terminator(step2) == Terminator(loop2);
  }

  lemma LeafCompletes(a: Answers, c: Chain, next: Chain, w: World)
    requires w.status.Alive? && c.Op? && c.stage.Leaf? && c.end.Open? && !c.st.failed && PushDone(a, c.next, w) == R(next, w)
    ensures PushDone(a, c, w) == R(Op(c.stage, Completed, c.st, next), w)
  {}

  // ---- A bound and a failure behind it ----

  const BOOM := Error("boom", Live(0))
  /** The same answers, but the item behind the bound fails in the stage in front. */
  const THEN_BOOM: Answers := NEVER[4 := Fail(BOOM)]

  lemma SameSteps(n: nat)
    requires n < 4
    ensures RunStep(THEN_BOOM, After(n), ASKED[n]) == Got(After(n + 1), NEVER[n])
  {
    NthStep(n);
  }

  lemma LastStepFails()
    ensures RunStep(THEN_BOOM, After(4), ASKED[4]) == Got(After(5).(aborted := true), Fail(BOOM))
  {
    NthStep(4);
  }

  /** The Loop after the bound, once the failure behind it has come through. */
  const LOOP_THEN_BOOM := Op(STUBBORN, Errored(BOOM, 5), LoopTripped(4).st, LoopTripped(4).next)

  lemma SecondItemFails()
    ensures var st := OpState(false, Unit, [], []);
            PushNext(THEN_BOOM, Op(Leaf(Step, "s"), Open, st, LoopTripped(4)), Num(2), After(4))
              == R(Op(Leaf(Step, "s"), Open, st, LOOP_THEN_BOOM), After(5).(aborted := true))
  {
    hide RunStep, PushNext;
    var a, st := THEN_BOOM, OpState(false, Unit, [], []);
    var op := Op(Leaf(Step, "s"), Open, st, LoopTripped(4));
    var w := After(5).(aborted := true);
    LastStepFails();
    assert Item(a, op.stage, Num(2), After(4)) == (w, Break(BOOM));
    assert PushError(a, LoopTripped(4).next, BOOM, w) == R(LoopTripped(4).next, w);
    assert PushError(a, LoopTripped(4), BOOM, w) == R(LOOP_THEN_BOOM, w);
    assert NextItem(a, op, Num(2), After(4)) == R(op.(next := LOOP_THEN_BOOM), w);
    NextIsItem(a, op, Num(2), After(4));
  }

  lemma BothItemsThenBoom()
    ensures var st := OpState(false, Unit, [], []);
            PushAll(THEN_BOOM, Op(Leaf(Step, "s"), Open, st, LOOP_OP), [Num(1), Num(2)], After(2))
              == R(Op(Leaf(Step, "s"), Open, st, LOOP_THEN_BOOM), After(5).(aborted := true))
  {
    hide PushNext, RunStep;
    var a, st := THEN_BOOM, OpState(false, Unit, [], []);
    var step, step1, step2 := Op(Leaf(Step, "s"), Open, st, LOOP_OP), Op(Leaf(Step, "s"), Open, st, LoopTripped(4)),
                              Op(Leaf(Step, "s"), Open, st, LOOP_THEN_BOOM);
    SameSteps(2); SameSteps(3);
    BoundTrips(a, Num(1), After(3));
    StepInFront(a, LOOP_OP, LoopTripped(4), Num(1), After(2), After(4));
    SecondItemFails();
    assert [Num(1), Num(2)][1..] == [Num(2)] && [Num(2)][1..] == [];
    assert PushAll(a, step2, [], After(5).(aborted := true)) == R(step2, After(5).(aborted := true));
    assert PushAll(a, step1, [Num(2)], After(4)) == R(step2, After(5).(aborted := true));
  }

  /** A scope that has hit a bound may have its flag up all the same: an item behind the
      bound has failed in front of the Loop. The scope's error is still the bound. */
  lemma BoundThenFailure()
    ensures var s := Collect(THEN_BOOM, TWO_ITEMS, Unit, After(1));
            s.w.status.Alive? && s.err == Some(BoundError("l", 1)) && s.w.aborted
  {
    hide PushNext, PushDone, PushAll, Item, RunStep, Collect;
    SameSteps(1);
    BothItemsThenBoom();
    var w := After(5).(aborted := true);
    assert PushDone(THEN_BOOM, LOOP_THEN_BOOM, w) == R(LOOP_THEN_BOOM, w) by { BoomCompletes(w); }
    TwoItemsRun(THEN_BOOM, LOOP_THEN_BOOM, LOOP_THEN_BOOM, After(1), After(2), w);
  }

  lemma BoomCompletes(w: World)
    ensures PushDone(THEN_BOOM, LOOP_THEN_BOOM, w) == R(LOOP_THEN_BOOM, w)
  {
  }
}
