/**
The shape guard on the engine's own pipelines (run.go:67-78, pipe.go:54-61): a replay
that gets past it runs a pipeline with the recorded one's stages, kinds, names and arms,
at every depth. Functions, seeds and loop bounds are not part of a shape.
 */
module PipelineShape {
  import opened Values
  import opened Pipelines
  import opened Shape
  import opened Engine
  import opened Recovery
  import Guarantees

  function KindOf(s: Stage): string {
    match s
    case Leaf(Step, _) => "step"
    case Leaf(Filter, _) => "filter"
    case Leaf(Expand, _) => "expand"
    case Pure(_, _) => "pure"
    case Reduce(_, _) => "reduce"
    case Switch(_, _) => "switch"
    case Loop(_, _, _) => "loop"
    case Rescue(_, _) => "rescue"
    case Sub(_, _) => "sub"
    case Via(_, _) => "via"
    case Alongside(_, _) => "alongside"
    case Parallel(_, _) => "parallel"
    case FanOut(_, _, cancel) => if cancel then "fanout+cancel" else "fanout"
  }

  function ShapeOf(p: Pipeline): seq<StageInfo>
    decreases p
  {
    match p
    case Empty => []
    case Then(s, rest) => [InfoOf(s)] + ShapeOf(rest)
  }

  function InfoOf(s: Stage): StageInfo
    decreases s
  {
    StageInfo(KindOf(s), s.name,
              match s
              case Switch(_, cases) => ArmsOf(cases)
              case Loop(_, body, _) => [NestedShape("", ShapeOf(body))]
              case Rescue(_, p) => [NestedShape("", ShapeOf(p))]
              case Sub(_, p) => [NestedShape("", ShapeOf(p))]
              case Via(_, p) => [NestedShape("", ShapeOf(p))]
              case Alongside(_, p) => [NestedShape("", ShapeOf(p))]
              case _ => [])
  }

  function ArmsOf(cases: Cases): seq<NestedShape>
    decreases cases
  {
    match cases
    case NoCase => []
    case Case(key, arm, rest) => [NestedShape(key, ShapeOf(arm))] + ArmsOf(rest)
  }

  /** The same stages: kinds, names and arms agree at every depth. */
  ghost predicate Alike(p: Pipeline, q: Pipeline)
    decreases p
  {
    match (p, q)
    case (Empty, Empty) => true
    case (Then(s, x), Then(t, y)) => AlikeStage(s, t) && Alike(x, y)
    case _ => false
  }

  ghost predicate AlikeStage(s: Stage, t: Stage)
    decreases s
  {
    s.name == t.name &&
    match (s, t)
    case (Leaf(k, _), Leaf(l, _)) => k == l
    case (Pure(_, _), Pure(_, _)) => true
    case (Reduce(_, _), Reduce(_, _)) => true
    case (Switch(_, c), Switch(_, d)) => AlikeArms(c, d)
    case (Loop(_, x, _), Loop(_, y, _)) => Alike(x, y)
    case (Rescue(_, x), Rescue(_, y)) => Alike(x, y)
    case (Sub(_, x), Sub(_, y)) => Alike(x, y)
    case (Via(_, x), Via(_, y)) => Alike(x, y)
    case (Alongside(_, x), Alongside(_, y)) => Alike(x, y)
    case (Parallel(_, _), Parallel(_, _)) => true
    case (FanOut(_, _, c), FanOut(_, _, d)) => c == d
    case _ => false
  }

  ghost predicate AlikeArms(c: Cases, d: Cases)
    decreases c
  {
    match (c, d)
    case (NoCase, NoCase) => true
    case (Case(k, x, e), Case(l, y, f)) => k == l && Alike(x, y) && AlikeArms(e, f)
    case _ => false
  }

  lemma {:induction false} SameShapeIsAlike(p: Pipeline, q: Pipeline)
    ensures ShapeOf(p) == ShapeOf(q) <==> Alike(p, q)
    decreases p
  {
    if p.Then? && q.Then? {
      SameInfoIsAlike(p.head, q.head);
      SameShapeIsAlike(p.tail, q.tail);
      assert ShapeOf(p)[0] == InfoOf(p.head) && ShapeOf(p)[1..] == ShapeOf(p.tail);
      assert ShapeOf(q)[0] == InfoOf(q.head) && ShapeOf(q)[1..] == ShapeOf(q.tail);
    }
  }

  lemma {:induction false} SameArmsAreAlike(c: Cases, d: Cases)
    ensures ArmsOf(c) == ArmsOf(d) <==> AlikeArms(c, d)
    decreases c
  {
    if c.Case? && d.Case? {
      SameShapeIsAlike(c.arm, d.arm);
      SameArmsAreAlike(c.rest, d.rest);
      assert ArmsOf(c)[0] == NestedShape(c.key, ShapeOf(c.arm)) && ArmsOf(c)[1..] == ArmsOf(c.rest);
      assert ArmsOf(d)[0] == NestedShape(d.key, ShapeOf(d.arm)) && ArmsOf(d)[1..] == ArmsOf(d.rest);
    }
  }

  function Inner(s: Stage): Pipeline
    requires s.Loop? || s.Rescue? || s.Sub? || s.Via? || s.Alongside?
  {
    match s
    case Loop(_, p, _) => p
    case Rescue(_, p) => p
    case Sub(_, p) => p
    case Via(_, p) => p
    case Alongside(_, p) => p
  }

  /** Kinds are told apart by their texts. */
  lemma KindsDiffer(s: Stage, t: Stage)
    requires KindOf(s) == KindOf(t)
    ensures s.Leaf? <==> t.Leaf?
    ensures s.Leaf? ==> s.kind == t.kind
    ensures s.Pure? <==> t.Pure?
    ensures s.Reduce? <==> t.Reduce?
    ensures s.Switch? <==> t.Switch?
    ensures s.Loop? <==> t.Loop?
    ensures s.Rescue? <==> t.Rescue?
    ensures s.Sub? <==> t.Sub?
    ensures s.Via? <==> t.Via?
    ensures s.Alongside? <==> t.Alongside?
    ensures s.Parallel? <==> t.Parallel?
    ensures s.FanOut? <==> t.FanOut?
    ensures s.FanOut? ==> s.cancelSiblings == t.cancelSiblings
  {
  }

  lemma {:induction false} SameInfoIsAlike(s: Stage, t: Stage)
    ensures InfoOf(s) == InfoOf(t) <==> AlikeStage(s, t)
    decreases s
  {
    if KindOf(s) == KindOf(t) {
      KindsDiffer(s, t);
      hide KindOf;
      if s.Switch? {
        SameArmsAreAlike(s.cases, t.cases);
      } else if s.Loop? || s.Rescue? || s.Sub? || s.Via? || s.Alongside? {
        SameShapeIsAlike(Inner(s), Inner(t));
        assert InfoOf(s).nested == [NestedShape("", ShapeOf(Inner(s)))];
        assert InfoOf(t).nested == [NestedShape("", ShapeOf(Inner(t)))];
        assert InfoOf(s).nested[0].shape == ShapeOf(Inner(s)) && InfoOf(t).nested[0].shape == ShapeOf(Inner(t));
      }
    }
  }

  /** A run recorded by one build of the code and replayed by another gets past the guard
      exactly when the two pipelines are alike; otherwise no stage takes a step ID. */
  lemma {:induction false} GuardPassesExactlyTheAlike(recorded: Pipeline, built: Pipeline, input: Value, log: Log, fuel: nat)
    requires ShapeOk(ShapeOf(recorded)) && ShapeOk(ShapeOf(built)) && fuel > 0
    requires 0 in log && log[0].out == Ok(Key(Fingerprint(ShapeOf(recorded))))
    ensures
      var was, now := Fingerprint(ShapeOf(recorded)), Fingerprint(ShapeOf(built));
      var f := Execute(Job(built, now, input), Replayed(log), fuel);
      && (was == now <==> Alike(recorded, built))
      && (!Alike(recorded, built) ==>
            f.res == Failed(ShapeError(was, now)) && f.w.trace == [Request(SHAPE_STEP_NAME, Unit, NoExtra)])
  {
    hide Execute, ShapeOk;
    FingerprintInjective(ShapeOf(recorded), ShapeOf(built));
    SameShapeIsAlike(recorded, built);
    if !Alike(recorded, built) {
      Guarantees.ShapeGuard(Job(built, Fingerprint(ShapeOf(built)), input), log, fuel);
    }
  }
}
