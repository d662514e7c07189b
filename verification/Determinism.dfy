/**
The replay theorem for two attempts at one run, from the simulation in Replay.
 */
module Determinism {
  import opened Values
  import opened Pipelines
  import opened Engine
  import opened Replay

  ghost predicate LikeResult(r: Result, q: Result) {
    match (r, q)
    case (Values(vs), Values(us)) => vs == us
    case (Failed(e), Failed(f)) => LikeError(e, f)
    case _ => false
  }

  /** The replay theorem for two attempts. */
  lemma Simulation(p: Pipeline, shape: string, input: Value, a: Answers, b: Answers, fuel: nat, k: nat)
    requires Agree(a, b)
    ensures var f, g := RunAll(p, shape, input, a, fuel), RunAll(p, shape, input, b, fuel + k);
            && f.w.trace <= g.w.trace
            && Follows(a, b, k, f.w, g.w)
            && (f.w.status.Alive? ==> g.w.status.Alive? && g.w.trace == f.w.trace && LikeResult(f.res, g.res))
  {
    hide RunStep, Proceed;
    var w0, v0 := World(fuel, [], {}, {}, false, Alive), World(fuel + k, [], {}, {}, false, Alive);
    var req := Request(SHAPE_STEP_NAME, Unit, NoExtra);
    SimStep(a, b, k, w0, v0, req);
    SimProceed(p, shape, input, a, b, k, RunStep(a, w0, req), RunStep(b, v0, req));
  }

  lemma SimProceed(p: Pipeline, shape: string, input: Value, a: Answers, b: Answers, k: nat, g: Got, h: Got)
    requires Agree(a, b) && Follows(a, b, k, g.w, h.w) && (g.w.status.Alive? ==> LikeOutcome(g.out, h.out))
    ensures var f, e := Proceed(p, shape, input, a, g), Proceed(p, shape, input, b, h);
            Follows(a, b, k, f.w, e.w) && (f.w.status.Alive? ==> LikeResult(f.res, e.res))
  {
    hide Collect, ShapeError;
    if !g.w.status.Alive? {
      Dead(a, b, k, g.w, h.w, Proceed(p, shape, input, b, h).w);
    } else if g.out.Ok? {
      SimCollect(a, b, k, p, input, g.w, h.w);
    }
  }

  /** Run (run.go:31-45) on top of it: the single value, or the same complaint. */
  lemma {:induction false} RunAlike(p: Pipeline, shape: string, input: Value, a: Answers, b: Answers, fuel: nat, k: nat)
    requires Agree(a, b)
    ensures var f, g := Engine.Run(p, shape, input, a, fuel), Engine.Run(p, shape, input, b, fuel + k);
            f.0.status.Alive? ==> g.0.status.Alive? && f.0.trace == g.0.trace && LikeOutcome(f.1, g.1)
  {
    Simulation(p, shape, input, a, b, fuel, k);
    hide RunAll;
  }
}
