/**
A Loop's iterations (flow.go:151-192): how many there are, where they stop, and what a
replay makes of that. The place where a Loop stops is also where fail-fast gives out:
its bound is the one failure that leaves the scope's abort flag down.
 */
module LoopBound {
  import opened Values
  import opened Pipelines
  import opened Engine
  import opened Replay

  /** How a Loop ends for one item. */
  datatype Stop =
    | Died                    // the process did, inside the body or at the predicate
    | BodyFailed(flag: bool)  // the flag as the body left it
    | Dropped                 // the body emitted nothing
    | PredicateFailed
    | Accepted
    | HitBound

  /** Where it ends: the iteration, counted from 1, and how. */
  function LastTurn(a: Answers, name: string, body: Pipeline, bound: nat, i: nat, v: Value, w: World): (nat, Stop)
    decreases w.fuel
  {
    var s := Collect(a, body, v, w);
    if !s.w.status.Alive? then (i, Died)
    else if s.err.Some? then (i, BodyFailed(s.w.aborted))
    else if s.outs == [] then (i, Dropped)
    else
      var v1 := s.outs[|s.outs| - 1];
      var g := RunStep(a, s.w, Request(name, v1, NoExtra));
      if !g.w.status.Alive? then (i, Died)
      else if g.out.Fail? then (i, PredicateFailed)
      else if AsBool(g.out.value) then (i, Accepted)
      else if bound > 0 && i >= bound then (i, HitBound)
      else LastTurn(a, name, body, bound, i + 1, v1, g.w)
  }

  /** The last request of w was this Loop's predicate, on v, and it answered b. */
  ghost predicate Verdict(a: Answers, name: string, v: Value, b: bool, w: World) {
    && |w.trace| > 0
    && w.trace[|w.trace| - 1] == Request(name, v, NoExtra)
    && |w.trace| - 1 in a && a[|w.trace| - 1].Ok? && AsBool(a[|w.trace| - 1].value) == b
  }

  lemma StepAnswered(a: Answers, w: World, name: string, v: Value)
    ensures var g := RunStep(a, w, Request(name, v, NoExtra));
            && (g.w.status.Alive? && g.out.Ok? ==> Verdict(a, name, v, AsBool(g.out.value), g.w))
            && (!w.aborted && g.w.status.Alive? ==> g.w.aborted == g.out.Fail?)
            && (w.aborted ==> g.out.Fail?)
  {
  }

  /** A bounded Loop runs its body at most bound times for an item; it emits only a value
      its predicate was recorded to accept; and it reports the bound exactly when the
      iteration numbered bound ends with a recorded refusal, and then by that number. */
  lemma {:induction false} LoopKeepsBound(a: Answers, name: string, body: Pipeline, bound: nat, i: nat, v: Value, w: World)
    requires w.status.Alive? && (bound > 0 ==> 1 <= i <= bound)
    ensures var last := LastTurn(a, name, body, bound, i, v, w);
            var g := LoopItem(a, name, body, bound, i, v, w);
            && last.0 >= i && (bound > 0 ==> last.0 <= bound)
            && (g.0.status.Alive? <==> !last.1.Died?)
            && (last.1.HitBound? ==> bound > 0 && last.0 == bound && g.1 == Break(BoundError(name, bound)))
            && (last.1.HitBound? ==> exists x :: Verdict(a, name, x, false, g.0))
            && (last.1.Accepted? ==> g.1.Emit? && |g.1.outs| == 1 && Verdict(a, name, g.1.outs[0], true, g.0))
            && (g.0.status.Alive? && g.1.Emit? && g.1.outs != [] ==> last.1.Accepted?)
    decreases w.fuel
  {
    hide Collect, RunStep, Verdict, BoundError;
    var s := Collect(a, body, v, w);
    if s.w.status.Alive? && s.err.None? && s.outs != [] {
      var v1 := s.outs[|s.outs| - 1];
      var g := RunStep(a, s.w, Request(name, v1, NoExtra));
      StepAnswered(a, s.w, name, v1);
      if g.w.status.Alive? && g.out.Ok? && !AsBool(g.out.value) && !(bound > 0 && i >= bound) {
        LoopKeepsBound(a, name, body, bound, i + 1, v1, g.w);
      }
    }
  }

  /** A Loop that fails leaves the scope's abort flag down exactly when it hits its bound,
      or when its body has failed and left the flag down itself: by a bound further in. */
  lemma {:induction false} FlagStaysDownExactlyAtBound(
      a: Answers, name: string, body: Pipeline, bound: nat, i: nat, v: Value, w: World)
    requires w.status.Alive? && !w.aborted
    ensures var last := LastTurn(a, name, body, bound, i, v, w);
            var g := LoopItem(a, name, body, bound, i, v, w);
            g.0.status.Alive? ==>
              (g.1.Break? && !g.0.aborted <==> last.1.HitBound? || last.1 == BodyFailed(false))
    decreases w.fuel
  {
    hide Collect, RunStep, BoundError;
    var s := Collect(a, body, v, w);
    if s.w.status.Alive? && s.err.None? && s.outs != [] {
      var v1 := s.outs[|s.outs| - 1];
      var g := RunStep(a, s.w, Request(name, v1, NoExtra));
      StepAnswered(a, s.w, name, v1);
      if g.w.status.Alive? && g.out.Ok? && !AsBool(g.out.value) && !(bound > 0 && i >= bound) {
        FlagStaysDownExactlyAtBound(a, name, body, bound, i + 1, v1, g.w);
      }
    }
  }

  /** On every replay a Loop goes through the same iterations, as far as each process
      gets, and stops at the same one in the same way. So the iterations of all the
      attempts of a run are those of one execution, and no more of them than the bound. */
  lemma {:induction false} SameTurnsOnReplay(
      a: Answers, b: Answers, k: nat, name: string, body: Pipeline, bound: nat, i: nat, v: Value, w: World, u: World)
    requires Agree(a, b) && w.status.Alive? && Follows(a, b, k, w, u)
    ensures var first, again := LastTurn(a, name, body, bound, i, v, w), LastTurn(b, name, body, bound, i, v, u);
            first.0 <= again.0 && (!first.1.Died? ==> first == again)
    decreases w.fuel
  {
    hide Collect, RunStep;
    var s, t := Collect(a, body, v, w), Collect(b, body, v, u);
    SimCollect(a, b, k, body, v, w, u);
    StartsAt(b, name, body, bound, i, v, u);
    if s.w.status.Alive? && s.err.None? && s.outs != [] {
      var v1 := s.outs[|s.outs| - 1];
      var req := Request(name, v1, NoExtra);
      var g, h := RunStep(a, s.w, req), RunStep(b, t.w, req);
      SimStep(a, b, k, s.w, t.w, req);
      if g.w.status.Alive? && g.out.Ok? && !AsBool(g.out.value) && !(bound > 0 && i >= bound) {
        SameTurnsOnReplay(a, b, k, name, body, bound, i + 1, v1, g.w, h.w);
      }
    }
  }

  lemma {:induction false} StartsAt(a: Answers, name: string, body: Pipeline, bound: nat, i: nat, v: Value, w: World)
    ensures LastTurn(a, name, body, bound, i, v, w).0 >= i
    decreases w.fuel
  {
    hide Collect;
    var s := Collect(a, body, v, w);
    if s.w.status.Alive? && s.err.None? && s.outs != [] {
      var v1 := s.outs[|s.outs| - 1];
      var g := RunStep(a, s.w, Request(name, v1, NoExtra));
      if g.w.status.Alive? && g.out.Ok? && !AsBool(g.out.value) && !(bound > 0 && i >= bound) {
        StartsAt(a, name, body, bound, i + 1, v1, g.w);
      }
    }
  }
}
