/**
The engine in the form the Go code has: one shared, mutable state per subscribed
pipeline (pipelineState, duro.go:489-493, and the workflow's step counter behind
its DBOS context), and stage bodies that loop and assign. Every method is proved
to leave exactly the state and the result Engine's functions give, so everything
proved about those holds of it.
 */
module Interpreter {
  import opened Values
  import opened Pipelines
  import opened ParallelChoice
  import opened Engine

  class Session {
    const a: Answers
    var fuel: nat
    var trace: seq<Request>
    var used: set<nat>
    var ahead: set<nat>
    var aborted: bool
    var status: Status

    function W(): World
      reads this
    {
      World(fuel, trace, used, ahead, aborted, status)
    }

    constructor (a: Answers, fuel: nat)
      ensures this.a == a && W() == World(fuel, [], {}, {}, false, Alive)
    {
      this.a := a;
      this.fuel := fuel;
      trace, used, ahead, aborted, status := [], {}, {}, false, Alive;
    }

    // ---- Steps ----

    method Launch(req: Request)
      modifies this
      ensures W() == Engine.Launch(old(W()), req)
    {
      if status.Alive? {
        if fuel == 0 {
          status := OutOfFuel;
        } else {
          fuel := fuel - 1;
          trace := trace + [req];
        }
      }
    }

    method LaunchAhead(req: Request)
      modifies this
      ensures W() == Engine.LaunchAhead(old(W()), req)
    {
      var slot := |trace|;
      Launch(req);
      if status.Alive? {
        ahead := ahead + {slot};
      }
    }

    method Await(slot: nat)
      modifies this
      ensures W() == Engine.Await(a, old(W()), slot)
    {
      if status.Alive? {
        if slot in a { used := used + {slot}; } else { status := Stuck(slot); }
      }
    }

    /** runStep (duro.go:519-533): nothing while the flag is up, and the flag goes
        up with a failure. */
    method RunStep(req: Request) returns (out: Outcome)
      modifies this
      ensures Got(W(), out) == Engine.RunStep(a, old(W()), req)
    {
      if aborted { return Fail(ERR_ABORTED); }
      var slot := |trace|;
      Launch(req);
      Await(slot);
      if !status.Alive? { return Fail(ERR_ABORTED); }
      out := Answer(a, slot);
      if out.Fail? { aborted := true; }
    }

    /** drainLaunched (parallel.go:68-76). */
    method Drain(slots: seq<nat>)
      modifies this
      ensures W() == Engine.Drain(a, old(W()), slots)
    {
      for i := 0 to |slots|
        invariant Engine.Drain(a, W(), slots[i..]) == Engine.Drain(a, old(W()), slots)
      {
        assert slots[i..][1..] == slots[i + 1..];
        Await(slots[i]);
      }
    }

    // ---- Items ----

    method Item(s: Stage, v: Value) returns (res: ItemResult)
      modifies this
      ensures (W(), res) == Engine.Item(a, s, v, old(W()))
      decreases StageSize(s), fuel, 2, 0
    {
      match s
      case Leaf(kind, name) =>
        var out := RunStep(Request(name, v, NoExtra));
        res := if out.Fail? then Break(out.err) else Emit(LeafOutputs(kind, v, out.value));
      case Pure(_, f) => res := Emit([f(v)]);
      case Loop(name, body, bound) => res := LoopItem(name, body, bound, v);
      case Rescue(name, p) => res := RescueItem(name, p, v);
      case Via(_, p) =>
        var outs, err := Collect(p, v);
        res := if err.Some? then Break(err.value) else Emit([v]);
      case Alongside(name, p) => res := AlongsideItem(name, p, v);
      case _ => res := Emit([]);
    }

    /** flow.go:163-193: v and iteration change as the loop goes round. */
    method LoopItem(name: string, body: Pipeline, bound: nat, item: Value) returns (res: ItemResult)
      modifies this
      ensures (W(), res) == Engine.LoopItem(a, name, body, bound, 1, item, old(W()))
      decreases 2 + Size(body), fuel, 1, 0
    {
      hide Engine.Collect, Engine.RunStep;
      var v, iteration := item, 1;
      while true
        invariant iteration >= 1
        invariant fuel <= old(fuel)
        invariant Engine.LoopItem(a, name, body, bound, iteration, v, W()) == Engine.LoopItem(a, name, body, bound, 1, item, old(W()))
        decreases fuel
      {
        ghost var before := W();
        var outs, err := Collect(body, v);
        if !status.Alive? { return Emit([]); }
        if err.Some? { return Break(err.value); }
        if outs == [] { return Emit([]); }
        v := outs[|outs| - 1];
        var out := RunStep(Request(name, v, NoExtra));
        if !status.Alive? { return Emit([]); }
        if out.Fail? { return Break(out.err); }
        if AsBool(out.value) { return Emit([v]); }
        if bound > 0 && iteration >= bound { return Break(BoundError(name, iteration)); }
        iteration := iteration + 1;
      }
    }

    /** flow.go:249-279. */
    method RescueItem(name: string, p: Pipeline, v: Value) returns (res: ItemResult)
      modifies this
      ensures (W(), res) == Engine.RescueItem(a, name, p, v, old(W()))
      decreases 2 + Size(p), fuel, 1, 0
    {
      hide Engine.Collect;
      if aborted { return Break(ERR_ABORTED); }
      var outs, err := Collect(p, v);
      if !status.Alive? { return Emit([]); }
      aborted := false; // the embedded run's flag was its own
      if err.None? { return Emit(outs); }
      var out := RunStep(Request(name, v, Cause(err.value.msg)));
      res := if out.Fail? then Break(out.err) else Emit([out.value]);
    }

    /** flow.go:384-421. */
    method AlongsideItem(name: string, p: Pipeline, v: Value) returns (res: ItemResult)
      modifies this
      ensures (W(), res) == Engine.AlongsideItem(a, name, p, v, old(W()))
      decreases 2 + Size(p), fuel, 1, 0
    {
      hide Engine.Collect;
      if aborted { return Break(ERR_ABORTED); }
      var slot := |trace|;
      LaunchAhead(Request(name, v, NoExtra));
      var outs, err := Collect(p, v);
      Await(slot);
      var side := Answer(a, slot);
      if err.Some? { return Break(err.value); }
      if side.Fail? {
        var out := RunStep(Request(name, v, Cause(side.err.msg)));
        if out.Fail? { return Break(out.err); }
      }
      res := Emit([v]);
    }

    /** collectSub (flow.go:473-482). */
    method Collect(p: Pipeline, v: Value) returns (outs: seq<Value>, err: Option<Error>)
      modifies this
      ensures Collected(W(), outs, err) == Engine.Collect(a, p, v, old(W()))
      decreases Size(p) + 1, fuel, 9, 0
    {
      var c := Feed(Subscribe(p, Sink([], Open)), v);
      var t := Terminator(c);
      outs := if t.Sink? then t.outs else [];
      err := if t.end.Errored? then Some(t.end.err) else None;
    }

    // ---- Events ----

    method Feed(c: Chain, v: Value) returns (d: Chain)
      modifies this
      ensures R(d, W()) == Engine.Feed(a, c, v, old(W()))
      decreases ChainSize(c), fuel, 8, 0
    {
      d := PushNext(c, v);
      SameSize(c, d);
      d := PushDone(d);
    }

    method PushAll(c: Chain, vs: seq<Value>) returns (d: Chain)
      modifies this
      ensures R(d, W()) == Engine.PushAll(a, c, vs, old(W()))
      decreases ChainSize(c), fuel, 8, |vs|
    {
      hide Engine.PushNext;
      d := c;
      SameReflexive(c);
      for i := 0 to |vs|
        invariant Same(c, d) && fuel <= old(fuel)
        invariant Engine.PushAll(a, d, vs[i..], W()) == Engine.PushAll(a, c, vs, old(W()))
      {
        SameSize(c, d);
        assert vs[i..][1..] == vs[i + 1..];
        var e := PushNext(d, vs[i]);
        SameTransitive(c, d, e);
        d := e;
      }
    }

    method Broken(c: Chain, e: Error) returns (d: Chain)
      requires c.Op?
      modifies this
      ensures R(d, W()) == Engine.Broken(a, c, e, old(W()))
      decreases ChainSize(c), fuel, 1, 0
    {
      var next := PushError(c.next, e);
      d := c.(st := c.st.(failed := HasFailedFlag(c.stage)), next := next);
    }

    method PushNext(c: Chain, v: Value) returns (d: Chain)
      modifies this
      ensures R(d, W()) == Engine.PushNext(a, c, v, old(W()))
      decreases ChainSize(c), fuel, 5, 0
    {
      if !status.Alive? || !c.end.Open? { return c; }
      match c
      case Sink(outs, end) => d := Sink(outs + [v], end);
      case Bridge(end, dest) =>
        var e := PushNext(dest, v);
        d := Bridge(end, e);
      case Op(s, _, st, next) =>
        if st.failed { return c; }
        match s
        case Reduce(_, _) => d := NextReduce(c, v);
        case Switch(_, _) => d := NextSwitch(c, v);
        case Parallel(_, _) => d := NextParallel(c, v);
        case FanOut(_, _, _) => d := NextFanOut(c, v);
        case _ => d := NextItem(c, v);
    }

    method NextItem(c: Chain, v: Value) returns (d: Chain)
      requires c.Op?
      modifies this
      ensures R(d, W()) == Engine.NextItem(a, c, v, old(W()))
      decreases ChainSize(c), fuel, 3, 0
    {
      hide Engine.Item, Engine.PushAll, Engine.Broken;
      var res := Item(c.stage, v);
      if !status.Alive? { return c; }
      match res
      case Emit(outs) =>
        var next := PushAll(c.next, outs);
        d := c.(next := next);
      case Break(e) => d := Broken(c, e);
    }

    /** duro.go:439-452: acc and failed. */
    method NextReduce(c: Chain, v: Value) returns (d: Chain)
      requires c.Op? && c.stage.Reduce?
      modifies this
      ensures R(d, W()) == Engine.NextReduce(a, c, v, old(W()))
      decreases ChainSize(c), fuel, 3, 0
    {
      hide Engine.Broken;
      var out := RunStep(Request(c.stage.name, v, Acc(c.st.acc)));
      if !status.Alive? { return c; }
      if out.Fail? { d := Broken(c, out.err); }
      else { d := c.(st := c.st.(acc := out.value)); }
    }

    /** dispatchStage (flow.go:102-122). */
    method NextSwitch(c: Chain, v: Value) returns (d: Chain)
      requires c.Op? && c.stage.Switch?
      modifies this
      ensures R(d, W()) == Engine.NextSwitch(a, c, v, old(W()))
      decreases ChainSize(c), fuel, 3, 0
    {
      hide Engine.Broken, Engine.Forward;
      var out := RunStep(Request(c.stage.name, v, NoExtra));
      if !status.Alive? { return c; }
      if out.Fail? { d := Broken(c, out.err); return; }
      var arm := Find(c.stage.cases, AsKey(out.value));
      FindIsSmaller(c.stage.cases, AsKey(out.value));
      if arm.None? {
        aborted := true;
        d := Broken(c, NoCaseError(c.stage.name, AsKey(out.value)));
      } else {
        var b := Forward(arm.value, v, c.next);
        d := c.(next := b.dest, st := c.st.(failed := b.end.Errored?));
      }
    }

    /** forwardSub (flow.go:458-469). */
    method Forward(arm: Pipeline, v: Value, outer: Chain) returns (b: Chain)
      modifies this
      ensures R(b, W()) == Engine.Forward(a, arm, v, outer, old(W())) && b.Bridge?
      decreases Size(arm) + 1 + ChainSize(outer), fuel, 9, 0
    {
      var c := Feed(Subscribe(arm, Bridge(Open, outer)), v);
      b := Terminator(c);
    }

    /** parallel.go:79-128. */
    method NextParallel(c: Chain, v: Value) returns (d: Chain)
      requires c.Op? && c.stage.Parallel?
      modifies this
      ensures R(d, W()) == Engine.NextParallel(a, c, v, old(W()))
      decreases ChainSize(c), fuel, 3, 0
    {
      hide Engine.Broken;
      if aborted {
        DrainGrows(a, W(), c.st.slots);
        Drain(c.st.slots);
        d := Broken(c.(st := c.st.(slots := [])), ERR_ABORTED);
      } else {
        d := c.(st := c.st.(slots := c.st.slots + [|trace|]));
        LaunchAhead(Request(c.stage.name, v, NoExtra));
      }
    }

    /** fanout.go:336-367. */
    method NextFanOut(c: Chain, v: Value) returns (d: Chain)
      requires c.Op? && c.stage.FanOut?
      modifies this
      ensures R(d, W()) == Engine.NextFanOut(a, c, v, old(W()))
      decreases ChainSize(c), fuel, 3, 0
    {
      hide Engine.Broken;
      var was := aborted;
      var out := RunStep(Request(c.stage.child, v, NoExtra));
      if !status.Alive? { return c; }
      if was { d := Broken(c, ERR_ABORTED); }
      else if out.Fail? { d := Broken(c, Wrap(StageSays(c.stage.name) + CHILD_ENQUEUE_FAILED, out.err)); }
      else { d := c.(st := c.st.(handles := c.st.handles + [out.value])); }
    }

    method PushError(c: Chain, e: Error) returns (d: Chain)
      modifies this
      ensures R(d, W()) == Engine.PushError(a, c, e, old(W()))
      decreases ChainSize(c), fuel, 5, 0
    {
      hide Engine.Broken;
      if !status.Alive? || !c.end.Open? { return c; }
      var at := |trace|;
      match c
      case Sink(outs, _) => d := Sink(outs, Errored(e, at));
      case Bridge(_, dest) =>
        var x := PushError(dest, e);
        d := Bridge(Errored(e, at), x);
      case Op(s, _, st, next) =>
        if s.Parallel? {
          DrainGrows(a, W(), st.slots);
          Drain(st.slots);
          d := Broken(Op(s, Errored(e, at), st.(slots := []), next), e);
        } else {
          var x := PushError(next, e);
          d := Op(s, Errored(e, at), st, x);
        }
    }

    method PushDone(c: Chain) returns (d: Chain)
      modifies this
      ensures R(d, W()) == Engine.PushDone(a, c, old(W()))
      decreases ChainSize(c), fuel, 5, 0
    {
      hide Engine.DoneOp;
      if !status.Alive? || !c.end.Open? { return c; }
      match c
      case Sink(outs, _) => d := Sink(outs, Completed);
      case Bridge(_, dest) => d := Bridge(Completed, dest);
      case Op(s, _, st, next) => d := DoneOp(Op(s, Completed, st, next));
    }

    method DoneOp(c: Chain) returns (d: Chain)
      requires c.Op?
      modifies this
      ensures R(d, W()) == Engine.DoneOp(a, c, old(W()))
      decreases ChainSize(c), fuel, 4, 0
    {
      hide Engine.Feed, Engine.DoneParallel, Engine.DoneFanOut, Engine.DoneFanOutCancel, Engine.PushDone;
      if c.st.failed { return c; }
      match c.stage
      case Reduce(_, _) =>
        var x := Feed(c.next, c.st.acc);
        d := c.(next := x);
      case Parallel(_, _) => d := DoneParallel(c);
      case FanOut(_, _, cancelSiblings) =>
        if cancelSiblings { d := DoneFanOutCancel(c); } else { d := DoneFanOut(c); }
      case _ =>
        var x := PushDone(c.next);
        d := c.(next := x);
    }

    /** parallel.go:134-161. */
    method DoneParallel(c: Chain) returns (d: Chain)
      requires c.Op? && c.stage.Parallel?
      modifies this
      ensures R(d, W()) == Engine.DoneParallel(a, c, old(W()))
      decreases ChainSize(c), fuel, 3, 0
    {
      hide Engine.PushAll, Engine.PushDone, Engine.Broken, ParallelError, Results;
      DrainGrows(a, W(), c.st.slots);
      Drain(c.st.slots);
      if !status.Alive? { return c; }
      var outs := Outcomes(a, c.st.slots);
      var err, stop := FirstParallelError(outs, c.stage.cancelSiblings);
      var next := PushAll(c.next, Results(outs));
      d := c.(st := c.st.(slots := []), next := next);
      SameSize(c.next, next);
      if !status.Alive? { return; }
      if err.Some? {
        aborted := true;
        d := Broken(d, Wrap(StageSays(c.stage.name), err.value));
      } else {
        next := PushDone(next);
        d := c.(st := c.st.(slots := []), next := next);
      }
    }

    /** fanout.go:419-433. */
    method DoneFanOut(c: Chain) returns (d: Chain)
      requires c.Op? && c.stage.FanOut?
      modifies this
      ensures R(d, W()) == Engine.DoneFanOut(a, c, 0, old(W()))
      decreases ChainSize(c), fuel, 3, 0
    {
      hide Engine.PushNext, Engine.PushDone, Engine.Broken, Engine.RunStep;
      d := c;
      SameReflexive(c);
      for i := 0 to |c.st.handles|
        invariant Same(c, d) && d.Op? && d.stage.FanOut? && d.st == c.st && fuel <= old(fuel)
        invariant Engine.DoneFanOut(a, d, i, W()) == Engine.DoneFanOut(a, c, 0, old(W()))
      {
        SameSize(c, d);
        if !status.Alive? { return; }
        var h := c.st.handles[i];
        var was := aborted;
        var out := RunStep(Request(GET_RESULT_NAME, h, NoExtra));
        if !status.Alive? { return; }
        if was { d := Broken(d, ERR_ABORTED); return; }
        if out.Fail? { d := Broken(d, Wrap(ChildSays(c.stage.name, h), out.err)); return; }
        var next := PushNext(d.next, out.value);
        ghost var e := d.(next := next);
        SameTransitive(c, d, e);
        d := d.(next := next);
      }
      SameSize(c, d);
      if !status.Alive? { return; }
      var next := PushDone(d.next);
      d := d.(next := next);
    }

    /** fanout.go:373-418. */
    method DoneFanOutCancel(c: Chain) returns (d: Chain)
      requires c.Op? && c.stage.FanOut?
      modifies this
      ensures R(d, W()) == Engine.DoneFanOutCancel(a, c, old(W()))
      decreases ChainSize(c), fuel, 3, 0
    {
      hide Engine.PushDone, Engine.Broken, Engine.AwaitBatch;
      if c.st.handles == [] {
        var next := PushDone(c.next);
        d := c.(next := next);
        return;
      }
      var ids := UniqueIDs(c.st.handles);
      var was := aborted;
      var out := RunStep(Request(CANCEL_WATCHER_NAME, Items(ids), NoExtra));
      if !status.Alive? { return c; }
      if was { d := Broken(c, ERR_ABORTED); }
      else if out.Fail? { d := Broken(c, Wrap(StageSays(c.stage.name) + WATCHER_ENQUEUE_FAILED, out.err)); }
      else { d := AwaitBatch(c); }
    }

    method AwaitBatch(c: Chain) returns (d: Chain)
      requires c.Op? && c.stage.FanOut?
      modifies this
      ensures R(d, W()) == Engine.AwaitBatch(a, c, old(W()))
      decreases ChainSize(c), fuel, 2, 0
    {
      hide Engine.PushAll, Engine.PushDone, Engine.Broken;
      var out := RunStep(Request(c.stage.name, Items(c.st.handles), NoExtra));
      if !status.Alive? { return c; }
      if out.Fail? { d := Broken(c, out.err); return; }
      var next := PushAll(c.next, AsItems(out.value));
      SameSize(c.next, next);
      next := PushDone(next);
      d := c.(next := next);
    }

    /** RunAll (run.go:49-60). */
    method RunAll(p: Pipeline, shape: string, input: Value) returns (res: Result)
      requires W() == World(fuel, [], {}, {}, false, Alive)
      modifies this
      ensures Final(W(), res) == Engine.RunAll(p, shape, input, a, old(fuel))
    {
      var out := RunStep(Request(SHAPE_STEP_NAME, Unit, NoExtra));
      if out.Fail? { return Failed(Wrap(SHAPE_UNVERIFIED, out.err)); }
      if AsKey(out.value) != shape { return Failed(ShapeError(AsKey(out.value), shape)); }
      var outs, err := Collect(p, input);
      res := if err.Some? then Failed(err.value) else Engine.Values(outs);
    }
  }

}
