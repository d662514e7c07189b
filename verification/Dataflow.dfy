/**
The theorem is that the engine computes what Streams says: pushing items one at a time,
depth first, through nested pipelines, with an abort flag and a checkpoint at every step,
leaves exactly the stream that the composition of the stages' functions makes of the
input, on every run that finishes, whatever fails in it.
 */
module Dataflow {
  import opened Values
  import opened Pipelines
  import opened ParallelChoice
  import opened Engine
  import opened Streams

  // ---- What a chain in mid-run still has to deliver ----

  function Started(f: Fns, trace: seq<Request>, slots: seq<nat>): Option<seq<Outcome>> {
    if slots == [] then Some([])
    else
      var rest := Started(f, trace, slots[1..]);
      if slots[0] >= |trace| || rest.None? then None else Some([f(trace[slots[0]])] + rest.value)
  }

  /** A result that has failed is what it is. */
  ghost function Settled(c: Chain): Stream
    requires HasFailed(c)
  {
    Stream(Collector(c).outs, Broke(Collector(c).end.err))
  }

  /**
  What the collector will hold if this chain is fed s. A Bridge completes one arm of an
  outer stream: what that stream is fed after the arm is on the stack `later`.
   */
  ghost function Delivers(f: Fns, turns: nat, trace: seq<Request>, c: Chain, s: Stream, later: seq<Stream>): Option<Stream> {
    if HasFailed(c) then Some(Settled(c))
    else if !c.end.Open? then None
    else match c
    case Sink(outs, _) => Some(Before(Just(outs), s))
    case Bridge(_, dest) =>
      if later == [] then None else Delivers(f, turns, trace, dest, Before(s, later[0]), later[1..])
    case Op(stage, _, st, next) =>
      var started := Started(f, trace, st.slots);
      if st.failed || started.None? then None
      else Delivers(f, turns, trace, next, StageOut(f, turns, stage, st.acc, started.value, st.handles, s), later)
  }

  lemma {:induction false} SubscribeDelivers(
      f: Fns, turns: nat, trace: seq<Request>, p: Pipeline, dest: Chain, s: Stream, later: seq<Stream>)
    ensures Delivers(f, turns, trace, Subscribe(p, dest), s, later)
         == Delivers(f, turns, trace, dest, Spec(f, turns, p, s), later)
    decreases p
  {
    hide StageOut;
    CollectorOfSubscribe(p, dest);
    match p
    case Empty =>
    case Then(stage, rest) =>
      CollectorOfSubscribe(rest, dest);
      if stage.Sub? {
        var t := Spec(f, turns, stage.inner, s);
        SubscribeDelivers(f, turns, trace, stage.inner, Subscribe(rest, dest), s, later);
        SubscribeDelivers(f, turns, trace, rest, dest, t, later);
      } else {
        assert Started(f, trace, []) == Some([]);
        var t := StageOut(f, turns, stage, if stage.Reduce? then stage.seed else Unit, [], [], s);
        SubscribeDelivers(f, turns, trace, rest, dest, t, later);
      }
  }

  /** Every answer given is the stage function's. */
  ghost predicate Answered(a: Answers, f: Fns, trace: seq<Request>) {
    forall s: nat | s < |trace| && s in a :: a[s] == f(trace[s])
  }

  /** From w to v, in a run that finishes with this trace; a Loop that is given up after
      `turns` iterations would have taken more step IDs than there are. */
  ghost predicate Going(a: Answers, f: Fns, turns: nat, trace: seq<Request>, w: World, v: World) {
    Answered(a, f, trace) && v.status.Alive? && v.trace <= trace && turns + |w.trace| > |trace|
  }

  /** The scope goes on, or has failed. */
  ghost predicate Sound(c: Chain, w: World) { HasFailed(c) || !w.aborted }

  /** What is left for the rest of the input is what there was for all of it. */
  ghost predicate Flows(
      f: Fns, turns: nat, trace: seq<Request>, before: Option<Stream>, r: R, s: Stream, later: seq<Stream>) {
    Sound(r.c, r.w) && Delivers(f, turns, trace, r.c, s, later) == before
  }

  lemma StepFlows(a: Answers, f: Fns, turns: nat, trace: seq<Request>, w: World, req: Request)
    requires Going(a, f, turns, trace, w, RunStep(a, w, req).w) && !w.aborted
    ensures var g := RunStep(a, w, req);
            && w.status.Alive? && g.out == f(req) && g.w.trace == w.trace + [req]
            && (g.out.Ok? ==> !g.w.aborted)
  {}

  /** A chain whose result has failed takes no part any more. */
  lemma FailedFlows(f: Fns, turns: nat, trace: seq<Request>, c: Chain, r: R, t: Stream, s: Stream, later: seq<Stream>)
    requires HasFailed(c) && Same(c, r.c)
    ensures Flows(f, turns, trace, Delivers(f, turns, trace, c, t, later), r, s, later)
  {
    hide Same;
    FailureStays(c, r.c);
  }

  // ---- Items ----

  ghost predicate Comes(y: Stream, g: (World, ItemResult)) {
    match y.end
    case Complete => g.1 == Emit(y.vals) && !g.0.aborted
    case Broke(e) => y.vals == [] && g.1 == Break(e)
    case Lost => false
  }

  lemma {:induction false} ItemFlows(
      a: Answers, f: Fns, turns: nat, trace: seq<Request>, stage: Stage, v: Value, w: World)
    requires ByItem(stage) && !stage.Switch?
    requires Going(a, f, turns, trace, w, Item(a, stage, v, w).0) && !w.aborted
    ensures Comes(ItemOut(f, turns, stage, v), Item(a, stage, v, w))
    decreases StageSize(stage), w.fuel, 2, 0
  {
    hide RunStep, LoopItem, RescueItem, Collect, AlongsideItem, Spec, LoopOut, Rescued, Accompanied;
    match stage
    case Leaf(kind, name) => StepFlows(a, f, turns, trace, w, Request(name, v, NoExtra));
    case Loop(name, body, bound) => LoopFlows(a, f, turns, trace, name, body, bound, 1, v, w);
    case Rescue(name, p) => RescueFlows(a, f, turns, trace, name, p, v, w);
    case Via(_, p) => CollectFlows(a, f, turns, trace, p, v, w);
    case Alongside(name, p) => AlongsideFlows(a, f, turns, trace, name, p, v, w);
    case _ =>
  }

  lemma {:induction false} LoopFlows(
      a: Answers, f: Fns, turns: nat, trace: seq<Request>, name: string, body: Pipeline, bound: nat, i: nat, v: Value, w: World)
    requires Going(a, f, turns, trace, w, LoopItem(a, name, body, bound, i, v, w).0) && !w.aborted
    requires 1 <= i && (bound > 0 ==> i <= bound)
    ensures Comes(LoopOut(f, turns, name, body, bound, i, v), LoopItem(a, name, body, bound, i, v, w))
    decreases 2 + Size(body), w.fuel, 1, 0
  {
    hide Collect, Spec, RunStep, BoundError;
    var s := Collect(a, body, v, w);
    CollectFlows(a, f, turns, trace, body, v, w);
    if s.err.None? && s.outs != [] {
      var last := s.outs[|s.outs| - 1];
      var req := Request(name, last, NoExtra);
      var g := RunStep(a, s.w, req);
      StepFlows(a, f, turns, trace, s.w, req);
      if g.out.Ok? && g.out.value != Bool(true) && i != bound {
        LoopFlows(a, f, turns - 1, trace, name, body, bound, i + 1, last, g.w);
      }
    }
  }

  lemma {:induction false} RescueFlows(
      a: Answers, f: Fns, turns: nat, trace: seq<Request>, name: string, p: Pipeline, v: Value, w: World)
    requires Going(a, f, turns, trace, w, RescueItem(a, name, p, v, w).0) && !w.aborted
    ensures Comes(Rescued(f, name, v, Spec(f, turns, p, Just([v]))), RescueItem(a, name, p, v, w))
    decreases 2 + Size(p), w.fuel, 1, 0
  {
    hide Collect, Spec, RunStep;
    assert w.(aborted := false) == w;
    var s := Collect(a, p, v, w);
    CollectFlows(a, f, turns, trace, p, v, w);
    if s.err.Some? {
      StepFlows(a, f, turns, trace, s.w.(aborted := false), Request(name, v, Cause(s.err.value.msg)));
    }
  }

  lemma {:induction false} AlongsideFlows(
      a: Answers, f: Fns, turns: nat, trace: seq<Request>, name: string, p: Pipeline, v: Value, w: World)
    requires Going(a, f, turns, trace, w, AlongsideItem(a, name, p, v, w).0) && !w.aborted
    ensures Comes(Accompanied(f, name, v, Spec(f, turns, p, Just([v]))), AlongsideItem(a, name, p, v, w))
    decreases 2 + Size(p), w.fuel, 1, 0
  {
    hide Collect, Spec, RunStep;
    var slot := |w.trace|;
    var w1 := LaunchAhead(w, Request(name, v, NoExtra));
    var s := Collect(a, p, v, w1);
    CollectFlows(a, f, turns, trace, p, v, w1);
    assert slot < |s.w.trace| <= |trace| && slot in a;
    assert a[slot] == f(trace[slot]) && trace[slot] == Request(name, v, NoExtra);
    if s.err.None? && a[slot].Fail? {
      StepFlows(a, f, turns, trace, Await(a, s.w, slot), Request(name, v, Cause(a[slot].err.msg)));
    }
  }

  lemma {:induction false} CollectFlows(
      a: Answers, f: Fns, turns: nat, trace: seq<Request>, p: Pipeline, v: Value, w: World)
    requires Going(a, f, turns, trace, w, Collect(a, p, v, w).w) && !w.aborted
    ensures var s, y := Collect(a, p, v, w), Spec(f, turns, p, Just([v]));
            && s.outs == y.vals
            && (y.end == if s.err.Some? then Broke(s.err.value) else Complete)
            && (s.err.None? ==> !s.w.aborted)
    decreases Size(p) + 1, w.fuel, 9, 0
  {
    hide Feed, Spec;
    var sink := Sink([], Open);
    var c := Subscribe(p, sink);
    SubscribeDelivers(f, turns, trace, p, sink, Just([v]), []);
    CollectorOfSubscribe(p, sink);
    FeedFlows(a, f, turns, trace, c, v, [], w);
    var r := Feed(a, c, v, w);
    TerminatorOfSubscribe(p, sink);
    SameTerminator(c, r.c);
    CollectorOfTerminator(r.c);
  }

  // ---- Events ----

  /** What the collector is left with once c is complete. */
  ghost function Left(f: Fns, turns: nat, trace: seq<Request>, c: Chain, later: seq<Stream>): Option<Stream> {
    if HasFailed(c) then Some(Settled(c))
    else match Terminator(c)
    case Sink(outs, end) => if end.Completed? then Some(Just(outs)) else None
    case Bridge(end, dest) => if end.Completed? && later != [] then Delivers(f, turns, trace, dest, later[0], later[1..]) else None
    case Op(_, _, _, _) => None
  }

  /** The collector is left with what there was to deliver. */
  ghost predicate Closes(f: Fns, turns: nat, trace: seq<Request>, before: Option<Stream>, r: R, later: seq<Stream>) {
    Sound(r.c, r.w) && Left(f, turns, trace, r.c, later) == before
  }

  lemma FailedCloses(f: Fns, turns: nat, trace: seq<Request>, c: Chain, r: R, t: Stream, later: seq<Stream>)
    requires HasFailed(c) && Same(c, r.c)
    ensures Closes(f, turns, trace, Delivers(f, turns, trace, c, t, later), r, later)
  {
    hide Same;
    FailureStays(c, r.c);
  }

  lemma {:induction false} FeedFlows(
      a: Answers, f: Fns, turns: nat, trace: seq<Request>, c: Chain, v: Value, later: seq<Stream>, w: World)
    requires Going(a, f, turns, trace, w, Feed(a, c, v, w).w) && Sound(c, w)
    requires Delivers(f, turns, trace, c, Just([v]), later).Some?
    ensures Closes(f, turns, trace, Delivers(f, turns, trace, c, Just([v]), later), Feed(a, c, v, w), later)
    decreases ChainSize(c), w.fuel, 8, 0
  {
    hide PushNext, PushDone, Delivers, Sound, Left;
    assert Before(Just([v]), Just([])) == Just([v]);
    var r := PushNext(a, c, v, w);
    NextFlows(a, f, turns, trace, c, v, Just([]), later, w);
    SameSize(c, r.c);
    DoneFlows(a, f, turns, trace, r.c, later, r.w);
  }

  lemma {:induction false} NextFlows(
      a: Answers, f: Fns, turns: nat, trace: seq<Request>, c: Chain, v: Value, s: Stream, later: seq<Stream>, w: World)
    requires Going(a, f, turns, trace, w, PushNext(a, c, v, w).w) && Sound(c, w)
    requires Delivers(f, turns, trace, c, Before(Just([v]), s), later).Some?
    ensures Flows(f, turns, trace, Delivers(f, turns, trace, c, Before(Just([v]), s), later), PushNext(a, c, v, w), s, later)
    decreases ChainSize(c), w.fuel, 5, 0
  {
    hide NextItem, NextReduce, NextSwitch, NextParallel, NextFanOut, StageOut;
    if HasFailed(c) {
      hide PushNext;
      FailedFlows(f, turns, trace, c, PushNext(a, c, v, w), Before(Just([v]), s), s, later);
    } else {
      match c
      case Sink(outs, _) => assert outs + ([v] + s.vals) == (outs + [v]) + s.vals;
      case Bridge(_, dest) =>
        BeforeIsAssociative(Just([v]), s, later[0]);
        NextFlows(a, f, turns, trace, dest, v, Before(s, later[0]), later[1..], w);
      case Op(stage, _, st, next) =>
        match stage
        case Reduce(_, _) => NextReduceFlows(a, f, turns, trace, c, v, s, later, w);
        case Switch(_, _) => NextSwitchFlows(a, f, turns, trace, c, v, s, later, w);
        case Parallel(_, _) => NextParallelFlows(a, f, turns, trace, c, v, s, later, w);
        case FanOut(_, _, _) => NextFanOutFlows(a, f, turns, trace, c, v, s, later, w);
        case _ => NextItemFlows(a, f, turns, trace, c, v, s, later, w);
    }
  }

  lemma BeforeIsAssociative(s: Stream, t: Stream, u: Stream)
    ensures Before(Before(s, t), u) == Before(s, Before(t, u))
  {
    assert (s.vals + t.vals) + u.vals == s.vals + (t.vals + u.vals);
  }

  predicate ByItem(s: Stage) { !s.Reduce? && !s.Parallel? && !s.FanOut? }

  /** A stage that goes item by item, on one more item. */
  lemma EachHead(
      f: Fns, turns: nat, stage: Stage, acc: Value, started: seq<Outcome>, handles: seq<Value>, v: Value, s: Stream)
    requires ByItem(stage)
    ensures StageOut(f, turns, stage, acc, started, handles, s) == Each(f, turns, stage, s)
    ensures StageOut(f, turns, stage, acc, started, handles, Before(Just([v]), s))
         == Before(ItemOut(f, turns, stage, v), Each(f, turns, stage, s))
  {
    hide ItemOut;
    var t := Before(Just([v]), s);
    assert t.vals[0] == v && t.(vals := t.vals[1..]) == s;
  }

  /** An error goes through every stage, and nothing else comes out any more. */
  lemma ErrorPasses(
      f: Fns, turns: nat, stage: Stage, acc: Value, started: seq<Outcome>, handles: seq<Value>, e: Error)
    ensures StageOut(f, turns, stage, acc, started, handles, Breaks(e)) == Breaks(e)
  {
    hide ItemOut;
  }

  lemma {:induction false} ErrorFlows(
      a: Answers, f: Fns, turns: nat, trace: seq<Request>, c: Chain, e: Error, s: Stream, later: seq<Stream>, w: World)
    requires PushError(a, c, e, w).w.status.Alive? && Delivers(f, turns, trace, c, Breaks(e), later).Some?
    ensures HasFailed(PushError(a, c, e, w).c)
    ensures Flows(f, turns, trace, Delivers(f, turns, trace, c, Breaks(e), later), PushError(a, c, e, w), s, later)
    decreases ChainSize(c), w.fuel, 5, 0
  {
    hide StageOut, Drain;
    if HasFailed(c) {
      hide PushError;
      FailureStays(c, PushError(a, c, e, w).c);
      FailedFlows(f, turns, trace, c, PushError(a, c, e, w), Breaks(e), s, later);
    } else {
      match c
      case Sink(outs, _) => assert outs + [] == outs;
      case Bridge(_, dest) => ErrorFlows(a, f, turns, trace, dest, e, s, later[1..], w);
      case Op(stage, _, st, next) =>
        ErrorPasses(f, turns, stage, st.acc, Started(f, trace, st.slots).value, st.handles, e);
        if stage.Parallel? { DrainGrows(a, w, st.slots); }
        ErrorFlows(a, f, turns, trace, next, e, s, later, if stage.Parallel? then Drain(a, w, st.slots) else w);
    }
  }

  lemma {:induction false} BrokenFlows(
      a: Answers, f: Fns, turns: nat, trace: seq<Request>, c: Chain, e: Error, s: Stream, later: seq<Stream>, w: World)
    requires c.Op? && Broken(a, c, e, w).w.status.Alive? && Delivers(f, turns, trace, c.next, Breaks(e), later).Some?
    ensures HasFailed(Broken(a, c, e, w).c)
    ensures Flows(f, turns, trace, Delivers(f, turns, trace, c.next, Breaks(e), later), Broken(a, c, e, w), s, later)
  {
    hide PushError;
    ErrorFlows(a, f, turns, trace, c.next, e, s, later, w);
  }

  /** A chain whose own flag is down delivers what the next one does. */
  lemma OpDelivers(f: Fns, turns: nat, trace: seq<Request>, c: Chain, s: Stream, later: seq<Stream>)
    requires c.Op? && Delivers(f, turns, trace, c, s, later).Some? && !HasFailed(c)
    ensures c.end.Open? && !c.st.failed && Started(f, trace, c.st.slots).Some? && !HasFailed(c.next)
    ensures
      var t := StageOut(f, turns, c.stage, c.st.acc, Started(f, trace, c.st.slots).value, c.st.handles, s);
      Delivers(f, turns, trace, c, s, later) == Delivers(f, turns, trace, c.next, t, later)
  {
    hide StageOut;
  }

  /** An operator in which nothing has changed but the chain behind it. */
  lemma OpFlows(f: Fns, turns: nat, trace: seq<Request>, c: Chain, r: R, t: Stream, s: Stream, before: Option<Stream>, later: seq<Stream>)
    requires c.Op? && c.end.Open? && !c.st.failed && Started(f, trace, c.st.slots).Some?
    requires t == StageOut(f, turns, c.stage, c.st.acc, Started(f, trace, c.st.slots).value, c.st.handles, s)
    requires Flows(f, turns, trace, before, r, t, later)
    ensures Flows(f, turns, trace, before, Fwd(c, r), s, later)
  {
    hide StageOut;
  }

  lemma {:induction false} NextItemFlows(
      a: Answers, f: Fns, turns: nat, trace: seq<Request>, c: Chain, v: Value, s: Stream, later: seq<Stream>, w: World)
    requires c.Op? && ByItem(c.stage) && !c.stage.Switch? && !HasFailed(c) && !w.aborted
    requires Going(a, f, turns, trace, w, NextItem(a, c, v, w).w)
    requires Delivers(f, turns, trace, c, Before(Just([v]), s), later).Some?
    ensures Flows(f, turns, trace, Delivers(f, turns, trace, c, Before(Just([v]), s), later), NextItem(a, c, v, w), s, later)
    decreases ChainSize(c), w.fuel, 3, 0
  {
    hide Item, PushAll, Broken, ItemOut, StageOut, Each, Delivers;
    OpDelivers(f, turns, trace, c, Before(Just([v]), s), later);
    EachHead(f, turns, c.stage, c.st.acc, Started(f, trace, c.st.slots).value, c.st.handles, v, s);
    var g := Item(a, c.stage, v, w);
    ItemFlows(a, f, turns, trace, c.stage, v, w);
    var y, ys := ItemOut(f, turns, c.stage, v), Each(f, turns, c.stage, s);
    var before := Delivers(f, turns, trace, c.next, Before(y, ys), later);
    if y.end.Complete? {
      assert y == Just(g.1.outs);
      AllFlows(a, f, turns, trace, c.next, g.1.outs, ys, later, g.0);
      OpFlows(f, turns, trace, c, PushAll(a, c.next, g.1.outs, g.0), ys, s, before, later);
    } else {
      assert Before(y, ys) == Breaks(g.1.err);
      BrokenFlows(a, f, turns, trace, c, g.1.err, s, later, g.0);
    }
  }

  lemma {:induction false} AllFlows(
      a: Answers, f: Fns, turns: nat, trace: seq<Request>, c: Chain, vs: seq<Value>, s: Stream, later: seq<Stream>, w: World)
    requires Going(a, f, turns, trace, w, PushAll(a, c, vs, w).w) && Sound(c, w)
    requires Delivers(f, turns, trace, c, Before(Just(vs), s), later).Some?
    ensures Flows(f, turns, trace, Delivers(f, turns, trace, c, Before(Just(vs), s), later), PushAll(a, c, vs, w), s, later)
    decreases ChainSize(c), w.fuel, 8, |vs|
  {
    hide PushNext, Delivers, Sound;
    if vs == [] {
      assert Before(Just(vs), s) == s;
    } else {
      assert Just(vs) == Before(Just([vs[0]]), Just(vs[1..]));
      BeforeIsAssociative(Just([vs[0]]), Just(vs[1..]), s);
      var r := PushNext(a, c, vs[0], w);
      NextFlows(a, f, turns, trace, c, vs[0], Before(Just(vs[1..]), s), later, w);
      SameSize(c, r.c);
      AllFlows(a, f, turns, trace, r.c, vs[1..], s, later, r.w);
    }
  }

  lemma {:induction false} NextReduceFlows(
      a: Answers, f: Fns, turns: nat, trace: seq<Request>, c: Chain, v: Value, s: Stream, later: seq<Stream>, w: World)
    requires c.Op? && c.stage.Reduce? && !HasFailed(c) && !w.aborted
    requires Going(a, f, turns, trace, w, NextReduce(a, c, v, w).w)
    requires Delivers(f, turns, trace, c, Before(Just([v]), s), later).Some?
    ensures Flows(f, turns, trace, Delivers(f, turns, trace, c, Before(Just([v]), s), later), NextReduce(a, c, v, w), s, later)
    decreases ChainSize(c), w.fuel, 3, 0
  {
    hide RunStep, Broken;
    var t := Before(Just([v]), s);
    assert t.vals[0] == v && t.(vals := t.vals[1..]) == s;
    var req := Request(c.stage.name, v, Acc(c.st.acc));
    var g := RunStep(a, w, req);
    StepFlows(a, f, turns, trace, w, req);
    if g.out.Fail? { BrokenFlows(a, f, turns, trace, c, g.out.err, s, later, g.w); }
  }

  lemma {:induction false} RouteIsFind(cases: Cases, key: string)
    ensures Route(cases, key) == Find(cases, key)
  {
    match cases
    case NoCase =>
    case Case(_, _, rest) => RouteIsFind(rest, key);
  }

  lemma {:induction false} NextSwitchFlows(
      a: Answers, f: Fns, turns: nat, trace: seq<Request>, c: Chain, v: Value, s: Stream, later: seq<Stream>, w: World)
    requires c.Op? && c.stage.Switch? && !HasFailed(c) && !w.aborted
    requires Going(a, f, turns, trace, w, NextSwitch(a, c, v, w).w)
    requires Delivers(f, turns, trace, c, Before(Just([v]), s), later).Some?
    ensures Flows(f, turns, trace, Delivers(f, turns, trace, c, Before(Just([v]), s), later), NextSwitch(a, c, v, w), s, later)
    decreases ChainSize(c), w.fuel, 3, 0
  {
    hide RunStep, Broken, Forward, Spec, Find, Route, StageOut, Each, Delivers;
    OpDelivers(f, turns, trace, c, Before(Just([v]), s), later);
    EachHead(f, turns, c.stage, c.st.acc, Started(f, trace, c.st.slots).value, c.st.handles, v, s);
    var req := Request(c.stage.name, v, NoExtra);
    var g := RunStep(a, w, req);
    StepFlows(a, f, turns, trace, w, req);
    if g.out.Fail? {
      BrokenFlows(a, f, turns, trace, c, g.out.err, s, later, g.w);
    } else {
      var key := AsKey(g.out.value);
      RouteIsFind(c.stage.cases, key);
      FindIsSmaller(c.stage.cases, key);
      var arm := Find(c.stage.cases, key);
      if arm.None? {
        BrokenFlows(a, f, turns, trace, c, NoCaseError(c.stage.name, key), s, later, g.w.(aborted := true));
      } else {
        ArmFlows(a, f, turns, trace, c, arm.value, v, s, later, g.w);
      }
    }
  }

  lemma {:induction false} ArmFlows(
      a: Answers, f: Fns, turns: nat, trace: seq<Request>, c: Chain, arm: Pipeline, v: Value, s: Stream, later: seq<Stream>, w: World)
    requires c.Op? && ByItem(c.stage) && c.end.Open? && !HasFailed(c.next) && !w.aborted
    requires Started(f, trace, c.st.slots).Some? && Going(a, f, turns, trace, w, Forward(a, arm, v, c.next, w).w)
    requires Delivers(f, turns, trace, c.next, Before(Spec(f, turns, arm, Just([v])), Each(f, turns, c.stage, s)), later).Some?
    ensures
      var r := Forward(a, arm, v, c.next, w);
      var before := Delivers(f, turns, trace, c.next, Before(Spec(f, turns, arm, Just([v])), Each(f, turns, c.stage, s)), later);
      Flows(f, turns, trace, before, R(c.(next := r.c.dest, st := c.st.(failed := r.c.end.Errored?)), r.w), s, later)
    decreases Size(arm) + 1 + ChainSize(c.next), w.fuel, 10, 0
  {
    hide Forward, Spec, Each, StageOut;
    EachHead(f, turns, c.stage, c.st.acc, Started(f, trace, c.st.slots).value, c.st.handles, v, s);
    ForwardFlows(a, f, turns, trace, arm, v, c.next, Each(f, turns, c.stage, s), later, w);
  }

  lemma {:induction false} ForwardFlows(
      a: Answers, f: Fns, turns: nat, trace: seq<Request>, arm: Pipeline, v: Value, c: Chain, s: Stream, later: seq<Stream>, w: World)
    requires Going(a, f, turns, trace, w, Forward(a, arm, v, c, w).w) && !HasFailed(c) && !w.aborted
    requires Delivers(f, turns, trace, c, Before(Spec(f, turns, arm, Just([v])), s), later).Some?
    ensures
      var r := Forward(a, arm, v, c, w);
      && Flows(f, turns, trace, Delivers(f, turns, trace, c, Before(Spec(f, turns, arm, Just([v])), s), later), R(r.c.dest, r.w), s, later)
      && (HasFailed(r.c.dest) || r.c.end.Completed?)
    decreases Size(arm) + 1 + ChainSize(c), w.fuel, 9, 0
  {
    hide Feed, Spec;
    var b := Bridge(Open, c);
    var stack := [s] + later;
    assert stack[0] == s && stack[1..] == later;
    var inner := Subscribe(arm, b);
    SubscribeDelivers(f, turns, trace, arm, b, Just([v]), stack);
    CollectorOfSubscribe(arm, b);
    FeedFlows(a, f, turns, trace, inner, v, stack, w);
    var r := Feed(a, inner, v, w);
    TerminatorOfSubscribe(arm, b);
    SameTerminator(inner, r.c);
    CollectorOfTerminator(r.c);
  }

  lemma {:induction false} StartedAppend(f: Fns, trace: seq<Request>, slots: seq<nat>, n: nat)
    requires Started(f, trace, slots).Some? && n < |trace|
    ensures Started(f, trace, slots + [n]) == Some(Started(f, trace, slots).value + [f(trace[n])])
  {
    if slots == [] {
      var one := slots + [n];
      assert one == [n] && one[1..] == [] && Started(f, trace, []) == Some([]);
      assert [f(trace[n])] + [] == [] + [f(trace[n])];
    } else {
      assert (slots + [n])[1..] == slots[1..] + [n];
      StartedAppend(f, trace, slots[1..], n);
      var head, rest := f(trace[slots[0]]), Started(f, trace, slots[1..]).value;
      assert [head] + (rest + [f(trace[n])]) == ([head] + rest) + [f(trace[n])];
    }
  }

  lemma {:induction false} NextParallelFlows(
      a: Answers, f: Fns, turns: nat, trace: seq<Request>, c: Chain, v: Value, s: Stream, later: seq<Stream>, w: World)
    requires c.Op? && c.stage.Parallel? && !HasFailed(c) && !w.aborted
    requires Going(a, f, turns, trace, w, NextParallel(a, c, v, w).w)
    requires Delivers(f, turns, trace, c, Before(Just([v]), s), later).Some?
    ensures Flows(f, turns, trace, Delivers(f, turns, trace, c, Before(Just([v]), s), later), NextParallel(a, c, v, w), s, later)
    decreases ChainSize(c), w.fuel, 3, 0
  {
    hide Batch;
    var t := Before(Just([v]), s);
    assert t.vals[0] == v && t.vals[1..] == s.vals;
    var n, name := |w.trace|, c.stage.name;
    assert trace[n] == Request(name, v, NoExtra);
    StartedAppend(f, trace, c.st.slots, n);
    var started := Started(f, trace, c.st.slots).value;
    assert started + Map(f, name, t.vals) == (started + [f(trace[n])]) + Map(f, name, s.vals);
  }

  lemma {:induction false} NextFanOutFlows(
      a: Answers, f: Fns, turns: nat, trace: seq<Request>, c: Chain, v: Value, s: Stream, later: seq<Stream>, w: World)
    requires c.Op? && c.stage.FanOut? && !HasFailed(c) && !w.aborted
    requires Going(a, f, turns, trace, w, NextFanOut(a, c, v, w).w)
    requires Delivers(f, turns, trace, c, Before(Just([v]), s), later).Some?
    ensures Flows(f, turns, trace, Delivers(f, turns, trace, c, Before(Just([v]), s), later), NextFanOut(a, c, v, w), s, later)
    decreases ChainSize(c), w.fuel, 3, 0
  {
    hide RunStep, Broken, Awaited, Gotten;
    var t := Before(Just([v]), s);
    assert t.vals[0] == v && t.vals[1..] == s.vals;
    var req := Request(c.stage.child, v, NoExtra);
    var g := RunStep(a, w, req);
    StepFlows(a, f, turns, trace, w, req);
    var rest := Before(Enqueued(f, c.stage.name, c.stage.child, s.vals), Stream([], s.end));
    if g.out.Fail? {
      BrokenFlows(a, f, turns, trace, c, Wrap(StageSays(c.stage.name) + CHILD_ENQUEUE_FAILED, g.out.err), s, later, g.w);
    } else {
      var handle := g.out.value;
      BeforeIsAssociative(Just([handle]), Enqueued(f, c.stage.name, c.stage.child, s.vals), Stream([], s.end));
      BeforeIsAssociative(Just(c.st.handles), Just([handle]), rest);
    }
  }

  // ---- Completion ----

  lemma {:induction false} DoneFlows(
      a: Answers, f: Fns, turns: nat, trace: seq<Request>, c: Chain, later: seq<Stream>, w: World)
    requires Going(a, f, turns, trace, w, PushDone(a, c, w).w) && Sound(c, w)
    requires Delivers(f, turns, trace, c, Just([]), later).Some?
    ensures Closes(f, turns, trace, Delivers(f, turns, trace, c, Just([]), later), PushDone(a, c, w), later)
    decreases ChainSize(c), w.fuel, 5, 0
  {
    hide DoneOp, StageOut;
    if HasFailed(c) {
      hide PushDone;
      FailedCloses(f, turns, trace, c, PushDone(a, c, w), Just([]), later);
    } else {
      match c
      case Sink(outs, _) => assert outs + [] == outs;
      case Bridge(_, dest) => assert Before(Just([]), later[0]) == later[0];
      case Op(stage, _, st, next) => DoneOpFlows(a, f, turns, trace, Op(stage, Completed, st, next), later, w);
    }
  }

  /** What an operator that has seen completion still owes the next one. */
  ghost function Owes(f: Fns, turns: nat, trace: seq<Request>, c: Chain): Stream
    requires c.Op? && Started(f, trace, c.st.slots).Some?
  {
    StageOut(f, turns, c.stage, c.st.acc, Started(f, trace, c.st.slots).value, c.st.handles, Just([]))
  }

  /** c has seen completion, and what it owes can be delivered. */
  ghost predicate Owing(f: Fns, turns: nat, trace: seq<Request>, c: Chain, later: seq<Stream>, w: World) {
    && c.Op? && !c.st.failed && Started(f, trace, c.st.slots).Some? && !HasFailed(c.next) && !w.aborted
    && Delivers(f, turns, trace, c.next, Owes(f, turns, trace, c), later).Some?
  }

  lemma {:induction false} DoneOpFlows(
      a: Answers, f: Fns, turns: nat, trace: seq<Request>, c: Chain, later: seq<Stream>, w: World)
    requires Owing(f, turns, trace, c, later, w) && Going(a, f, turns, trace, w, DoneOp(a, c, w).w)
    ensures Closes(f, turns, trace, Delivers(f, turns, trace, c.next, Owes(f, turns, trace, c), later), DoneOp(a, c, w), later)
    decreases ChainSize(c), w.fuel, 4, 0
  {
    hide Feed, DoneParallel, DoneFanOut, DoneFanOutCancel, PushDone, Delivers, StageOut;
    OwesByKind(f, turns, trace, c);
    match c.stage
    case Reduce(_, _) => FeedFlows(a, f, turns, trace, c.next, c.st.acc, later, w);
    case Parallel(_, _) => DoneParallelFlows(a, f, turns, trace, c, later, w);
    case FanOut(_, _, cancelSiblings) =>
      if cancelSiblings {
        DoneFanOutCancelFlows(a, f, turns, trace, c, later, w);
      } else {
        assert c.st.handles[0..] == c.st.handles;
        DoneFanOutFlows(a, f, turns, trace, c, 0, later, w);
      }
    case _ => DoneFlows(a, f, turns, trace, c.next, later, w);
  }

  lemma OwesByKind(f: Fns, turns: nat, trace: seq<Request>, c: Chain)
    requires c.Op? && Started(f, trace, c.st.slots).Some?
    ensures c.stage.Reduce? ==> Owes(f, turns, trace, c) == Just([c.st.acc])
    ensures c.stage.FanOut? ==>
              Owes(f, turns, trace, c)
              == if c.stage.cancelSiblings then Awaited(f, c.stage.name, c.st.handles) else Gotten(f, c.stage.name, c.st.handles)
    ensures ByItem(c.stage) ==> Owes(f, turns, trace, c) == Just([])
  {
    hide Gotten, Awaited, Batch;
    assert Before(Just(c.st.handles), Before(Just([]), Just([]))) == Just(c.st.handles);
    if ByItem(c.stage) { assert Owes(f, turns, trace, c) == Each(f, turns, c.stage, Just([])); }
  }

  lemma {:induction false} AllStarted(a: Answers, f: Fns, trace: seq<Request>, w: World, slots: seq<nat>)
    requires Answered(a, f, trace) && Started(f, trace, slots).Some? && Drain(a, w, slots).status.Alive?
    ensures Outcomes(a, slots) == Started(f, trace, slots).value
    decreases |slots|
  {
    if slots != [] {
      DrainGrows(a, Await(a, w, slots[0]), slots[1..]);
      AllStarted(a, f, trace, Await(a, w, slots[0]), slots[1..]);
      assert Outcomes(a, slots) == [Answer(a, slots[0])] + Outcomes(a, slots[1..]);
    }
  }

  lemma {:induction false} PrefixIsResults(outs: seq<Outcome>)
    ensures Prefix(outs) == Results(outs)
  {
    FirstFailureMeaning(outs);
    if outs != [] && outs[0].Ok? {
      PrefixIsResults(outs[1..]);
      assert Results(outs) == [outs[0].value] + Results(outs[1..]);
    }
  }

  lemma {:induction false} FirstIsFirst(outs: seq<Outcome>)
    ensures First(outs, false).None? <==> FirstFailure(outs) >= |outs|
    ensures First(outs, true).None? <==> FirstGenuine(outs) >= |outs|
    ensures var k := FirstFailure(outs); k < |outs| ==> outs[k].Fail? && First(outs, false).value == outs[k].err
    ensures var g := FirstGenuine(outs); g < |outs| ==> outs[g].Fail? && First(outs, true).value == outs[g].err
  {
    FirstFailureMeaning(outs);
    FirstGenuineMeaning(outs);
    if outs != [] {
      FirstFailureMeaning(outs[1..]);
      FirstGenuineMeaning(outs[1..]);
      FirstIsFirst(outs[1..]);
    }
  }

  lemma BatchIs(name: string, cancelSiblings: bool, outs: seq<Outcome>)
    ensures
      var err := ParallelError(outs, cancelSiblings);
      Batch(name, cancelSiblings, outs)
        == Before(Just(Results(outs)), if err.Some? then Breaks(Wrap(StageSays(name), err.value)) else Just([]))
  {
    PrefixIsResults(outs);
    FirstIsFirst(outs);
    FirstFailureMeaning(outs);
    FirstGenuineMeaning(outs);
  }

  lemma {:induction false} DoneParallelFlows(
      a: Answers, f: Fns, turns: nat, trace: seq<Request>, c: Chain, later: seq<Stream>, w: World)
    requires Owing(f, turns, trace, c, later, w) && c.stage.Parallel? && Going(a, f, turns, trace, w, DoneParallel(a, c, w).w)
    ensures Closes(f, turns, trace, Delivers(f, turns, trace, c.next, Owes(f, turns, trace, c), later), DoneParallel(a, c, w), later)
    decreases ChainSize(c), w.fuel, 3, 0
  {
    hide Drain, EmitParallel, Delivers, Batch;
    var w1 := Drain(a, w, c.st.slots);
    DrainGrows(a, w, c.st.slots);
    AllStarted(a, f, trace, w, c.st.slots);
    var outs := Outcomes(a, c.st.slots);
    assert outs + Map(f, c.stage.name, []) == outs;
    BatchIs(c.stage.name, c.stage.cancelSiblings, outs);
    EmitFlows(a, f, turns, trace, c.(st := c.st.(slots := [])), outs, later, w1);
  }

  lemma {:induction false} EmitFlows(
      a: Answers, f: Fns, turns: nat, trace: seq<Request>, c: Chain, outs: seq<Outcome>, later: seq<Stream>, w: World)
    requires c.Op? && c.stage.Parallel? && !HasFailed(c.next) && !w.aborted
    requires Going(a, f, turns, trace, w, EmitParallel(a, c, outs, w).w)
    requires var err := ParallelError(outs, c.stage.cancelSiblings);
             var rest := if err.Some? then Breaks(Wrap(StageSays(c.stage.name), err.value)) else Just([]);
             Delivers(f, turns, trace, c.next, Before(Just(Results(outs)), rest), later).Some?
    ensures
      var err := ParallelError(outs, c.stage.cancelSiblings);
      var rest := if err.Some? then Breaks(Wrap(StageSays(c.stage.name), err.value)) else Just([]);
      Closes(f, turns, trace, Delivers(f, turns, trace, c.next, Before(Just(Results(outs)), rest), later),
             EmitParallel(a, c, outs, w), later)
    decreases ChainSize(c), w.fuel, 2, 0
  {
    hide PushAll, PushDone, Broken, Delivers, ParallelError, Results;
    var err := ParallelError(outs, c.stage.cancelSiblings);
    var rest := if err.Some? then Breaks(Wrap(StageSays(c.stage.name), err.value)) else Just([]);
    var r1 := PushAll(a, c.next, Results(outs), w);
    AllFlows(a, f, turns, trace, c.next, Results(outs), rest, later, w);
    SameSize(c.next, r1.c);
    if err.Some? {
      BrokenFlows(a, f, turns, trace, c.(next := r1.c), rest.end.err, Just([]), later, r1.w.(aborted := true));
      assert forall d, x | HasFailed(d) :: Delivers(f, turns, trace, d, x, later) == Some(Settled(d)) by { FailedDelivers(f, turns, trace, later); }
    } else {
      DoneFlows(a, f, turns, trace, r1.c, later, r1.w);
    }
  }

  lemma FailedDelivers(f: Fns, turns: nat, trace: seq<Request>, later: seq<Stream>)
    ensures forall d, x | HasFailed(d) :: Delivers(f, turns, trace, d, x, later) == Some(Settled(d))
  {
  }

  lemma {:induction false} DoneFanOutFlows(
      a: Answers, f: Fns, turns: nat, trace: seq<Request>, c: Chain, i: nat, later: seq<Stream>, w: World)
    requires c.Op? && c.stage.FanOut? && i <= |c.st.handles| && Sound(c.next, w)
    requires Going(a, f, turns, trace, w, DoneFanOut(a, c, i, w).w)
    requires Delivers(f, turns, trace, c.next, Gotten(f, c.stage.name, c.st.handles[i..]), later).Some?
    ensures Closes(f, turns, trace, Delivers(f, turns, trace, c.next, Gotten(f, c.stage.name, c.st.handles[i..]), later),
                   DoneFanOut(a, c, i, w), later)
    decreases ChainSize(c), w.fuel, 3, |c.st.handles| - i
  {
    hide RunStep, PushDone, PushNext, Broken, Delivers;
    if HasFailed(c.next) {
      hide DoneFanOut;
      FailedDelivers(f, turns, trace, later);
      FailureStays(c, DoneFanOut(a, c, i, w).c);
    } else if i == |c.st.handles| {
      DoneFlows(a, f, turns, trace, c.next, later, w);
    } else {
      var h := c.st.handles[i];
      var rest := c.st.handles[i + 1..];
      assert c.st.handles[i..][0] == h && c.st.handles[i..][1..] == rest;
      var req := Request(GET_RESULT_NAME, h, NoExtra);
      var g := RunStep(a, w, req);
      StepFlows(a, f, turns, trace, w, req);
      if g.out.Fail? {
        FailedDelivers(f, turns, trace, later);
        BrokenFlows(a, f, turns, trace, c, Wrap(ChildSays(c.stage.name, h), g.out.err), Just([]), later, g.w);
      } else {
        var r1 := PushNext(a, c.next, g.out.value, g.w);
        NextFlows(a, f, turns, trace, c.next, g.out.value, Gotten(f, c.stage.name, rest), later, g.w);
        SameSize(c.next, r1.c);
        DoneFanOutFlows(a, f, turns, trace, c.(next := r1.c), i + 1, later, r1.w);
      }
    }
  }

  lemma {:induction false} DoneFanOutCancelFlows(
      a: Answers, f: Fns, turns: nat, trace: seq<Request>, c: Chain, later: seq<Stream>, w: World)
    requires c.Op? && c.stage.FanOut? && !HasFailed(c.next) && !w.aborted
    requires Going(a, f, turns, trace, w, DoneFanOutCancel(a, c, w).w)
    requires Delivers(f, turns, trace, c.next, Awaited(f, c.stage.name, c.st.handles), later).Some?
    ensures Closes(f, turns, trace, Delivers(f, turns, trace, c.next, Awaited(f, c.stage.name, c.st.handles), later),
                   DoneFanOutCancel(a, c, w), later)
    decreases ChainSize(c), w.fuel, 3, 0
  {
    hide RunStep, PushDone, AwaitBatch, Broken, Delivers, Unique;
    var handles := c.st.handles;
    if handles == [] {
      DoneFlows(a, f, turns, trace, c.next, later, w);
    } else {
      var req := Request(CANCEL_WATCHER_NAME, Items(Unique(handles)), NoExtra);
      var g := RunStep(a, w, req);
      StepFlows(a, f, turns, trace, w, req);
      if g.out.Fail? {
        FailedDelivers(f, turns, trace, later);
        BrokenFlows(a, f, turns, trace, c, Wrap(StageSays(c.stage.name) + WATCHER_ENQUEUE_FAILED, g.out.err), Just([]), later, g.w);
      } else {
        AwaitBatchFlows(a, f, turns, trace, c, later, g.w);
      }
    }
  }

  function BatchOut(name: string, out: Outcome): Stream {
    match out
    case Fail(e) => Breaks(e)
    case Ok(v) => Just(ListOf(v))
  }

  lemma {:induction false} AwaitBatchFlows(
      a: Answers, f: Fns, turns: nat, trace: seq<Request>, c: Chain, later: seq<Stream>, w: World)
    requires c.Op? && c.stage.FanOut? && !HasFailed(c.next) && !w.aborted
    requires Going(a, f, turns, trace, w, AwaitBatch(a, c, w).w)
    requires var out := f(Request(c.stage.name, Items(c.st.handles), NoExtra));
             Delivers(f, turns, trace, c.next, BatchOut(c.stage.name, out), later).Some?
    ensures
      var out := f(Request(c.stage.name, Items(c.st.handles), NoExtra));
      Closes(f, turns, trace, Delivers(f, turns, trace, c.next, BatchOut(c.stage.name, out), later), AwaitBatch(a, c, w), later)
    decreases ChainSize(c), w.fuel, 2, 0
  {
    hide RunStep, PushDone, PushAll, Broken, Delivers;
    var req := Request(c.stage.name, Items(c.st.handles), NoExtra);
    var g := RunStep(a, w, req);
    StepFlows(a, f, turns, trace, w, req);
    if g.out.Fail? {
      FailedDelivers(f, turns, trace, later);
      BrokenFlows(a, f, turns, trace, c, g.out.err, Just([]), later, g.w);
    } else {
      var vs := AsItems(g.out.value);
      assert Before(Just(vs), Just([])) == Just(vs);
      AllFlows(a, f, turns, trace, c.next, vs, Just([]), later, g.w);
      var r1 := PushAll(a, c.next, vs, g.w);
      SameSize(c.next, r1.c);
      DoneFlows(a, f, turns, trace, r1.c, later, r1.w);
    }
  }

  // ---- Whole runs ----

  /** A run that finishes, every step answered by f, leaves what the composition of the
      stages' stream functions makes of its input: the same values, or the same error. The
      composition is never at a loss for want of turns. */
  lemma RunIsSpec(p: Pipeline, shape: string, input: Value, a: Answers, fuel: nat, f: Fns, turns: nat)
    requires var w := RunAll(p, shape, input, a, fuel).w; w.status.Alive? && Answered(a, f, w.trace) && turns > |w.trace|
    requires f(Request(SHAPE_STEP_NAME, Unit, NoExtra)) == Ok(Key(shape))
    ensures
      var res, s := RunAll(p, shape, input, a, fuel).res, Spec(f, turns, p, Just([input]));
      match s.end
      case Complete => res == Engine.Values(s.vals)
      case Broke(e) => res == Failed(e)
      case Lost => false
  {
    hide RunStep, Collect, Spec;
    var w0 := World(fuel, [], {}, {}, false, Alive);
    var req := Request(SHAPE_STEP_NAME, Unit, NoExtra);
    var g := RunStep(a, w0, req);
    var trace := RunAll(p, shape, input, a, fuel).w.trace;
    StepFlows(a, f, turns, trace, w0, req);
    CollectFlows(a, f, turns, trace, p, input, g.w);
  }

  lemma OneMeans(vs: seq<Value>)
    ensures One(vs).Ok? <==> |vs| == 1
    ensures One(vs).Ok? ==> vs == [One(vs).value]
    ensures vs == [] ==> One(vs) == Fail(Error(NO_VALUE, Plain))
    ensures |vs| > 1 ==> MULTIPLE_VALUES <= One(vs).err.msg
  {
    hide Decimal;
  }

  /** Run, which wants exactly one value: that value, or an error that says what came
      instead; a failure of the pipeline comes through as it is. */
  lemma RunWantsOne(p: Pipeline, shape: string, input: Value, a: Answers, fuel: nat, f: Fns, turns: nat)
    requires var w := RunAll(p, shape, input, a, fuel).w; w.status.Alive? && Answered(a, f, w.trace) && turns > |w.trace|
    requires f(Request(SHAPE_STEP_NAME, Unit, NoExtra)) == Ok(Key(shape))
    ensures
      var out, s := Run(p, shape, input, a, fuel).1, Spec(f, turns, p, Just([input]));
      && (out.Ok? <==> s.end.Complete? && |s.vals| == 1)
      && (out.Ok? ==> s.vals == [out.value])
      && (s.end.Broke? ==> out == Fail(s.end.err))
      && (s.end.Complete? && s.vals == [] ==> out == Fail(Error(NO_VALUE, Plain)))
      && (s.end.Complete? && |s.vals| > 1 ==> out.Fail? && MULTIPLE_VALUES <= out.err.msg)
  {
    hide RunAll, Spec, One;
    RunIsSpec(p, shape, input, a, fuel, f, turns);
    OneMeans(Spec(f, turns, p, Just([input])).vals);
  }

  /** A pipeline that is one Rescue, with a handler that always answers, never fails: a
      run of it that finishes yields what its embedded pipeline does, or the fallback. */
  lemma RescuedRunYields(
      name: string, p: Pipeline, fallback: Value -> Value, shape: string, input: Value, a: Answers, fuel: nat, f: Fns, turns: nat)
    requires var w := RunAll(Then(Rescue(name, p), Empty), shape, input, a, fuel).w;
             w.status.Alive? && Answered(a, f, w.trace) && turns > |w.trace|
    requires f(Request(SHAPE_STEP_NAME, Unit, NoExtra)) == Ok(Key(shape))
    requires forall v, msg :: f(Request(name, v, Cause(msg))) == Ok(fallback(v))
    ensures
      var inner := Spec(f, turns, p, Just([input]));
      RunAll(Then(Rescue(name, p), Empty), shape, input, a, fuel).res
        == Engine.Values(if inner.end.Complete? then inner.vals else [fallback(input)])
  {
    hide RunAll;
    var whole := Then(Rescue(name, p), Empty);
    RunIsSpec(whole, shape, input, a, fuel, f, turns);
    assert Spec(f, turns, whole, Just([input])) == Each(f, turns, Rescue(name, p), Just([input]));
    var y := ItemOut(f, turns, Rescue(name, p), input);
    assert Each(f, turns, Rescue(name, p), Just([input])) == Before(y, Just([])) by { hide Spec; }
    assert y.vals + [] == y.vals;
  }
}
