/**
The engine that runs a pipeline inside one process: observers chained by
PipeN, items pushed one at a time, depth first, and every durable execution
taking the next step ID of the workflow.

An attempt is driven by `Answers`, a partial map from step ID to outcome. A step
ID that is in the map is one whose outcome gets recorded, whether by an earlier
process (then the record is replayed) or by this one. DBOS records an outcome
before delivering it, so an attempt that awaits a step ID outside the map never
gets past that await: the process dies there (`Stuck`). A process can also die
before asking for its next step ID, which is what `fuel` bounds.
 */
module Engine {
  import opened Values
  import opened Pipelines
  import opened ParallelChoice

  /** What a step is asked for: its recorded name, the item its function
      receives, and what else the function closes over. */
  datatype Request = Request(name: string, arg: Value, extra: Extra)
  datatype Extra = NoExtra | Acc(acc: Value) | Cause(msg: string)

  type Answers = map<nat, Outcome>

  datatype Status = Alive | OutOfFuel | Stuck(slot: nat)

  /** trace[s] is the request that took step ID s; `used` are the step IDs whose
      outcomes the pipeline has received, `ahead` those it took ahead of time, to await later
      (Parallel, Alongside); `aborted` is the abort flag of the
      scope being executed (pipelineState, duro.go:489-493). */
  datatype World = World(fuel: nat, trace: seq<Request>, used: set<nat>, ahead: set<nat>, aborted: bool, status: Status)

  /** An ro observer: it ignores every event after its first Error or Complete. `at` is how
      many step IDs the workflow had taken when the error came. */
  datatype End = Open | Completed | Errored(err: Error, at: nat)

  /** The variables a stage's observer closes over, for one subscription. */
  datatype OpState = OpState(failed: bool, acc: Value, slots: seq<nat>, handles: seq<Value>)

  /** A subscribed pipeline. Sink gathers emissions (RunAll, collectSub); Bridge
      is the observer forwardSub puts in front of the outer stream. */
  datatype Chain =
    | Sink(outs: seq<Value>, end: End)
    | Bridge(end: End, dest: Chain)
    | Op(stage: Stage, end: End, st: OpState, next: Chain)

  datatype R = R(c: Chain, w: World)

  /** One item's outcome at a stage that hands its emissions on as a whole. */
  datatype ItemResult = Emit(outs: seq<Value>) | Break(err: Error)

  const CANCEL_WATCHER_NAME := "duro.cancel-watcher"
  const GET_RESULT_NAME := "DBOS.getResult"

  function StageSays(name: string): string { "duro: stage " + Quote(name) + ": " }

  const WATCHER_ENQUEUE_FAILED := "enqueueing the cancellation watcher (built the app with duro.New, which registers it?): "
  const CHILD_ENQUEUE_FAILED := "enqueueing child workflow: "

  function ChildSays(name: string, handle: Value): string {
    StageSays(name) + "child workflow " + AsKey(handle) + ": "
  }

  function NoCaseError(name: string, key: string): Error {
    Error(StageSays(name) + "no case for route key " + Quote(key), Plain)
  }

  const BOUND_SAYS := "duro: loop exceeded its maximum iterations: stage "
  const BOUND_RAN := " ran "
  const BOUND_END := " iterations without its predicate reporting done"

  function BoundError(name: string, iterations: nat): Error {
    Error(BOUND_SAYS + Quote(name) + BOUND_RAN + Decimal(iterations) + BOUND_END, MaxIterations)
  }

  // ---- Sizes and shapes of subscribed chains ----

  function ChainSize(c: Chain): nat {
    match c
    case Sink(_, _) => 1
    case Bridge(_, dest) => 1 + ChainSize(dest)
    case Op(s, _, _, next) => StageSize(s) + ChainSize(next)
  }

  /** The same observers, in whatever state; a collector that was closed is as it was. */
  ghost predicate Same(c: Chain, d: Chain) {
    match (c, d)
    case (Sink(_, end), Sink(_, _)) => end.Open? || c == d
    case (Bridge(_, x), Bridge(_, y)) => Same(x, y)
    case (Op(s, _, _, x), Op(t, _, _, y)) => s == t && Same(x, y)
    case _ => false
  }

  lemma {:induction false} SameSize(c: Chain, d: Chain)
    requires Same(c, d)
    ensures ChainSize(c) == ChainSize(d)
  {
    match c
    case Sink(_, _) =>
    case Bridge(_, x) => SameSize(x, d.dest);
    case Op(_, _, _, x) => SameSize(x, d.next);
  }

  lemma {:induction false} SameReflexive(c: Chain)
    ensures Same(c, c)
  {
    match c
    case Sink(_, _) =>
    case Bridge(_, x) => SameReflexive(x);
    case Op(_, _, _, x) => SameReflexive(x);
  }

  lemma {:induction false} SameTransitive(c: Chain, d: Chain, e: Chain)
    requires Same(c, d) && Same(d, e)
    ensures Same(c, e)
  {
    match c
    case Sink(_, _) =>
    case Bridge(_, x) => SameTransitive(x, d.dest, e.dest);
    case Op(_, _, _, x) => SameTransitive(x, d.next, e.next);
  }

  // ---- Subscription ----

  function Initial(s: Stage): OpState {
    OpState(false, if s.Reduce? then s.seed else Unit, [], [])
  }

  /** PipeN composes the stages' apply functions (pipe.go:108-117); Sub's apply is
      its pipeline's (flow.go:299). */
  function Subscribe(p: Pipeline, dest: Chain): (c: Chain)
    ensures ChainSize(c) <= Size(p) + ChainSize(dest)
    decreases p
  {
    match p
    case Empty => dest
    case Then(s, rest) =>
      if s.Sub? then Subscribe(s.inner, Subscribe(rest, dest))
      else Op(s, Open, Initial(s), Subscribe(rest, dest))
  }

  /** The chain after the pipeline that was subscribed onto it. */
  function Terminator(c: Chain): Chain {
    match c
    case Op(_, _, _, next) => Terminator(next)
    case _ => c
  }

  lemma {:induction false} TerminatorOfSubscribe(p: Pipeline, dest: Chain)
    ensures Terminator(Subscribe(p, dest)) == Terminator(dest)
    decreases p
  {
    match p
    case Empty =>
    case Then(s, rest) =>
      TerminatorOfSubscribe(rest, dest);
      if s.Sub? {
        TerminatorOfSubscribe(s.inner, Subscribe(rest, dest));
      }
  }

  lemma {:induction false} SameTerminator(c: Chain, d: Chain)
    requires Same(c, d)
    ensures Same(Terminator(c), Terminator(d))
  {
    match c
    case Op(_, _, _, x) => SameTerminator(x, d.next);
    case _ =>
  }

  /** The collector at the far end, where a scope's result is read. */
  ghost function Collector(c: Chain): (s: Chain)
    ensures s.Sink?
  {
    match c
    case Sink(_, _) => c
    case Bridge(_, dest) => Collector(dest)
    case Op(_, _, _, next) => Collector(next)
  }

  ghost predicate HasFailed(c: Chain) { Collector(c).end.Errored? }

  lemma {:induction false} FailureStays(c: Chain, d: Chain)
    requires Same(c, d) && HasFailed(c)
    ensures Collector(d) == Collector(c)
  {
    match c
    case Sink(_, _) =>
    case Bridge(_, x) => FailureStays(x, d.dest);
    case Op(_, _, _, x) => FailureStays(x, d.next);
  }

  lemma {:induction false} CollectorOfSubscribe(p: Pipeline, dest: Chain)
    ensures Collector(Subscribe(p, dest)) == Collector(dest)
    decreases p
  {
    match p
    case Empty =>
    case Then(s, rest) =>
      CollectorOfSubscribe(rest, dest);
      if s.Sub? { CollectorOfSubscribe(s.inner, Subscribe(rest, dest)); }
  }

  lemma {:induction false} CollectorOfTerminator(c: Chain)
    ensures Collector(Terminator(c)) == Collector(c)
  {
    match c
    case Op(_, _, _, next) => CollectorOfTerminator(next);
    case _ =>
  }

  // ---- Steps ----

  /** What every part of the engine does to a world: it only adds to it, spends
      one unit of fuel a step ID, and does nothing once the process is dead. */
  ghost predicate Grows(w: World, v: World) {
    && w.trace <= v.trace
    && w.used <= v.used
    && w.ahead <= v.ahead
    && v.fuel + |v.trace| == w.fuel + |w.trace|
    && (w.aborted ==> v.aborted && v.trace == w.trace)
    && (!w.status.Alive? ==> v == w)
  }

  /** Taking the next step ID, on the workflow goroutine: RunAsStep, dbos.Go and
      RunWorkflow all start here. */
  function Launch(w: World, req: Request): World {
    if !w.status.Alive? then w
    else if w.fuel == 0 then w.(status := OutOfFuel)
    else w.(fuel := w.fuel - 1, trace := w.trace + [req])
  }

  /** The same, for a step that is awaited later: dbos.Go, and Alongside's side step. */
  function LaunchAhead(w: World, req: Request): World {
    var v := Launch(w, req);
    if v.status.Alive? then v.(ahead := v.ahead + {|w.trace|}) else v
  }

  /** Receiving the outcome of a step ID. */
  function Await(a: Answers, w: World, slot: nat): World {
    if !w.status.Alive? then w
    else if slot in a then w.(used := w.used + {slot})
    else w.(status := Stuck(slot))
  }

  function Answer(a: Answers, slot: nat): Outcome {
    if slot in a then a[slot] else Fail(ERR_ABORTED)
  }

  datatype Got = Got(w: World, out: Outcome)

  /** runStep (duro.go:519-533). */
  function RunStep(a: Answers, w: World, req: Request): (g: Got)
    ensures Grows(w, g.w)
    ensures g.out.Ok? ==> g.w.fuel < w.fuel
  {
    if w.aborted then Got(w, Fail(ERR_ABORTED))
    else
      var slot := |w.trace|;
      var w1 := Await(a, Launch(w, req), slot);
      var out := Answer(a, slot);
      if !w1.status.Alive? then Got(w1, Fail(ERR_ABORTED))
      else if out.Fail? then Got(w1.(aborted := true), out)
      else Got(w1, out)
  }

  function Drain(a: Answers, w: World, slots: seq<nat>): World
    decreases |slots|
  {
    if slots == [] then w else Drain(a, Await(a, w, slots[0]), slots[1..])
  }

  function Outcomes(a: Answers, slots: seq<nat>): seq<Outcome> {
    seq(|slots|, i requires 0 <= i < |slots| => Answer(a, slots[i]))
  }

  function LeafOutputs(kind: LeafKind, arg: Value, res: Value): seq<Value> {
    match kind
    case Step => [res]
    case Filter => if AsBool(res) then [arg] else []
    case Expand => AsItems(res)
  }

  // ---- Pushing events ----

  function Fwd(c: Chain, r: R): R
    requires c.Op?
  {
    R(c.(next := r.c), r.w)
  }

  predicate HasFailedFlag(s: Stage) { s.Loop? || s.Rescue? || s.Alongside? || s.Reduce? || s.Switch? || s.Parallel? || s.FanOut? }

  /** `fail`: note the failure where the stage keeps a flag for it, then send it on. */
  function Broken(a: Answers, c: Chain, e: Error, w: World): (r: R)
    requires c.Op?
    ensures Same(c, r.c) && Grows(w, r.w)
    decreases ChainSize(c), w.fuel, 1, 0
  {
    var c1 := c.(st := c.st.(failed := HasFailedFlag(c.stage)));
    Fwd(c1, PushError(a, c.next, e, w))
  }

  function PushNext(a: Answers, c: Chain, v: Value, w: World): (r: R)
    ensures Same(c, r.c) && Grows(w, r.w)
    decreases ChainSize(c), w.fuel, 5, 0
  {
    SameReflexive(c);
    if !w.status.Alive? || !c.end.Open? then R(c, w)
    else match c
    case Sink(outs, end) => R(Sink(outs + [v], end), w)
    case Bridge(end, dest) =>
      var r := PushNext(a, dest, v, w);
      R(Bridge(end, r.c), r.w)
    case Op(s, _, st, next) =>
      if st.failed then R(c, w)
      else match s
      case Reduce(_, _) => NextReduce(a, c, v, w)
      case Switch(_, _) => NextSwitch(a, c, v, w)
      case Parallel(_, _) => NextParallel(a, c, v, w)
      case FanOut(_, _, _) => NextFanOut(a, c, v, w)
      case _ => NextItem(a, c, v, w)
  }

  /** Stages whose emissions for an item are known before any is sent on. */
  function NextItem(a: Answers, c: Chain, v: Value, w: World): (r: R)
    requires c.Op?
    ensures Same(c, r.c) && Grows(w, r.w)
    decreases ChainSize(c), w.fuel, 3, 0
  {
    SameReflexive(c);
    var g := Item(a, c.stage, v, w);
    if !g.0.status.Alive? then R(c, g.0)
    else match g.1
    case Emit(outs) => Fwd(c, PushAll(a, c.next, outs, g.0))
    case Break(e) => Broken(a, c, e, g.0)
  }

  function Item(a: Answers, s: Stage, v: Value, w: World): (g: (World, ItemResult))
    ensures Grows(w, g.0)
    decreases StageSize(s), w.fuel, 2, 0
  {
    match s
    case Leaf(kind, name) =>
      var g := RunStep(a, w, Request(name, v, NoExtra));
      (g.w, if g.out.Fail? then Break(g.out.err) else Emit(LeafOutputs(kind, v, g.out.value)))
    case Pure(_, f) => (w, Emit([f(v)]))
    case Loop(name, body, bound) => LoopItem(a, name, body, bound, 1, v, w)
    case Rescue(name, p) => RescueItem(a, name, p, v, w)
    case Via(_, p) =>
      var g := Collect(a, p, v, w);
      (g.w, if g.err.Some? then Break(g.err.value) else Emit([v]))
    case Alongside(name, p) => AlongsideItem(a, name, p, v, w)
    case _ => (w, Emit([]))
  }

  /** Loop's for loop over one item (flow.go:163-193). */
  function LoopItem(a: Answers, name: string, body: Pipeline, bound: nat, iteration: nat, v: Value, w: World): (g: (World, ItemResult))
    ensures Grows(w, g.0)
    decreases 2 + Size(body), w.fuel, 1, 0
  {
    var s := Collect(a, body, v, w);
    if !s.w.status.Alive? then (s.w, Emit([]))
    else if s.err.Some? then (s.w, Break(s.err.value))
    else if s.outs == [] then (s.w, Emit([]))
    else LoopVerdict(a, name, body, bound, iteration, s.outs[|s.outs| - 1], s.w)
  }

  function LoopVerdict(a: Answers, name: string, body: Pipeline, bound: nat, iteration: nat, v: Value, w: World): (g: (World, ItemResult))
    ensures Grows(w, g.0)
    decreases 2 + Size(body), w.fuel, 0, 0
  {
    var g := RunStep(a, w, Request(name, v, NoExtra));
    if !g.w.status.Alive? then (g.w, Emit([]))
    else if g.out.Fail? then (g.w, Break(g.out.err))
    else if AsBool(g.out.value) then (g.w, Emit([v]))
    else if bound > 0 && iteration >= bound then (g.w, Break(BoundError(name, iteration)))
    else LoopItem(a, name, body, bound, iteration + 1, v, g.w)
  }

  /** flow.go:249-279. The embedded run has its own abort flag. */
  function RescueItem(a: Answers, name: string, p: Pipeline, v: Value, w: World): (g: (World, ItemResult))
    ensures Grows(w, g.0)
    decreases 2 + Size(p), w.fuel, 1, 0
  {
    if w.aborted then (w, Break(ERR_ABORTED))
    else
      var s := Collect(a, p, v, w.(aborted := false));
      if !s.w.status.Alive? then (s.w, Emit([]))
      else HandleCause(a, name, v, s.(w := s.w.(aborted := w.aborted)))
  }

  function HandleCause(a: Answers, name: string, v: Value, s: Collected): (g: (World, ItemResult))
    ensures Grows(s.w, g.0)
  {
    if s.err.None? then (s.w, Emit(s.outs))
    else
      var g := RunStep(a, s.w, Request(name, v, Cause(s.err.value.msg)));
      (g.w, if g.out.Fail? then Break(g.out.err) else Emit([g.out.value]))
  }

  /** flow.go:384-421. The side step takes its ID before the embedded pipeline
      runs and is awaited after it, on every path. */
  function AlongsideItem(a: Answers, name: string, p: Pipeline, v: Value, w: World): (g: (World, ItemResult))
    ensures Grows(w, g.0)
    decreases 2 + Size(p), w.fuel, 1, 0
  {
    if w.aborted then (w, Break(ERR_ABORTED))
    else
      var slot := |w.trace|;
      var w1 := LaunchAhead(w, Request(name, v, NoExtra));
      AwaitSide(a, name, slot, v, Collect(a, p, v, w1))
  }

  function AwaitSide(a: Answers, name: string, slot: nat, v: Value, s: Collected): (g: (World, ItemResult))
    ensures Grows(s.w, g.0)
  {
    var w := Await(a, s.w, slot);
    var side := Answer(a, slot);
    if s.err.Some? then (w, Break(s.err.value))
    else if side.Fail? then
      var g := RunStep(a, w, Request(name, v, Cause(side.err.msg)));
      (g.w, if g.out.Fail? then Break(g.out.err) else Emit([v]))
    else (w, Emit([v]))
  }

  /** collectSub (flow.go:473-482): one item through an embedded pipeline. */
  datatype Collected = Collected(w: World, outs: seq<Value>, err: Option<Error>)

  function Collect(a: Answers, p: Pipeline, v: Value, w: World): (s: Collected)
    ensures Grows(w, s.w)
    decreases Size(p) + 1, w.fuel, 9, 0
  {
    var r := Feed(a, Subscribe(p, Sink([], Open)), v, w);
    var t := Terminator(r.c);
    Collected(r.w, if t.Sink? then t.outs else [], if t.end.Errored? then Some(t.end.err) else None)
  }

  /** Subscribing to ro.Of(v): the item, then completion. */
  function Feed(a: Answers, c: Chain, v: Value, w: World): (r: R)
    ensures Same(c, r.c) && Grows(w, r.w)
    decreases ChainSize(c), w.fuel, 8, 0
  {
    var r1 := PushNext(a, c, v, w);
    SameSize(c, r1.c);
    var r2 := PushDone(a, r1.c, r1.w);
    SameTransitive(c, r1.c, r2.c);
    r2
  }

  function PushAll(a: Answers, c: Chain, vs: seq<Value>, w: World): (r: R)
    ensures Same(c, r.c) && Grows(w, r.w)
    decreases ChainSize(c), w.fuel, 8, |vs|
  {
    SameReflexive(c);
    if vs == [] then R(c, w)
    else
      var r1 := PushNext(a, c, vs[0], w);
      SameSize(c, r1.c);
      var r2 := PushAll(a, r1.c, vs[1..], r1.w);
      SameTransitive(c, r1.c, r2.c);
      r2
  }

  /** duro.go:439-452. */
  function NextReduce(a: Answers, c: Chain, v: Value, w: World): (r: R)
    requires c.Op? && c.stage.Reduce?
    ensures Same(c, r.c) && Grows(w, r.w)
    decreases ChainSize(c), w.fuel, 3, 0
  {
    SameReflexive(c);
    var g := RunStep(a, w, Request(c.stage.name, v, Acc(c.st.acc)));
    if !g.w.status.Alive? then R(c, g.w)
    else if g.out.Fail? then Broken(a, c, g.out.err, g.w)
    else
      SameReflexive(c.next);
      R(c.(st := c.st.(acc := g.out.value)), g.w)
  }

  /** dispatchStage (flow.go:102-122): the arm's emissions go straight to the
      outer stream, one by one. */
  function NextSwitch(a: Answers, c: Chain, v: Value, w: World): (r: R)
    requires c.Op? && c.stage.Switch?
    ensures Same(c, r.c) && Grows(w, r.w)
    decreases ChainSize(c), w.fuel, 3, 0
  {
    SameReflexive(c);
    var g := RunStep(a, w, Request(c.stage.name, v, NoExtra));
    if !g.w.status.Alive? then R(c, g.w)
    else if g.out.Fail? then Broken(a, c, g.out.err, g.w)
    else
      var arm := Find(c.stage.cases, AsKey(g.out.value));
      FindIsSmaller(c.stage.cases, AsKey(g.out.value));
      if arm.None? then
        Broken(a, c, NoCaseError(c.stage.name, AsKey(g.out.value)), g.w.(aborted := true))
      else
        var r := Forward(a, arm.value, v, c.next, g.w);
        R(c.(next := r.c.dest, st := c.st.(failed := r.c.end.Errored?)), r.w)
  }

  /** forwardSub (flow.go:458-469): one item through an arm, emissions and failure
      going to the outer stream, the arm's completion going nowhere. */
  function Forward(a: Answers, arm: Pipeline, v: Value, outer: Chain, w: World): (r: R)
    ensures r.c.Bridge? && Same(outer, r.c.dest) && Grows(w, r.w)
    decreases Size(arm) + 1 + ChainSize(outer), w.fuel, 9, 0
  {
    var inner := Subscribe(arm, Bridge(Open, outer));
    var r := Feed(a, inner, v, w);
    TerminatorOfSubscribe(arm, Bridge(Open, outer));
    SameTerminator(inner, r.c);
    R(Terminator(r.c), r.w)
  }

  /** parallel.go:79-128. The semaphore delays a launch without changing its step
      ID, so it has no part here; see ParallelStage. */
  function NextParallel(a: Answers, c: Chain, v: Value, w: World): (r: R)
    requires c.Op? && c.stage.Parallel?
    ensures Same(c, r.c) && Grows(w, r.w)
    decreases ChainSize(c), w.fuel, 3, 0
  {
    if w.aborted then
      var w1 := Drain(a, w, c.st.slots);
      DrainGrows(a, w, c.st.slots);
      var c1 := c.(st := c.st.(slots := []));
      Broken(a, c1, ERR_ABORTED, w1)
    else
      SameReflexive(c.next);
      R(c.(st := c.st.(slots := c.st.slots + [|w.trace|])), LaunchAhead(w, Request(c.stage.name, v, NoExtra)))
  }

  lemma {:induction false} DrainGrows(a: Answers, w: World, slots: seq<nat>)
    ensures Grows(w, Drain(a, w, slots))
    ensures Drain(a, w, slots).trace == w.trace && Drain(a, w, slots).aborted == w.aborted
    decreases |slots|
  {
    if slots != [] { DrainGrows(a, Await(a, w, slots[0]), slots[1..]); }
  }

  /** fanout.go:336-367: enqueueing a child is a step of the parent. */
  function NextFanOut(a: Answers, c: Chain, v: Value, w: World): (r: R)
    requires c.Op? && c.stage.FanOut?
    ensures Same(c, r.c) && Grows(w, r.w)
    decreases ChainSize(c), w.fuel, 3, 0
  {
    SameReflexive(c); SameReflexive(c.next);
    var g := RunStep(a, w, Request(c.stage.child, v, NoExtra));
    if !g.w.status.Alive? then R(c, g.w)
    else if w.aborted then Broken(a, c, ERR_ABORTED, g.w)
    else if g.out.Fail? then
      Broken(a, c, Wrap(StageSays(c.stage.name) + CHILD_ENQUEUE_FAILED, g.out.err), g.w)
    else R(c.(st := c.st.(handles := c.st.handles + [g.out.value])), g.w)
  }

  /** An upstream failure. Parallel first waits out what it launched
      (parallel.go:129-133); every other stage just passes it on. */
  function PushError(a: Answers, c: Chain, e: Error, w: World): (r: R)
    ensures Same(c, r.c) && Grows(w, r.w)
    decreases ChainSize(c), w.fuel, 5, 0
  {
    SameReflexive(c);
    if !w.status.Alive? || !c.end.Open? then R(c, w)
    else match c
    case Sink(outs, _) => R(Sink(outs, Errored(e, |w.trace|)), w)
    case Bridge(_, dest) =>
      var r := PushError(a, dest, e, w);
      R(Bridge(Errored(e, |w.trace|), r.c), r.w)
    case Op(s, _, st, next) =>
      var c1 := Op(s, Errored(e, |w.trace|), st, next);
      if s.Parallel? then
        var w1 := Drain(a, w, st.slots);
        DrainGrows(a, w, st.slots);
        Broken(a, c1.(st := st.(slots := [])), e, w1)
      else
        Fwd(c1, PushError(a, next, e, w))
  }

  /** Upstream completion. */
  function PushDone(a: Answers, c: Chain, w: World): (r: R)
    ensures Same(c, r.c) && Grows(w, r.w)
    decreases ChainSize(c), w.fuel, 5, 0
  {
    SameReflexive(c);
    if !w.status.Alive? || !c.end.Open? then R(c, w)
    else match c
    case Sink(outs, _) => R(Sink(outs, Completed), w)
    case Bridge(_, dest) => R(Bridge(Completed, dest), w)
    case Op(s, _, st, next) => DoneOp(a, Op(s, Completed, st, next), w)
  }

  function DoneOp(a: Answers, c: Chain, w: World): (r: R)
    requires c.Op?
    ensures Same(c, r.c) && Grows(w, r.w)
    decreases ChainSize(c), w.fuel, 4, 0
  {
    SameReflexive(c);
    if c.st.failed then R(c, w)
    else match c.stage
    case Reduce(_, _) => Fwd(c, Feed(a, c.next, c.st.acc, w))
    case Parallel(_, _) => DoneParallel(a, c, w)
    case FanOut(_, _, cancelSiblings) =>
      if cancelSiblings then DoneFanOutCancel(a, c, w) else DoneFanOut(a, c, 0, w)
    case _ => Fwd(c, PushDone(a, c.next, w))
  }

  /** parallel.go:134-161. */
  function DoneParallel(a: Answers, c: Chain, w: World): (r: R)
    requires c.Op? && c.stage.Parallel?
    ensures Same(c, r.c) && Grows(w, r.w)
    decreases ChainSize(c), w.fuel, 3, 0
  {
    SameReflexive(c); SameReflexive(c.next);
    DrainGrows(a, w, c.st.slots);
    var w1 := Drain(a, w, c.st.slots);
    if !w1.status.Alive? then R(c, w1)
    else EmitParallel(a, c.(st := c.st.(slots := [])), Outcomes(a, c.st.slots), w1)
  }

  function EmitParallel(a: Answers, c: Chain, outs: seq<Outcome>, w: World): (r: R)
    requires c.Op? && c.stage.Parallel?
    ensures Same(c, r.c) && Grows(w, r.w)
    decreases ChainSize(c), w.fuel, 2, 0
  {
    var r1 := PushAll(a, c.next, Results(outs), w);
    var c1 := c.(next := r1.c);
    SameSize(c.next, r1.c);
    var err := ParallelError(outs, c.stage.cancelSiblings);
    if !r1.w.status.Alive? then R(c1, r1.w)
    else if err.Some? then
      var r2 := Broken(a, c1, Wrap(StageSays(c.stage.name), err.value), r1.w.(aborted := true));
      SameTransitive(c, c1, r2.c);
      r2
    else
      var r2 := PushDone(a, r1.c, r1.w);
      SameTransitive(c.next, r1.c, r2.c);
      Fwd(c, r2)
  }

  /** fanout.go:419-433: one awaited result, one recorded step, per child. */
  function DoneFanOut(a: Answers, c: Chain, i: nat, w: World): (r: R)
    requires c.Op? && c.stage.FanOut? && i <= |c.st.handles|
    ensures Same(c, r.c) && Grows(w, r.w)
    decreases ChainSize(c), w.fuel, 3, |c.st.handles| - i
  {
    SameReflexive(c);
    if !w.status.Alive? then R(c, w)
    else if i == |c.st.handles| then Fwd(c, PushDone(a, c.next, w))
    else
      var h := c.st.handles[i];
      var g := RunStep(a, w, Request(GET_RESULT_NAME, h, NoExtra));
      if !g.w.status.Alive? then R(c, g.w)
      else if w.aborted then Broken(a, c, ERR_ABORTED, g.w)
      else if g.out.Fail? then
        Broken(a, c, Wrap(ChildSays(c.stage.name, h), g.out.err), g.w)
      else
        var r1 := PushNext(a, c.next, g.out.value, g.w);
        SameSize(c.next, r1.c);
        var c1 := c.(next := r1.c);
        var r2 := DoneFanOut(a, c1, i + 1, r1.w);
        SameTransitive(c, c1, r2.c);
        r2
  }

  /** fanout.go:373-418: the watcher is enqueued, then the batch is awaited as one
      recorded step; nothing is emitted unless every child succeeded. */
  function DoneFanOutCancel(a: Answers, c: Chain, w: World): (r: R)
    requires c.Op? && c.stage.FanOut?
    ensures Same(c, r.c) && Grows(w, r.w)
    decreases ChainSize(c), w.fuel, 3, 0
  {
    SameReflexive(c);
    if c.st.handles == [] then Fwd(c, PushDone(a, c.next, w))
    else
      var g := RunStep(a, w, Request(CANCEL_WATCHER_NAME, Items(Unique(c.st.handles)), NoExtra));
      if !g.w.status.Alive? then R(c, g.w)
      else if w.aborted then Broken(a, c, ERR_ABORTED, g.w)
      else if g.out.Fail? then
        Broken(a, c, Wrap(StageSays(c.stage.name) + WATCHER_ENQUEUE_FAILED, g.out.err), g.w)
      else
        AwaitBatch(a, c, g.w)
  }

  /** awaitCancellingSiblings (fanout.go:564-602) as the engine sees it: one step
      whose outcome is the whole batch's. */
  function AwaitBatch(a: Answers, c: Chain, w: World): (r: R)
    requires c.Op? && c.stage.FanOut?
    ensures Same(c, r.c) && Grows(w, r.w)
    decreases ChainSize(c), w.fuel, 2, 0
  {
    SameReflexive(c);
    var g := RunStep(a, w, Request(c.stage.name, Items(c.st.handles), NoExtra));
    if !g.w.status.Alive? then R(c, g.w)
    else if g.out.Fail? then Broken(a, c, g.out.err, g.w)
    else
      var r1 := PushAll(a, c.next, AsItems(g.out.value), g.w);
      SameSize(c.next, r1.c);
      var r2 := PushDone(a, r1.c, r1.w);
      SameTransitive(c.next, r1.c, r2.c);
      Fwd(c, r2)
  }

  // ---- Running a pipeline ----

  const SHAPE_STEP_NAME := "duro.shape"

  const SHAPE_UNVERIFIED := "duro: verifying pipeline shape: "
  const SHAPE_MISMATCH := "duro: pipeline shape mismatch on replay: recorded ["
  const SHAPE_CONSTRUCTED := "], constructed ["
  const SHAPE_ADVICE := "] — pipeline construction must be deterministic"

  function ShapeError(recorded: string, constructed: string): Error {
    Error(SHAPE_MISMATCH + recorded + SHAPE_CONSTRUCTED + constructed + SHAPE_ADVICE, Plain)
  }

  datatype Result = Values(vs: seq<Value>) | Failed(err: Error)
  datatype Final = Final(w: World, res: Result)

  /** RunAll (run.go:49-60) and verifyShape (run.go:67-78): the pipeline's
      fingerprint is step ID 0. */
  function RunAll(p: Pipeline, shape: string, input: Value, a: Answers, fuel: nat): Final {
    var w0 := World(fuel, [], {}, {}, false, Alive);
    var g := RunStep(a, w0, Request(SHAPE_STEP_NAME, Unit, NoExtra));
    Proceed(p, shape, input, a, g)
  }

  function Proceed(p: Pipeline, shape: string, input: Value, a: Answers, g: Got): (f: Final)
    ensures Grows(g.w, f.w)
  {
    if g.out.Fail? then Final(g.w, Failed(Wrap(SHAPE_UNVERIFIED, g.out.err)))
    else if AsKey(g.out.value) != shape then Final(g.w, Failed(ShapeError(AsKey(g.out.value), shape)))
    else
      var s := Collect(a, p, input, g.w);
      Final(s.w, if s.err.Some? then Failed(s.err.value) else Values(s.outs))
  }

  const NO_VALUE := "duro: pipeline completed without emitting a value"
  const MULTIPLE_VALUES := "duro: pipeline emitted more than one value"

  function One(vs: seq<Value>): Outcome {
    if vs == [] then Fail(Error(NO_VALUE, Plain))
    else if |vs| == 1 then Ok(vs[0])
    else Fail(Error(MULTIPLE_VALUES + ": " + Decimal(|vs|)
      + " values emitted; fold the stream with Reduce or Collect, or call RunAll", Plain))
  }

  /** Run (run.go:31-45): exactly one value. */
  function Run(p: Pipeline, shape: string, input: Value, a: Answers, fuel: nat): (World, Outcome) {
    var f := RunAll(p, shape, input, a, fuel);
    (f.w, if f.res.Failed? then Fail(f.res.err) else One(f.res.vs))
  }
}
