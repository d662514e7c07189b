/**
What a pipeline computes, said without an engine. A stream is a list of values and how
it ends: complete, or broken by an error. Each stage is a function on streams, and a
pipeline is their composition.
 */
module Streams {
  import opened Values
  import opened Pipelines
  import opened ParallelChoice
  import opened Engine

  /** The stage functions, all at once: what each request comes to. */
  type Fns = Request -> Outcome

  /** Lost: a Loop was given up here after `turns` iterations. */
  datatype Ending = Complete | Broke(err: Error) | Lost

  datatype Stream = Stream(vals: seq<Value>, end: Ending)

  function Just(vs: seq<Value>): Stream { Stream(vs, Complete) }
  function Breaks(e: Error): Stream { Stream([], Broke(e)) }

  /** The one stream, then the other. */
  function Before(s: Stream, t: Stream): Stream {
    if s.end.Complete? then Stream(s.vals + t.vals, t.end) else s
  }

  // ---- Stages as functions ----

  function Fold(f: Fns, name: string, acc: Value, s: Stream): Stream
    decreases |s.vals|
  {
    if s.vals == [] then if s.end.Complete? then Just([acc]) else s
    else
      match f(Request(name, s.vals[0], Acc(acc)))
      case Fail(e) => Breaks(e)
      case Ok(next) => Fold(f, name, next, s.(vals := s.vals[1..]))
  }

  function Map(f: Fns, name: string, xs: seq<Value>): seq<Outcome> {
    if xs == [] then [] else [f(Request(name, xs[0], NoExtra))] + Map(f, name, xs[1..])
  }

  /** The first error in input order, if asked for so without those that sibling
      cancellation made. */
  function First(outs: seq<Outcome>, unmarked: bool): Option<Error> {
    if outs == [] then None
    else if outs[0].Fail? && !(unmarked && Contains(outs[0].err.msg, SIBLING_MARK)) then Some(outs[0].err)
    else First(outs[1..], unmarked)
  }

  function Prefix(outs: seq<Outcome>): seq<Value> {
    if outs == [] || outs[0].Fail? then [] else [outs[0].value] + Prefix(outs[1..])
  }

  /** A Parallel's batch: the results ahead of the first failure, then the first failure,
      with sibling cancellation the first that carries no mark of one if there is one. */
  function Batch(name: string, cancelSiblings: bool, outs: seq<Outcome>): Stream {
    var any, own := First(outs, false), First(outs, true);
    Stream(Prefix(outs),
           if any.None? then Complete
           else
             var e := if cancelSiblings && own.Some? then own.value else any.value;
             Broke(Error(StageSays(name) + e.msg, e.id)))
  }

  function Enqueued(f: Fns, name: string, child: string, xs: seq<Value>): Stream {
    if xs == [] then Just([])
    else
      match f(Request(child, xs[0], NoExtra))
      case Fail(e) => Breaks(Error(StageSays(name) + CHILD_ENQUEUE_FAILED + e.msg, e.id))
      case Ok(handle) => Before(Just([handle]), Enqueued(f, name, child, xs[1..]))
  }

  function Gotten(f: Fns, name: string, handles: seq<Value>): Stream {
    if handles == [] then Just([])
    else
      match f(Request(GET_RESULT_NAME, handles[0], NoExtra))
      case Fail(e) => Breaks(Error(ChildSays(name, handles[0]) + e.msg, e.id))
      case Ok(v) => Before(Just([v]), Gotten(f, name, handles[1..]))
  }

  /** The watcher is given each child once; the await step all of them, in input order. */
  function Awaited(f: Fns, name: string, handles: seq<Value>): Stream {
    if handles == [] then Just([])
    else
      match f(Request(CANCEL_WATCHER_NAME, Items(Unique(handles)), NoExtra))
      case Fail(e) => Breaks(Error(StageSays(name) + WATCHER_ENQUEUE_FAILED + e.msg, e.id))
      case Ok(_) =>
        match f(Request(name, Items(handles), NoExtra))
        case Fail(e) => Breaks(e)
        case Ok(v) => Just(ListOf(v))
  }

  function ListOf(v: Value): seq<Value> {
    match v
    case Items(vs) => vs
    case _ => []
  }

  /** The first case under the key. */
  function Route(cases: Cases, key: string): (arm: Option<Pipeline>)
    ensures arm.Some? ==> Size(arm.value) <= CasesSize(cases)
  {
    match cases
    case NoCase => None
    case Case(k, arm, rest) => if k == key then Some(arm) else Route(rest, key)
  }

  /** A pipeline on the stream that enters it. */
  function Spec(f: Fns, turns: nat, p: Pipeline, s: Stream): Stream
    decreases Size(p), 4, 0
  {
    match p
    case Empty => s
    case Then(stage, rest) =>
      Spec(f, turns, rest,
           match stage
           case Sub(_, inner) => Spec(f, turns, inner, s)
           case Reduce(_, seed) => StageOut(f, turns, stage, seed, [], [], s)
           case _ => StageOut(f, turns, stage, Unit, [], [], s))
  }

  /** One stage on the rest of its input, given what it has so far: its accumulator, the
      outcomes of the steps and the children already started. */
  function StageOut(
      f: Fns, turns: nat, stage: Stage, acc: Value, started: seq<Outcome>, handles: seq<Value>, s: Stream): Stream
    decreases StageSize(stage), 3, 0
  {
    match stage
    case Reduce(name, _) => Fold(f, name, acc, s)
    case Parallel(name, cancelSiblings) =>
      if s.end.Complete? then Batch(name, cancelSiblings, started + Map(f, name, s.vals)) else Stream([], s.end)
    case FanOut(name, child, cancelSiblings) =>
      var hs := Before(Just(handles), Before(Enqueued(f, name, child, s.vals), Stream([], s.end)));
      if !hs.end.Complete? then Stream([], hs.end)
      else if cancelSiblings then Awaited(f, name, hs.vals)
      else Gotten(f, name, hs.vals)
    case _ => Each(f, turns, stage, s)
  }

  /** Item by item, outputs in order, up to the first item that breaks. */
  function Each(f: Fns, turns: nat, stage: Stage, s: Stream): Stream
    decreases StageSize(stage), 2, |s.vals|
  {
    if s.vals == [] then s
    else Before(ItemOut(f, turns, stage, s.vals[0]), Each(f, turns, stage, s.(vals := s.vals[1..])))
  }

  function ItemOut(f: Fns, turns: nat, stage: Stage, v: Value): Stream
    decreases StageSize(stage), 1, 0
  {
    match stage
    case Leaf(kind, name) => LeafOut(kind, v, f(Request(name, v, NoExtra)))
    case Pure(_, g) => Just([g(v)])
    case Switch(name, cases) =>
      (match f(Request(name, v, NoExtra))
       case Fail(e) => Breaks(e)
       case Ok(x) =>
         var key := if x.Key? then x.k else "";
         var arm := Route(cases, key);
         if arm.Some? then Spec(f, turns, arm.value, Just([v]))
         else Breaks(Error(StageSays(name) + "no case for route key " + Quote(key), Plain)))
    case Loop(name, body, bound) => LoopOut(f, turns, name, body, bound, 1, v)
    case Rescue(name, p) => Rescued(f, name, v, Spec(f, turns, p, Just([v])))
    case Via(_, p) => Passed(v, Spec(f, turns, p, Just([v])))
    case Alongside(name, p) => Accompanied(f, name, v, Spec(f, turns, p, Just([v])))
    case _ => Just([])
  }

  function LeafOut(kind: LeafKind, v: Value, out: Outcome): Stream {
    match (kind, out)
    case (_, Fail(e)) => Breaks(e)
    case (Step, Ok(x)) => Just([x])
    case (Filter, Ok(x)) => Just(if x == Bool(true) then [v] else [])
    case (Expand, Ok(x)) => Just(ListOf(x))
  }

  function LoopOut(f: Fns, turns: nat, name: string, body: Pipeline, bound: nat, i: nat, v: Value): Stream
    decreases 2 + Size(body), 0, turns
  {
    if turns == 0 then Stream([], Lost)
    else
      var out := Spec(f, turns, body, Just([v]));
      if !out.end.Complete? then Stream([], out.end)
      else if out.vals == [] then out
      else
        var last := out.vals[|out.vals| - 1];
        match f(Request(name, last, NoExtra))
        case Fail(e) => Breaks(e)
        case Ok(x) =>
          if x == Bool(true) then Just([last])
          else if i == bound then Breaks(BoundError(name, bound))
          else LoopOut(f, turns - 1, name, body, bound, i + 1, last)
  }

  /** What an embedded pipeline made of v, seen from outside it. */
  function Passed(v: Value, inner: Stream): Stream {
    if inner.end.Complete? then Just([v]) else Stream([], inner.end)
  }

  /** The handler's answer takes the place of the item that failed. */
  function Rescued(f: Fns, name: string, v: Value, inner: Stream): Stream {
    match inner.end
    case Complete => inner
    case Lost => Stream([], Lost)
    case Broke(cause) => LeafOut(Step, v, f(Request(name, v, Cause(cause.msg))))
  }

  /** A side step that fails has a step of its own asked for; either way the item passes. */
  function Accompanied(f: Fns, name: string, v: Value, inner: Stream): Stream {
    if !inner.end.Complete? then Stream([], inner.end)
    else
      match f(Request(name, v, NoExtra))
      case Ok(_) => Just([v])
      case Fail(cause) =>
        match f(Request(name, v, Cause(cause.msg)))
        case Ok(_) => Just([v])
        case Fail(e) => Breaks(e)
  }

  // ---- What that means ----

  /** A Branch whose step answers with the key of its predicate's verdict runs the one
      arm or the other on each item; there is no route it could miss. */
  lemma BranchDispatches(f: Fns, turns: nat, name: string, yes: Pipeline, no: Pipeline, pred: Value -> bool, v: Value)
    requires f(Request(name, v, NoExtra)) == Ok(Key(if pred(v) then BRANCH_THEN else BRANCH_ELSE))
    ensures ItemOut(f, turns, Branch(name, yes, no), v) == Spec(f, turns, if pred(v) then yes else no, Just([v]))
  {
    var cases := Case(BRANCH_THEN, yes, Case(BRANCH_ELSE, no, NoCase));
    assert BRANCH_THEN[0] != BRANCH_ELSE[0];
    assert Route(cases, BRANCH_THEN) == Some(yes) && Route(cases.rest, BRANCH_ELSE) == Some(no);
  }

  function Keys(cases: Cases): seq<string> {
    match cases
    case NoCase => []
    case Case(k, _, rest) => [k] + Keys(rest)
  }

  function Arms(cases: Cases): (arms: seq<Pipeline>)
    ensures |arms| == |Keys(cases)|
  {
    match cases
    case NoCase => []
    case Case(_, arm, rest) => [arm] + Arms(rest)
  }

  /** A route is missed exactly when no case has the key; otherwise it is the first that has. */
  lemma {:induction false} RouteIsTheFirst(cases: Cases, key: string)
    ensures Route(cases, key).None? <==> key !in Keys(cases)
    ensures forall i | 0 <= i < |Keys(cases)| && Keys(cases)[i] == key && key !in Keys(cases)[..i] ::
              Route(cases, key) == Some(Arms(cases)[i])
  {
    match cases
    case NoCase =>
    case Case(k, arm, rest) =>
      RouteIsTheFirst(rest, key);
      forall i | 0 <= i < |Keys(cases)| && Keys(cases)[i] == key && key !in Keys(cases)[..i]
        ensures Route(cases, key) == Some(Arms(cases)[i])
      {
        if i > 0 {
          assert Keys(cases)[..i] == [k] + Keys(rest)[..i - 1];
        }
      }
  }

  /** What a Rescue whose handler always answers makes of these items. */
  function WithFallbacks(f: Fns, turns: nat, p: Pipeline, fallback: Value -> Value, vs: seq<Value>): seq<Value> {
    if vs == [] then []
    else
      var inner := Spec(f, turns, p, Just([vs[0]]));
      (if inner.end.Complete? then inner.vals else [fallback(vs[0])]) + WithFallbacks(f, turns, p, fallback, vs[1..])
  }

  /** A Rescue whose handler always answers never breaks the stream: each item that fails
      is replaced by the handler's answer, whatever its embedded run had emitted before,
      and each other one by what the embedded run made of it. */
  lemma {:induction false} RescueReplaces(
      f: Fns, turns: nat, name: string, p: Pipeline, fallback: Value -> Value, s: Stream)
    requires forall v, msg :: f(Request(name, v, Cause(msg))) == Ok(fallback(v))
    requires forall v | v in s.vals :: !Spec(f, turns, p, Just([v])).end.Lost?
    ensures Each(f, turns, Rescue(name, p), s) == Stream(WithFallbacks(f, turns, p, fallback, s.vals), s.end)
    decreases |s.vals|
  {
    hide Spec;
    if s.vals != [] {
      var v, rest := s.vals[0], s.(vals := s.vals[1..]);
      RescueReplaces(f, turns, name, p, fallback, rest);
      assert v in s.vals;
      assert forall u | u in rest.vals :: u in s.vals;
    }
  }
}
