/**
Replay determinism of the engine, as one simulation. Take two attempts at the
same pipeline whose answers agree wherever the first one has any, up to the
identity of errors (which no checkpoint keeps). Then the second attempt asks for
everything the first asks for, in the same order, under the same names, with the
same items and the same causes; and if the first attempt finishes, so does the
second, with the same values or the same message.
 */
module Replay {
  import opened Values
  import opened Pipelines
  import opened ParallelChoice
  import opened Engine

  ghost predicate LikeError(e: Error, f: Error) { e.msg == f.msg }

  ghost predicate LikeOutcome(o: Outcome, q: Outcome) { Recorded(o) == Recorded(q) }

  ghost predicate LikeEnd(e: End, f: End) {
    match (e, f)
    case (Errored(x, i), Errored(y, j)) => LikeError(x, y) && i == j
    case _ => e == f
  }

  ghost predicate Like(c: Chain, d: Chain) {
    match (c, d)
    case (Sink(o, e), Sink(q, f)) => o == q && LikeEnd(e, f)
    case (Bridge(e, x), Bridge(f, y)) => LikeEnd(e, f) && Like(x, y)
    case (Op(s, e, st, x), Op(t, f, su, y)) => s == t && LikeEnd(e, f) && st == su && Like(x, y)
    case _ => false
  }

  ghost predicate LikeItem(i: ItemResult, j: ItemResult) {
    match (i, j)
    case (Break(e), Break(f)) => LikeError(e, f)
    case _ => i == j
  }

  ghost predicate LikeMaybe(e: Option<Error>, f: Option<Error>) {
    e.Some? == f.Some? && (e.Some? ==> LikeError(e.value, f.value))
  }

  /** b answers everything a answers, alike. */
  ghost predicate Agree(a: Answers, b: Answers) {
    a.Keys <= b.Keys && forall s | s in a :: LikeOutcome(a[s], b[s])
  }

  /** v is where the attempt over b, with k more units of fuel, has got to when
      the attempt over a has got to w. */
  ghost predicate Follows(a: Answers, b: Answers, k: nat, w: World, v: World) {
    match w.status
    case Alive => v == w.(fuel := w.fuel + k)
    case OutOfFuel => w.trace <= v.trace && (k == 0 ==> v == w)
    case Stuck(g) =>
      && g !in a
      && w.trace <= v.trace
      && (g in b ==> g in v.used)
      && (g !in b ==> v == w.(fuel := w.fuel + k))
  }

  ghost predicate Extends(w: World, v: World) {
    w.trace <= v.trace && w.used <= v.used && (!w.status.Alive? ==> v == w)
  }

  lemma Dead(a: Answers, b: Answers, k: nat, w: World, v: World, u: World)
    requires Follows(a, b, k, w, v) && !w.status.Alive? && Extends(v, u)
    ensures Follows(a, b, k, w, u)
  {}

  // ---- Steps ----

  lemma SimStep(a: Answers, b: Answers, k: nat, w: World, v: World, req: Request)
    requires Agree(a, b) && Follows(a, b, k, w, v)
    ensures var g, h := RunStep(a, w, req), RunStep(b, v, req);
            Follows(a, b, k, g.w, h.w) && (g.w.status.Alive? ==> LikeOutcome(g.out, h.out))
  {
    if w.status.Alive? && !w.aborted && w.fuel == 0 && k > 0 {
      assert w.trace <= RunStep(b, v, req).w.trace;
    }
  }

  lemma SimAwait(a: Answers, b: Answers, k: nat, w: World, v: World, slot: nat)
    requires Agree(a, b) && Follows(a, b, k, w, v)
    ensures Follows(a, b, k, Await(a, w, slot), Await(b, v, slot))
    ensures Await(a, w, slot).status.Alive? ==> LikeOutcome(Answer(a, slot), Answer(b, slot))
  {}

  lemma {:induction false} SimDrain(a: Answers, b: Answers, k: nat, w: World, v: World, slots: seq<nat>)
    requires Agree(a, b) && Follows(a, b, k, w, v)
    ensures Follows(a, b, k, Drain(a, w, slots), Drain(b, v, slots))
    ensures Drain(a, w, slots).status.Alive? ==>
              forall i | 0 <= i < |slots| :: slots[i] in a && LikeOutcome(Answer(a, slots[i]), Answer(b, slots[i]))
    decreases |slots|
  {
    if slots != [] {
      var w1, v1 := Await(a, w, slots[0]), Await(b, v, slots[0]);
      SimAwait(a, b, k, w, v, slots[0]);
      SimDrain(a, b, k, w1, v1, slots[1..]);
      DrainGrows(a, w1, slots[1..]);
    }
  }

  // ---- Parallel's choice ----

  ghost predicate AllLike(os: seq<Outcome>, qs: seq<Outcome>) {
    |os| == |qs| && forall i | 0 <= i < |os| :: LikeOutcome(os[i], qs[i])
  }

  lemma {:induction false} FirstsAlike(os: seq<Outcome>, qs: seq<Outcome>)
    requires AllLike(os, qs)
    ensures FirstFailure(os) == FirstFailure(qs) && FirstGenuine(os) == FirstGenuine(qs)
  {
    if os != [] {
      assert LikeOutcome(os[0], qs[0]);
      FirstsAlike(os[1..], qs[1..]);
    }
  }

  lemma ChoiceAlike(os: seq<Outcome>, qs: seq<Outcome>, cancelSiblings: bool)
    requires AllLike(os, qs)
    ensures Results(os) == Results(qs)
    ensures LikeMaybe(ParallelError(os, cancelSiblings), ParallelError(qs, cancelSiblings))
  {
    FirstsAlike(os, qs);
    FirstFailureMeaning(os); FirstFailureMeaning(qs);
    FirstGenuineMeaning(os); FirstGenuineMeaning(qs);
    forall i | 0 <= i < FirstFailure(os) ensures os[i].value == qs[i].value {
      assert LikeOutcome(os[i], qs[i]);
    }
    var stop, g := FirstFailure(os), FirstGenuine(os);
    if stop < |os| { assert LikeOutcome(os[stop], qs[stop]); }
    if g < |os| { assert LikeOutcome(os[g], qs[g]); }
  }

  lemma {:induction false} LikeSize(c: Chain, d: Chain)
    requires Like(c, d)
    ensures ChainSize(c) == ChainSize(d)
  {
    match c
    case Sink(_, _) =>
    case Bridge(_, x) => LikeSize(x, d.dest);
    case Op(_, _, _, x) => LikeSize(x, d.next);
  }

  lemma {:induction false} LikeSubscribe(p: Pipeline, c: Chain, d: Chain)
    requires Like(c, d)
    ensures Like(Subscribe(p, c), Subscribe(p, d))
    decreases p
  {
    match p
    case Empty =>
    case Then(s, rest) =>
      LikeSubscribe(rest, c, d);
      if s.Sub? { LikeSubscribe(s.inner, Subscribe(rest, c), Subscribe(rest, d)); }
  }

  lemma {:induction false} LikeTerminator(c: Chain, d: Chain)
    requires Like(c, d)
    ensures Like(Terminator(c), Terminator(d))
  {
    match c
    case Op(_, _, _, x) => LikeTerminator(x, d.next);
    case _ =>
  }

  // ---- Events ----

  lemma {:induction false} SimNext(a: Answers, b: Answers, k: nat, c: Chain, d: Chain, x: Value, w: World, v: World)
    requires Agree(a, b) && Follows(a, b, k, w, v) && (w.status.Alive? ==> Like(c, d))
    ensures var r, q := PushNext(a, c, x, w), PushNext(b, d, x, v);
            Follows(a, b, k, r.w, q.w) && (r.w.status.Alive? ==> Like(r.c, q.c))
    decreases ChainSize(c), w.fuel, 5, 0
  {
    hide NextReduce, NextSwitch, NextParallel, NextFanOut, NextItem;
    if !w.status.Alive? {
      Dead(a, b, k, w, v, PushNext(b, d, x, v).w);
    } else if c.end.Open? {
      match c
      case Sink(_, _) =>
      case Bridge(_, dest) => SimNext(a, b, k, dest, d.dest, x, w, v);
      case Op(s, _, st, next) =>
        if !st.failed {
          match s
          case Reduce(_, _) => SimNextReduce(a, b, k, c, d, x, w, v);
          case Switch(_, _) => SimNextSwitch(a, b, k, c, d, x, w, v);
          case Parallel(_, _) => SimNextParallel(a, b, k, c, d, x, w, v);
          case FanOut(_, _, _) => SimNextFanOut(a, b, k, c, d, x, w, v);
          case _ => SimNextItem(a, b, k, c, d, x, w, v);
        }
    }
  }

  lemma {:induction false} SimBroken(a: Answers, b: Answers, k: nat, c: Chain, d: Chain, e: Error, f: Error, w: World, v: World)
    requires Agree(a, b) && Follows(a, b, k, w, v) && (w.status.Alive? ==> Like(c, d) && LikeError(e, f))
    requires c.Op? && d.Op?
    ensures var r, q := Broken(a, c, e, w), Broken(b, d, f, v);
            Follows(a, b, k, r.w, q.w) && (r.w.status.Alive? ==> Like(r.c, q.c))
    decreases ChainSize(c), w.fuel, 1, 0
  {
    hide PushError;
    SimError(a, b, k, c.next, d.next, e, f, w, v);
  }

  lemma {:induction false} SimError(a: Answers, b: Answers, k: nat, c: Chain, d: Chain, e: Error, f: Error, w: World, v: World)
    requires Agree(a, b) && Follows(a, b, k, w, v) && (w.status.Alive? ==> Like(c, d) && LikeError(e, f))
    ensures var r, q := PushError(a, c, e, w), PushError(b, d, f, v);
            Follows(a, b, k, r.w, q.w) && (r.w.status.Alive? ==> Like(r.c, q.c))
    decreases ChainSize(c), w.fuel, 5, 0
  {
    hide Broken, Drain;
    if !w.status.Alive? {
      Dead(a, b, k, w, v, PushError(b, d, f, v).w);
    } else if c.end.Open? {
      match c
      case Sink(_, _) =>
      case Bridge(_, dest) => SimError(a, b, k, dest, d.dest, e, f, w, v);
      case Op(s, _, st, next) =>
        if s.Parallel? {
          SimDrain(a, b, k, w, v, st.slots);
          DrainGrows(a, w, st.slots);
          SimBroken(a, b, k, Op(s, Errored(e, |w.trace|), st.(slots := []), next), Op(s, Errored(f, |v.trace|), st.(slots := []), d.next),
                    e, f, Drain(a, w, st.slots), Drain(b, v, st.slots));
        } else {
          SimError(a, b, k, next, d.next, e, f, w, v);
        }
    }
  }

  lemma {:induction false} SimNextItem(a: Answers, b: Answers, k: nat, c: Chain, d: Chain, x: Value, w: World, v: World)
    requires Agree(a, b) && Follows(a, b, k, w, v) && w.status.Alive? && Like(c, d) && c.Op?
    ensures var r, q := NextItem(a, c, x, w), NextItem(b, d, x, v);
            Follows(a, b, k, r.w, q.w) && (r.w.status.Alive? ==> Like(r.c, q.c))
    decreases ChainSize(c), w.fuel, 3, 0
  {
    hide Item, PushAll, Broken;
    SimItem(a, b, k, c.stage, x, w, v);
    var g, h := Item(a, c.stage, x, w), Item(b, c.stage, x, v);
    if !g.0.status.Alive? {
      Dead(a, b, k, g.0, h.0, NextItem(b, d, x, v).w);
    } else {
      match g.1
      case Emit(outs) => SimAll(a, b, k, c.next, d.next, outs, g.0, h.0);
      case Break(e) => SimBroken(a, b, k, c, d, e, h.1.err, g.0, h.0);
    }
  }

  lemma {:induction false} SimItem(a: Answers, b: Answers, k: nat, s: Stage, x: Value, w: World, v: World)
    requires Agree(a, b) && Follows(a, b, k, w, v)
    ensures var g, h := Item(a, s, x, w), Item(b, s, x, v);
            Follows(a, b, k, g.0, h.0) && (g.0.status.Alive? ==> LikeItem(g.1, h.1))
    decreases StageSize(s), w.fuel, 2, 0
  {
    hide RunStep, LoopItem, RescueItem, Collect, AlongsideItem;
    match s
    case Leaf(kind, name) => SimStep(a, b, k, w, v, Request(name, x, NoExtra));
    case Loop(name, body, bound) => SimLoop(a, b, k, name, body, bound, 1, x, w, v);
    case Rescue(name, p) => SimRescue(a, b, k, name, p, x, w, v);
    case Via(_, p) => SimCollect(a, b, k, p, x, w, v);
    case Alongside(name, p) => SimAlongside(a, b, k, name, p, x, w, v);
    case _ =>
  }

  lemma {:induction false} SimLoop(a: Answers, b: Answers, k: nat, name: string, body: Pipeline, bound: nat, i: nat, x: Value, w: World, v: World)
    requires Agree(a, b) && Follows(a, b, k, w, v)
    ensures var g, h := LoopItem(a, name, body, bound, i, x, w), LoopItem(b, name, body, bound, i, x, v);
            Follows(a, b, k, g.0, h.0) && (g.0.status.Alive? ==> LikeItem(g.1, h.1))
    decreases 2 + Size(body), w.fuel, 1, 0
  {
    hide Collect, LoopVerdict;
    var s, t := Collect(a, body, x, w), Collect(b, body, x, v);
    SimCollect(a, b, k, body, x, w, v);
    if !s.w.status.Alive? {
      Dead(a, b, k, s.w, t.w, LoopItem(b, name, body, bound, i, x, v).0);
    } else if s.err.None? && s.outs != [] {
      SimVerdict(a, b, k, name, body, bound, i, s.outs[|s.outs| - 1], s.w, t.w);
    }
  }

  lemma {:induction false} SimVerdict(a: Answers, b: Answers, k: nat, name: string, body: Pipeline, bound: nat, i: nat, x: Value, w: World, v: World)
    requires Agree(a, b) && Follows(a, b, k, w, v) && w.status.Alive?
    ensures var g, h := LoopVerdict(a, name, body, bound, i, x, w), LoopVerdict(b, name, body, bound, i, x, v);
            Follows(a, b, k, g.0, h.0) && (g.0.status.Alive? ==> LikeItem(g.1, h.1))
    decreases 2 + Size(body), w.fuel, 0, 0
  {
    hide LoopItem;
    var req := Request(name, x, NoExtra);
    SimStep(a, b, k, w, v, req);
    var g, h := RunStep(a, w, req), RunStep(b, v, req);
    if !g.w.status.Alive? {
      Dead(a, b, k, g.w, h.w, LoopVerdict(b, name, body, bound, i, x, v).0);
    } else if g.out.Ok? && !AsBool(g.out.value) && !(bound > 0 && i >= bound) {
      SimLoop(a, b, k, name, body, bound, i + 1, x, g.w, h.w);
    }
  }

  lemma {:induction false} SimRescue(a: Answers, b: Answers, k: nat, name: string, p: Pipeline, x: Value, w: World, v: World)
    requires Agree(a, b) && Follows(a, b, k, w, v)
    ensures var g, h := RescueItem(a, name, p, x, w), RescueItem(b, name, p, x, v);
            Follows(a, b, k, g.0, h.0) && (g.0.status.Alive? ==> LikeItem(g.1, h.1))
    decreases 2 + Size(p), w.fuel, 1, 0
  {
    hide Collect, HandleCause;
    if !w.status.Alive? {
      Dead(a, b, k, w, v, RescueItem(b, name, p, x, v).0);
    } else if !w.aborted {
      assert w.(aborted := false) == w && v.(aborted := false) == v;
      SimCollect(a, b, k, p, x, w, v);
      var s, t := Collect(a, p, x, w), Collect(b, p, x, v);
      if !s.w.status.Alive? {
        Dead(a, b, k, s.w, t.w, RescueItem(b, name, p, x, v).0);
      } else {
        SimHandle(a, b, k, name, x, s.(w := s.w.(aborted := false)), t.(w := t.w.(aborted := false)));
      }
    }
  }

  lemma SimHandle(a: Answers, b: Answers, k: nat, name: string, x: Value, s: Collected, t: Collected)
    requires Agree(a, b) && Follows(a, b, k, s.w, t.w) && s.w.status.Alive? && s.outs == t.outs && LikeMaybe(s.err, t.err)
    ensures var g, h := HandleCause(a, name, x, s), HandleCause(b, name, x, t);
            Follows(a, b, k, g.0, h.0) && (g.0.status.Alive? ==> LikeItem(g.1, h.1))
  {
    if s.err.Some? {
      SimStep(a, b, k, s.w, t.w, Request(name, x, Cause(s.err.value.msg)));
    }
  }

  lemma {:induction false} SimAlongside(a: Answers, b: Answers, k: nat, name: string, p: Pipeline, x: Value, w: World, v: World)
    requires Agree(a, b) && Follows(a, b, k, w, v)
    ensures var g, h := AlongsideItem(a, name, p, x, w), AlongsideItem(b, name, p, x, v);
            Follows(a, b, k, g.0, h.0) && (g.0.status.Alive? ==> LikeItem(g.1, h.1))
    decreases 2 + Size(p), w.fuel, 1, 0
  {
    hide Collect, AwaitSide;
    if !w.status.Alive? {
      Dead(a, b, k, w, v, AlongsideItem(b, name, p, x, v).0);
    } else if !w.aborted {
      var w1, v1 := LaunchAhead(w, Request(name, x, NoExtra)), LaunchAhead(v, Request(name, x, NoExtra));
      SimCollect(a, b, k, p, x, w1, v1);
      SimSide(a, b, k, name, |w.trace|, x, Collect(a, p, x, w1), Collect(b, p, x, v1));
    }
  }

  lemma SimSide(a: Answers, b: Answers, k: nat, name: string, slot: nat, x: Value, s: Collected, t: Collected)
    requires Agree(a, b) && Follows(a, b, k, s.w, t.w) && (s.w.status.Alive? ==> LikeMaybe(s.err, t.err))
    ensures var g, h := AwaitSide(a, name, slot, x, s), AwaitSide(b, name, slot, x, t);
            Follows(a, b, k, g.0, h.0) && (g.0.status.Alive? ==> LikeItem(g.1, h.1))
  {
    SimAwait(a, b, k, s.w, t.w, slot);
    var w, v := Await(a, s.w, slot), Await(b, t.w, slot);
    if !w.status.Alive? {
      assert AwaitSide(a, name, slot, x, s).0 == w;
      Dead(a, b, k, w, v, AwaitSide(b, name, slot, x, t).0);
    } else if s.err.None? && Answer(a, slot).Fail? {
      SimStep(a, b, k, w, v, Request(name, x, Cause(Answer(a, slot).err.msg)));
    }
  }

  lemma {:induction false} SimCollect(a: Answers, b: Answers, k: nat, p: Pipeline, x: Value, w: World, v: World)
    requires Agree(a, b) && Follows(a, b, k, w, v)
    ensures var s, t := Collect(a, p, x, w), Collect(b, p, x, v);
            Follows(a, b, k, s.w, t.w) && (s.w.status.Alive? ==> s.outs == t.outs && LikeMaybe(s.err, t.err))
    decreases Size(p) + 1, w.fuel, 9, 0
  {
    hide Feed;
    var c := Subscribe(p, Sink([], Open));
    LikeSubscribe(p, Sink([], Open), Sink([], Open));
    SimFeed(a, b, k, c, c, x, w, v);
    var r, q := Feed(a, c, x, w), Feed(b, c, x, v);
    if r.w.status.Alive? { LikeTerminator(r.c, q.c); }
  }

  lemma {:induction false} SimFeed(a: Answers, b: Answers, k: nat, c: Chain, d: Chain, x: Value, w: World, v: World)
    requires Agree(a, b) && Follows(a, b, k, w, v) && (w.status.Alive? ==> Like(c, d))
    ensures var r, q := Feed(a, c, x, w), Feed(b, d, x, v);
            Follows(a, b, k, r.w, q.w) && (r.w.status.Alive? ==> Like(r.c, q.c))
    decreases ChainSize(c), w.fuel, 8, 0
  {
    hide PushNext, PushDone;
    SimNext(a, b, k, c, d, x, w, v);
    var r, q := PushNext(a, c, x, w), PushNext(b, d, x, v);
    SameSize(c, r.c);
    SimDone(a, b, k, r.c, q.c, r.w, q.w);
  }

  lemma {:induction false} SimAll(a: Answers, b: Answers, k: nat, c: Chain, d: Chain, xs: seq<Value>, w: World, v: World)
    requires Agree(a, b) && Follows(a, b, k, w, v) && (w.status.Alive? ==> Like(c, d))
    ensures var r, q := PushAll(a, c, xs, w), PushAll(b, d, xs, v);
            Follows(a, b, k, r.w, q.w) && (r.w.status.Alive? ==> Like(r.c, q.c))
    decreases ChainSize(c), w.fuel, 8, |xs|
  {
    hide PushNext;
    if xs != [] {
      SimNext(a, b, k, c, d, xs[0], w, v);
      var r, q := PushNext(a, c, xs[0], w), PushNext(b, d, xs[0], v);
      SameSize(c, r.c);
      SimAll(a, b, k, r.c, q.c, xs[1..], r.w, q.w);
    }
  }

  lemma {:induction false} SimNextReduce(a: Answers, b: Answers, k: nat, c: Chain, d: Chain, x: Value, w: World, v: World)
    requires Agree(a, b) && Follows(a, b, k, w, v) && w.status.Alive? && Like(c, d) && c.Op? && c.stage.Reduce?
    ensures var r, q := NextReduce(a, c, x, w), NextReduce(b, d, x, v);
            Follows(a, b, k, r.w, q.w) && (r.w.status.Alive? ==> Like(r.c, q.c))
    decreases ChainSize(c), w.fuel, 3, 0
  {
    hide RunStep, Broken;
    var req := Request(c.stage.name, x, Acc(c.st.acc));
    SimStep(a, b, k, w, v, req);
    var g, h := RunStep(a, w, req), RunStep(b, v, req);
    if !g.w.status.Alive? {
      Dead(a, b, k, g.w, h.w, NextReduce(b, d, x, v).w);
    } else if g.out.Fail? {
      SimBroken(a, b, k, c, d, g.out.err, h.out.err, g.w, h.w);
    }
  }

  lemma {:induction false} SimNextSwitch(a: Answers, b: Answers, k: nat, c: Chain, d: Chain, x: Value, w: World, v: World)
    requires Agree(a, b) && Follows(a, b, k, w, v) && w.status.Alive? && Like(c, d) && c.Op? && c.stage.Switch?
    ensures var r, q := NextSwitch(a, c, x, w), NextSwitch(b, d, x, v);
            Follows(a, b, k, r.w, q.w) && (r.w.status.Alive? ==> Like(r.c, q.c))
    decreases ChainSize(c), w.fuel, 3, 0
  {
    hide RunStep, Broken, Forward, Find;
    var req := Request(c.stage.name, x, NoExtra);
    SimStep(a, b, k, w, v, req);
    var g, h := RunStep(a, w, req), RunStep(b, v, req);
    if !g.w.status.Alive? {
      Dead(a, b, k, g.w, h.w, NextSwitch(b, d, x, v).w);
    } else if g.out.Fail? {
      SimBroken(a, b, k, c, d, g.out.err, h.out.err, g.w, h.w);
    } else {
      var key := AsKey(g.out.value);
      var arm := Find(c.stage.cases, key);
      FindIsSmaller(c.stage.cases, key);
      if arm.None? {
        var e := NoCaseError(c.stage.name, key);
        SimBroken(a, b, k, c, d, e, e, g.w.(aborted := true), h.w.(aborted := true));
      } else {
        SimForward(a, b, k, arm.value, x, c.next, d.next, g.w, h.w);
      }
    }
  }

  lemma {:induction false} SimForward(a: Answers, b: Answers, k: nat, arm: Pipeline, x: Value, c: Chain, d: Chain, w: World, v: World)
    requires Agree(a, b) && Follows(a, b, k, w, v) && w.status.Alive? && Like(c, d)
    ensures var r, q := Forward(a, arm, x, c, w), Forward(b, arm, x, d, v);
            Follows(a, b, k, r.w, q.w) && (r.w.status.Alive? ==> Like(r.c, q.c))
    decreases Size(arm) + 1 + ChainSize(c), w.fuel, 9, 0
  {
    hide Feed;
    var m, n := Subscribe(arm, Bridge(Open, c)), Subscribe(arm, Bridge(Open, d));
    LikeSubscribe(arm, Bridge(Open, c), Bridge(Open, d));
    SimFeed(a, b, k, m, n, x, w, v);
    var r, q := Feed(a, m, x, w), Feed(b, n, x, v);
    if r.w.status.Alive? { LikeTerminator(r.c, q.c); }
  }

  lemma {:induction false} SimNextParallel(a: Answers, b: Answers, k: nat, c: Chain, d: Chain, x: Value, w: World, v: World)
    requires Agree(a, b) && Follows(a, b, k, w, v) && w.status.Alive? && Like(c, d) && c.Op? && c.stage.Parallel?
    ensures var r, q := NextParallel(a, c, x, w), NextParallel(b, d, x, v);
            Follows(a, b, k, r.w, q.w) && (r.w.status.Alive? ==> Like(r.c, q.c))
    decreases ChainSize(c), w.fuel, 3, 0
  {
    hide Broken, Drain;
    if w.aborted {
      SimDrain(a, b, k, w, v, c.st.slots);
      DrainGrows(a, w, c.st.slots);
      SimBroken(a, b, k, c.(st := c.st.(slots := [])), d.(st := d.st.(slots := [])), ERR_ABORTED, ERR_ABORTED,
                Drain(a, w, c.st.slots), Drain(b, v, c.st.slots));
    }
  }

  lemma {:induction false} SimNextFanOut(a: Answers, b: Answers, k: nat, c: Chain, d: Chain, x: Value, w: World, v: World)
    requires Agree(a, b) && Follows(a, b, k, w, v) && w.status.Alive? && Like(c, d) && c.Op? && c.stage.FanOut?
    ensures var r, q := NextFanOut(a, c, x, w), NextFanOut(b, d, x, v);
            Follows(a, b, k, r.w, q.w) && (r.w.status.Alive? ==> Like(r.c, q.c))
    decreases ChainSize(c), w.fuel, 3, 0
  {
    hide RunStep, Broken;
    var req := Request(c.stage.child, x, NoExtra);
    SimStep(a, b, k, w, v, req);
    var g, h := RunStep(a, w, req), RunStep(b, v, req);
    if !g.w.status.Alive? {
      Dead(a, b, k, g.w, h.w, NextFanOut(b, d, x, v).w);
    } else if w.aborted {
      SimBroken(a, b, k, c, d, ERR_ABORTED, ERR_ABORTED, g.w, h.w);
    } else if g.out.Fail? {
      var prefix := StageSays(c.stage.name) + CHILD_ENQUEUE_FAILED;
      SimBroken(a, b, k, c, d, Wrap(prefix, g.out.err), Wrap(prefix, h.out.err), g.w, h.w);
    }
  }

  lemma {:induction false} SimDone(a: Answers, b: Answers, k: nat, c: Chain, d: Chain, w: World, v: World)
    requires Agree(a, b) && Follows(a, b, k, w, v) && (w.status.Alive? ==> Like(c, d))
    ensures var r, q := PushDone(a, c, w), PushDone(b, d, v);
            Follows(a, b, k, r.w, q.w) && (r.w.status.Alive? ==> Like(r.c, q.c))
    decreases ChainSize(c), w.fuel, 5, 0
  {
    hide DoneOp;
    if !w.status.Alive? {
      Dead(a, b, k, w, v, PushDone(b, d, v).w);
    } else if c.end.Open? {
      match c
      case Sink(_, _) =>
      case Bridge(_, _) =>
      case Op(s, _, st, next) =>
        SimDoneOp(a, b, k, Op(s, Completed, st, next), Op(s, Completed, st, d.next), w, v);
    }
  }

  lemma {:induction false} SimDoneOp(a: Answers, b: Answers, k: nat, c: Chain, d: Chain, w: World, v: World)
    requires Agree(a, b) && Follows(a, b, k, w, v) && w.status.Alive? && Like(c, d) && c.Op?
    ensures var r, q := DoneOp(a, c, w), DoneOp(b, d, v);
            Follows(a, b, k, r.w, q.w) && (r.w.status.Alive? ==> Like(r.c, q.c))
    decreases ChainSize(c), w.fuel, 4, 0
  {
    hide Feed, DoneParallel, DoneFanOut, DoneFanOutCancel, PushDone;
    if !c.st.failed {
      match c.stage
      case Reduce(_, _) => SimFeed(a, b, k, c.next, d.next, c.st.acc, w, v);
      case Parallel(_, _) => SimDoneParallel(a, b, k, c, d, w, v);
      case FanOut(_, _, cancelSiblings) =>
        if cancelSiblings { SimDoneFanOutCancel(a, b, k, c, d, w, v); }
        else { SimDoneFanOut(a, b, k, c, d, 0, w, v); }
      case _ => SimDone(a, b, k, c.next, d.next, w, v);
    }
  }

  lemma {:induction false} SimDoneParallel(a: Answers, b: Answers, k: nat, c: Chain, d: Chain, w: World, v: World)
    requires Agree(a, b) && Follows(a, b, k, w, v) && w.status.Alive? && Like(c, d) && c.Op? && c.stage.Parallel?
    ensures var r, q := DoneParallel(a, c, w), DoneParallel(b, d, v);
            Follows(a, b, k, r.w, q.w) && (r.w.status.Alive? ==> Like(r.c, q.c))
    decreases ChainSize(c), w.fuel, 3, 0
  {
    hide Drain, EmitParallel;
    var slots := c.st.slots;
    var w1, v1 := Drain(a, w, slots), Drain(b, v, slots);
    SimDrain(a, b, k, w, v, slots);
    DrainGrows(a, w, slots);
    if !w1.status.Alive? {
      Dead(a, b, k, w1, v1, DoneParallel(b, d, v).w);
    } else {
      SimEmitParallel(a, b, k, c.(st := c.st.(slots := [])), d.(st := d.st.(slots := [])),
                      Outcomes(a, slots), Outcomes(b, slots), w1, v1);
    }
  }

  lemma {:induction false} SimEmitParallel(a: Answers, b: Answers, k: nat, c: Chain, d: Chain, os: seq<Outcome>, qs: seq<Outcome>, w: World, v: World)
    requires Agree(a, b) && Follows(a, b, k, w, v) && w.status.Alive? && Like(c, d) && c.Op? && c.stage.Parallel?
    requires AllLike(os, qs)
    ensures var r, q := EmitParallel(a, c, os, w), EmitParallel(b, d, qs, v);
            Follows(a, b, k, r.w, q.w) && (r.w.status.Alive? ==> Like(r.c, q.c))
    decreases ChainSize(c), w.fuel, 2, 0
  {
    hide PushAll, PushDone, Broken, Results, ParallelError;
    ChoiceAlike(os, qs, c.stage.cancelSiblings);
    SimAll(a, b, k, c.next, d.next, Results(os), w, v);
    var r1, q1 := PushAll(a, c.next, Results(os), w), PushAll(b, d.next, Results(qs), v);
    SameSize(c.next, r1.c);
    if !r1.w.status.Alive? {
      Dead(a, b, k, r1.w, q1.w, EmitParallel(b, d, qs, v).w);
    } else {
      var e, f := ParallelError(os, c.stage.cancelSiblings), ParallelError(qs, c.stage.cancelSiblings);
      if e.Some? {
        var prefix := StageSays(c.stage.name);
        SimBroken(a, b, k, c.(next := r1.c), d.(next := q1.c), Wrap(prefix, e.value), Wrap(prefix, f.value),
                  r1.w.(aborted := true), q1.w.(aborted := true));
      } else {
        SimDone(a, b, k, r1.c, q1.c, r1.w, q1.w);
      }
    }
  }

  lemma {:induction false} SimDoneFanOut(a: Answers, b: Answers, k: nat, c: Chain, d: Chain, i: nat, w: World, v: World)
    requires Agree(a, b) && Follows(a, b, k, w, v) && (w.status.Alive? ==> Like(c, d))
    requires c.Op? && c.stage.FanOut? && i <= |c.st.handles| && d.Op? && d.stage.FanOut? && i <= |d.st.handles|
    ensures var r, q := DoneFanOut(a, c, i, w), DoneFanOut(b, d, i, v);
            Follows(a, b, k, r.w, q.w) && (r.w.status.Alive? ==> Like(r.c, q.c))
    decreases ChainSize(c), w.fuel, 3, |c.st.handles| - i
  {
    hide RunStep, PushDone, PushNext, Broken;
    if !w.status.Alive? {
      Dead(a, b, k, w, v, DoneFanOut(b, d, i, v).w);
    } else if i == |c.st.handles| {
      SimDone(a, b, k, c.next, d.next, w, v);
    } else {
      var handle := c.st.handles[i];
      var req := Request(GET_RESULT_NAME, handle, NoExtra);
      SimStep(a, b, k, w, v, req);
      var g, h := RunStep(a, w, req), RunStep(b, v, req);
      if !g.w.status.Alive? {
        Dead(a, b, k, g.w, h.w, DoneFanOut(b, d, i, v).w);
      } else if w.aborted {
        SimBroken(a, b, k, c, d, ERR_ABORTED, ERR_ABORTED, g.w, h.w);
      } else if g.out.Fail? {
        var prefix := ChildSays(c.stage.name, handle);
        SimBroken(a, b, k, c, d, Wrap(prefix, g.out.err), Wrap(prefix, h.out.err), g.w, h.w);
      } else {
        SimNext(a, b, k, c.next, d.next, g.out.value, g.w, h.w);
        var r1, q1 := PushNext(a, c.next, g.out.value, g.w), PushNext(b, d.next, h.out.value, h.w);
        SameSize(c.next, r1.c);
        SimDoneFanOut(a, b, k, c.(next := r1.c), d.(next := q1.c), i + 1, r1.w, q1.w);
      }
    }
  }

  lemma {:induction false} SimDoneFanOutCancel(a: Answers, b: Answers, k: nat, c: Chain, d: Chain, w: World, v: World)
    requires Agree(a, b) && Follows(a, b, k, w, v) && w.status.Alive? && Like(c, d) && c.Op? && c.stage.FanOut?
    ensures var r, q := DoneFanOutCancel(a, c, w), DoneFanOutCancel(b, d, v);
            Follows(a, b, k, r.w, q.w) && (r.w.status.Alive? ==> Like(r.c, q.c))
    decreases ChainSize(c), w.fuel, 3, 0
  {
    hide RunStep, PushDone, AwaitBatch, Broken;
    if c.st.handles == [] {
      SimDone(a, b, k, c.next, d.next, w, v);
    } else {
      var req := Request(CANCEL_WATCHER_NAME, Items(Unique(c.st.handles)), NoExtra);
      SimStep(a, b, k, w, v, req);
      var g, h := RunStep(a, w, req), RunStep(b, v, req);
      if !g.w.status.Alive? {
        Dead(a, b, k, g.w, h.w, DoneFanOutCancel(b, d, v).w);
      } else if w.aborted {
        SimBroken(a, b, k, c, d, ERR_ABORTED, ERR_ABORTED, g.w, h.w);
      } else if g.out.Fail? {
        var prefix := StageSays(c.stage.name) + WATCHER_ENQUEUE_FAILED;
        SimBroken(a, b, k, c, d, Wrap(prefix, g.out.err), Wrap(prefix, h.out.err), g.w, h.w);
      } else {
        SimAwaitBatch(a, b, k, c, d, g.w, h.w);
      }
    }
  }

  lemma {:induction false} SimAwaitBatch(a: Answers, b: Answers, k: nat, c: Chain, d: Chain, w: World, v: World)
    requires Agree(a, b) && Follows(a, b, k, w, v) && w.status.Alive? && Like(c, d) && c.Op? && c.stage.FanOut?
    ensures var r, q := AwaitBatch(a, c, w), AwaitBatch(b, d, v);
            Follows(a, b, k, r.w, q.w) && (r.w.status.Alive? ==> Like(r.c, q.c))
    decreases ChainSize(c), w.fuel, 2, 0
  {
    hide RunStep, PushDone, PushAll, Broken;
    var req := Request(c.stage.name, Items(c.st.handles), NoExtra);
    SimStep(a, b, k, w, v, req);
    var g, h := RunStep(a, w, req), RunStep(b, v, req);
    if !g.w.status.Alive? {
      Dead(a, b, k, g.w, h.w, AwaitBatch(b, d, v).w);
    } else if g.out.Fail? {
      SimBroken(a, b, k, c, d, g.out.err, h.out.err, g.w, h.w);
    } else {
      var xs := AsItems(g.out.value);
      SimAll(a, b, k, c.next, d.next, xs, g.w, h.w);
      var r1, q1 := PushAll(a, c.next, xs, g.w), PushAll(b, d.next, xs, h.w);
      SameSize(c.next, r1.c);
      SimDone(a, b, k, r1.c, q1.c, r1.w, q1.w);
    }
  }
}
