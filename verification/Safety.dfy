/**
What every event keeps, at every depth of nesting: a scope fails with what one of its
stages makes of the outcome that raised the scope's abort flag, never with ERR_ABORTED,
and takes no step ID after that; or it fails with a Loop's bound. No launched step is
left unawaited, and the step IDs a dying process leaves without an outcome are those
taken ahead of time by a Parallel or an Alongside, and the one it was waiting for.
 */
module Safety {
  import opened Values
  import opened Pipelines
  import opened ParallelChoice
  import opened Engine

  // ---- Which names launch ahead of their outcomes ----

  function AheadStage(s: Stage): set<string>
    decreases s
  {
    match s
    case Switch(_, cases) => AheadCases(cases)
    case Loop(_, body, _) => Ahead(body)
    case Rescue(_, p) => Ahead(p)
    case Sub(_, p) => Ahead(p)
    case Via(_, p) => Ahead(p)
    case Alongside(name, p) => {name} + Ahead(p)
    case Parallel(name, _) => {name}
    case _ => {}
  }

  function Ahead(p: Pipeline): set<string>
    decreases p
  {
    match p
    case Empty => {}
    case Then(s, rest) => AheadStage(s) + Ahead(rest)
  }

  function AheadCases(cases: Cases): set<string>
    decreases cases
  {
    match cases
    case NoCase => {}
    case Case(_, arm, rest) => Ahead(arm) + AheadCases(rest)
  }

  function AheadChain(c: Chain): set<string> {
    match c
    case Sink(_, _) => {}
    case Bridge(_, dest) => AheadChain(dest)
    case Op(s, _, _, next) => AheadStage(s) + AheadChain(next)
  }

  lemma {:induction false} AheadSame(c: Chain, d: Chain)
    requires Same(c, d)
    ensures AheadChain(c) == AheadChain(d)
  {
    match c
    case Sink(_, _) =>
    case Bridge(_, x) => AheadSame(x, d.dest);
    case Op(_, _, _, x) => AheadSame(x, d.next);
  }

  lemma {:induction false} AheadSubscribe(p: Pipeline, dest: Chain)
    ensures AheadChain(Subscribe(p, dest)) == Ahead(p) + AheadChain(dest)
    decreases p
  {
    match p
    case Empty =>
    case Then(s, rest) =>
      AheadSubscribe(rest, dest);
      if s.Sub? { AheadSubscribe(s.inner, Subscribe(rest, dest)); }
  }

  lemma {:induction false} AheadFind(cases: Cases, key: string)
    ensures Find(cases, key).Some? ==> Ahead(Find(cases, key).value) <= AheadCases(cases)
  {
    match cases
    case NoCase =>
    case Case(_, _, rest) => AheadFind(rest, key);
  }

  // ---- Which stages act in a scope ----

  /** The stages whose failures raise a scope's flag. A Rescue opens a scope of its own
      (flow.go:258-263), so what it embeds is not among them. */
  ghost function CastStage(s: Stage): iset<Stage>
    decreases s
  {
    iset{s} +
    match s
    case Switch(_, cases) => CastCases(cases)
    case Loop(_, body, _) => Cast(body)
    case Sub(_, p) => Cast(p)
    case Via(_, p) => Cast(p)
    case Alongside(_, p) => Cast(p)
    case _ => iset{}
  }

  ghost function Cast(p: Pipeline): iset<Stage>
    decreases p
  {
    match p
    case Empty => iset{}
    case Then(s, rest) => CastStage(s) + Cast(rest)
  }

  ghost function CastCases(cases: Cases): iset<Stage>
    decreases cases
  {
    match cases
    case NoCase => iset{}
    case Case(_, arm, rest) => Cast(arm) + CastCases(rest)
  }

  ghost function CastChain(c: Chain): iset<Stage> {
    match c
    case Sink(_, _) => iset{}
    case Bridge(_, dest) => CastChain(dest)
    case Op(s, _, _, next) => CastStage(s) + CastChain(next)
  }

  lemma {:induction false} CastSame(c: Chain, d: Chain)
    requires Same(c, d)
    ensures CastChain(c) == CastChain(d)
  {
    match c
    case Sink(_, _) =>
    case Bridge(_, x) => CastSame(x, d.dest);
    case Op(_, _, _, x) => CastSame(x, d.next);
  }

  lemma {:induction false} CastSubscribe(p: Pipeline, dest: Chain)
    ensures CastChain(Subscribe(p, dest)) <= Cast(p) + CastChain(dest)
    decreases p
  {
    match p
    case Empty =>
    case Then(s, rest) =>
      CastSubscribe(rest, dest);
      if s.Sub? { CastSubscribe(s.inner, Subscribe(rest, dest)); }
  }

  lemma {:induction false} CastFind(cases: Cases, key: string)
    ensures Find(cases, key).Some? ==> Cast(Find(cases, key).value) <= CastCases(cases)
  {
    match cases
    case NoCase =>
    case Case(_, _, rest) => CastFind(rest, key);
  }

  /** What one run of a scope is judged by. names: who takes step IDs ahead of time. cast:
      the stages whose failures raise its flag. from: its first step ID. outer: step IDs
      taken ahead of time further out. quiet: its flag was already up when it began. */
  datatype Scope = Scope(names: set<string>, ghost cast: iset<Stage>, from: nat, outer: set<nat>, quiet: bool)

  ghost predicate Manned(sc: Scope, c: Chain) { AheadChain(c) <= sc.names && CastChain(c) <= sc.cast }

  lemma MannedSame(sc: Scope, c: Chain, d: Chain)
    requires Same(c, d) && Manned(sc, c)
    ensures Manned(sc, d)
  {
    AheadSame(c, d);
    CastSame(c, d);
  }

  // ---- What a failure is ----

  /** e is what stage s reports when its request has this outcome. */
  ghost predicate Reports(s: Stage, req: Request, out: Outcome, e: Error) {
    match s
    case Leaf(_, name) => req.name == name && req.extra.NoExtra? && out == Fail(e)
    case Reduce(name, _) => req.name == name && req.extra.Acc? && out == Fail(e)
    case Switch(name, cases) =>
      && req.name == name && req.extra.NoExtra?
      && (out == Fail(e)
          || (out.Ok? && Find(cases, AsKey(out.value)).None? && e == NoCaseError(name, AsKey(out.value))))
    case Loop(name, _, _) => req.name == name && req.extra.NoExtra? && out == Fail(e)
    case Rescue(name, _) => req.name == name && req.extra.Cause? && out == Fail(e)
    case Alongside(name, _) => req.name == name && req.extra.Cause? && out == Fail(e)
    case Parallel(name, _) => req.name == name && out.Fail? && e == Wrap(StageSays(name), out.err)
    case FanOut(name, child, cancelSiblings) =>
      && out.Fail?
      && (|| (req.name == child && e == Wrap(StageSays(name) + CHILD_ENQUEUE_FAILED, out.err))
          || (!cancelSiblings && req.name == GET_RESULT_NAME && e == Wrap(ChildSays(name, req.arg), out.err))
          || (cancelSiblings && req.name == CANCEL_WATCHER_NAME && e == Wrap(StageSays(name) + WATCHER_ENQUEUE_FAILED, out.err))
          || (cancelSiblings && req.name == name && e == out.err))
    case _ => false
  }

  /** The outcome behind it: the last one asked for, unless it is one of a Parallel's batch. */
  ghost predicate Made(a: Answers, trace: seq<Request>, s: Stage, slot: nat, e: Error) {
    && slot < |trace| && slot in a && Reports(s, trace[slot], a[slot], e)
    && (s.Parallel? || slot == |trace| - 1)
  }

  ghost predicate Trips(a: Answers, trace: seq<Request>, s: Stage, slot: nat, e: Error) {
    && s.Loop? && s.bound > 0
    && slot < |trace| && trace[slot].name == s.name && trace[slot].extra.NoExtra?
    && slot in a && a[slot].Ok? && !AsBool(a[slot].value)
    && e == BoundError(s.name, s.bound)
  }

  /** e is the failure that has the scope's flag up. */
  ghost predicate Raised(a: Answers, sc: Scope, w: World, e: Error) {
    w.aborted && exists s, slot :: s in sc.cast && sc.from <= slot && Made(a, w.trace, s, slot, e)
  }

  /** e is the bound of one of the scope's Loops, reported after a recorded refusal. */
  ghost predicate Tripped(a: Answers, sc: Scope, w: World, e: Error) {
    exists s, slot :: s in sc.cast && sc.from <= slot && Trips(a, w.trace, s, slot, e)
  }

  ghost predicate Fault(a: Answers, sc: Scope, w: World, e: Error) {
    Raised(a, sc, w, e) || Tripped(a, sc, w, e)
  }

  ghost predicate FlagRaised(a: Answers, sc: Scope, w: World) { exists e :: Raised(a, sc, w, e) }

  /** No stage function returns duro.ErrAborted of its own accord. */
  ghost predicate Honest(a: Answers) {
    forall s | s in a :: a[s].Fail? ==> a[s].err.id != Aborted
  }

  /** A failure is never ERR_ABORTED, and one that left the flag down has the bound's identity. */
  lemma FaultIsReal(a: Answers, sc: Scope, w: World, e: Error)
    requires Honest(a) && Fault(a, sc, w, e)
    ensures e.id != Aborted && (e.id != MaxIterations ==> Raised(a, sc, w, e))
  {
  }

  lemma RaisedLasts(a: Answers, sc: Scope, w: World, v: World, e: Error)
    requires Raised(a, sc, w, e) && Grows(w, v)
    ensures Raised(a, sc, v, e)
  {
  }

  lemma TrippedLasts(a: Answers, sc: Scope, w: World, v: World, e: Error)
    requires Tripped(a, sc, w, e) && Grows(w, v)
    ensures Tripped(a, sc, v, e)
  {
    var s, slot :| s in sc.cast && sc.from <= slot && Trips(a, w.trace, s, slot, e);
    assert Trips(a, v.trace, s, slot, e);
  }

  lemma FaultLasts(a: Answers, sc: Scope, w: World, v: World)
    requires Grows(w, v)
    ensures forall e :: Fault(a, sc, w, e) ==> Fault(a, sc, v, e)
    ensures FlagRaised(a, sc, w) ==> FlagRaised(a, sc, v)
  {
    hide Raised, Tripped, Grows;
    forall e | Fault(a, sc, w, e) ensures Fault(a, sc, v, e) {
      if Raised(a, sc, w, e) { RaisedLasts(a, sc, w, v, e); } else { TrippedLasts(a, sc, w, v, e); }
    }
    if FlagRaised(a, sc, w) {
      var e :| Raised(a, sc, w, e);
      RaisedLasts(a, sc, w, v, e);
    }
  }

  /** Which scope a failure is laid to depends on its cast and its first step ID alone. */
  lemma FaultWidens(a: Answers, small: Scope, big: Scope, w: World)
    requires small.cast <= big.cast && big.from <= small.from
    ensures forall e :: Fault(a, small, w, e) ==> Fault(a, big, w, e)
    ensures FlagRaised(a, small, w) ==> FlagRaised(a, big, w)
  {
    forall e | Raised(a, small, w, e) ensures Raised(a, big, w, e) {
    }
    hide Made, Trips;
  }

  // ---- Invariants ----

  /** A received step ID has been taken and has its outcome; one without is the one being
      waited for, or was taken ahead of time. */
  ghost predicate Accounted(names: set<string>, a: Answers, w: World) {
    && (forall s | s in w.used :: s < |w.trace| && s in a)
    && (forall s | s in w.ahead :: s < |w.trace| && w.trace[s].name in names)
    && (w.status.Stuck? ==> w.status.slot < |w.trace|)
    && (forall s: nat | s < |w.trace| && s !in w.used && w.status != Stuck(s) :: s in w.ahead)
  }

  ghost function Launched(slots: seq<nat>): set<nat> { set s | s in slots }

  /** The step IDs this chain has launched and not awaited. */
  ghost function Pending(c: Chain): set<nat> {
    match c
    case Sink(_, _) => {}
    case Bridge(_, dest) => Pending(dest)
    case Op(_, _, st, next) => Launched(st.slots) + Pending(next)
  }

  /** Everything not yet received is pending here, or launched further out. */
  ghost predicate Owned(mine: set<nat>, outer: set<nat>, w: World) {
    && (forall s | s in mine :: s < |w.trace|)
    && (forall s: nat | s < |w.trace| && s !in w.used :: s in mine || s in outer)
  }

  /** How the closing of one observer goes with the closing of the next. */
  ghost predicate Well(c: Chain) {
    match c
    case Sink(_, _) => true
    case Bridge(end, dest) => Well(dest) && !dest.end.Completed? && (end.Errored? ==> dest.end.Errored?)
    case Op(s, end, st, next) =>
      && Well(next)
      && (st.failed || end.Errored? ==> next.end.Errored?)
      && (end.Completed? ==> !next.end.Open?)
      && (next.end.Completed? ==> end.Completed?)
      && (!s.Parallel? || st.failed || !end.Open? ==> st.slots == [])
  }

  lemma {:induction false} ErroredReachesCollector(c: Chain)
    requires Well(c) && c.end.Errored?
    ensures HasFailed(c)
  {
    match c
    case Sink(_, _) =>
    case Bridge(_, dest) => ErroredReachesCollector(dest);
    case Op(_, _, _, next) => ErroredReachesCollector(next);
  }

  lemma {:induction false} ClosedPendsNothing(c: Chain)
    requires Well(c) && !c.end.Open?
    ensures Pending(c) == Pending(Terminator(c)) && !Terminator(c).end.Open?
  {
    match c
    case Op(_, _, _, next) => ClosedPendsNothing(next);
    case _ =>
  }

  lemma {:induction false} SubscribeWell(p: Pipeline, dest: Chain)
    requires Well(dest) && dest.end.Open?
    ensures Well(Subscribe(p, dest)) && Subscribe(p, dest).end.Open?
    ensures Pending(Subscribe(p, dest)) == Pending(dest)
    ensures Collector(Subscribe(p, dest)) == Collector(dest)
    decreases p
  {
    match p
    case Empty =>
    case Then(s, rest) =>
      SubscribeWell(rest, dest);
      if s.Sub? { SubscribeWell(s.inner, Subscribe(rest, dest)); }
  }

  lemma {:induction false} TerminatorWell(c: Chain)
    requires Well(c)
    ensures Well(Terminator(c)) && Collector(Terminator(c)) == Collector(c)
  {
    match c
    case Op(_, _, _, next) => TerminatorWell(next);
    case _ =>
  }

  /** The steps a Parallel has launched are this scope's, and its own. */
  ghost predicate Batched(from: nat, c: Chain, trace: seq<Request>) {
    match c
    case Sink(_, _) => true
    case Bridge(_, dest) => Batched(from, dest, trace)
    case Op(s, _, st, next) =>
      && (s.Parallel? ==> forall slot | slot in st.slots :: from <= slot < |trace| && trace[slot].name == s.name)
      && Batched(from, next, trace)
  }

  lemma {:induction false} BatchedLasts(from: nat, c: Chain, t: seq<Request>, u: seq<Request>)
    requires Batched(from, c, t) && t <= u
    ensures Batched(from, c, u)
  {
    match c
    case Sink(_, _) =>
    case Bridge(_, dest) => BatchedLasts(from, dest, t, u);
    case Op(_, _, _, next) => BatchedLasts(from, next, t, u);
  }

  lemma {:induction false} SubscribeBatched(from: nat, p: Pipeline, dest: Chain, trace: seq<Request>)
    requires Batched(from, dest, trace)
    ensures Batched(from, Subscribe(p, dest), trace)
    decreases p
  {
    match p
    case Empty =>
    case Then(s, rest) =>
      SubscribeBatched(from, rest, dest, trace);
      if s.Sub? { SubscribeBatched(from, s.inner, Subscribe(rest, dest), trace); }
  }

  /** The collected failure is one of the scope's. If it has the flag up, no step ID has
      been taken since it came; only a Loop's bound leaves the flag down (flow.go:188-190). */
  ghost predicate Sound(a: Answers, sc: Scope, c: Chain, w: World) {
    HasFailed(c) ==>
      var end := Collector(c).end;
      end.at <= |w.trace|
      && (sc.quiet || (Raised(a, sc, w, end.err) && end.at == |w.trace|) || Tripped(a, sc, w, end.err))
  }

  ghost predicate Ledger(a: Answers, sc: Scope, c: Chain, w: World) {
    sc.from <= |w.trace| && Sound(a, sc, c, w) && Batched(sc.from, c, w.trace)
  }

  lemma LedgerLasts(a: Answers, sc: Scope, c: Chain, w: World, v: World)
    requires Ledger(a, sc, c, w) && Grows(w, v)
    ensures Ledger(a, sc, c, v)
  {
    BatchedLasts(sc.from, c, w.trace, v.trace);
    if HasFailed(c) && !sc.quiet {
      var e := Collector(c).end.err;
      if Raised(a, sc, w, e) { RaisedLasts(a, sc, w, v, e); }
      if Tripped(a, sc, w, e) { TrippedLasts(a, sc, w, v, e); }
    }
  }

  /** The ledger of an observer is that of the next one, and its own batch. */
  lemma LedgerOfNext(a: Answers, sc: Scope, c: Chain, w: World)
    requires c.Op? && !c.stage.Parallel?
    ensures Ledger(a, sc, c, w) <==> Ledger(a, sc, c.next, w)
  {
    hide Raised, Tripped;
  }

  /** The flag has a failure behind it. */
  ghost predicate FlagDue(a: Answers, sc: Scope, w: World) {
    w.aborted ==> sc.quiet || FlagRaised(a, sc, w)
  }

  ghost predicate Safe(a: Answers, sc: Scope, c: Chain, w: World) {
    && Accounted(sc.names, a, w)
    && (w.status.Alive? ==>
          && Well(c)
          && Owned(Pending(c), sc.outer, w)
          && Ledger(a, sc, c, w)
          && FlagDue(a, sc, w)
          && (w.aborted ==> sc.quiet || HasFailed(c)))
  }

  /** What a push leaves as it was: nothing more reaches a result that has
      failed, and the first failure stays. */
  ghost predicate Keeps(c: Chain, r: R) {
    && (HasFailed(c) ==> Collector(r.c) == Collector(c))
  }

  // ---- Steps ----

  lemma StepSafe(a: Answers, names: set<string>, mine: set<nat>, outer: set<nat>, w: World, req: Request)
    requires Accounted(names, a, w) && (w.status.Alive? ==> Owned(mine, outer, w))
    ensures var g := RunStep(a, w, req);
            && Accounted(names, a, g.w)
            && (g.w.status.Alive? ==> Owned(mine, outer, g.w))
            && (g.w.status.Alive? ==> g.w.aborted == (w.aborted || g.out.Fail?))
  {}

  /** A step that fails raises the flag, for what its stage makes of the outcome. */
  lemma StepRaises(a: Answers, sc: Scope, s: Stage, w: World, req: Request, e: Error)
    requires w.status.Alive? && !w.aborted && s in sc.cast && sc.from <= |w.trace|
    requires var g := RunStep(a, w, req); g.w.status.Alive? && g.out.Fail? && Reports(s, req, g.out, e)
    ensures Raised(a, sc, RunStep(a, w, req).w, e)
  {
    hide Reports;
    var g := RunStep(a, w, req);
    assert Made(a, g.w.trace, s, |w.trace|, e);
  }

  lemma NoCaseRaises(a: Answers, sc: Scope, s: Stage, w: World, req: Request, e: Error)
    requires w.status.Alive? && s in sc.cast && sc.from <= |w.trace|
    requires var g := RunStep(a, w, req); g.w.status.Alive? && g.out.Ok? && Reports(s, req, g.out, e)
    ensures Raised(a, sc, RunStep(a, w, req).w.(aborted := true), e)
  {
    hide Reports;
    var g := RunStep(a, w, req);
    assert Made(a, g.w.trace, s, |w.trace|, e);
  }

  lemma AwaitSafe(a: Answers, names: set<string>, w: World, slot: nat)
    requires Accounted(names, a, w) && (w.status.Alive? ==> slot < |w.trace|)
    ensures Accounted(names, a, Await(a, w, slot))
  {}

  lemma {:induction false} DrainSafe(a: Answers, names: set<string>, w: World, slots: seq<nat>)
    requires Accounted(names, a, w) && (w.status.Alive? ==> forall s | s in Launched(slots) :: s < |w.trace|)
    ensures Accounted(names, a, Drain(a, w, slots))
    ensures Drain(a, w, slots).status.Alive? ==> Launched(slots) <= Drain(a, w, slots).used
    ensures Drain(a, w, slots).aborted == w.aborted && Drain(a, w, slots).trace == w.trace
    decreases |slots|
  {
    if slots != [] {
      assert slots[0] in Launched(slots);
      assert Launched(slots[1..]) <= Launched(slots) <= {slots[0]} + Launched(slots[1..]);
      AwaitSafe(a, names, w, slots[0]);
      DrainSafe(a, names, Await(a, w, slots[0]), slots[1..]);
      DrainGrows(a, Await(a, w, slots[0]), slots[1..]);
    }
  }

  // ---- Events ----

  lemma {:induction false} NextSafe(a: Answers, sc: Scope, c: Chain, v: Value, w: World)
    requires Safe(a, sc, c, w) && Manned(sc, c)
    ensures var r := PushNext(a, c, v, w); Safe(a, sc, r.c, r.w) && Keeps(c, r) && r.c.end == c.end
    decreases ChainSize(c), w.fuel, 5, 0
  {
    hide NextItem, NextReduce, NextSwitch, NextParallel, NextFanOut, Raised, Tripped, FlagRaised;
    if w.status.Alive? && c.end.Open? {
      match c
      case Sink(_, _) =>
      case Bridge(_, dest) => NextSafe(a, sc, dest, v, w);
      case Op(s, _, st, next) =>
        if !st.failed {
          match s
          case Reduce(_, _) => NextReduceSafe(a, sc, c, v, w);
          case Switch(_, _) => NextSwitchSafe(a, sc, c, v, w);
          case Parallel(_, _) => NextParallelSafe(a, sc, c, v, w);
          case FanOut(_, _, _) => NextFanOutSafe(a, sc, c, v, w);
          case _ => NextItemSafe(a, sc, c, v, w);
        }
    }
  }

  /** The state of an operator that is closing, or about to fail: everything Safe
      asks but the agreement of its own flags with the next observer's. */
  ghost predicate Closing(a: Answers, sc: Scope, c: Chain, w: World)
    requires c.Op?
  {
    && Accounted(sc.names, a, w)
    && (w.status.Alive? ==>
          && Well(c.next) && !c.next.end.Completed?
          && (!c.stage.Parallel? || c.st.failed ==> c.st.slots == [])
          && (c.st.failed ==> c.next.end.Errored?)
          && Owned(Pending(c), sc.outer, w)
          && Ledger(a, sc, c, w)
          && FlagDue(a, sc, w))
  }

  /** e may be laid to the scope, or comes too late to count. */
  ghost predicate Blamed(a: Answers, sc: Scope, c: Chain, w: World, e: Error) {
    sc.quiet || HasFailed(c) || Fault(a, sc, w, e)
  }

  /** fail(): the failure reaches the scope's collector at once. */
  lemma {:induction false} BrokenSafe(a: Answers, sc: Scope, c: Chain, e: Error, w: World)
    requires c.Op? && Manned(sc, c) && Closing(a, sc, c, w)
    requires w.status.Alive? ==> c.st.slots == [] && Blamed(a, sc, c, w, e)
    ensures var r := Broken(a, c, e, w); Safe(a, sc, r.c, r.w) && Keeps(c, r) && r.c.end == c.end
    decreases ChainSize(c), w.fuel, 1, 0
  {
    hide PushError, Fault, Raised, Tripped, FlagRaised;
    ErrorSafe(a, sc, c.next, e, w);
  }

  /** A failure about to be handed to c. */
  ghost predicate Failing(a: Answers, sc: Scope, c: Chain, e: Error, w: World) {
    && Accounted(sc.names, a, w)
    && (w.status.Alive? ==>
          && Well(c) && !c.end.Completed? && Owned(Pending(c), sc.outer, w)
          && Ledger(a, sc, c, w) && FlagDue(a, sc, w) && Blamed(a, sc, c, w, e))
  }

  lemma {:induction false} ErrorSafe(a: Answers, sc: Scope, c: Chain, e: Error, w: World)
    requires Manned(sc, c) && Failing(a, sc, c, e, w)
    ensures var r := PushError(a, c, e, w);
            Safe(a, sc, r.c, r.w) && Keeps(c, r) && (r.w.status.Alive? ==> r.c.end.Errored? && HasFailed(r.c))
    decreases ChainSize(c), w.fuel, 5, 1
  {
    hide Broken, Drain, Raised, Tripped, FlagRaised;
    if w.status.Alive? {
      if !c.end.Open? {
        ErroredReachesCollector(c);
      } else {
        match c
        case Sink(_, _) =>
        case Bridge(_, dest) => ErrorSafe(a, sc, dest, e, w);
        case Op(_, _, _, _) => ErrorOpSafe(a, sc, c, e, w);
      }
    }
  }

  lemma {:induction false} ErrorOpSafe(a: Answers, sc: Scope, c: Chain, e: Error, w: World)
    requires Manned(sc, c) && Failing(a, sc, c, e, w)
    requires w.status.Alive? && c.Op? && c.end.Open?
    ensures var r := PushError(a, c, e, w);
            Safe(a, sc, r.c, r.w) && Keeps(c, r) && (r.w.status.Alive? ==> r.c.end.Errored? && HasFailed(r.c))
    decreases ChainSize(c), w.fuel, 5, 0
  {
    hide Broken, Drain, Raised, Tripped, FlagRaised;
    if c.stage.Parallel? {
      DrainSafe(a, sc.names, w, c.st.slots);
      DrainGrows(a, w, c.st.slots);
      var w1 := Drain(a, w, c.st.slots);
      LedgerLasts(a, sc, c, w, w1);
      FaultLasts(a, sc, w, w1);
      var c1 := Op(c.stage, Errored(e, |w.trace|), c.st.(slots := []), c.next);
      BrokenSafe(a, sc, c1, e, w1);
      var r := Broken(a, c1, e, w1);
      if r.w.status.Alive? { ErroredReachesCollector(r.c); }
    } else {
      ErrorSafe(a, sc, c.next, e, w);
    }
  }

  lemma {:induction false} NextItemSafe(a: Answers, sc: Scope, c: Chain, v: Value, w: World)
    requires Safe(a, sc, c, w) && Manned(sc, c)
    requires w.status.Alive? && c.Op? && c.end.Open? && !c.st.failed && !c.stage.Parallel?
    ensures var r := NextItem(a, c, v, w); Safe(a, sc, r.c, r.w) && Keeps(c, r) && r.c.end == c.end
    decreases ChainSize(c), w.fuel, 3, 0
  {
    hide Item, PushAll, Broken, Raised, Tripped, FlagRaised, Fault;
    var inner := sc.(outer := sc.outer + Pending(c));
    ItemSafe(a, inner, c.stage, v, w);
    var g := Item(a, c.stage, v, w);
    if g.0.status.Alive? {
      FaultWidens(a, inner, sc, g.0);
      FaultLasts(a, sc, w, g.0);
      LedgerLasts(a, sc, c, w, g.0);
      LedgerOfNext(a, sc, c, g.0);
      hide Ledger;
      match g.1
      case Emit(outs) =>
        AllSafe(a, sc, c.next, outs, g.0);
        var r := PushAll(a, c.next, outs, g.0);
        LedgerOfNext(a, sc, c.(next := r.c), r.w);
      case Break(e) => BrokenSafe(a, sc, c, e, g.0);
    }
  }

  /** What handling one item leaves: no step of its own unawaited, and the flag
      set only together with the failure. */
  ghost predicate ItemDone(a: Answers, sc: Scope, was: World, w: World, failure: Option<Error>) {
    && Accounted(sc.names, a, w)
    && (w.status.Alive? ==>
          && Owned({}, sc.outer, w)
          && (w.aborted ==> was.aborted || (failure.Some? && FlagRaised(a, sc, w)))
          && (failure.Some? ==> was.aborted || Fault(a, sc, w, failure.value)))
  }

  /** An item, or an embedded pipeline, about to be handled in the scope. */
  ghost predicate Ready(a: Answers, sc: Scope, w: World) {
    Accounted(sc.names, a, w) && (w.status.Alive? ==> Owned({}, sc.outer, w) && sc.from <= |w.trace|)
  }

  function FailureOf(i: ItemResult): Option<Error> {
    if i.Break? then Some(i.err) else None
  }

  lemma {:induction false} ItemSafe(a: Answers, sc: Scope, s: Stage, v: Value, w: World)
    requires AheadStage(s) <= sc.names && CastStage(s) <= sc.cast && Ready(a, sc, w)
    ensures var g := Item(a, s, v, w); ItemDone(a, sc, w, g.0, FailureOf(g.1))
    decreases StageSize(s), w.fuel, 2, 0
  {
    hide RunStep, LoopItem, RescueItem, Collect, AlongsideItem, Raised, Tripped, FlagRaised, Fault;
    assert s in CastStage(s);
    match s
    case Leaf(kind, name) => OwnStepSafe(a, sc, s, w, Request(name, v, NoExtra));
    case Loop(name, body, bound) => LoopSafe(a, sc, name, body, bound, 1, v, w);
    case Rescue(name, p) => RescueSafe(a, sc, name, p, v, w);
    case Via(_, p) => CollectSafe(a, sc, p, v, w);
    case Alongside(name, p) => AlongsideSafe(a, sc, name, p, v, w);
    case _ =>
  }

  /** A stage's own step, whose failure it reports as it is. */
  lemma OwnStepSafe(a: Answers, sc: Scope, s: Stage, w: World, req: Request)
    requires s in sc.cast && Ready(a, sc, w)
    requires forall out: Outcome :: out.Fail? ==> Reports(s, req, out, out.err)
    ensures var g := RunStep(a, w, req);
            ItemDone(a, sc, w, g.w, if g.out.Fail? then Some(g.out.err) else None)
  {
    hide Reports, Raised, Tripped;
    StepSafe(a, sc.names, {}, sc.outer, w, req);
    var g := RunStep(a, w, req);
    if g.w.status.Alive? && !w.aborted && g.out.Fail? {
      StepRaises(a, sc, s, w, req, g.out.err);
    }
  }

  lemma {:induction false} LoopSafe(a: Answers, sc: Scope, name: string, body: Pipeline, bound: nat, i: nat, v: Value, w: World)
    requires Ahead(body) <= sc.names && CastStage(Loop(name, body, bound)) <= sc.cast && Ready(a, sc, w)
    requires bound > 0 ==> 1 <= i <= bound
    ensures var g := LoopItem(a, name, body, bound, i, v, w); ItemDone(a, sc, w, g.0, FailureOf(g.1))
    decreases 2 + Size(body), w.fuel, 1, 0
  {
    hide Collect, LoopVerdict, Raised, Tripped, FlagRaised, Fault;
    CollectSafe(a, sc, body, v, w);
    var s := Collect(a, body, v, w);
    if s.w.status.Alive? && s.err.None? && s.outs != [] {
      VerdictSafe(a, sc, name, body, bound, i, s.outs[|s.outs| - 1], s.w);
    }
  }

  lemma {:induction false} VerdictSafe(a: Answers, sc: Scope, name: string, body: Pipeline, bound: nat, i: nat, v: Value, w: World)
    requires Ahead(body) <= sc.names && CastStage(Loop(name, body, bound)) <= sc.cast && Ready(a, sc, w)
    requires bound > 0 ==> 1 <= i <= bound
    ensures var g := LoopVerdict(a, name, body, bound, i, v, w); ItemDone(a, sc, w, g.0, FailureOf(g.1))
    decreases 2 + Size(body), w.fuel, 0, 0
  {
    hide RunStep, LoopItem, Raised, Tripped, FlagRaised, BoundError;
    var s, req := Loop(name, body, bound), Request(name, v, NoExtra);
    assert s in CastStage(s);
    OwnStepSafe(a, sc, s, w, req);
    var g := RunStep(a, w, req);
    if g.w.status.Alive? && g.out.Ok? && !AsBool(g.out.value) {
      if bound > 0 && i >= bound {
        BoundTrips(a, sc, s, w, req);
      } else {
        hide Fault;
        LoopSafe(a, sc, name, body, bound, i + 1, v, g.w);
      }
    }
  }

  lemma BoundTrips(a: Answers, sc: Scope, s: Stage, w: World, req: Request)
    requires s in sc.cast && s.Loop? && s.bound > 0 && req.name == s.name && req.extra.NoExtra?
    requires w.status.Alive? && sc.from <= |w.trace|
    requires var g := RunStep(a, w, req); g.w.status.Alive? && g.out.Ok? && !AsBool(g.out.value)
    ensures Tripped(a, sc, RunStep(a, w, req).w, BoundError(s.name, s.bound))
  {
    var g := RunStep(a, w, req);
    assert Trips(a, g.w.trace, s, |w.trace|, BoundError(s.name, s.bound));
  }

  lemma {:induction false} RescueSafe(a: Answers, sc: Scope, name: string, p: Pipeline, v: Value, w: World)
    requires Ahead(p) <= sc.names && Rescue(name, p) in sc.cast && Ready(a, sc, w)
    ensures var g := RescueItem(a, name, p, v, w); ItemDone(a, sc, w, g.0, FailureOf(g.1))
    decreases 2 + Size(p), w.fuel, 1, 0
  {
    hide Collect, RunStep, Raised, Tripped, FlagRaised, Fault;
    if !w.aborted {
      assert w.(aborted := false) == w;
      CollectSafe(a, sc.(cast := Cast(p)), p, v, w);
      var s := Collect(a, p, v, w);
      if s.w.status.Alive? && s.err.Some? {
        OwnStepSafe(a, sc, Rescue(name, p), s.w.(aborted := false), Request(name, v, Cause(s.err.value.msg)));
      }
    }
  }

  lemma {:induction false} AlongsideSafe(a: Answers, sc: Scope, name: string, p: Pipeline, v: Value, w: World)
    requires Ahead(p) <= sc.names && name in sc.names && CastStage(Alongside(name, p)) <= sc.cast && Ready(a, sc, w)
    ensures var g := AlongsideItem(a, name, p, v, w); ItemDone(a, sc, w, g.0, FailureOf(g.1))
    decreases 2 + Size(p), w.fuel, 1, 0
  {
    hide Collect, RunStep, AwaitSide, Raised, Tripped, FlagRaised, Fault;
    var st := Alongside(name, p);
    assert st in CastStage(st);
    if w.status.Alive? && !w.aborted {
      var slot := |w.trace|;
      var w1 := LaunchAhead(w, Request(name, v, NoExtra));
      var inner := sc.(outer := sc.outer + {slot});
      CollectSafe(a, inner, p, v, w1);
      var s := Collect(a, p, v, w1);
      FaultWidens(a, inner, sc, s.w);
      AwaitSideSafe(a, sc, st, slot, v, s);
    }
  }

  /** The side step is awaited on every path, and its failure is for the handler. */
  lemma AwaitSideSafe(a: Answers, sc: Scope, st: Stage, slot: nat, v: Value, s: Collected)
    requires st.Alongside? && st in sc.cast && Accounted(sc.names, a, s.w)
    requires s.w.status.Alive? ==>
               && slot < |s.w.trace| && sc.from <= |s.w.trace| && Owned({}, sc.outer + {slot}, s.w)
               && (s.w.aborted ==> s.err.Some? && FlagRaised(a, sc, s.w))
               && (s.err.Some? ==> Fault(a, sc, s.w, s.err.value))
    ensures var g := AwaitSide(a, st.name, slot, v, s);
            && Accounted(sc.names, a, g.0)
            && (g.0.status.Alive? ==>
                  && Owned({}, sc.outer, g.0)
                  && (g.0.aborted ==> g.1.Break? && FlagRaised(a, sc, g.0))
                  && (g.1.Break? ==> Fault(a, sc, g.0, g.1.err)))
  {
    hide RunStep, Raised, Tripped, FlagRaised, Fault;
    AwaitSafe(a, sc.names, s.w, slot);
    var w := Await(a, s.w, slot);
    FaultLasts(a, sc, s.w, w);
    if w.status.Alive? && s.err.None? && Answer(a, slot).Fail? {
      OwnStepSafe(a, sc, st, w, Request(st.name, v, Cause(Answer(a, slot).err.msg)));
    }
  }

  lemma {:induction false} CollectSafe(a: Answers, sc: Scope, p: Pipeline, v: Value, w: World)
    requires Ahead(p) <= sc.names && Cast(p) <= sc.cast && Ready(a, sc, w)
    ensures var s := Collect(a, p, v, w); ItemDone(a, sc, w, s.w, s.err)
    decreases Size(p) + 1, w.fuel, 9, 0
  {
    hide Feed, Raised, Tripped, FlagRaised;
    var c := Subscribe(p, Sink([], Open));
    SubscribeManned(sc, p, Sink([], Open));
    FeedCollects(a, sc, p, v, w);
    var r := Feed(a, c, v, w);
    TerminatorOfSubscribe(p, Sink([], Open));
    SameTerminator(c, r.c);
    if r.w.status.Alive? {
      ClosedPendsNothing(r.c);
      TerminatorWell(r.c);
    }
  }

  lemma SubscribeManned(sc: Scope, p: Pipeline, dest: Chain)
    requires Ahead(p) <= sc.names && Cast(p) <= sc.cast && Manned(sc, dest)
    ensures Manned(sc, Subscribe(p, dest))
  {
    AheadSubscribe(p, dest);
    CastSubscribe(p, dest);
  }

  /** One run of a scope, from its subscription to its completion. */
  lemma {:induction false} FeedCollects(a: Answers, sc: Scope, p: Pipeline, v: Value, w: World)
    requires Ahead(p) <= sc.names && Cast(p) <= sc.cast && Ready(a, sc, w)
    ensures var r := Feed(a, Subscribe(p, Sink([], Open)), v, w); var in1 := sc.(quiet := w.aborted);
            && Safe(a, in1, r.c, r.w) && (r.w.status.Alive? ==> !r.c.end.Open?)
            && (forall e :: Fault(a, in1, r.w, e) ==> Fault(a, sc, r.w, e))
            && (FlagRaised(a, in1, r.w) ==> FlagRaised(a, sc, r.w))
    decreases Size(p) + 1, w.fuel, 8, 9
  {
    hide Feed, Raised, Tripped, FlagRaised, Fault;
    var sink := Sink([], Open);
    var in1 := sc.(quiet := w.aborted);
    var c := Subscribe(p, sink);
    SubscribeWell(p, sink);
    SubscribeManned(in1, p, sink);
    SubscribeBatched(sc.from, p, sink, w.trace);
    FeedSafe(a, in1, c, v, w);
    FaultWidens(a, in1, sc, Feed(a, c, v, w).w);
  }

  lemma {:induction false} FeedSafe(a: Answers, sc: Scope, c: Chain, v: Value, w: World)
    requires Safe(a, sc, c, w) && Manned(sc, c)
    ensures var r := Feed(a, c, v, w);
            Safe(a, sc, r.c, r.w) && Keeps(c, r) && (r.w.status.Alive? ==> !r.c.end.Open?)
    decreases ChainSize(c), w.fuel, 8, 0
  {
    hide PushNext, PushDone, Safe, Manned;
    NextSafe(a, sc, c, v, w);
    var r := PushNext(a, c, v, w);
    SameSize(c, r.c);
    MannedSame(sc, c, r.c);
    DoneSafe(a, sc, r.c, r.w);
  }

  lemma {:induction false} AllSafe(a: Answers, sc: Scope, c: Chain, vs: seq<Value>, w: World)
    requires Safe(a, sc, c, w) && Manned(sc, c)
    ensures var r := PushAll(a, c, vs, w); Safe(a, sc, r.c, r.w) && Keeps(c, r) && r.c.end == c.end
    decreases ChainSize(c), w.fuel, 8, |vs|
  {
    hide PushNext, Safe, Manned;
    if vs != [] {
      NextSafe(a, sc, c, vs[0], w);
      var r := PushNext(a, c, vs[0], w);
      SameSize(c, r.c);
      MannedSame(sc, c, r.c);
      AllSafe(a, sc, r.c, vs[1..], r.w);
    }
  }

  lemma {:induction false} NextReduceSafe(a: Answers, sc: Scope, c: Chain, v: Value, w: World)
    requires Safe(a, sc, c, w) && Manned(sc, c)
    requires w.status.Alive? && c.Op? && c.end.Open? && !c.st.failed && c.stage.Reduce?
    ensures var r := NextReduce(a, c, v, w); Safe(a, sc, r.c, r.w) && Keeps(c, r) && r.c.end == c.end
    decreases ChainSize(c), w.fuel, 3, 0
  {
    hide RunStep, Broken, Raised, Tripped, FlagRaised;
    var req := Request(c.stage.name, v, Acc(c.st.acc));
    StepKeepsScope(a, sc, c, w, req);
    var g := RunStep(a, w, req);
    if g.w.status.Alive? && g.out.Fail? {
      StepBlames(a, sc, c, w, req, g.out.err);
      BrokenSafe(a, sc, c, g.out.err, g.w);
    }
  }

  /** A step taken between events, as far as the scope's ledger goes. */
  lemma StepKeepsScope(a: Answers, sc: Scope, c: Chain, w: World, req: Request)
    requires Accounted(sc.names, a, w) && w.status.Alive? && Owned(Pending(c), sc.outer, w) && Ledger(a, sc, c, w)
    requires FlagDue(a, sc, w)
    ensures var g := RunStep(a, w, req);
            && Accounted(sc.names, a, g.w)
            && (g.w.status.Alive? ==>
                  && Owned(Pending(c), sc.outer, g.w) && Ledger(a, sc, c, g.w)
                  && g.w.aborted == (w.aborted || g.out.Fail?)
                  && (w.aborted || g.out.Ok? ==> FlagDue(a, sc, g.w)))
  {
    hide Raised, Tripped, FlagRaised, Sound, Batched;
    StepSafe(a, sc.names, Pending(c), sc.outer, w, req);
    var g := RunStep(a, w, req);
    LedgerLasts(a, sc, c, w, g.w);
    FaultLasts(a, sc, w, g.w);
  }

  /** A step whose failure the stage c.stage reports as e. */
  lemma StepBlames(a: Answers, sc: Scope, c: Chain, w: World, req: Request, e: Error)
    requires c.Op? && Manned(sc, c) && w.status.Alive? && sc.from <= |w.trace| && FlagDue(a, sc, w)
    requires w.aborted ==> sc.quiet || HasFailed(c)
    requires var g := RunStep(a, w, req);
             g.w.status.Alive? && g.out.Fail? && (!w.aborted ==> Reports(c.stage, req, g.out, e))
    ensures var g := RunStep(a, w, req); Blamed(a, sc, c, g.w, e) && FlagDue(a, sc, g.w)
  {
    hide Reports, Raised, Tripped;
    var g := RunStep(a, w, req);
    assert c.stage in CastStage(c.stage);
    if !w.aborted {
      StepRaises(a, sc, c.stage, w, req, e);
    } else {
      FaultLasts(a, sc, w, g.w);
    }
  }

  lemma {:induction false} NextSwitchSafe(a: Answers, sc: Scope, c: Chain, v: Value, w: World)
    requires Safe(a, sc, c, w) && Manned(sc, c)
    requires w.status.Alive? && c.Op? && c.end.Open? && !c.st.failed && c.stage.Switch?
    ensures var r := NextSwitch(a, c, v, w); Safe(a, sc, r.c, r.w) && Keeps(c, r) && r.c.end == c.end
    decreases ChainSize(c), w.fuel, 3, 0
  {
    hide RunStep, Broken, Forward, Find, Raised, Tripped, FlagRaised, NoCaseError;
    var req := Request(c.stage.name, v, NoExtra);
    StepKeepsScope(a, sc, c, w, req);
    var g := RunStep(a, w, req);
    if g.w.status.Alive? {
      if g.out.Fail? {
        StepBlames(a, sc, c, w, req, g.out.err);
        BrokenSafe(a, sc, c, g.out.err, g.w);
      } else {
        var key := AsKey(g.out.value);
        var arm := Find(c.stage.cases, key);
        FindIsSmaller(c.stage.cases, key);
        AheadFind(c.stage.cases, key);
        CastFind(c.stage.cases, key);
        if arm.None? {
          UnmatchedSafe(a, sc, c, w, req, key);
        } else {
          hide Reports;
          ForwardSafe(a, sc, arm.value, v, c.next, g.w);
        }
      }
    }
  }

  lemma {:induction false} UnmatchedSafe(a: Answers, sc: Scope, c: Chain, w: World, req: Request, key: string)
    requires Safe(a, sc, c, w) && Manned(sc, c)
    requires w.status.Alive? && c.Op? && c.end.Open? && !c.st.failed && c.stage.Switch?
    requires req.name == c.stage.name && req.extra.NoExtra? && Find(c.stage.cases, key).None?
    requires var g := RunStep(a, w, req); g.w.status.Alive? && g.out.Ok? && key == AsKey(g.out.value) && g.w.fuel < w.fuel
    ensures var g := RunStep(a, w, req);
            var r := Broken(a, c, NoCaseError(c.stage.name, key), g.w.(aborted := true));
            Safe(a, sc, r.c, r.w) && Keeps(c, r) && r.c.end == c.end
    decreases ChainSize(c), w.fuel, 2, 0
  {
    hide RunStep, Broken, Raised, Tripped, NoCaseError, Find;
    StepKeepsScope(a, sc, c, w, req);
    var g := RunStep(a, w, req);
    var w1 := g.w.(aborted := true);
    assert c.stage in CastStage(c.stage);
    NoCaseRaises(a, sc, c.stage, w, req, NoCaseError(c.stage.name, key));
    LedgerLasts(a, sc, c, g.w, w1);
    BrokenSafe(a, sc, c, NoCaseError(c.stage.name, key), w1);
  }

  lemma {:induction false} ForwardSafe(a: Answers, sc: Scope, arm: Pipeline, v: Value, c: Chain, w: World)
    requires Safe(a, sc, c, w) && Manned(sc, c) && Ahead(arm) <= sc.names && Cast(arm) <= sc.cast
    requires w.status.Alive? && !c.end.Completed?
    ensures var r := Forward(a, arm, v, c, w); Safe(a, sc, r.c, r.w) && Keeps(c, r)
    decreases Size(arm) + 1 + ChainSize(c), w.fuel, 9, 0
  {
    hide Feed, Raised, Tripped, FlagRaised;
    var b := Bridge(Open, c);
    var inner := Subscribe(arm, b);
    SubscribeWell(arm, b);
    SubscribeManned(sc, arm, b);
    SubscribeBatched(sc.from, arm, b, w.trace);
    FeedSafe(a, sc, inner, v, w);
    var r := Feed(a, inner, v, w);
    CollectorOfTerminator(r.c);
    if r.w.status.Alive? {
      ClosedPendsNothing(r.c);
      TerminatorWell(r.c);
      TerminatorBatched(sc.from, r.c, r.w.trace);
    }
  }

  lemma {:induction false} TerminatorBatched(from: nat, c: Chain, trace: seq<Request>)
    requires Batched(from, c, trace)
    ensures Batched(from, Terminator(c), trace)
  {
    match c
    case Op(_, _, _, next) => TerminatorBatched(from, next, trace);
    case _ =>
  }

  lemma {:induction false} NextParallelSafe(a: Answers, sc: Scope, c: Chain, v: Value, w: World)
    requires Safe(a, sc, c, w) && Manned(sc, c)
    requires w.status.Alive? && c.Op? && c.end.Open? && !c.st.failed && c.stage.Parallel?
    ensures var r := NextParallel(a, c, v, w); Safe(a, sc, r.c, r.w) && Keeps(c, r) && r.c.end == c.end
    decreases ChainSize(c), w.fuel, 3, 0
  {
    hide Broken, Drain, LaunchAhead, Raised, Tripped, FlagRaised;
    if w.aborted {
      var w1 := Drain(a, w, c.st.slots);
      DrainSafe(a, sc.names, w, c.st.slots);
      DrainGrows(a, w, c.st.slots);
      LedgerLasts(a, sc, c, w, w1);
      FaultLasts(a, sc, w, w1);
      BrokenSafe(a, sc, c.(st := c.st.(slots := [])), ERR_ABORTED, w1);
    } else {
      LaunchSafe(a, sc, c, v, w);
    }
  }

  lemma LaunchSafe(a: Answers, sc: Scope, c: Chain, v: Value, w: World)
    requires Safe(a, sc, c, w) && Manned(sc, c)
    requires w.status.Alive? && !w.aborted && c.Op? && c.end.Open? && !c.st.failed && c.stage.Parallel?
    ensures var r := NextParallel(a, c, v, w); Safe(a, sc, r.c, r.w) && Keeps(c, r) && r.c.end == c.end
  {
    hide Raised, Tripped, FlagRaised;
    var w1 := LaunchAhead(w, Request(c.stage.name, v, NoExtra));
    assert Launched(c.st.slots + [|w.trace|]) == Launched(c.st.slots) + {|w.trace|};
    assert c.stage.name in AheadStage(c.stage);
    LedgerLasts(a, sc, c, w, w1);
  }

  lemma {:induction false} NextFanOutSafe(a: Answers, sc: Scope, c: Chain, v: Value, w: World)
    requires Safe(a, sc, c, w) && Manned(sc, c)
    requires w.status.Alive? && c.Op? && c.end.Open? && !c.st.failed && c.stage.FanOut?
    ensures var r := NextFanOut(a, c, v, w); Safe(a, sc, r.c, r.w) && Keeps(c, r) && r.c.end == c.end
    decreases ChainSize(c), w.fuel, 3, 0
  {
    hide RunStep, Broken, Raised, Tripped, FlagRaised, StageSays;
    var req := Request(c.stage.child, v, NoExtra);
    StepKeepsScope(a, sc, c, w, req);
    var g := RunStep(a, w, req);
    if g.w.status.Alive? {
      if w.aborted { BrokenSafe(a, sc, c, ERR_ABORTED, g.w); }
      else if g.out.Fail? {
        var e := Wrap(StageSays(c.stage.name) + CHILD_ENQUEUE_FAILED, g.out.err);
        StepBlames(a, sc, c, w, req, e);
        BrokenSafe(a, sc, c, e, g.w);
      }
    }
  }

  lemma {:induction false} DoneSafe(a: Answers, sc: Scope, c: Chain, w: World)
    requires Safe(a, sc, c, w) && Manned(sc, c)
    ensures var r := PushDone(a, c, w);
            Safe(a, sc, r.c, r.w) && Keeps(c, r) && (r.w.status.Alive? ==> !r.c.end.Open?)
    decreases ChainSize(c), w.fuel, 5, 0
  {
    hide DoneOp, Raised, Tripped, FlagRaised;
    if w.status.Alive? && c.end.Open? {
      match c
      case Sink(_, _) =>
      case Bridge(_, _) =>
      case Op(s, _, st, next) => DoneOpSafe(a, sc, Op(s, Completed, st, next), w);
    }
  }

  /** An operator that has seen completion, with the flag in order. */
  ghost predicate Finishing(a: Answers, sc: Scope, c: Chain, w: World)
    requires c.Op?
  {
    && Closing(a, sc, c, w)
    && c.end.Completed?
    && (w.status.Alive? && w.aborted ==> sc.quiet || HasFailed(c))
  }

  /** Completion handed on: the operator is as safe as what it handed it to. */
  lemma FinishedSafe(a: Answers, sc: Scope, c: Chain, w: World, r: R)
    requires c.Op? && Finishing(a, sc, c, w) && w.status.Alive? && (c.stage.Parallel? ==> c.st.slots == [])
    requires Safe(a, sc, r.c, r.w) && Keeps(c.next, r) && (r.w.status.Alive? ==> !r.c.end.Open?)
    requires c.st.failed && r.w.status.Alive? ==> r.c.end.Errored?
    ensures var q := Fwd(c, r); Safe(a, sc, q.c, q.w) && Keeps(c, q) && q.c.end == c.end
  {
    hide Raised, Tripped, FlagRaised;
  }

  lemma {:induction false} DoneOpSafe(a: Answers, sc: Scope, c: Chain, w: World)
    requires c.Op? && w.status.Alive? && Finishing(a, sc, c, w) && Manned(sc, c)
    ensures var r := DoneOp(a, c, w); Safe(a, sc, r.c, r.w) && Keeps(c, r) && r.c.end == c.end
    decreases ChainSize(c), w.fuel, 4, 0
  {
    hide Feed, DoneParallel, DoneFanOut, DoneFanOutCancel, PushDone, Raised, Tripped, FlagRaised;
    if c.st.failed {
      assert R(c, w) == Fwd(c, R(c.next, w));
      FinishedSafe(a, sc, c, w, R(c.next, w));
    } else if c.stage.Parallel? {
      DoneParallelSafe(a, sc, c, w);
    } else if c.stage.FanOut? {
      if c.stage.cancelSiblings { DoneFanOutCancelSafe(a, sc, c, w); }
      else { DoneFanOutSafe(a, sc, c, 0, w); }
    } else {
      var r := if c.stage.Reduce? then Feed(a, c.next, c.st.acc, w) else PushDone(a, c.next, w);
      if c.stage.Reduce? { FeedSafe(a, sc, c.next, c.st.acc, w); }
      else { DoneSafe(a, sc, c.next, w); }
      FinishedSafe(a, sc, c, w, r);
    }
  }

  lemma {:induction false} DoneParallelSafe(a: Answers, sc: Scope, c: Chain, w: World)
    requires c.Op? && c.stage.Parallel? && w.status.Alive? && Finishing(a, sc, c, w) && Manned(sc, c)
    requires !c.st.failed
    ensures var r := DoneParallel(a, c, w); Safe(a, sc, r.c, r.w) && Keeps(c, r) && r.c.end == c.end
    decreases ChainSize(c), w.fuel, 3, 0
  {
    hide Drain, EmitParallel, Outcomes, Raised, Tripped, FlagRaised;
    DrainSafe(a, sc.names, w, c.st.slots);
    DrainGrows(a, w, c.st.slots);
    var w1 := Drain(a, w, c.st.slots);
    if w1.status.Alive? {
      DrainedAll(a, w, c.st.slots);
      LedgerLasts(a, sc, c, w, w1);
      FaultLasts(a, sc, w, w1);
      EmitParallelSafe(a, sc, c.(st := c.st.(slots := [])), c.st.slots, w1);
    }
  }

  lemma {:induction false} DrainedAll(a: Answers, w: World, slots: seq<nat>)
    requires Drain(a, w, slots).status.Alive?
    ensures forall i | 0 <= i < |slots| :: slots[i] in a
    decreases |slots|
  {
    if slots != [] {
      DrainGrows(a, Await(a, w, slots[0]), slots[1..]);
      DrainedAll(a, Await(a, w, slots[0]), slots[1..]);
    }
  }

  /** A drained batch that fails: the chosen outcome raises the flag, wherever in the
      batch it stands. */
  lemma BatchRaises(a: Answers, sc: Scope, s: Stage, slots: seq<nat>, w: World, e: Error)
    requires s in sc.cast && s.Parallel?
    requires forall i | 0 <= i < |slots| ::
               slots[i] in a && sc.from <= slots[i] < |w.trace| && w.trace[slots[i]].name == s.name
    requires ParallelError(Outcomes(a, slots), s.cancelSiblings) == Some(e)
    ensures Raised(a, sc, w.(aborted := true), Wrap(StageSays(s.name), e))
  {
    var outs := Outcomes(a, slots);
    FirstFailureMeaning(outs); FirstGenuineMeaning(outs);
    var i := if s.cancelSiblings && FirstGenuine(outs) < |outs| then FirstGenuine(outs) else FirstFailure(outs);
    assert Made(a, w.trace, s, slots[i], Wrap(StageSays(s.name), e));
  }

  lemma {:induction false} EmitParallelSafe(a: Answers, sc: Scope, c: Chain, slots: seq<nat>, w: World)
    requires c.Op? && c.stage.Parallel? && w.status.Alive? && Finishing(a, sc, c, w) && Manned(sc, c)
    requires c.st.slots == [] && !c.st.failed
    requires forall i | 0 <= i < |slots| ::
               slots[i] in a && sc.from <= slots[i] < |w.trace| && w.trace[slots[i]].name == c.stage.name
    ensures var r := EmitParallel(a, c, Outcomes(a, slots), w); Safe(a, sc, r.c, r.w) && Keeps(c, r) && r.c.end == c.end
    decreases ChainSize(c), w.fuel, 2, 0
  {
    hide PushAll, PushDone, Broken, Results, Outcomes, ParallelError, Raised, Tripped, StageSays;
    var outs := Outcomes(a, slots);
    AllSafe(a, sc, c.next, Results(outs), w);
    var r1 := PushAll(a, c.next, Results(outs), w);
    SameSize(c.next, r1.c);
    MannedSame(sc, c.next, r1.c);
    if r1.w.status.Alive? {
      var err := ParallelError(outs, c.stage.cancelSiblings);
      if err.Some? {
        assert c.stage in CastStage(c.stage);
        BatchRaises(a, sc, c.stage, slots, r1.w, err.value);
        LedgerLasts(a, sc, r1.c, r1.w, r1.w.(aborted := true));
        BrokenSafe(a, sc, c.(next := r1.c), Wrap(StageSays(c.stage.name), err.value), r1.w.(aborted := true));
      } else {
        DoneSafe(a, sc, r1.c, r1.w);
      }
    }
  }

  lemma {:induction false} DoneFanOutSafe(a: Answers, sc: Scope, c: Chain, i: nat, w: World)
    requires c.Op? && c.stage.FanOut? && !c.stage.cancelSiblings && Finishing(a, sc, c, w) && Manned(sc, c)
    requires i <= |c.st.handles| && !c.st.failed
    ensures var r := DoneFanOut(a, c, i, w);
            Safe(a, sc, r.c, r.w) && Keeps(c, r) && r.c.end == c.end
    decreases ChainSize(c), w.fuel, 3, |c.st.handles| - i
  {
    hide RunStep, PushDone, PushNext, Broken, Raised, Tripped, FlagRaised;
    if i == |c.st.handles| {
      if w.status.Alive? { DoneSafe(a, sc, c.next, w); }
    } else if w.status.Alive? {
      TakeResultSafe(a, sc, c, i, w);
    }
  }

  lemma {:induction false} TakeResultSafe(a: Answers, sc: Scope, c: Chain, i: nat, w: World)
    requires c.Op? && c.stage.FanOut? && !c.stage.cancelSiblings && Finishing(a, sc, c, w) && Manned(sc, c)
    requires i < |c.st.handles| && !c.st.failed && w.status.Alive?
    ensures var r := DoneFanOut(a, c, i, w);
            Safe(a, sc, r.c, r.w) && Keeps(c, r) && r.c.end == c.end
    decreases ChainSize(c), w.fuel, 2, |c.st.handles| - i
  {
    hide RunStep, PushNext, Broken, Raised, Tripped, FlagRaised, ChildSays;
    var req := Request(GET_RESULT_NAME, c.st.handles[i], NoExtra);
    StepKeepsScope(a, sc, c, w, req);
    var g := RunStep(a, w, req);
    if g.w.status.Alive? {
      if w.aborted { BrokenSafe(a, sc, c, ERR_ABORTED, g.w); }
      else if g.out.Fail? {
        var e := Wrap(ChildSays(c.stage.name, c.st.handles[i]), g.out.err);
        StepBlames(a, sc, c, w, req, e);
        BrokenSafe(a, sc, c, e, g.w);
      } else {
        hide Reports;
        NextSafe(a, sc, c.next, g.out.value, g.w);
        var r1 := PushNext(a, c.next, g.out.value, g.w);
        SameSize(c.next, r1.c);
        MannedSame(sc, c.next, r1.c);
        DoneFanOutSafe(a, sc, c.(next := r1.c), i + 1, r1.w);
      }
    }
  }

  lemma {:induction false} DoneFanOutCancelSafe(a: Answers, sc: Scope, c: Chain, w: World)
    requires c.Op? && c.stage.FanOut? && c.stage.cancelSiblings && w.status.Alive? && Finishing(a, sc, c, w) && Manned(sc, c)
    requires !c.st.failed
    ensures var r := DoneFanOutCancel(a, c, w); Safe(a, sc, r.c, r.w) && Keeps(c, r) && r.c.end == c.end
    decreases ChainSize(c), w.fuel, 3, 0
  {
    hide RunStep, PushDone, AwaitBatch, Broken, Unique, Raised, Tripped, FlagRaised, StageSays;
    if c.st.handles == [] {
      DoneSafe(a, sc, c.next, w);
    } else {
      var req := Request(CANCEL_WATCHER_NAME, Items(Unique(c.st.handles)), NoExtra);
      StepKeepsScope(a, sc, c, w, req);
      var g := RunStep(a, w, req);
      if g.w.status.Alive? {
        if w.aborted { BrokenSafe(a, sc, c, ERR_ABORTED, g.w); }
        else if g.out.Fail? {
          var e := Wrap(StageSays(c.stage.name) + WATCHER_ENQUEUE_FAILED, g.out.err);
          StepBlames(a, sc, c, w, req, e);
          BrokenSafe(a, sc, c, e, g.w);
        } else {
          AwaitBatchSafe(a, sc, c, g.w);
        }
      }
    }
  }

  lemma {:induction false} AwaitBatchSafe(a: Answers, sc: Scope, c: Chain, w: World)
    requires c.Op? && c.stage.FanOut? && c.stage.cancelSiblings && w.status.Alive? && Finishing(a, sc, c, w) && Manned(sc, c)
    requires !c.st.failed
    ensures var r := AwaitBatch(a, c, w); Safe(a, sc, r.c, r.w) && Keeps(c, r) && r.c.end == c.end
    decreases ChainSize(c), w.fuel, 2, 0
  {
    hide RunStep, PushDone, PushAll, Broken, Raised, Tripped, FlagRaised;
    var req := Request(c.stage.name, Items(c.st.handles), NoExtra);
    StepKeepsScope(a, sc, c, w, req);
    var g := RunStep(a, w, req);
    if g.w.status.Alive? {
      if g.out.Fail? {
        StepBlames(a, sc, c, w, req, g.out.err);
        BrokenSafe(a, sc, c, g.out.err, g.w);
      } else {
        hide Reports;
        AllSafe(a, sc, c.next, AsItems(g.out.value), g.w);
        var r1 := PushAll(a, c.next, AsItems(g.out.value), g.w);
        SameSize(c.next, r1.c);
        MannedSame(sc, c.next, r1.c);
        DoneSafe(a, sc, r1.c, r1.w);
      }
    }
  }
}
