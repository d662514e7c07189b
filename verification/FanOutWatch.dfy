/**
The awaiting phase of a FanOut with sibling cancellation (fanout.go:546-679): the
parent's await step and the cancellation watcher both poll the children and both may
cancel them, while the children move on their own and while either process crashes
and starts over. Each action is one database statement or one turn of a loop.
 */
module FanOutWatch {
  import opened Values
  import Engine

  datatype Child = Enqueued | Pending | Success(value: Value) | Errored(msg: string) | Cancelled | DeadLettered

  type Children = map<string, Child>

  predicate Terminal(c: Child) { !c.Enqueued? && !c.Pending? }
  predicate Failed(c: Child) { c.Errored? || c.Cancelled? || c.DeadLettered? }

  /** A child whose awaited result is an error other than a cancellation. */
  predicate Outright(c: Child) { c.Errored? || c.DeadLettered? }

  predicate AllTerminal(ids: seq<string>, ch: Children) {
    forall id | id in ids :: id in ch && Terminal(ch[id])
  }

  // ---- What the await step decides ----

  datatype Ruling = Results(values: seq<Value>) | Failure(id: string) | Cancellation(id: string)

  /** The promise of the await step (fanout.go:591-600): every result in input order, or
      else the first outright failure in input order, or else the first cancellation. */
  ghost predicate Rules(ids: seq<string>, ch: Children, r: Ruling)
    requires AllTerminal(ids, ch)
  {
    match r
    case Results(vs) => |vs| == |ids| && forall i | 0 <= i < |ids| :: ch[ids[i]] == Success(vs[i])
    case Failure(id) =>
      exists k | 0 <= k < |ids| :: ids[k] == id && Outright(ch[id]) && forall j | 0 <= j < k :: !Outright(ch[ids[j]])
    case Cancellation(id) =>
      && (forall j | 0 <= j < |ids| :: !Outright(ch[ids[j]]))
      && exists k | 0 <= k < |ids| :: ids[k] == id && ch[id].Cancelled? && forall j | 0 <= j < k :: ch[ids[j]].Success?
  }

  lemma RulesUnique(ids: seq<string>, ch: Children, q: Ruling, r: Ruling)
    requires AllTerminal(ids, ch) && Rules(ids, ch, q) && Rules(ids, ch, r)
    ensures q == r
  {
    match (q, r) {
      case (Results(vs), Results(us)) =>
        forall i | 0 <= i < |ids| ensures vs[i] == us[i] { assert Success(vs[i]) == ch[ids[i]] == Success(us[i]); }
      case (Failure(_), Failure(_)) =>
        var k :| 0 <= k < |ids| && ids[k] == q.id && forall j | 0 <= j < k :: !Outright(ch[ids[j]]);
        var m :| 0 <= m < |ids| && ids[m] == r.id && forall j | 0 <= j < m :: !Outright(ch[ids[j]]);
        assert k == m;
      case (Cancellation(_), Cancellation(_)) =>
        var k :| 0 <= k < |ids| && ids[k] == q.id && forall j | 0 <= j < k :: ch[ids[j]].Success?;
        var m :| 0 <= m < |ids| && ids[m] == r.id && forall j | 0 <= j < m :: ch[ids[j]].Success?;
        assert k == m;
      case _ =>
    }
  }

  /** The variables of the result-gathering loop (fanout.go:570-571). */
  datatype Gathered = Gathered(results: seq<Value>, firstFailure: Option<string>, firstCancellation: Option<string>)

  const NOTHING_YET := Gathered([], None, None)

  function See(g: Gathered, id: string, c: Child): Gathered {
    if c.Success? then g.(results := g.results + [c.value])
    else if c.Cancelled? then g.(firstCancellation := if g.firstCancellation.None? then Some(id) else g.firstCancellation)
    else g.(firstFailure := if g.firstFailure.None? then Some(id) else g.firstFailure)
  }

  function Verdict(g: Gathered): Ruling {
    match g
    case Gathered(_, Some(id), _) => Failure(id)
    case Gathered(_, None, Some(id)) => Cancellation(id)
    case Gathered(vs, None, None) => Results(vs)
  }

  /** The loop's variables rule on the part of the input it has been through. */
  lemma SeeKeepsRuling(ids: seq<string>, ch: Children, k: nat, g: Gathered)
    requires k < |ids| && AllTerminal(ids, ch)
    requires AllTerminal(ids[..k], ch) && Gathers(ids[..k], ch, g)
    ensures AllTerminal(ids[..k + 1], ch) && Gathers(ids[..k + 1], ch, See(g, ids[k], ch[ids[k]]))
  {
    assert ids[..k + 1] == ids[..k] + [ids[k]];
    assert ids[k] in ids;
  }

  /** `g` is what the loop knows after `ids`: each variable against its own definition. */
  ghost predicate Gathers(ids: seq<string>, ch: Children, g: Gathered)
    requires AllTerminal(ids, ch)
  {
    && (g.firstFailure.None? ==> forall j | 0 <= j < |ids| :: !Outright(ch[ids[j]]))
    && (g.firstFailure.Some? ==> Rules(ids, ch, Failure(g.firstFailure.value)))
    && (g.firstFailure.None? && g.firstCancellation.None? ==> Rules(ids, ch, Results(g.results)))
    && (g.firstFailure.None? && g.firstCancellation.Some? ==> Rules(ids, ch, Cancellation(g.firstCancellation.value)))
  }

  // ---- The system ----

  datatype Phase =
    | Polling(issued: bool)                                    // about to list the children
    | Looked(terminal: bool, attempt: bool, issued: bool)      // has counted one listing
    | Gathering(k: nat, g: Gathered)                           // the parent, reading results
    | Over(ruling: Option<Ruling>)                             // None: ended by an error of its own

  datatype Who = Parent | Watcher

  /** `recorded`: the await step's checkpoint. `own` and `batch` are history: the
      children that came to a failed state of their own or by somebody else's hand, and
      those that one of the two loops cancelled. */
  datatype State = State(children: Children, parent: Phase, watcher: Phase, recorded: Option<Ruling>,
                         own: set<string>, batch: set<string>)

  datatype Action =
    | Move(id: string, to: Child)   // a child moves: it is started, requeued, ends, is dead-lettered, or is cancelled
    | ResumeChild(id: string)
    | Delete(id: string)            // retention
    | Poll(who: Who)
    | Cancel(who: Who)
    | CancelFails(who: Who)
    | Settle(who: Who)              // the bottom of the loop: return, or wait and poll again
    | Interrupt(who: Who)           // the context ends, or the listing fails
    | ReadResult
    | Assemble
    | Record
    | Crash(who: Who)

  function At(s: State, who: Who): Phase { if who.Parent? then s.parent else s.watcher }

  function Put(s: State, who: Who, p: Phase): State {
    if who.Parent? then s.(parent := p) else s.(watcher := p)
  }

  predicate AnyFailed(ids: seq<string>, ch: Children) {
    exists i | 0 <= i < |ids| :: ids[i] in ch && Failed(ch[ids[i]])
  }

  predicate AllPresent(ids: seq<string>, ch: Children) {
    forall i | 0 <= i < |ids| :: ids[i] in ch
  }

  /** CancelWorkflows: one statement, and a terminal child is skipped. */
  function CancelLive(ids: seq<string>, ch: Children): Children {
    map id | id in ch :: if id in ids && !Terminal(ch[id]) then Cancelled else ch[id]
  }

  function Live(ids: seq<string>, ch: Children): set<string> {
    set id | id in ch && id in ids && !Terminal(ch[id])
  }

  predicate Enabled(ids: seq<string>, s: State, a: Action) {
    match a
    case Move(id, _) => id in s.children && !Terminal(s.children[id])
    case ResumeChild(id) => id in s.children && (s.children[id].Cancelled? || s.children[id].DeadLettered?)
    case Delete(id) => id in s.children && Terminal(s.children[id])
    case Poll(who) => At(s, who).Polling?
    case Cancel(who) => At(s, who).Looked? && At(s, who).attempt
    case CancelFails(who) => At(s, who).Looked? && At(s, who).attempt
    case Settle(who) => At(s, who).Looked? && !At(s, who).attempt
    case Interrupt(who) => !At(s, who).Over?
    case ReadResult =>
      // GetResult waits for a child to be terminal
      && s.parent.Gathering? && s.parent.k < |ids|
      && (ids[s.parent.k] in s.children ==> Terminal(s.children[ids[s.parent.k]]))
    case Assemble => s.parent.Gathering? && s.parent.k == |ids|
    case Record => s.parent.Over? && s.parent.ruling.Some? && s.recorded.None?
    case Crash(_) => true
  }

  function Next(ids: seq<string>, s: State, a: Action): State
    requires Enabled(ids, s, a)
  {
    match a
    case Move(id, to) => s.(children := s.children[id := to], own := if Failed(to) then s.own + {id} else s.own)
    case ResumeChild(id) => s.(children := s.children[id := Enqueued])
    case Delete(id) => s.(children := s.children - {id})
    case Poll(who) =>
      if !AllPresent(ids, s.children) then Put(s, who, Over(None))
      else
        var issued := At(s, who).issued;
        Put(s, who, Looked(AllTerminal(ids, s.children), AnyFailed(ids, s.children) && !issued, issued))
    case Cancel(who) =>
      Put(s, who, Polling(true)).(children := CancelLive(ids, s.children), batch := s.batch + Live(ids, s.children))
    case CancelFails(who) => Put(s, who, At(s, who).(attempt := false))
    case Settle(who) =>
      if !At(s, who).terminal then Put(s, who, Polling(At(s, who).issued))
      else if who.Parent? then s.(parent := Gathering(0, NOTHING_YET))
      else s.(watcher := Over(Some(Results([]))))
    case Interrupt(who) => Put(s, who, Over(None))
    case ReadResult =>
      var id := ids[s.parent.k];
      if id !in s.children then s.(parent := Over(None))
      else s.(parent := Gathering(s.parent.k + 1, See(s.parent.g, id, s.children[id])))
    case Assemble => s.(parent := Over(Some(Verdict(s.parent.g))))
    case Record => s.(recorded := s.parent.ruling)
    case Crash(who) =>
      // a recorded step is replayed; the watcher records none
      if who.Parent? && s.recorded.Some? then s.(parent := Over(s.recorded)) else Put(s, who, Polling(false))
  }

  ghost predicate Runs(ids: seq<string>, s: State, acts: seq<Action>, t: State)
    decreases |acts|
  {
    if acts == [] then s == t
    else Enabled(ids, s, acts[0]) && Runs(ids, Next(ids, s, acts[0]), acts[1..], t)
  }

  /** The batch has just been enqueued. */
  ghost predicate Begins(ids: seq<string>, s: State) {
    && s.parent == Polling(false) && s.watcher == Polling(false) && s.recorded.None? && s.own == {} && s.batch == {}
    && (forall id | id in ids :: id in s.children)
    && (forall id | id in s.children :: s.children[id].Enqueued?)
  }

  /** Nobody resumes a child, and retention leaves them alone. */
  predicate Calm(acts: seq<Action>) {
    forall a | a in acts :: !a.ResumeChild? && !a.Delete?
  }

  // ---- No cancellation without a cause ----

  ghost predicate Blamed(ids: seq<string>, s: State) {
    && (forall id | id in s.children && Failed(s.children[id]) :: id in s.own + s.batch)
    && (s.batch != {} ==> s.own != {})
    && (s.parent.Looked? && s.parent.attempt ==> s.own != {})
    && (s.watcher.Looked? && s.watcher.attempt ==> s.own != {})
  }

  lemma StepKeepsBlame(ids: seq<string>, s: State, a: Action)
    requires Blamed(ids, s) && Enabled(ids, s, a)
    ensures Blamed(ids, Next(ids, s, a))
  {
    hide See, Verdict, AllTerminal, AllPresent;
  }

  lemma {:induction false} BlameLasts(ids: seq<string>, s: State, acts: seq<Action>, t: State)
    requires Blamed(ids, s) && Runs(ids, s, acts, t)
    ensures Blamed(ids, t)
    decreases |acts|
  {
    hide Enabled, Next, Blamed;
    if acts != [] {
      StepKeepsBlame(ids, s, acts[0]);
      BlameLasts(ids, Next(ids, s, acts[0]), acts[1..], t);
    }
  }

  /** Whatever the interleaving, the crashes and the resumes: no child is ever cancelled
      by the batch unless some child had failed, or been cancelled, in another way; and
      every failure is either its child's own or such a cancellation. */
  lemma {:induction false} NoCancelWithoutCause(ids: seq<string>, s: State, acts: seq<Action>, t: State)
    requires Begins(ids, s) && Runs(ids, s, acts, t)
    ensures t.batch != {} ==> t.own != {}
    ensures forall id | id in t.children && Failed(t.children[id]) :: id in t.own + t.batch
  {
    BlameLasts(ids, s, acts, t);
  }

  // ---- What a normal return means ----

  ghost predicate Gathered?(ids: seq<string>, ch: Children, k: nat, g: Gathered) {
    k <= |ids| && AllTerminal(ids, ch) && AllTerminal(ids[..k], ch) && Gathers(ids[..k], ch, g)
  }

  ghost predicate Truthful(ids: seq<string>, s: State) {
    && (s.parent.Looked? && s.parent.terminal ==> AllTerminal(ids, s.children))
    && (s.watcher.Looked? && s.watcher.terminal ==> AllTerminal(ids, s.children))
    && (s.watcher.Over? && s.watcher.ruling.Some? ==> AllTerminal(ids, s.children))
    && (s.parent.Gathering? ==> Gathered?(ids, s.children, s.parent.k, s.parent.g))
    && (s.parent.Over? && s.parent.ruling.Some? ==>
          AllTerminal(ids, s.children) && Rules(ids, s.children, s.parent.ruling.value))
    && (s.recorded.Some? ==> AllTerminal(ids, s.children) && Rules(ids, s.children, s.recorded.value))
  }

  /** Terminal children stay as they are when nobody resumes or deletes them. */
  lemma TerminalLasts(ids: seq<string>, s: State, a: Action)
    requires Enabled(ids, s, a) && !a.ResumeChild? && !a.Delete?
    ensures forall id | id in s.children && Terminal(s.children[id]) ::
              id in Next(ids, s, a).children && Next(ids, s, a).children[id] == s.children[id]
  {
  }

  lemma RulesFramed(ids: seq<string>, ch: Children, dh: Children)
    requires AllTerminal(ids, ch)
    requires forall id | id in ch && Terminal(ch[id]) :: id in dh && dh[id] == ch[id]
    ensures AllTerminal(ids, dh)
    ensures forall r :: Rules(ids, ch, r) ==> Rules(ids, dh, r)
    ensures forall k: nat, g :: Gathered?(ids, ch, k, g) ==> Gathered?(ids, dh, k, g)
  {
    assert forall id | id in ids :: id in dh && dh[id] == ch[id];
    forall r | Rules(ids, ch, r) ensures Rules(ids, dh, r) {
      RulesFramedBy(ids, ids, ch, dh, r);
    }
    forall k: nat, g | Gathered?(ids, ch, k, g) ensures Gathered?(ids, dh, k, g) {
      assert AllTerminal(ids[..k], dh);
      forall r | Rules(ids[..k], ch, r) ensures Rules(ids[..k], dh, r) {
        RulesFramedBy(ids, ids[..k], ch, dh, r);
      }
      assert forall j | 0 <= j < k :: ids[..k][j] in ids;
    }
  }

  lemma RulesFramedBy(ids: seq<string>, part: seq<string>, ch: Children, dh: Children, r: Ruling)
    requires AllTerminal(part, ch) && AllTerminal(part, dh) && Rules(part, ch, r)
    requires forall id | id in part :: id in dh && id in ch && dh[id] == ch[id]
    ensures Rules(part, dh, r)
  {
    assert forall j | 0 <= j < |part| :: part[j] in part && dh[part[j]] == ch[part[j]];
    match r
    case Results(vs) =>
    case Failure(id) =>
      var k :| 0 <= k < |part| && part[k] == id && Outright(ch[id]) && forall j | 0 <= j < k :: !Outright(ch[part[j]]);
      assert part[k] == id && Outright(dh[id]) && forall j | 0 <= j < k :: !Outright(dh[part[j]]);
    case Cancellation(id) =>
      var k :| 0 <= k < |part| && part[k] == id && ch[id].Cancelled? && forall j | 0 <= j < k :: ch[part[j]].Success?;
      assert part[k] == id && dh[id].Cancelled? && forall j | 0 <= j < k :: dh[part[j]].Success?;
  }

  lemma StepKeepsTruth(ids: seq<string>, s: State, a: Action)
    requires Truthful(ids, s) && Enabled(ids, s, a) && !a.ResumeChild? && !a.Delete?
    ensures Truthful(ids, Next(ids, s, a))
  {
    hide Rules, See, Verdict, Gathers, AnyFailed, AllPresent, AllTerminal;
    var t := Next(ids, s, a);
    TerminalLasts(ids, s, a);
    if AllTerminal(ids, s.children) {
      RulesFramed(ids, s.children, t.children);
    }
    if a.Settle? && a.who.Parent? && s.parent.terminal {
      GatheringBegins(ids, s.children);
    } else if a.ReadResult? {
      GatheringGoesOn(ids, s.children, s.parent.k, s.parent.g);
    } else if a.Assemble? {
      GatheringEnds(ids, s.children, s.parent.g);
    }
  }

  lemma GatheringBegins(ids: seq<string>, ch: Children)
    requires AllTerminal(ids, ch)
    ensures Gathered?(ids, ch, 0, NOTHING_YET)
  {
  }

  lemma GatheringGoesOn(ids: seq<string>, ch: Children, k: nat, g: Gathered)
    requires k < |ids| && Gathered?(ids, ch, k, g)
    ensures ids[k] in ch && Gathered?(ids, ch, k + 1, See(g, ids[k], ch[ids[k]]))
  {
    assert ids[k] in ids;
    SeeKeepsRuling(ids, ch, k, g);
  }

  lemma GatheringEnds(ids: seq<string>, ch: Children, g: Gathered)
    requires Gathered?(ids, ch, |ids|, g)
    ensures Rules(ids, ch, Verdict(g))
  {
    assert ids[..|ids|] == ids;
  }

  lemma {:induction false} RunsKeepTruth(ids: seq<string>, s: State, acts: seq<Action>, t: State)
    requires Truthful(ids, s) && Runs(ids, s, acts, t) && Calm(acts)
    ensures Truthful(ids, t)
    ensures AllTerminal(ids, s.children) ==> AllTerminal(ids, t.children)
    ensures AllTerminal(ids, s.children) ==> forall r :: Rules(ids, s.children, r) ==> Rules(ids, t.children, r)
    decreases |acts|
  {
    hide Enabled, Next, Truthful, Rules, AllTerminal, Gathered?;
    if acts != [] {
      var u := Next(ids, s, acts[0]);
      StepKeepsTruth(ids, s, acts[0]);
      TerminalLasts(ids, s, acts[0]);
      if AllTerminal(ids, s.children) {
        RulesFramed(ids, s.children, u.children);
      }
      RunsKeepTruth(ids, u, acts[1..], t);
    }
  }

  /** A normal return of the await step means that every child is terminal and that
      its ruling is the one the children's states call for, and so for every later
      normal return after any crash: the same results or the same first failure. */
  lemma {:induction false} AwaitIsRepeatable(
      ids: seq<string>, s: State, acts: seq<Action>, t: State, more: seq<Action>, u: State)
    requires Begins(ids, s) && Runs(ids, s, acts, t) && Calm(acts) && Runs(ids, t, more, u) && Calm(more)
    requires t.parent.Over? && t.parent.ruling.Some?
    ensures AllTerminal(ids, t.children) && Rules(ids, t.children, t.parent.ruling.value)
    ensures u.parent.Over? && u.parent.ruling.Some? ==> u.parent.ruling == t.parent.ruling
    ensures u.recorded.Some? ==> u.recorded == t.parent.ruling
    ensures u.watcher.Over? && u.watcher.ruling.Some? ==> AllTerminal(ids, u.children)
  {
    hide Runs, Rules, Calm;
    RunsKeepTruth(ids, s, acts, t);
    RunsKeepTruth(ids, t, more, u);
    if u.parent.Over? && u.parent.ruling.Some? {
      RulesUnique(ids, u.children, u.parent.ruling.value, t.parent.ruling.value);
    }
    if u.recorded.Some? {
      RulesUnique(ids, u.children, u.recorded.value, t.parent.ruling.value);
    }
  }

  ghost predicate Replays(s: State) { s.recorded.Some? ==> s.parent == Over(s.recorded) }

  lemma StepReplays(ids: seq<string>, s: State, a: Action)
    requires Replays(s) && Enabled(ids, s, a)
    ensures Replays(Next(ids, s, a)) && (s.recorded.Some? ==> Next(ids, s, a).recorded == s.recorded)
  {
    hide See, Verdict, AllTerminal, AnyFailed, AllPresent, CancelLive, Live;
  }

  /** Once the await step has its record, the parent has that ruling for good, whatever
      happens to either process, and whatever becomes of the children: a child resumed or
      deleted later changes nothing, and no crash makes the parent look again. */
  lemma {:induction false} RecordedRulingStays(ids: seq<string>, s: State, acts: seq<Action>, t: State)
    requires Replays(s) && Runs(ids, s, acts, t)
    ensures Replays(t) && (s.recorded.Some? ==> t.recorded == s.recorded && t.parent == Over(s.recorded))
    decreases |acts|
  {
    hide Enabled, Next;
    if acts != [] {
      StepReplays(ids, s, acts[0]);
      RecordedRulingStays(ids, Next(ids, s, acts[0]), acts[1..], t);
    }
  }

  /** Every run keeps to it: from the beginning, to a state with a record, and on. */
  lemma {:induction false} RecordedIsFinal(ids: seq<string>, s: State, acts: seq<Action>, t: State, more: seq<Action>, u: State)
    requires Begins(ids, s) && Runs(ids, s, acts, t) && Runs(ids, t, more, u) && t.recorded.Some?
    ensures u.parent == t.parent == Over(t.recorded) && u.recorded == t.recorded
  {
    hide Runs;
    RecordedRulingStays(ids, s, acts, t);
    RecordedRulingStays(ids, t, more, u);
  }

  // ---- Which failure it is ----

  /** The await step reports a failed child exactly when no child ahead of it in input
      order failed outright: not because that child's failure set off the cancellation. */
  lemma {:induction false} ReportedExactlyWhenFirst(ids: seq<string>, ch: Children, r: Ruling, k: nat)
    requires AllTerminal(ids, ch) && Rules(ids, ch, r)
    requires k < |ids| && Outright(ch[ids[k]]) && ids[k] !in ids[..k]
    ensures r == Failure(ids[k]) <==> forall j | 0 <= j < k :: !Outright(ch[ids[j]])
  {
    if r.Failure? {
      var m :| 0 <= m < |ids| && ids[m] == r.id && Outright(ch[r.id]) && forall j | 0 <= j < m :: !Outright(ch[ids[j]]);
      assert m < k ==> ids[m] in ids[..k];
    }
  }

  lemma RunsFrom(ids: seq<string>, s: State, a: Action, rest: seq<Action>, t: State)
    requires Enabled(ids, s, a) && Runs(ids, Next(ids, s, a), rest, t)
    ensures Runs(ids, s, [a] + rest, t)
  {
    assert ([a] + rest)[1..] == rest;
  }

  /** A schedule in which "b" fails, the parent sees it and decides to cancel while "a" is
      still running, "a" fails before the cancellation reaches it, and the stage fails
      with "a": not the child that triggered the cancellation. */
  lemma {:induction false} TriggerIsNotAlwaysTheError(x: string, y: string)
      returns (s: State, acts: seq<Action>, u: State, more: seq<Action>, t: State)
    ensures Begins(["a", "b"], s) && Runs(["a", "b"], s, acts, u) && Calm(acts)
    ensures u.children == map["a" := Pending, "b" := Errored(y)] && u.parent.Looked? && u.parent.attempt
    ensures Runs(["a", "b"], u, more, t) && Calm(more) && t.parent == Over(Some(Failure("a")))
  {
    var ids := ["a", "b"];
    s := State(map["a" := Enqueued, "b" := Enqueued], Polling(false), Polling(false), None, {}, {});
    acts, u := TriggerSeen(ids, s, y);
    more, t := TriggerOvertaken(ids, u, x);
  }

  lemma TriggerSeen(ids: seq<string>, s: State, y: string) returns (acts: seq<Action>, u: State)
    requires ids == ["a", "b"] && s.children == map["a" := Enqueued, "b" := Enqueued] && s.parent == Polling(false)
    ensures Runs(ids, s, acts, u) && Calm(acts)
    ensures u.children == map["a" := Pending, "b" := Errored(y)] && u.parent == Looked(false, true, false)
    ensures u.recorded == s.recorded
  {
    var s1 := Next(ids, s, Move("a", Pending));
    var s2 := Next(ids, s1, Move("b", Errored(y)));
    assert ids[0] == "a" && ids[1] == "b" && "a" in ids;
    u := Next(ids, s2, Poll(Parent));
    RunsFrom(ids, s2, Poll(Parent), [], u);
    RunsFrom(ids, s1, Move("b", Errored(y)), [Poll(Parent)] + [], u);
    RunsFrom(ids, s, Move("a", Pending), [Move("b", Errored(y))] + ([Poll(Parent)] + []), u);
    acts := [Move("a", Pending)] + ([Move("b", Errored(y))] + ([Poll(Parent)] + []));
  }

  /** Left to itself, a parent that has begun to gather comes to the ruling. */
  lemma {:induction false} GatheringComesToAnEnd(ids: seq<string>, s: State) returns (acts: seq<Action>, t: State)
    requires s.parent.Gathering? && Gathered?(ids, s.children, s.parent.k, s.parent.g)
    ensures Runs(ids, s, acts, t) && Alone(acts) && t.children == s.children
    ensures t.parent.Over? && t.parent.ruling.Some? && Rules(ids, s.children, t.parent.ruling.value)
    decreases |ids| - s.parent.k
  {
    hide See, Verdict, Rules, Gathers;
    var k, g := s.parent.k, s.parent.g;
    if k == |ids| {
      GatheringEnds(ids, s.children, g);
      t := Next(ids, s, Assemble);
      acts := [Assemble] + [];
      RunsFrom(ids, s, Assemble, [], t);
    } else {
      assert ids[k] in ids;
      GatheringGoesOn(ids, s.children, k, g);
      var rest;
      rest, t := GatheringComesToAnEnd(ids, Next(ids, s, ReadResult));
      RunsFrom(ids, s, ReadResult, rest, t);
      acts := [ReadResult] + rest;
    }
  }

  lemma {:induction false} EndsWhenTerminal(ids: seq<string>, s: State) returns (acts: seq<Action>, t: State)
    requires s.parent.Polling? && AllTerminal(ids, s.children) && (s.parent.issued || !AnyFailed(ids, s.children))
    ensures Runs(ids, s, acts, t) && Alone(acts) && t.children == s.children
    ensures t.parent.Over? && t.parent.ruling.Some? && Rules(ids, s.children, t.parent.ruling.value)
  {
    hide AnyFailed, Rules;
    assert forall i | 0 <= i < |ids| :: ids[i] in ids;
    var s1 := Next(ids, s, Poll(Parent));
    var s2 := Next(ids, s1, Settle(Parent));
    GatheringBegins(ids, s.children);
    acts, t := GatheringComesToAnEnd(ids, s2);
    RunsFrom(ids, s1, Settle(Parent), acts, t);
    acts := [Settle(Parent)] + acts;
    RunsFrom(ids, s, Poll(Parent), acts, t);
    acts := [Poll(Parent)] + acts;
  }

  // ---- What a cancellation does ----

  /** The bulk cancellation leaves no child of the batch live: those that were are
      cancelled, and nobody else is touched (fanout.go:655-663). */
  lemma CancelReachesAll(ids: seq<string>, s: State, who: Who)
    requires Enabled(ids, s, Cancel(who))
    ensures
      var t := Next(ids, s, Cancel(who));
      && At(t, who) == Polling(true)
      && t.children.Keys == s.children.Keys
      && (forall id | id in s.children ::
            t.children[id] == if id in ids && !Terminal(s.children[id]) then Cancelled else s.children[id])
      && (AllPresent(ids, s.children) ==> AllTerminal(ids, t.children))
  {
    assert forall id | id in ids :: exists i :: 0 <= i < |ids| && ids[i] == id;
  }

  function Issued(p: Phase): bool {
    match p
    case Polling(issued) => issued
    case Looked(_, _, issued) => issued
    case _ => false
  }

  /** Nobody is missing, and a loop that has cancelled has nobody left to wait for. */
  ghost predicate Swept(ids: seq<string>, s: State) {
    && AllPresent(ids, s.children)
    && (Issued(s.parent) || Issued(s.watcher) ==> AllTerminal(ids, s.children))
  }

  lemma StepKeepsSwept(ids: seq<string>, s: State, a: Action)
    requires Swept(ids, s) && Enabled(ids, s, a) && !a.ResumeChild? && !a.Delete?
    ensures Swept(ids, Next(ids, s, a))
  {
    hide See, Verdict, AnyFailed;
    if a.Cancel? { CancelReachesAll(ids, s, a.who); }
    TerminalLasts(ids, s, a);
    assert forall id | id in s.children :: id in Next(ids, s, a).children;
  }

  lemma {:induction false} RunsKeepSwept(ids: seq<string>, s: State, acts: seq<Action>, t: State)
    requires Swept(ids, s) && Runs(ids, s, acts, t) && Calm(acts)
    ensures Swept(ids, t)
    decreases |acts|
  {
    hide Enabled, Next, Swept;
    if acts != [] {
      StepKeepsSwept(ids, s, acts[0]);
      RunsKeepSwept(ids, Next(ids, s, acts[0]), acts[1..], t);
    }
  }

  /** The parent's own moves, and nobody else's. */
  predicate Alone(acts: seq<Action>) {
    forall a | a in acts :: a == Poll(Parent) || a == Cancel(Parent) || a == Settle(Parent) || a.ReadResult? || a.Assemble?
  }

  /** The await step comes to its ruling by itself, with no child moving of its own, from
      wherever its loop is polling, as soon as one child has failed or all are terminal:
      it cancels those still live, leaves the others as they are, and rules on that. */
  lemma {:induction false} AwaitComesToAnEnd(ids: seq<string>, start: State, before: seq<Action>, s: State)
      returns (acts: seq<Action>, t: State)
    requires Begins(ids, start) && Runs(ids, start, before, s) && Calm(before) && s.parent.Polling?
    requires AnyFailed(ids, s.children) || AllTerminal(ids, s.children)
    ensures Runs(ids, s, acts, t) && Alone(acts)
    ensures t.children.Keys == s.children.Keys
    ensures forall id | id in s.children ::
              t.children[id] == if id in ids && !Terminal(s.children[id]) then Cancelled else s.children[id]
    ensures AllTerminal(ids, t.children)
    ensures t.parent.Over? && t.parent.ruling.Some? && Rules(ids, t.children, t.parent.ruling.value)
  {
    RunsKeepSwept(ids, start, before, s);
    hide Runs, Rules, AnyFailed;
    if s.parent.issued || !AnyFailed(ids, s.children) {
      acts, t := EndsWhenTerminal(ids, s);
    } else {
      var s1 := Next(ids, s, Poll(Parent));
      CancelReachesAll(ids, s1, Parent);
      var s2 := Next(ids, s1, Cancel(Parent));
      acts, t := EndsWhenTerminal(ids, s2);
      RunsFrom(ids, s1, Cancel(Parent), acts, t);
      acts := [Cancel(Parent)] + acts;
      RunsFrom(ids, s, Poll(Parent), acts, t);
      acts := [Poll(Parent)] + acts;
    }
  }

  lemma FailsBeforeTheCancellation(ids: seq<string>, u: State, x: string) returns (s1: State, s2: State)
    requires ids == ["a", "b"] && u.parent == Looked(false, true, false)
    requires "a" in u.children && u.children["a"] == Pending && "b" in u.children && u.children["b"].Errored?
    ensures Enabled(ids, u, Move("a", Errored(x))) && s1 == Next(ids, u, Move("a", Errored(x)))
    ensures Enabled(ids, s1, Cancel(Parent)) && s2 == Next(ids, s1, Cancel(Parent))
    ensures s2.parent == Polling(true) && AllTerminal(ids, s2.children) && s2.children["a"] == Errored(x)
  {
    s1 := Next(ids, u, Move("a", Errored(x)));
    CancelReachesAll(ids, s1, Parent);
    s2 := Next(ids, s1, Cancel(Parent));
  }

  lemma TriggerOvertaken(ids: seq<string>, u: State, x: string) returns (acts: seq<Action>, t: State)
    requires ids == ["a", "b"] && u.parent == Looked(false, true, false)
    requires "a" in u.children && u.children["a"] == Pending && "b" in u.children && u.children["b"].Errored?
    ensures Runs(ids, u, acts, t) && Calm(acts) && t.parent == Over(Some(Failure("a")))
  {
    hide Rules, AllTerminal, Runs, Enabled, Next;
    var s1, s2 := FailsBeforeTheCancellation(ids, u, x);
    acts, t := EndsWhenTerminal(ids, s2);
    ReportedExactlyWhenFirst(ids, s2.children, t.parent.ruling.value, 0);
    RunsFrom(ids, s1, Cancel(Parent), acts, t);
    acts := [Cancel(Parent)] + acts;
    RunsFrom(ids, u, Move("a", Errored(x)), acts, t);
    acts := [Move("a", Errored(x))] + acts;
  }
}
