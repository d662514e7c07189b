/**
The loops of the await step in their own form: watchAndCancel's polling loop, which
counts terminal children and issues one bulk cancellation (fanout.go:627-673), and the
loop that assembles the outcome (fanout.go:570-600). What the children do on their own
while the loop runs is given as `weather`, round by round, so every interleaving is an
argument; the loop's run is shown to be a schedule of the system in FanOutWatch.
 */
module AwaitStep {
  import opened Values
  import opened FanOutWatch

  datatype ChildMove = ChildMove(id: string, to: Child)

  /** What happens around one turn of the loop: `moves` between the listing and the
      cancellation, `later` before the next listing; whether the listing or the
      cancellation fails, and whether the context is done at the bottom of the loop. */
  datatype Round = Round(listFails: bool, moves: seq<ChildMove>, cancelFails: bool, done: bool, later: seq<ChildMove>)

  predicate Clear(round: Round) { !round.listFails && !round.cancelFails && !round.done }

  datatype Turned = Again(issued: bool) | Returned | Broke

  /** Where the loop's nil return takes its caller. */
  function Normal(who: Who): Phase {
    if who.Parent? then Gathering(0, NOTHING_YET) else Over(Some(Results([])))
  }

  lemma {:induction false} RunsOnward(ids: seq<string>, s: State, acts: seq<Action>, u: State, a: Action)
    requires Runs(ids, s, acts, u) && Enabled(ids, u, a)
    ensures Runs(ids, s, acts + [a], Next(ids, u, a))
    decreases |acts|
  {
    if acts == [] {
      assert (acts + [a])[1..] == [];
    } else {
      RunsOnward(ids, Next(ids, s, acts[0]), acts[1..], u, a);
      assert (acts + [a])[1..] == acts[1..] + [a];
    }
  }

  class Batch {
    const ids: seq<string>
    var children: Children
    /** The run so far, as a schedule: `now` is the state that `acts` has led to. */
    ghost const start: State
    ghost const who: Who
    ghost var acts: seq<Action>
    ghost var now: State

    ghost predicate Valid()
      reads this
    {
      Runs(ids, start, acts, now) && Calm(acts) && now.children == children
    }

    constructor (ids: seq<string>, children: Children, ghost start: State, ghost who: Who)
      requires start.children == children
      ensures Valid() && this.ids == ids && this.children == children && this.start == start && this.who == who
      ensures now == start
    {
      this.ids, this.children, this.start, this.who := ids, children, start, who;
      acts, now := [], start;
    }

    ghost method Took(a: Action)
      requires Runs(ids, start, acts, now) && Calm(acts) && Enabled(ids, now, a) && !a.ResumeChild? && !a.Delete?
      requires Next(ids, now, a).children == children
      modifies `acts, `now
      ensures Valid() && now == Next(ids, old(now), a)
    {
      RunsOnward(ids, start, acts, now, a);
      acts, now := acts + [a], Next(ids, now, a);
    }

    /** The children go about their business; a move of a terminal child is no move. */
    method Weather(moves: seq<ChildMove>)
      requires Valid()
      modifies `children, `acts, `now
      ensures Valid() && now.parent == old(now.parent) && now.watcher == old(now.watcher)
      ensures children.Keys == old(children.Keys)
      ensures old(AllTerminal(ids, children)) ==> AllTerminal(ids, children)
    {
      for i := 0 to |moves|
        invariant Valid() && now.parent == old(now.parent) && now.watcher == old(now.watcher)
        invariant children.Keys == old(children.Keys)
        invariant old(AllTerminal(ids, children)) ==> AllTerminal(ids, children)
      {
        var m := moves[i];
        if m.id in children && !Terminal(children[m.id]) {
          children := children[m.id := m.to];
          Took(Move(m.id, m.to));
        }
      }
    }

    /** One listing, counted (fanout.go:641-654). */
    method Survey(unique: seq<string>) returns (missing: bool, terminal: nat, anyFailed: bool)
      requires unique == Unique(ids)
      ensures missing <==> !AllPresent(ids, children)
      ensures !missing ==> (terminal == |unique| <==> AllTerminal(ids, children)) && (anyFailed <==> AnyFailed(ids, children))
    {
      var listed := 0;
      missing, terminal, anyFailed := false, 0, false;
      for i := 0 to |unique|
        invariant listed <= i && (listed == i <==> AllPresent(unique[..i], children))
        invariant listed == i ==> terminal <= i && (terminal == i <==> AllTerminal(unique[..i], children))
        invariant listed == i ==> (anyFailed <==> AnyFailed(unique[..i], children))
      {
        assert unique[..i + 1] == unique[..i] + [unique[i]];
        if unique[i] in children {
          listed := listed + 1;
          match children[unique[i]] {
            case Success(_) => terminal := terminal + 1;
            case Errored(_) => terminal, anyFailed := terminal + 1, true;
            case Cancelled => terminal, anyFailed := terminal + 1, true;
            case DeadLettered => terminal, anyFailed := terminal + 1, true;
            case _ =>
          }
        }
      }
      assert unique[..|unique|] == unique;
      missing := listed != |unique|;
      UniqueListsTheSame(ids, children);
    }

    /** The bulk cancellation (fanout.go:655-663), and whether it went through. */
    method TryCancel(fails: bool) returns (issued: bool)
      requires Valid() && At(now, who).Looked? && At(now, who).attempt
      modifies `children, `acts, `now
      ensures Valid() && children.Keys == old(children.Keys) && issued == !fails
      ensures issued ==> At(now, who) == Polling(true)
      ensures !issued ==> At(now, who) == old(At(now, who)).(attempt := false) && children == old(children)
      ensures issued ==> forall id | id in children ::
                children[id] == if id in ids && !Terminal(old(children)[id]) then FanOutWatch.Cancelled else old(children)[id]
      ensures issued && AllPresent(ids, old(children)) ==> AllTerminal(ids, children)
    {
      hide Runs, Terminal, Failed;
      issued := !fails;
      if fails {
        Took(CancelFails(who));
      } else {
        CancelReachesAll(ids, now, who);
        children := CancelLive(ids, children);
        Took(Cancel(who));
      }
    }

    /** The bottom of the loop (fanout.go:664-671). */
    method Bottom(round: Round, allTerminal: bool, cancelIssued: bool) returns (t: Turned)
      requires Valid() && At(now, who) == Looked(allTerminal, false, cancelIssued)
      requires allTerminal ==> AllTerminal(ids, children)
      modifies `children, `acts, `now
      ensures Valid() && children.Keys == old(children.Keys)
      ensures t.Again? ==> t.issued == cancelIssued && At(now, who) == Polling(cancelIssued)
      ensures old(AllTerminal(ids, children)) ==> AllTerminal(ids, children)
      ensures t.Returned? ==> AllTerminal(ids, children) && At(now, who) == Normal(who)
      ensures t.Broke? ==> At(now, who) == Over(None) && round.done
      ensures allTerminal ==> t.Returned?
    {
      hide Runs, AllTerminal;
      Took(Settle(who));
      if allTerminal {
        return Returned;
      }
      if round.done {
        Took(Interrupt(who));
        return Broke;
      }
      Weather(round.later);
      return Again(cancelIssued);
    }

    /** Once a cancellation has gone through, no child of the batch is live any more. */
    method Turn(unique: seq<string>, round: Round, cancelIssued: bool) returns (t: Turned)
      requires Valid() && unique == Unique(ids) && At(now, who) == Polling(cancelIssued)
      requires cancelIssued ==> AllTerminal(ids, children)
      modifies `children, `acts, `now
      ensures Valid() && children.Keys == old(children.Keys)
      ensures t.Again? ==> At(now, who) == Polling(t.issued) && (t.issued ==> AllTerminal(ids, children))
      ensures t.Again? && !t.issued && !round.cancelFails ==> !old(AnyFailed(ids, children))
      ensures t.Broke? && !round.listFails && !round.done ==> !AllPresent(ids, children)
      ensures cancelIssued && !round.listFails ==> t.Returned?
      ensures t.Returned? ==> AllTerminal(ids, children) && At(now, who) == Normal(who)
      ensures t.Broke? ==> At(now, who) == Over(None)
    {
      TerminalIsPresent(ids, children);
      hide Runs, AllTerminal, AnyFailed, AllPresent;
      if round.listFails {
        Took(Interrupt(who));
        return Broke;
      }
      var missing, terminal, anyFailed := Survey(unique);
      Took(Poll(who));
      if missing {
        return Broke;
      }
      Weather(round.moves);
      PresentByKeys(ids, old(children), children);
      if anyFailed && !cancelIssued {
        var issued := TryCancel(round.cancelFails);
        if issued {
          return Again(true);
        }
      }
      t := Bottom(round, terminal == |unique|, cancelIssued);
      PresentByKeys(ids, old(children), children);
    }

    /** watchAndCancel: it returns nil exactly when a listing has shown every child
        terminal. The context is done at the latest when the weather report ends. Once a
        child has failed and none is missing, two rounds in which no statement fails and
        the context is not done are enough, whatever the other children are doing. */
    method WatchAndCancel(weather: seq<Round>) returns (ok: bool)
      requires Valid() && At(now, who) == Polling(false)
      modifies `children, `acts, `now
      ensures Valid() && children.Keys == old(children.Keys)
      ensures ok ==> AllTerminal(ids, children)
      ensures At(now, who) == if ok then Normal(who) else Over(None)
      ensures old(AnyFailed(ids, children) && AllPresent(ids, children)) && |weather| >= 2 && Clear(weather[0]) && Clear(weather[1]) ==> ok
    {
      ghost var soon := AnyFailed(ids, children) && AllPresent(ids, children) && |weather| >= 2 && Clear(weather[0]) && Clear(weather[1]);
      hide AnyFailed, AllPresent, AllTerminal, Runs;
      var unique := UniqueIDs(ids);
      var cancelIssued := false;
      for turn := 0 to |weather|
        invariant Valid() && children.Keys == old(children.Keys)
        invariant At(now, who) == Polling(cancelIssued) && (cancelIssued ==> AllTerminal(ids, children))
        invariant soon ==> turn <= 1 && AllPresent(ids, children) && (turn == 1 ==> cancelIssued)
        invariant soon && turn == 0 ==> AnyFailed(ids, children)
      {
        ghost var was := children;
        var t := Turn(unique, weather[turn], cancelIssued);
        PresentByKeys(ids, was, children);
        match t {
          case Again(issued) => cancelIssued := issued;
          case Returned => return true;
          case Broke => return false;
        }
      }
      Took(Interrupt(who));
      return false;
    }

    /** The loop that assembles the outcome (fanout.go:570-600). GetResult waits until a
        child is terminal, which here they are; a child that retention has removed is an
        error of the loop's own. */
    method AssembleOutcome() returns (r: Option<Ruling>)
      requires forall id | id in ids && id in children :: Terminal(children[id])
      ensures r.None? <==> !AllPresent(ids, children)
      ensures r.Some? ==> AllTerminal(ids, children) && Rules(ids, children, r.value)
    {
      var results: seq<Value>, firstFailure, firstCancellation := [], None, None;
      for k := 0 to |ids|
        invariant AllTerminal(ids[..k], children)
        invariant Gathers(ids[..k], children, Gathered(results, firstFailure, firstCancellation))
      {
        var id := ids[k];
        if id !in children {
          return None;
        }
        ghost var g := Gathered(results, firstFailure, firstCancellation);
        match children[id] {
          case Success(v) => results := results + [v];
          case Cancelled =>
            if firstCancellation.None? {
              firstCancellation := Some(id);
            }
          case _ =>
            if firstFailure.None? {
              firstFailure := Some(id);
            }
        }
        SeeGathers(ids, children, k, g);
      }
      assert ids[..|ids|] == ids;
      if firstFailure.Some? {
        return Some(Failure(firstFailure.value));
      }
      if firstCancellation.Some? {
        return Some(Cancellation(firstCancellation.value));
      }
      return Some(Results(results));
    }
  }

  lemma TerminalIsPresent(ids: seq<string>, ch: Children)
    ensures AllTerminal(ids, ch) ==> AllPresent(ids, ch)
  {
  }

  lemma PresentByKeys(ids: seq<string>, ch: Children, dh: Children)
    requires ch.Keys == dh.Keys
    ensures AllPresent(ids, ch) <==> AllPresent(ids, dh)
  {
    assert forall id :: id in ch <==> id in dh;
  }

  /** Watching each child once is watching them all. */
  lemma UniqueListsTheSame(ids: seq<string>, ch: Children)
    ensures AllPresent(Unique(ids), ch) <==> AllPresent(ids, ch)
    ensures AllTerminal(Unique(ids), ch) <==> AllTerminal(ids, ch)
    ensures AnyFailed(Unique(ids), ch) <==> AnyFailed(ids, ch)
  {
    UniqueKeepsFirsts(ids);
    assert forall i | 0 <= i < |ids| :: ids[i] in Unique(ids);
    assert forall i | 0 <= i < |Unique(ids)| :: Unique(ids)[i] in ids;
  }

  lemma SeeGathers(ids: seq<string>, ch: Children, k: nat, g: Gathered)
    requires k < |ids| && AllTerminal(ids[..k], ch) && Gathers(ids[..k], ch, g) && ids[k] in ch && Terminal(ch[ids[k]])
    ensures AllTerminal(ids[..k + 1], ch) && Gathers(ids[..k + 1], ch, See(g, ids[k], ch[ids[k]]))
  {
    var part := ids[..k + 1];
    assert part[..k] == ids[..k];
    SeeKeepsRuling(part, ch, k, g);
    assert part[..k + 1] == part;
  }
}
