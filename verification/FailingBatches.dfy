/**
What a batch stage lets through when part of its batch fails (parallel.go:134-161,
fanout.go:419-433), whatever stages stand behind it: the results ahead of the first
failure in input order, then the stage's error, and for FanOut no request for any
result after it.
 */
module FailingBatches {
  import opened Values
  import opened Pipelines
  import opened ParallelChoice
  import opened Engine

  lemma {:induction false} DrainsAnswered(a: Answers, w: World, slots: seq<nat>)
    requires w.status.Alive? && forall s | s in slots :: s in a
    ensures Drain(a, w, slots).status.Alive? && Drain(a, w, slots).aborted == w.aborted
    decreases |slots|
  {
    if slots != [] { DrainsAnswered(a, Await(a, w, slots[0]), slots[1..]); }
  }

  /** Where the first failure is, and which error the stage reports, said without scanning:
      `k` is the first failure of any kind, `g` the one reported. */
  ghost predicate Chooses(outs: seq<Outcome>, cancelSiblings: bool, k: nat, g: nat) {
    && k < |outs| && outs[k].Fail? && (forall i | 0 <= i < k :: outs[i].Ok?)
    && g < |outs| && outs[g].Fail?
    && (if cancelSiblings && exists i | 0 <= i < |outs| :: outs[i].Fail? && !IsSiblingCancellation(outs[i])
        then !IsSiblingCancellation(outs[g]) && forall i | 0 <= i < g :: outs[i].Ok? || IsSiblingCancellation(outs[i])
        else g == k)
  }

  /** Parallel's completion, its batch launched on `st.slots` and all outcomes in. It hands
      on the results ahead of the first failure of any kind, in input order; if the stages
      behind survive them, it then completes, or fails with the chosen error and the flag up. */
  lemma {:induction false} ParallelDelivers(
      a: Answers, name: string, cancelSiblings: bool, st: OpState, next: Chain, w: World)
      returns (got: seq<Value>, g: nat)
    requires w.status.Alive? && forall s | s in st.slots :: s in a
    ensures |got| <= |st.slots| && forall i | 0 <= i < |got| :: a[st.slots[i]] == Ok(got[i])
    ensures
      var outs := Outcomes(a, st.slots);
      var r := DoneParallel(a, Op(Parallel(name, cancelSiblings), Completed, st, next), w);
      var mid := PushAll(a, next, got, Drain(a, w, st.slots));
      && r.c.Op?
      && (|got| < |outs| ==> Chooses(outs, cancelSiblings, |got|, g))
      && (!mid.w.status.Alive? ==> r.c.next == mid.c && r.w == mid.w)
      && (mid.w.status.Alive? && |got| == |outs| ==> Fwd(r.c, PushDone(a, mid.c, mid.w)) == r)
      && (mid.w.status.Alive? && |got| < |outs| ==>
            && Fwd(r.c, PushError(a, mid.c, Wrap(StageSays(name), outs[g].err), mid.w.(aborted := true))) == r
            && r.w.aborted && r.w.trace == mid.w.trace)
  {
    var outs := Outcomes(a, st.slots);
    DrainsAnswered(a, w, st.slots);
    FirstFailureMeaning(outs);
    FirstGenuineMeaning(outs);
    got := Results(outs);
    assert forall i | 0 <= i < |got| :: outs[i] == Ok(got[i]) && st.slots[i] in st.slots;
    var k := FirstFailure(outs);
    g := if cancelSiblings && FirstGenuine(outs) < |outs| then FirstGenuine(outs) else k;
    hide Drain, PushAll, PushError, PushDone, IsSiblingCancellation, StageSays, Outcomes, Results;
    if k < |outs| {
      assert ParallelError(outs, cancelSiblings) == Some(outs[g].err);
      assert Chooses(outs, cancelSiblings, k, g);
    } else {
      assert ParallelError(outs, cancelSiblings).None?;
    }
  }

  /** The children of `hs` answer with `got`, one after the other, and the stages behind
      take each result before the next is asked for: from (next, w) to (later, v). */
  ghost predicate Feeds(
      a: Answers, hs: seq<Value>, got: seq<Value>, next: Chain, w: World, later: Chain, v: World)
    decreases |hs|
  {
    if hs == [] then got == [] && later == next && v == w
    else
      got != []
      && var g := RunStep(a, w, Request(GET_RESULT_NAME, hs[0], NoExtra));
      && g.w.status.Alive? && g.out == Ok(got[0])
      && var r := PushNext(a, next, got[0], g.w);
      r.w.status.Alive? && Feeds(a, hs[1..], got[1..], r.c, r.w, later, v)
  }

  /** FanOut's completion without sibling cancellation, from child i on, once the children
      up to n have answered: it completes if they were all; it fails with ERR_ABORTED, and
      asks for nothing more, if a stage behind has failed; and it fails with the next
      child's error if that child has, and asks for nothing more. */
  lemma {:induction false} FanOutDelivers(
      a: Answers, name: string, child: string, st: OpState, i: nat, n: nat, got: seq<Value>,
      next: Chain, w: World, later: Chain, v: World)
    requires w.status.Alive? && i <= n <= |st.handles| && Feeds(a, st.handles[i..n], got, next, w, later, v)
    ensures
      var r := DoneFanOut(a, Op(FanOut(name, child, false), Completed, st, next), i, w);
      && r.c.Op? && v.status.Alive?
      && (n == |st.handles| ==> Fwd(r.c, PushDone(a, later, v)) == r)
      && (n < |st.handles| && v.aborted ==>
            Fwd(r.c, PushError(a, later, ERR_ABORTED, v)) == r && r.w.trace == v.trace)
      && (n < |st.handles| && !v.aborted && v.fuel > 0 && |v.trace| in a && a[|v.trace|].Fail? ==>
            var g := RunStep(a, v, Request(GET_RESULT_NAME, st.handles[n], NoExtra));
            && Fwd(r.c, PushError(a, later, Wrap(ChildSays(name, st.handles[n]), a[|v.trace|].err), g.w)) == r
            && r.w.aborted && r.w.trace == v.trace + [Request(GET_RESULT_NAME, st.handles[n], NoExtra)])
    decreases n - i
  {
    hide ChildSays, PushNext, PushError, PushDone;
    var c := Op(FanOut(name, child, false), Completed, st, next);
    if i < n {
      assert st.handles[i..n][0] == st.handles[i] && st.handles[i..n][1..] == st.handles[i + 1..n];
      var g := RunStep(a, w, Request(GET_RESULT_NAME, st.handles[i], NoExtra));
      var r := PushNext(a, next, got[0], g.w);
      FanOutDelivers(a, name, child, st, i + 1, n, got[1..], r.c, r.w, later, v);
      assert g.out.Ok? ==> !w.aborted;
      SameSize(next, r.c);
      assert DoneFanOut(a, c, i, w) == DoneFanOut(a, c.(next := r.c), i + 1, r.w);
    }
  }
}
