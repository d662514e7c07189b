/**
Which error a Parallel stage fails with, and where its emission stops (parallel.go:174-234).
 */
module ParallelChoice {
  import opened Values

  const SIBLING_MARK := "duro: cancelled by a sibling step failure"

  predicate IsSiblingCancellation(o: Outcome) {
    o.Fail? && Contains(o.err.msg, SIBLING_MARK)
  }

  function FirstFailure(outs: seq<Outcome>): nat {
    if outs == [] || outs[0].Fail? then 0 else 1 + FirstFailure(outs[1..])
  }

  /** The first failure that no sibling cancellation manufactured. */
  function FirstGenuine(outs: seq<Outcome>): nat {
    if outs == [] || (outs[0].Fail? && !IsSiblingCancellation(outs[0])) then 0 else 1 + FirstGenuine(outs[1..])
  }

  lemma {:induction false} FirstFailureMeaning(outs: seq<Outcome>)
    ensures FirstFailure(outs) <= |outs|
    ensures forall i | 0 <= i < FirstFailure(outs) :: outs[i].Ok?
    ensures FirstFailure(outs) < |outs| ==> outs[FirstFailure(outs)].Fail?
  {
    if outs != [] { FirstFailureMeaning(outs[1..]); }
  }

  lemma {:induction false} FirstGenuineMeaning(outs: seq<Outcome>)
    ensures FirstGenuine(outs) <= |outs|
    ensures forall i | 0 <= i < FirstGenuine(outs) :: outs[i].Ok? || IsSiblingCancellation(outs[i])
    ensures FirstGenuine(outs) < |outs| ==> outs[FirstGenuine(outs)].Fail? && !IsSiblingCancellation(outs[FirstGenuine(outs)])
  {
    if outs != [] { FirstGenuineMeaning(outs[1..]); }
  }

  /** firstParallelError (parallel.go:217-234): the error, and where emission stops. */
  function ParallelError(outs: seq<Outcome>, cancelSiblings: bool): Option<Error> {
    FirstFailureMeaning(outs); FirstGenuineMeaning(outs);
    var stop := FirstFailure(outs);
    if stop == |outs| then None
    else
      var g := FirstGenuine(outs);
      if cancelSiblings && g < |outs| then Some(outs[g].err) else Some(outs[stop].err)
  }

  function Results(outs: seq<Outcome>): (vs: seq<Value>)
    ensures |vs| == FirstFailure(outs)
  {
    FirstFailureMeaning(outs);
    seq(FirstFailure(outs), i requires 0 <= i < FirstFailure(outs) => outs[i].value)
  }

  lemma {:induction false} FirstFailureIs(outs: seq<Outcome>, i: nat)
    requires i <= |outs| && (forall j | 0 <= j < i :: outs[j].Ok?) && (i < |outs| ==> outs[i].Fail?)
    ensures FirstFailure(outs) == i
  {
    FirstFailureMeaning(outs);
  }

  lemma {:induction false} FirstGenuineIs(outs: seq<Outcome>, i: nat)
    requires i <= |outs| && (forall j | 0 <= j < i :: outs[j].Ok? || IsSiblingCancellation(outs[j]))
    requires i < |outs| ==> outs[i].Fail? && !IsSiblingCancellation(outs[i])
    ensures FirstGenuine(outs) == i
  {
    FirstGenuineMeaning(outs);
  }

  /** firstParallelError (parallel.go:217-234): one scan, both answers. */
  method FirstParallelError(outs: seq<Outcome>, cancelSiblings: bool) returns (err: Option<Error>, errIndex: int)
    ensures err == ParallelError(outs, cancelSiblings)
    ensures errIndex == if err.None? then -1 else FirstFailure(outs)
  {
    FirstFailureMeaning(outs); FirstGenuineMeaning(outs);
    errIndex := -1;
    for i := 0 to |outs|
      invariant errIndex == -1 ==> forall j | 0 <= j < i :: outs[j].Ok?
      invariant errIndex != -1 ==> 0 <= errIndex < i && outs[errIndex].Fail? && forall j | 0 <= j < errIndex :: outs[j].Ok?
      invariant errIndex != -1 ==> cancelSiblings && forall j | 0 <= j < i :: outs[j].Ok? || IsSiblingCancellation(outs[j])
    {
      if outs[i].Fail? {
        if errIndex < 0 {
          errIndex := i;
          FirstFailureIs(outs, i);
        }
        if !cancelSiblings || !IsSiblingCancellation(outs[i]) {
          FirstFailureIs(outs, errIndex);
          if cancelSiblings { FirstGenuineIs(outs, i); }
          return Some(outs[i].err), errIndex;
        }
      }
    }
    if errIndex >= 0 {
      FirstFailureIs(outs, errIndex);
      FirstGenuineIs(outs, |outs|);
      return Some(outs[errIndex].err), errIndex;
    }
    FirstFailureIs(outs, |outs|);
    return None, -1;
  }
}
