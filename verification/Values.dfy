/** Values, errors and step outcomes, as the replay engine sees them. */
module Values {

  datatype Option<+T> = None | Some(value: T)

  /** A stage item. duro's stages are generic; the engine only ever looks at
      verdicts (Bool), route keys (Key) and lists (Items). */
  datatype Value =
    | Unit
    | Bool(b: bool)
    | Num(n: int)
    | Key(k: string)
    | Items(vs: seq<Value>)

  /** What errors.Is can see of a live error. DBOS records only the message, so
      an error read back from a checkpoint is Plain. */
  datatype Identity =
    | Plain
    | Live(tag: nat)
    | Aborted        // duro.ErrAborted
    | MaxIterations  // duro.ErrMaxIterations

  datatype Error = Error(msg: string, id: Identity)

  datatype Outcome = Ok(value: Value) | Fail(err: Error)

  /** fmt.Errorf(prefix + "%w", err): a new message around the same identity. */
  function Wrap(prefix: string, e: Error): Error {
    Error(prefix + e.msg, e.id)
  }

  const ERR_ABORTED := Error("duro: pipeline aborted by an earlier stage failure", Aborted)

  /** DBOS stores err.Error() and nothing else. */
  function Recorded(o: Outcome): Outcome {
    match o
    case Ok(_) => o
    case Fail(e) => Fail(Error(e.msg, Plain))
  }

  /** The typed reads of a step's result. Go's type checker rules the other
      shapes out; the model reads them as the type's zero value. */
  function AsBool(v: Value): bool { v == Bool(true) }
  function AsKey(v: Value): string { if v.Key? then v.k else "" }
  function AsItems(v: Value): seq<Value> { if v.Items? then v.vs else [] }

  predicate OccursAt(s: string, sub: string, i: nat) {
    i + |sub| <= |s| && s[i..i + |sub|] == sub
  }

  predicate Contains(s: string, sub: string) {
    exists i: nat | i <= |s| :: OccursAt(s, sub, i)
  }

  function Quote(s: string): string { "\"" + s + "\"" }

  function Decimal(n: nat): string {
    if n < 10 then [('0' as int + n) as char] else Decimal(n / 10) + [('0' as int + n % 10) as char]
  }

  /** Deduplication in order of first appearance, from the end (fanout.go:607-617). */
  function Unique<T(==)>(ids: seq<T>): seq<T> {
    if ids == [] then []
    else
      var init := Unique(ids[..|ids| - 1]);
      var last := ids[|ids| - 1];
      if last in init then init else init + [last]
  }

  /** uniqueWorkflowIDs (fanout.go:607-617). */
  method UniqueIDs<T(==)>(ids: seq<T>) returns (unique: seq<T>)
    ensures unique == Unique(ids)
  {
    unique := [];
    var seen := {};
    for i := 0 to |ids|
      invariant unique == Unique(ids[..i])
      invariant forall v :: v in seen <==> v in unique
    {
      assert ids[..i + 1][..i] == ids[..i];
      if ids[i] !in seen {
        seen := seen + {ids[i]};
        unique := unique + [ids[i]];
      }
    }
    assert ids[..|ids|] == ids;
  }

  /** What deduplication promises: every child once, in the order of its first
      appearance. */
  lemma {:induction false} UniqueKeepsFirsts<T(!new)>(ids: seq<T>)
    ensures forall v :: v in Unique(ids) <==> v in ids
    ensures forall i, j | 0 <= i < j < |Unique(ids)| :: Unique(ids)[i] != Unique(ids)[j]
    ensures forall n | 0 <= n <= |ids| :: Unique(ids[..n]) <= Unique(ids)
    decreases |ids|
  {
    if ids != [] {
      var n := |ids| - 1;
      UniqueKeepsFirsts(ids[..n]);
      assert ids == ids[..n] + [ids[n]];
      forall m | 0 <= m <= |ids| ensures Unique(ids[..m]) <= Unique(ids) {
        if m <= n { assert ids[..n][..m] == ids[..m]; } else { assert ids[..m] == ids; }
      }
    }
  }
}
