/**
The fingerprint of a pipeline's shape (pipe.go:36-78), which a run records as its first
step and compares on every replay. Rendering is one-to-one, through any nesting, on
shapes whose names and case keys stay clear of the separators.
 */
module Shape {
  import opened Values

  datatype StageInfo = StageInfo(kind: string, name: string, nested: seq<NestedShape>)

  datatype NestedShape = NestedShape(key: string, shape: seq<StageInfo>)

  const ARROW := '\U{2192}'
  const KIND_NAME_SEP := ":"
  const STAGE_SEP := [' ', ARROW, ' ']
  const NESTED_OPEN := "["
  const NESTED_CLOSE := "]"
  const NESTED_SEP := " | "
  const CASE_KEY_SEP := "="

  function Fingerprint(shape: seq<StageInfo>): string
    decreases shape
  {
    if shape == [] then ""
    else StageText(shape[0]) + if |shape| == 1 then "" else STAGE_SEP + Fingerprint(shape[1..])
  }

  function StageText(s: StageInfo): string
    decreases s
  {
    s.kind + KIND_NAME_SEP + s.name + if s.nested == [] then "" else NESTED_OPEN + Inners(s.nested) + NESTED_CLOSE
  }

  function Inners(nested: seq<NestedShape>): string
    requires nested != []
    decreases nested
  {
    InnerText(nested[0]) + if |nested| == 1 then "" else NESTED_SEP + Inners(nested[1..])
  }

  function InnerText(n: NestedShape): string
    decreases n
  {
    (if n.key == "" then "" else n.key + CASE_KEY_SEP) + Fingerprint(n.shape)
  }

  // ---- fingerprintOf, with its loops ----

  function Join(parts: seq<string>, sep: string): string {
    if parts == [] then "" else parts[0] + if |parts| == 1 then "" else sep + Join(parts[1..], sep)
  }

  lemma {:induction false} JoinSnoc(parts: seq<string>, last: string, sep: string)
    ensures Join(parts + [last], sep) == Join(parts, sep) + (if parts == [] then "" else sep) + last
  {
    if parts != [] {
      assert (parts + [last])[1..] == parts[1..] + [last];
      JoinSnoc(parts[1..], last, sep);
    }
  }

  /** strings.Join */
  method JoinStrings(parts: seq<string>, sep: string) returns (text: string)
    ensures text == Join(parts, sep)
  {
    text := "";
    for i := 0 to |parts|
      invariant text == Join(parts[..i], sep)
    {
      assert parts[..i + 1] == parts[..i] + [parts[i]];
      JoinSnoc(parts[..i], parts[i], sep);
      text := if i == 0 then parts[i] else text + sep + parts[i];
    }
    assert parts[..|parts|] == parts;
  }

  lemma {:induction false} JoinedStages(shape: seq<StageInfo>, parts: seq<string>)
    requires |parts| == |shape| && forall i | 0 <= i < |shape| :: parts[i] == StageText(shape[i])
    ensures Join(parts, STAGE_SEP) == Fingerprint(shape)
    decreases |shape|
  {
    if shape != [] { JoinedStages(shape[1..], parts[1..]); }
  }

  lemma {:induction false} JoinedInners(nested: seq<NestedShape>, parts: seq<string>)
    requires nested != [] && |parts| == |nested| && forall i | 0 <= i < |nested| :: parts[i] == InnerText(nested[i])
    ensures Join(parts, NESTED_SEP) == Inners(nested)
    decreases |nested|
  {
    if |nested| > 1 { JoinedInners(nested[1..], parts[1..]); }
  }

  /** fingerprintOf (pipe.go:61-78). */
  method FingerprintOf(shape: seq<StageInfo>) returns (text: string)
    ensures text == Fingerprint(shape)
    decreases shape
  {
    var parts: seq<string> := [];
    for i := 0 to |shape|
      invariant |parts| == i && forall k | 0 <= k < i :: parts[k] == StageText(shape[k])
    {
      var s := shape[i];
      var part := s.kind + KIND_NAME_SEP + s.name;
      if |s.nested| != 0 {
        var inner: seq<string> := [];
        for j := 0 to |s.nested|
          invariant |inner| == j && forall k | 0 <= k < j :: inner[k] == InnerText(s.nested[k])
        {
          var n := s.nested[j];
          var t := FingerprintOf(n.shape);
          if n.key != "" {
            t := n.key + CASE_KEY_SEP + t;
          }
          inner := inner + [t];
        }
        JoinedInners(s.nested, inner);
        var joined := JoinStrings(inner, NESTED_SEP);
        part := part + (NESTED_OPEN + joined + NESTED_CLOSE);
      }
      parts := parts + [part];
    }
    JoinedStages(shape, parts);
    text := JoinStrings(parts, STAGE_SEP);
  }

  // ---- Reading it back is unambiguous ----

  predicate Special(c: char) { c == ARROW || c == '[' || c == ']' || c == '|' }
  predicate Colonish(c: char) { c == ':' || c == '=' }

  /** A stage's name may hold anything but the arrow, the brackets and the bar. */
  predicate NameOk(name: string) { forall i | 0 <= i < |name| :: !Special(name[i]) }

  /** A kind or a case key may not hold a colon or an equals sign either. */
  predicate WordOk(word: string) { forall i | 0 <= i < |word| :: !Special(word[i]) && !Colonish(word[i]) }

  predicate StageOk(s: StageInfo)
    decreases s
  {
    WordOk(s.kind) && NameOk(s.name) && forall n | n in s.nested :: WordOk(n.key) && ShapeOk(n.shape)
  }

  /** Every pipeline has a stage: there is no Pipe0. */
  predicate ShapeOk(shape: seq<StageInfo>)
    decreases shape
  {
    shape != [] && forall s | s in shape :: StageOk(s)
  }

  predicate StartsWith(s: string, c: char, d: char) { |s| >= 2 && s[0] == c && s[1] == d }

  /** What may follow a shape: nothing, the end of the brackets it is in, or the next arm. */
  predicate AfterShape(x: string) { x == "" || x[0] == ']' || StartsWith(x, ' ', '|') }

  /** What may follow a stage. */
  predicate AfterStage(x: string) { AfterShape(x) || StartsWith(x, ' ', ARROW) }

  /** What may follow a name. */
  predicate AfterName(x: string) { AfterStage(x) || (x != "" && x[0] == '[') }

  lemma Aligned(a: string, x: string, b: string, y: string)
    requires a + x == b + y && |a| == |b|
    ensures a == b && x == y
  {
    assert a == (a + x)[..|a|] && b == (b + y)[..|b|];
    assert x == (a + x)[|a|..] && y == (b + y)[|b|..];
  }

  function Nth(a: string, x: string, i: nat): char
    requires i < |a| + |x|
  {
    if i < |a| then a[i] else x[i - |a|]
  }

  lemma SameNth(a: string, x: string, b: string, y: string, i: nat)
    requires a + x == b + y && i < |a| + |x|
    ensures i < |b| + |y| && Nth(a, x, i) == Nth(b, y, i)
  {
    assert |a + x| == |b + y|;
    assert (a + x)[i] == Nth(a, x, i) && (b + y)[i] == Nth(b, y, i);
  }

  lemma NotShorter(a: string, x: string, b: string, y: string)
    requires a + x == b + y && NameOk(b) && AfterName(x) && AfterName(y)
    ensures |a| >= |b|
  {
    if |a| < |b| {
      assert |a + x| == |b + y|;
      SameNth(a, x, b, y, |a|);
      SameNth(a, x, b, y, |a| + 1);
      assert false;
    }
  }

  lemma NamesSplit(a: string, x: string, b: string, y: string)
    requires a + x == b + y && NameOk(a) && NameOk(b) && AfterName(x) && AfterName(y)
    ensures a == b && x == y
  {
    NotShorter(a, x, b, y);
    NotShorter(b, y, a, x);
    Aligned(a, x, b, y);
  }

  lemma WordNotShorter(a: string, c: char, x: string, b: string, d: char, y: string)
    requires a + ([c] + x) == b + ([d] + y) && WordOk(b) && Colonish(c)
    ensures |a| >= |b|
  {
    if |a| < |b| {
      SameNth(a, [c] + x, b, [d] + y, |a|);
      assert false;
    }
  }

  /** Up to its first colon or equals sign a text reads one way. */
  lemma WordsSplit(a: string, c: char, x: string, b: string, d: char, y: string)
    requires a + ([c] + x) == b + ([d] + y) && WordOk(a) && WordOk(b) && Colonish(c) && Colonish(d)
    ensures a == b && c == d && x == y
  {
    WordNotShorter(a, c, x, b, d, y);
    WordNotShorter(b, d, y, a, c, x);
    Aligned(a, [c] + x, b, [d] + y);
    Aligned([c], x, [d], y);
  }

  lemma {:induction false} StagesAgree(s: StageInfo, x: string, t: StageInfo, y: string)
    requires StageOk(s) && StageOk(t) && AfterStage(x) && AfterStage(y)
    requires StageText(s) + x == StageText(t) + y
    ensures s == t && x == y
    decreases s
  {
    var u := if s.nested == [] then x else ['['] + (Inners(s.nested) + ([']'] + x));
    var v := if t.nested == [] then y else ['['] + (Inners(t.nested) + ([']'] + y));
    assert s.kind + ([':'] + (s.name + u)) == StageText(s) + x;
    assert t.kind + ([':'] + (t.name + v)) == StageText(t) + y;
    WordsSplit(s.kind, ':', s.name + u, t.kind, ':', t.name + v);
    assert s.nested != [] ==> u[0] == '[';
    assert t.nested != [] ==> v[0] == '[';
    NamesSplit(s.name, u, t.name, v);
    assert s.nested == [] <==> t.nested == [];
    if s.nested != [] {
      Aligned(['['], Inners(s.nested) + ([']'] + x), ['['], Inners(t.nested) + ([']'] + y));
      InnersAgree(s.nested, [']'] + x, t.nested, [']'] + y);
      Aligned([']'], x, [']'], y);
    }
  }

  predicate InnersOk(nested: seq<NestedShape>) {
    nested != [] && forall n | n in nested :: WordOk(n.key) && ShapeOk(n.shape)
  }

  /** What follows the first arm, when x follows the last. */
  function RestOfArms(m: seq<NestedShape>, x: string): string
    requires m != []
  {
    if |m| == 1 then x else NESTED_SEP + (Inners(m[1..]) + x)
  }

  lemma FirstArm(m: seq<NestedShape>, x: string)
    requires m != [] && x != "" && x[0] == ']'
    ensures Inners(m) + x == InnerText(m[0]) + RestOfArms(m, x)
    ensures AfterShape(RestOfArms(m, x))
    ensures |m| == 1 <==> RestOfArms(m, x)[0] == ']'
  {
    hide InnerText;
  }

  lemma {:induction false} InnersAgree(m: seq<NestedShape>, x: string, n: seq<NestedShape>, y: string)
    requires InnersOk(m) && InnersOk(n) && x != "" && x[0] == ']' && y != "" && y[0] == ']'
    requires Inners(m) + x == Inners(n) + y
    ensures m == n && x == y
    decreases m
  {
    FirstArm(m, x);
    FirstArm(n, y);
    hide InnerText, Inners, AfterShape;
    InnerAgrees(m[0], RestOfArms(m, x), n[0], RestOfArms(n, y));
    assert m == [m[0]] + m[1..] && n == [n[0]] + n[1..];
    if |m| > 1 {
      Aligned(NESTED_SEP, Inners(m[1..]) + x, NESTED_SEP, Inners(n[1..]) + y);
      InnersAgree(m[1..], x, n[1..], y);
    } else {
      assert m[1..] == [] && n[1..] == [];
    }
  }

  lemma ShapeParts(s: seq<StageInfo>)
    requires ShapeOk(s)
    ensures StageOk(s[0]) && WordOk(s[0].kind) && (|s| > 1 ==> ShapeOk(s[1..]))
  {
    assert s[0] in s;
  }

  /** A shape's text up to the colon after its first kind. */
  lemma FirstColon(shape: seq<StageInfo>) returns (rest: string)
    requires ShapeOk(shape)
    ensures Fingerprint(shape) == shape[0].kind + ([':'] + rest)
  {
    var s := shape[0];
    rest := s.name + (if s.nested == [] then "" else NESTED_OPEN + Inners(s.nested) + NESTED_CLOSE)
            + if |shape| == 1 then "" else STAGE_SEP + Fingerprint(shape[1..]);
  }

  lemma {:induction false} InnerAgrees(m: NestedShape, x: string, n: NestedShape, y: string)
    requires WordOk(m.key) && ShapeOk(m.shape) && WordOk(n.key) && ShapeOk(n.shape)
    requires AfterShape(x) && AfterShape(y) && InnerText(m) + x == InnerText(n) + y
    ensures m == n && x == y
    decreases m
  {
    ShapeParts(m.shape);
    ShapeParts(n.shape);
    var p := FirstColon(m.shape);
    var q := FirstColon(n.shape);
    hide ShapeOk, WordOk, AfterShape, Fingerprint;
    var f, g := Fingerprint(m.shape), Fingerprint(n.shape);
    assert f + x == m.shape[0].kind + ([':'] + (p + x));
    assert g + y == n.shape[0].kind + ([':'] + (q + y));
    assert m.key == "" ==> InnerText(m) + x == f + x;
    assert n.key == "" ==> InnerText(n) + y == g + y;
    assert m.key != "" ==> InnerText(m) + x == m.key + (['='] + (f + x));
    assert n.key != "" ==> InnerText(n) + y == n.key + (['='] + (g + y));
    WordsSplit(
      if m.key == "" then m.shape[0].kind else m.key, if m.key == "" then ':' else '=', if m.key == "" then p + x else f + x,
      if n.key == "" then n.shape[0].kind else n.key, if n.key == "" then ':' else '=', if n.key == "" then q + y else g + y);
    ShapesAgree(m.shape, x, n.shape, y);
  }

  /** What follows a shape's first stage, when x follows the shape. */
  function Rest(s: seq<StageInfo>, x: string): string
    requires s != []
  {
    if |s| == 1 then x else STAGE_SEP + (Fingerprint(s[1..]) + x)
  }

  lemma FirstStage(s: seq<StageInfo>, x: string)
    requires s != [] && AfterShape(x)
    ensures Fingerprint(s) + x == StageText(s[0]) + Rest(s, x)
    ensures AfterStage(Rest(s, x)) && (|s| == 1 <==> AfterShape(Rest(s, x)))
  {
    hide StageText;
    assert |s| > 1 ==> StartsWith(Rest(s, x), ' ', ARROW);
  }

  lemma {:induction false} ShapesAgree(s: seq<StageInfo>, x: string, t: seq<StageInfo>, y: string)
    requires ShapeOk(s) && ShapeOk(t) && AfterShape(x) && AfterShape(y)
    requires Fingerprint(s) + x == Fingerprint(t) + y
    ensures s == t && x == y
    decreases s
  {
    ShapeParts(s);
    ShapeParts(t);
    FirstStage(s, x);
    FirstStage(t, y);
    hide ShapeOk, StageOk, StageText, Fingerprint, AfterShape, AfterStage;
    StagesAgree(s[0], Rest(s, x), t[0], Rest(t, y));
    assert s == [s[0]] + s[1..] && t == [t[0]] + t[1..];
    if |s| > 1 {
      Aligned(STAGE_SEP, Fingerprint(s[1..]) + x, STAGE_SEP, Fingerprint(t[1..]) + y);
      ShapesAgree(s[1..], x, t[1..], y);
    } else {
      assert s[1..] == [] && t[1..] == [];
    }
  }

  /** Two shapes with one fingerprint are one shape: the same kinds, names, arms and keys
      at every depth. */
  lemma {:induction false} FingerprintInjective(s: seq<StageInfo>, t: seq<StageInfo>)
    requires ShapeOk(s) && ShapeOk(t)
    ensures Fingerprint(s) == Fingerprint(t) <==> s == t
  {
    if Fingerprint(s) == Fingerprint(t) {
      ShapesAgree(s, "", t, "");
    }
  }

  /** Without that condition it is not so: an arrow in a name reads as a second stage. */
  lemma {:induction false} ArrowInNameIsAmbiguous(a: string, b: string)
    ensures
      var one := [StageInfo("step", a + STAGE_SEP + "step:" + b, [])];
      var two := [StageInfo("step", a, []), StageInfo("step", b, [])];
      one != two && Fingerprint(one) == Fingerprint(two)
  {
    var name := a + STAGE_SEP + "step:" + b;
    var two := [StageInfo("step", a, []), StageInfo("step", b, [])];
    assert two[1..] == [StageInfo("step", b, [])];
    assert StageText(StageInfo("step", name, [])) == "step:" + name;
    assert StageText(two[0]) == "step:" + a && StageText(two[1]) == "step:" + b;
    assert ("step:" + a) + (STAGE_SEP + ("step:" + b)) == "step:" + name;
  }
}
