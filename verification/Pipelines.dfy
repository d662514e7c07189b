/** Pipelines as trees of stages (flow.go, duro.go, parallel.go, fanout.go). */
module Pipelines {
  import opened Values

  /** The three leaf stages that differ only in what they make of the step's
      result. Tap is Step with a function that returns its input
      (duro.go:381-390), so it is not a kind of its own here. */
  datatype LeafKind = Step | Filter | Expand

  datatype Stage =
    | Leaf(kind: LeafKind, name: string)
    | Pure(name: string, f: Value -> Value)
    | Reduce(name: string, seed: Value)          // and Collect, a Reduce over append
    | Switch(name: string, cases: Cases)         // and Branch, a Switch over "then" and "else"
    | Loop(name: string, body: Pipeline, bound: nat)  // bound 0: no WithMaxIterations
    | Rescue(name: string, inner: Pipeline)
    | Sub(name: string, inner: Pipeline)
    | Via(name: string, inner: Pipeline)
    | Alongside(name: string, inner: Pipeline)
    | Parallel(name: string, cancelSiblings: bool)
    | FanOut(name: string, child: string, cancelSiblings: bool)

  datatype Pipeline = Empty | Then(head: Stage, tail: Pipeline)

  datatype Cases = NoCase | Case(key: string, arm: Pipeline, rest: Cases)

  const BRANCH_THEN := "then"
  const BRANCH_ELSE := "else"

  /** Branch renders as a two-case Switch (flow.go:56-71). */
  function Branch(name: string, thn: Pipeline, els: Pipeline): Stage {
    Switch(name, Case(BRANCH_THEN, thn, Case(BRANCH_ELSE, els, NoCase)))
  }

  function Find(cases: Cases, key: string): Option<Pipeline> {
    match cases
    case NoCase => None
    case Case(k, arm, rest) => if k == key then Some(arm) else Find(rest, key)
  }

  /** Sizes, for termination: an embedded pipeline is smaller than the stage
      that embeds it, with room for the observer that closes it off. */
  function StageSize(s: Stage): nat
    decreases s
  {
    match s
    case Switch(_, cases) => 2 + CasesSize(cases)
    case Loop(_, body, _) => 2 + Size(body)
    case Rescue(_, p) => 2 + Size(p)
    case Sub(_, p) => 2 + Size(p)
    case Via(_, p) => 2 + Size(p)
    case Alongside(_, p) => 2 + Size(p)
    case _ => 2
  }

  function Size(p: Pipeline): nat
    decreases p
  {
    match p
    case Empty => 0
    case Then(s, rest) => StageSize(s) + Size(rest)
  }

  function CasesSize(cases: Cases): nat
    decreases cases
  {
    match cases
    case NoCase => 0
    case Case(_, arm, rest) => Size(arm) + CasesSize(rest)
  }

  lemma {:induction false} FindIsSmaller(cases: Cases, key: string)
    ensures Find(cases, key).Some? ==> Size(Find(cases, key).value) <= CasesSize(cases)
  {
    match cases
    case NoCase =>
    case Case(k, arm, rest) => FindIsSmaller(rest, key);
  }
}
