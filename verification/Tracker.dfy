/**
The execution tracker of one executor (executions.go:104-329) as a small-step system:
begin, end, cancelObserved and retryEnds are split wherever they hold no lock, so any of
them may be overtaken there, and every write may fail, with or without having committed.
Executions of the same run follow one another only in this: a new one does not begin
before the body of the last has returned.
 */
module Tracker {
  import opened Values
  import opened Tables

  /** Where the goroutine of one execution is. */
  datatype Step =
    | Recording    // begin: in recordStart's retry loop
    | GaveUp       // begin: the context ended first
    | Recorded     // begin: the row is written, `running` does not have it yet
    | Executing    // the body runs
    | Returned     // end: `running` no longer has it, the close is still to be written
    | CloseFailed  // end: the close has failed, it is still to be queued
    | Over

  datatype Execution = Execution(run: string, step: Step)

  /** cancelObserved and retryEnds, between their locks. */
  datatype Poll = Idle | Snapped(tokens: map<string, nat>) | Told(tokens: map<string, nat>, cancelled: set<string>)
  datatype Retry = Resting | Holding(closes: map<string, nat>) | Closed(closes: map<string, nat>)

  /** executions by token; `cancelledRuns` is the database's; `interrupted` are the tokens
      whose contexts carry errRunCancelled. `seen` is history: the executions that were
      in `running` at a moment at which their run was CANCELLED. */
  datatype State = State(
    rows: Rows, cancelledRuns: set<string>,
    running: map<string, nat>, unended: map<string, nat>, executions: map<nat, Execution>,
    interrupted: set<nat>, poll: Poll, retry: Retry, seen: set<nat>)

  datatype Action =
    | Begin(token: nat, run: string)
    | TryStart(token: nat, commits: bool, ok: bool)
    | GiveUp(token: nat)
    | QueueClose(token: nat)
    | Register(token: nat)
    | Return(token: nat)
    | Close(token: nat, commits: bool, ok: bool)
    | Requeue(token: nat)
    | SnapRunning
    | AskCancelled
    | CancelContexts
    | PollFails
    | SnapUnended
    | WriteCloses(commits: bool, ok: bool)
    | ForgetCloses
    | CancelRun(run: string)
    | ReviveRun(run: string)

  predicate At(s: State, token: nat, step: Step) { token in s.executions && s.executions[token].step == step }

  /** The body has not returned. */
  predicate Live(step: Step) { step.Recording? || step.Recorded? || step.Executing? }

  predicate Enabled(s: State, a: Action) {
    match a
    case Begin(token, run) =>
      && token !in s.executions
      && (forall k | k in s.rows :: s.rows[k].token != token)
      && forall t | t in s.executions && s.executions[t].run == run :: !Live(s.executions[t].step)
    case TryStart(token, commits, ok) => At(s, token, Recording) && (ok ==> commits)
    case GiveUp(token) => At(s, token, Recording)
    case QueueClose(token) => At(s, token, GaveUp)
    case Register(token) => At(s, token, Recorded)
    case Return(token) => At(s, token, Executing)
    case Close(token, commits, ok) => At(s, token, Returned) && (ok ==> commits)
    case Requeue(token) => At(s, token, CloseFailed)
    case SnapRunning => s.poll.Idle?
    case AskCancelled => s.poll.Snapped?
    case CancelContexts => s.poll.Told?
    case PollFails => s.poll.Snapped?
    case SnapUnended => s.retry.Resting?
    case WriteCloses(commits, ok) => s.retry.Holding? && (ok ==> commits)
    case ForgetCloses => s.retry.Closed?
    case CancelRun(_) => true
    case ReviveRun(_) => true
  }

  /** delete(m, key) where m[key] is this token. */
  function Forget(m: map<string, nat>, run: string, token: nat): map<string, nat> {
    if run in m && m[run] == token then m - {run} else m
  }

  function ForgetAll(m: map<string, nat>, gone: map<string, nat>): map<string, nat> {
    map run | run in m && !(run in gone && gone[run] == m[run]) :: m[run]
  }

  /** endExecutionsSQL. */
  function EndExecutions(rows: Rows, me: string, closes: map<string, nat>): Rows {
    map k | k in rows ::
      if k.executor == me && k.run in closes && rows[k] == Row(closes[k.run], true) then Row(rows[k].token, false) else rows[k]
  }

  /** The tokens cancelObserved cancels: those it asked about, if they are still the ones running. */
  function Interrupts(running: map<string, nat>, tokens: map<string, nat>, cancelled: set<string>): set<nat> {
    set run | run in cancelled && run in tokens && run in running && running[run] == tokens[run] :: running[run]
  }

  // ---- What an action does, part by part ----

  predicate ByToken(a: Action) {
    a.TryStart? || a.GiveUp? || a.QueueClose? || a.Register? || a.Return? || a.Close? || a.Requeue?
  }

  /** Where the goroutine is after its action. */
  function After(a: Action): Step
    requires ByToken(a)
  {
    match a
    case TryStart(_, _, ok) => if ok then Recorded else Recording
    case GiveUp(_) => GaveUp
    case QueueClose(_) => Over
    case Register(_) => Executing
    case Return(_) => Returned
    case Close(_, _, ok) => if ok then Over else CloseFailed
    case Requeue(_) => Over
  }

  function RunOf(s: State, a: Action): string
    requires Enabled(s, a) && ByToken(a)
  {
    s.executions[a.token].run
  }

  function NextExecutions(s: State, a: Action): map<nat, Execution>
    requires Enabled(s, a)
  {
    if a.Begin? then s.executions[a.token := Execution(a.run, Recording)]
    else if ByToken(a) then s.executions[a.token := Execution(RunOf(s, a), After(a))]
    else s.executions
  }

  function NextRows(me: string, s: State, a: Action): Rows
    requires Enabled(s, a)
  {
    match a
    case TryStart(token, commits, _) => if commits then StartExecution(s.rows, me, RunOf(s, a), token) else s.rows
    case Close(token, commits, _) => if commits then EndExecution(s.rows, me, RunOf(s, a), token) else s.rows
    case WriteCloses(commits, _) => if commits then EndExecutions(s.rows, me, s.retry.closes) else s.rows
    case _ => s.rows
  }

  function NextRunning(s: State, a: Action): map<string, nat>
    requires Enabled(s, a)
  {
    match a
    case Register(token) => s.running[RunOf(s, a) := token]
    case Return(token) => Forget(s.running, RunOf(s, a), token)
    case _ => s.running
  }

  function NextUnended(s: State, a: Action): map<string, nat>
    requires Enabled(s, a)
  {
    match a
    case QueueClose(token) => s.unended[RunOf(s, a) := token]
    case Register(_) => s.unended - {RunOf(s, a)}
    case Requeue(token) => if RunOf(s, a) in s.running then s.unended else s.unended[RunOf(s, a) := token]
    case ForgetCloses => ForgetAll(s.unended, s.retry.closes)
    case _ => s.unended
  }

  function NextPoll(s: State, a: Action): Poll
    requires Enabled(s, a)
  {
    match a
    case SnapRunning => Snapped(s.running)
    case AskCancelled => Told(s.poll.tokens, set run | run in s.poll.tokens && run in s.cancelledRuns)
    case CancelContexts => Idle
    case PollFails => Idle
    case _ => s.poll
  }

  function NextRetry(s: State, a: Action): Retry
    requires Enabled(s, a)
  {
    match a
    case SnapUnended => Holding(s.unended)
    case WriteCloses(_, ok) => if ok then Closed(s.retry.closes) else Resting
    case ForgetCloses => Resting
    case _ => s.retry
  }

  function NextCancelled(s: State, a: Action): set<string> {
    if a.CancelRun? then s.cancelledRuns + {a.run}
    else if a.ReviveRun? then s.cancelledRuns - {a.run}
    else s.cancelledRuns
  }

  /** History notes who is running under a cancelled run. */
  function UnderCancelled(running: map<string, nat>, cancelledRuns: set<string>): set<nat> {
    set run | run in running && run in cancelledRuns :: running[run]
  }

  function Next(me: string, s: State, a: Action): State
    requires Enabled(s, a)
  {
    State(NextRows(me, s, a), NextCancelled(s, a), NextRunning(s, a), NextUnended(s, a), NextExecutions(s, a),
          if a.CancelContexts? then s.interrupted + Interrupts(s.running, s.poll.tokens, s.poll.cancelled) else s.interrupted,
          NextPoll(s, a), NextRetry(s, a),
          s.seen + UnderCancelled(NextRunning(s, a), NextCancelled(s, a)))
  }

  ghost predicate Runs(me: string, s: State, acts: seq<Action>, t: State)
    decreases |acts|
  {
    if acts == [] then s == t
    else Enabled(s, acts[0]) && Runs(me, Next(me, s, acts[0]), acts[1..], t)
  }

  /** A new process: rows of earlier ones may be there, all closed by its first beat. */
  ghost predicate Boots(me: string, s: State) {
    && s.running == map[] && s.unended == map[] && s.executions == map[] && s.interrupted == {} && s.seen == {}
    && s.poll.Idle? && s.retry.Resting?
    && forall k | k in s.rows && k.executor == me :: !s.rows[k].open
  }

  // ---- What every interleaving keeps ----

  /** A queued or retried close is of an execution that will never run again. */
  ghost predicate Spent(s: State, run: string, token: nat) {
    token in s.executions && s.executions[token].run == run && !Live(s.executions[token].step)
  }

  /** The row of an execution stays open under its token from its start to its return. */
  ghost predicate RowsOpen(me: string, s: State) {
    forall t | t in s.executions && (s.executions[t].step.Recorded? || s.executions[t].step.Executing?) ::
      var key := RowKey(me, s.executions[t].run);
      key in s.rows && s.rows[key] == Row(t, true)
  }

  ghost predicate OneLive(s: State) {
    forall t, u | t in s.executions && u in s.executions && s.executions[t].run == s.executions[u].run
                  && Live(s.executions[t].step) && Live(s.executions[u].step) :: t == u
  }

  ghost predicate RunningExecutes(s: State) {
    forall run | run in s.running :: At(s, s.running[run], Executing) && s.executions[s.running[run]].run == run
  }

  ghost predicate ExecutingRuns(s: State) {
    forall t | t in s.executions && s.executions[t].step.Executing? ::
      s.executions[t].run in s.running && s.running[s.executions[t].run] == t
  }

  ghost predicate RunningAgrees(s: State) { RunningExecutes(s) && ExecutingRuns(s) }

  ghost predicate ClosesSpent(s: State) {
    && (forall run | run in s.unended :: Spent(s, run, s.unended[run]))
    && (s.retry.Holding? || s.retry.Closed? ==> forall run | run in s.retry.closes :: Spent(s, run, s.retry.closes[run]))
  }

  ghost predicate Inv(me: string, s: State) {
    RowsOpen(me, s) && OneLive(s) && RunningAgrees(s) && ClosesSpent(s)
  }

  ghost predicate Witnessed(s: State) {
    && (forall run | run in s.running && run in s.cancelledRuns :: s.running[run] in s.seen)
    && (s.poll.Told? ==> forall run |
          run in s.poll.cancelled && run in s.poll.tokens && run in s.running && s.running[run] == s.poll.tokens[run] ::
          s.running[run] in s.seen)
    && (s.poll.Snapped? || s.poll.Told? ==> forall run | run in s.poll.tokens ::
          s.poll.tokens[run] in s.executions && !s.executions[s.poll.tokens[run]].step.Recording?
          && !s.executions[s.poll.tokens[run]].step.Recorded? && s.executions[s.poll.tokens[run]].run == run)
    && s.interrupted <= s.seen
  }

  lemma StepKeepsRowsOpen(me: string, s: State, a: Action)
    requires Inv(me, s) && Enabled(s, a)
    ensures RowsOpen(me, Next(me, s, a))
  {
    hide NextCancelled, NextRunning, NextUnended, NextPoll, NextRetry, UnderCancelled, Interrupts, RunningAgrees;
  }

  lemma StepKeepsOneLive(me: string, s: State, a: Action)
    requires Inv(me, s) && Enabled(s, a)
    ensures OneLive(Next(me, s, a))
  {
    hide NextRows, NextCancelled, NextRunning, NextUnended, NextPoll, NextRetry, UnderCancelled, Interrupts, RowsOpen, RunningAgrees,
         ClosesSpent;
  }

  lemma StepKeepsRunningExecutes(me: string, s: State, a: Action)
    requires Inv(me, s) && Enabled(s, a)
    ensures RunningExecutes(Next(me, s, a))
  {
    hide NextRows, NextCancelled, NextUnended, NextPoll, NextRetry, UnderCancelled, Interrupts, RowsOpen, ClosesSpent;
  }

  lemma StepKeepsExecutingRuns(me: string, s: State, a: Action)
    requires Inv(me, s) && Enabled(s, a)
    ensures ExecutingRuns(Next(me, s, a))
  {
    hide NextRows, NextCancelled, NextUnended, NextPoll, NextRetry, UnderCancelled, Interrupts, RowsOpen, ClosesSpent;
  }

  lemma StepKeepsRunning(me: string, s: State, a: Action)
    requires Inv(me, s) && Enabled(s, a)
    ensures RunningAgrees(Next(me, s, a))
  {
    StepKeepsRunningExecutes(me, s, a);
    StepKeepsExecutingRuns(me, s, a);
    hide Inv, Enabled, Next, RunningExecutes, ExecutingRuns;
  }

  lemma StepKeepsCloses(me: string, s: State, a: Action)
    requires Inv(me, s) && Enabled(s, a)
    ensures ClosesSpent(Next(me, s, a))
  {
    hide NextRows, NextCancelled, NextRunning, NextPoll, UnderCancelled, Interrupts, RowsOpen, OneLive, RunningAgrees;
  }

  lemma StepKeepsInv(me: string, s: State, a: Action)
    requires Inv(me, s) && Enabled(s, a)
    ensures Inv(me, Next(me, s, a))
  {
    hide RowsOpen, OneLive, RunningAgrees, ClosesSpent, Enabled, Next;
    StepKeepsRowsOpen(me, s, a);
    StepKeepsOneLive(me, s, a);
    StepKeepsRunning(me, s, a);
    StepKeepsCloses(me, s, a);
  }

  lemma StepKeepsWitness(me: string, s: State, a: Action)
    requires Inv(me, s) && Witnessed(s) && Enabled(s, a)
    ensures Witnessed(Next(me, s, a))
  {
    hide NextRows, NextUnended, NextRetry, RowsOpen, OneLive, ClosesSpent;
  }

  lemma {:induction false} RunsKeepInv(me: string, s: State, acts: seq<Action>, t: State)
    requires Inv(me, s) && Witnessed(s) && Runs(me, s, acts, t)
    ensures Inv(me, t) && Witnessed(t)
    decreases |acts|
  {
    hide Inv, Witnessed, Enabled, Next;
    if acts != [] {
      StepKeepsInv(me, s, acts[0]);
      StepKeepsWitness(me, s, acts[0]);
      RunsKeepInv(me, Next(me, s, acts[0]), acts[1..], t);
    }
  }

  lemma BootsIn(me: string, s: State)
    requires Boots(me, s)
    ensures Inv(me, s) && Witnessed(s) && Tidy(me, s) && NothingLost(me, s)
  {
  }

  /** While `running` has an execution, its row is open under its own token, whatever
      closes, retries and failed writes are about. */
  lemma {:induction false} RunningRowStaysOpen(me: string, s: State, acts: seq<Action>, t: State, run: string)
    requires Boots(me, s) && Runs(me, s, acts, t) && run in t.running
    ensures RowKey(me, run) in t.rows && t.rows[RowKey(me, run)] == Row(t.running[run], true)
  {
    BootsIn(me, s);
    RunsKeepInv(me, s, acts, t);
  }

  /** Whatever closes a row, its execution's body has returned or will never start: no
      late or retried close reaches a newer execution. */
  lemma {:induction false} NoCloseOfANewerExecution(me: string, s: State, acts: seq<Action>, t: State, a: Action, run: string)
    requires Boots(me, s) && Runs(me, s, acts, t) && Enabled(t, a)
    requires RowKey(me, run) in t.rows && t.rows[RowKey(me, run)].open
    requires RowKey(me, run) in Next(me, t, a).rows && !Next(me, t, a).rows[RowKey(me, run)].open
    ensures Spent(t, run, t.rows[RowKey(me, run)].token)
  {
    hide Witnessed, Runs, RowsOpen, OneLive, RunningAgrees, Interrupts;
    BootsIn(me, s);
    RunsKeepInv(me, s, acts, t);
  }

  /** A context is cancelled only if its run was CANCELLED at some moment while that very
      execution was in `running`: not if it was an older execution's run that was. */
  lemma {:induction false} InterruptedOnlyIfCancelled(me: string, s: State, acts: seq<Action>, t: State, token: nat)
    requires Boots(me, s) && Runs(me, s, acts, t) && token in t.interrupted
    ensures token in t.seen
  {
    BootsIn(me, s);
    RunsKeepInv(me, s, acts, t);
  }

  /** `seen` is what it says: a step adds to it only who is running under a cancelled run. */
  lemma SeenIsHistory(me: string, s: State, a: Action, token: nat)
    requires Inv(me, s) && Enabled(s, a) && token in Next(me, s, a).seen && token !in s.seen
    ensures
      var t := Next(me, s, a);
      token in t.executions && t.executions[token].run in t.running && t.running[t.executions[token].run] == token
      && t.executions[token].run in t.cancelledRuns
  {
    StepKeepsRunning(me, s, a);
    hide NextRows, NextRunning, NextUnended, NextPoll, NextRetry, NextExecutions, Interrupts, RowsOpen, OneLive, ClosesSpent;
  }

  // ---- Queued closes and running executions ----

  /** No run is both running and queued to be closed. */
  ghost predicate Apart(s: State) {
    && (forall run | run in s.running :: run !in s.unended)
    && (forall t | t in s.executions :: !s.executions[t].step.GaveUp?)
  }

  lemma StepKeepsApart(me: string, s: State, a: Action)
    requires Apart(s) && Enabled(s, a) && !a.GiveUp?
    ensures Apart(Next(me, s, a))
  {
    hide NextRows, NextCancelled, NextPoll, NextRetry, UnderCancelled, Interrupts;
  }

  lemma {:induction false} ApartAlong(me: string, s: State, acts: seq<Action>, t: State)
    requires Apart(s) && Runs(me, s, acts, t) && forall a | a in acts :: !a.GiveUp?
    ensures Apart(t)
    decreases |acts|
  {
    hide Apart, Enabled, Next;
    if acts != [] {
      StepKeepsApart(me, s, acts[0]);
      ApartAlong(me, Next(me, s, acts[0]), acts[1..], t);
    }
  }

  /** A close is queued only while no newer execution of its run is running: a start drops
      it, and a close that fails behind a start is not queued. So what Unsettled reads off
      the open row of a running run is never about to be retried away. */
  lemma {:induction false} QueuedIsNotRunning(me: string, s: State, acts: seq<Action>, t: State, run: string)
    requires Boots(me, s) && Runs(me, s, acts, t) && (forall a | a in acts :: !a.GiveUp?) && run in t.unended
    ensures run !in t.running
  {
    ApartAlong(me, s, acts, t);
  }

  // ---- Is every ended row closed in the end? ----

  ghost predicate Kept(me: string, s: State, k: RowKey) {
    k in s.rows && k.executor == me && s.rows[k].open ==>
      var t := s.rows[k].token;
      && t in s.executions && s.executions[t].run == k.run
      && (s.executions[t].step.Over? ==> k.run in s.unended && s.unended[k.run] == t)
  }

  /** Somebody will still try to close every open row whose execution is over. */
  ghost predicate NothingLost(me: string, s: State) {
    forall k: RowKey :: Kept(me, s, k)
  }

  /** The conditions under which that holds: no begin gives up, and executions of one run
      do not overlap even in their ends. */
  predicate Orderly(s: State, a: Action) {
    && !a.GiveUp?
    && (a.Begin? ==> forall t | t in s.executions && s.executions[t].run == a.run :: s.executions[t].step.Over?)
  }

  ghost predicate OrderlyRuns(me: string, s: State, acts: seq<Action>)
    decreases |acts|
  {
    acts == [] || (Orderly(s, acts[0]) && Enabled(s, acts[0]) && OrderlyRuns(me, Next(me, s, acts[0]), acts[1..]))
  }

  ghost predicate Tidy(me: string, s: State) {
    && (forall t | t in s.executions :: !s.executions[t].step.GaveUp?)
    && (forall t, u | t in s.executions && u in s.executions && s.executions[t].run == s.executions[u].run
                      && !s.executions[t].step.Over? && !s.executions[u].step.Over? :: t == u)
    && TokensStay(me, s)
  }

  ghost predicate TokensStay(me: string, s: State) {
    && (forall t | t in s.executions && (s.executions[t].step.Returned? || s.executions[t].step.CloseFailed?) ::
          RowKey(me, s.executions[t].run) in s.rows && s.rows[RowKey(me, s.executions[t].run)].token == t)
    && (s.retry.Closed? ==> forall run | run in s.retry.closes && RowKey(me, run) in s.rows ::
          s.rows[RowKey(me, run)] != Row(s.retry.closes[run], true))
  }

  lemma StepKeepsTokens(me: string, s: State, a: Action)
    requires Inv(me, s) && Tidy(me, s) && Enabled(s, a) && Orderly(s, a)
    ensures TokensStay(me, Next(me, s, a))
  {
    hide NextCancelled, NextRunning, NextUnended, NextPoll, UnderCancelled, Interrupts, OneLive, RunningAgrees;
  }

  lemma StepKeepsTidy(me: string, s: State, a: Action)
    requires Inv(me, s) && Tidy(me, s) && Enabled(s, a) && Orderly(s, a)
    ensures Tidy(me, Next(me, s, a))
  {
    StepKeepsTokens(me, s, a);
    hide NextRows, NextCancelled, NextRunning, NextUnended, NextPoll, NextRetry, UnderCancelled, Interrupts, Inv, TokensStay;
  }

  lemma OwnRowIsNotLost(me: string, s: State, a: Action, k: RowKey)
    requires Inv(me, s) && Tidy(me, s) && Kept(me, s, k) && Enabled(s, a) && Orderly(s, a) && ByToken(a)
    requires k == RowKey(me, s.executions[a.token].run)
    ensures Kept(me, Next(me, s, a), k)
  {
    if a.Requeue? {
      assert s.executions[a.token].run !in s.running;
    }
    hide NextCancelled, NextRunning, NextPoll, NextRetry, UnderCancelled, Interrupts, OneLive;
  }

  lemma OtherRowIsNotLost(me: string, s: State, a: Action, k: RowKey)
    requires Kept(me, s, k) && Enabled(s, a) && ByToken(a) && k != RowKey(me, s.executions[a.token].run)
    ensures Kept(me, Next(me, s, a), k)
  {
    assert k.executor == me ==> k == RowKey(me, k.run);
    hide NextCancelled, NextRunning, NextPoll, NextRetry, UnderCancelled, Interrupts;
  }

  lemma RetriedRowIsNotLost(me: string, s: State, a: Action, k: RowKey)
    requires Inv(me, s) && Tidy(me, s) && Kept(me, s, k) && Enabled(s, a) && !ByToken(a)
    ensures Kept(me, Next(me, s, a), k)
  {
    assert k.executor == me ==> k == RowKey(me, k.run);
    hide NextCancelled, NextRunning, NextPoll, NextRetry, UnderCancelled, Interrupts, OneLive, RunningAgrees, RowsOpen;
  }

  lemma RowIsNotLost(me: string, s: State, a: Action, k: RowKey)
    requires Inv(me, s) && Tidy(me, s) && Kept(me, s, k) && Enabled(s, a) && Orderly(s, a)
    ensures Kept(me, Next(me, s, a), k)
  {
    if !ByToken(a) {
      RetriedRowIsNotLost(me, s, a, k);
    } else if k == RowKey(me, RunOf(s, a)) {
      OwnRowIsNotLost(me, s, a, k);
    } else {
      OtherRowIsNotLost(me, s, a, k);
    }
    hide Inv, Tidy, Kept, Next;
  }

  lemma StepLosesNothing(me: string, s: State, a: Action)
    requires Inv(me, s) && Tidy(me, s) && NothingLost(me, s) && Enabled(s, a) && Orderly(s, a)
    ensures NothingLost(me, Next(me, s, a))
  {
    hide Inv, Tidy, Enabled, Next, Orderly;
    forall k: RowKey ensures Kept(me, Next(me, s, a), k) {
      RowIsNotLost(me, s, a, k);
    }
  }

  lemma {:induction false} NothingLostAlong(me: string, s: State, acts: seq<Action>, t: State)
    requires Inv(me, s) && Tidy(me, s) && NothingLost(me, s)
    requires Runs(me, s, acts, t) && OrderlyRuns(me, s, acts)
    ensures NothingLost(me, t)
    decreases |acts|
  {
    hide Inv, Tidy, NothingLost, Enabled, Next, Orderly;
    if acts != [] {
      StepKeepsInv(me, s, acts[0]);
      StepKeepsTidy(me, s, acts[0]);
      StepLosesNothing(me, s, acts[0]);
      NothingLostAlong(me, Next(me, s, acts[0]), acts[1..], t);
    }
  }

  /** Unless a begin gives up, every open row whose execution is over is queued to be
      closed, through any failed writes and crossings with the retry. */
  lemma {:induction false} NoCloseIsLost(me: string, s: State, acts: seq<Action>, t: State)
    requires Boots(me, s) && Runs(me, s, acts, t) && OrderlyRuns(me, s, acts)
    ensures forall run | RowKey(me, run) in t.rows && t.rows[RowKey(me, run)].open ::
              var token := t.rows[RowKey(me, run)].token;
              token in t.executions && (At(t, token, Over) ==> run in t.unended && t.unended[run] == token)
  {
    hide Runs, Inv, Tidy, Enabled, Next;
    BootsIn(me, s);
    NothingLostAlong(me, s, acts, t);
    assert forall run :: Kept(me, t, RowKey(me, run));
  }

  /** What giving up may cost: the close it queues takes the place of an older one, and
      that one is lost exactly when the row is still open under the older execution. */
  lemma {:induction false} GivingUpLosesAClose(me: string, s: State, token: nat)
    requires Inv(me, s) && NothingLost(me, s) && At(s, token, GaveUp)
    ensures
      var key := RowKey(me, s.executions[token].run);
      NothingLost(me, Next(me, s, QueueClose(token))) <==>
        !(key in s.rows && s.rows[key].open && s.rows[key].token != token && At(s, s.rows[key].token, Over))
  {
    hide RowsOpen, OneLive, RunningAgrees, ClosesSpent;
    var t := Next(me, s, QueueClose(token));
    var run := s.executions[token].run;
    var key := RowKey(me, run);
    assert Kept(me, s, key);
    if key in s.rows && s.rows[key].open && s.rows[key].token != token && At(s, s.rows[key].token, Over) {
      assert !Kept(me, t, key);
    } else {
      forall k: RowKey ensures Kept(me, t, k) {
        assert k.executor == me ==> k == RowKey(me, k.run);
        assert Kept(me, s, k);
      }
    }
  }

  // ---- And it happens ----

  lemma {:induction false} RunsOn(me: string, s: State, acts: seq<Action>, u: State, a: Action)
    requires Runs(me, s, acts, u) && Enabled(u, a)
    ensures Runs(me, s, acts + [a], Next(me, u, a))
    decreases |acts|
  {
    hide Enabled, Next;
    if acts == [] {
      assert acts + [a] == [a];
    } else {
      RunsOn(me, Next(me, s, acts[0]), acts[1..], u, a);
      assert (acts + [a])[1..] == acts[1..] + [a];
    }
  }

  /** A state in which nobody polls, retries or cancels. */
  function Plain(rows: Rows, running: map<string, nat>, unended: map<string, nat>, executions: map<nat, Execution>): State {
    State(rows, {}, running, unended, executions, {}, Idle, Resting, {})
  }

  lemma PlainStep(me: string, s: State, acts: seq<Action>, u: State, a: Action) returns (more: seq<Action>, v: State)
    requires Runs(me, s, acts, u) && u == Plain(u.rows, u.running, u.unended, u.executions)
    requires Enabled(u, a) && (a.Begin? || ByToken(a))
    ensures Runs(me, s, more, v)
    ensures v == Plain(NextRows(me, u, a), NextRunning(u, a), NextUnended(u, a), NextExecutions(u, a))
  {
    RunsOn(me, s, acts, u, a);
    more, v := acts + [a], Next(me, u, a);
    hide Runs, Enabled, NextRows, NextRunning, NextUnended, NextExecutions;
  }

  lemma RunsNowhere(me: string, s: State)
    ensures Runs(me, s, [], s)
  {
  }

  lemma {:induction false} Executes(me: string, s: State) returns (acts: seq<Action>, u: State)
    requires s == Plain(map[], map[], map[], map[])
    ensures Runs(me, s, acts, u)
    ensures u == Plain(map[RowKey(me, "r") := Row(1, true)], map["r" := 1], map[], map[1 := Execution("r", Executing)])
  {
    hide Runs, Next;
    RunsNowhere(me, s);
    acts, u := PlainStep(me, s, [], s, Begin(1, "r"));
    acts, u := PlainStep(me, s, acts, u, TryStart(1, true, true));
    acts, u := PlainStep(me, s, acts, u, Register(1));
  }

  /** An execution whose close fails and is queued. */
  lemma {:induction false} CloseIsQueued(me: string, s: State) returns (acts: seq<Action>, u: State)
    requires s == Plain(map[], map[], map[], map[])
    ensures Runs(me, s, acts, u)
    ensures u == Plain(map[RowKey(me, "r") := Row(1, true)], map[], map["r" := 1], map[1 := Execution("r", Over)])
  {
    hide Runs, Next;
    acts, u := Executes(me, s);
    acts, u := PlainStep(me, s, acts, u, Return(1));
    acts, u := PlainStep(me, s, acts, u, Close(1, false, false));
    acts, u := PlainStep(me, s, acts, u, Requeue(1));
  }

  lemma {:induction false} NextGivesUp(me: string, s: State) returns (acts: seq<Action>, u: State)
    requires s == Plain(map[], map[], map[], map[])
    ensures Runs(me, s, acts, u)
    ensures u == Plain(map[RowKey(me, "r") := Row(1, true)], map[], map["r" := 1],
                       map[1 := Execution("r", Over), 2 := Execution("r", GaveUp)])
  {
    hide Runs, Next;
    acts, u := CloseIsQueued(me, s);
    acts, u := PlainStep(me, s, acts, u, Begin(2, "r"));
    acts, u := PlainStep(me, s, acts, u, GiveUp(2));
  }

  /** A process comes to lose a close: an execution ends, its close fails and is queued,
      and the next execution of the run gives up before it has written its row. */
  lemma {:induction false} LossIsPossible(me: string) returns (s: State, acts: seq<Action>, t: State)
    ensures Boots(me, s) && Runs(me, s, acts, t) && At(t, 2, GaveUp)
    ensures NothingLost(me, t) && !NothingLost(me, Next(me, t, QueueClose(2)))
  {
    hide Runs, Inv, Next;
    s := Plain(map[], map[], map[], map[]);
    acts, t := NextGivesUp(me, s);
    BootsIn(me, s);
    RunsKeepInv(me, s, acts, t);
    GivingUpLosesAClose(me, t, 2);
  }
}
