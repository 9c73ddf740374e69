/**
 The transaction of a request and its post-commit actions (pkg/db/context.go, pkg/db/connection.go).
 Database transactions are numbered as they are opened and actions as they are registered; the log keeps
 what reached the database and which actions ran.
 */
module Transactions {

  datatype Event =
    | Began(tx: nat)
    | Abandoned(tx: nat)       // opened, but reading its id failed, so nobody holds it
    | Committed(tx: nat)
    | CommitFailed(tx: nat)
    | RolledBack(tx: nat)
    | RollbackFailed(tx: nat)
    | Registered(action: nat)
    | Ran(action: nat)

  predicate Resolves(e: Event) { e.Committed? || e.CommitFailed? || e.RolledBack? || e.RollbackFailed? }

  datatype State = State(tx: nat, resolved: bool, rollbackFlag: bool, pending: seq<nat>,
                         handles: nat, registered: nat, log: seq<Event>)

  /** What a post-commit action may do to its transaction when it runs. */
  datatype Inner = Registers | Marks | Begins

  /** A call, with what the database answers to it and what each action does when it runs. */
  datatype Call =
    | Begin(opens: bool, scans: bool)
    | AddPostCommitAction
    | MarkForRollback
    | Resolve(succeeds: bool, script: nat -> seq<Inner>)

  const Fresh := State(0, false, false, [], 1, 0, [Began(0)])

  function BeginStep(s: State, opens: bool, scans: bool): State {
    if !opens then s
    else if !scans then s.(handles := s.handles + 1, log := s.log + [Abandoned(s.handles)])
    else s.(tx := s.handles, resolved := false, rollbackFlag := false,
         handles := s.handles + 1, log := s.log + [Began(s.handles)])
  }

  function AddStep(s: State): State {
    s.(pending := s.pending + [s.registered], registered := s.registered + 1, log := s.log + [Registered(s.registered)])
  }

  function Do(s: State, inner: Inner): State {
    match inner
    case Registers => AddStep(s)
    case Marks => s.(rollbackFlag := true)
    case Begins => BeginStep(s, true, true)
  }

  function DoAll(s: State, script: seq<Inner>): State
    decreases |script|
  {
    if script == [] then s else DoAll(Do(s, script[0]), script[1..])
  }

  function RunOne(s: State, action: nat, script: nat -> seq<Inner>): State {
    DoAll(s.(log := s.log + [Ran(action)]), script(action))
  }

  function RunAll(s: State, actions: seq<nat>, script: nat -> seq<Inner>): State
    decreases |actions|
  {
    if actions == [] then s else RunAll(RunOne(s, actions[0], script), actions[1..], script)
  }

  function Outcome(s: State, succeeds: bool): Event {
    if s.rollbackFlag
    then (if succeeds then RolledBack(s.tx) else RollbackFailed(s.tx))
    else (if succeeds then Committed(s.tx) else CommitFailed(s.tx))
  }

  function ResolveStep(s: State, succeeds: bool, script: nat -> seq<Inner>): State {
    if s.resolved then s
    else
      var closed := s.(resolved := true, pending := [], log := s.log + [Outcome(s, succeeds)]);
      if Outcome(s, succeeds).Committed? then RunAll(closed, s.pending, script) else closed
  }

  function Step(s: State, c: Call): State {
    match c
    case Begin(opens, scans) => BeginStep(s, opens, scans)
    case AddPostCommitAction => AddStep(s)
    case MarkForRollback => s.(rollbackFlag := true)
    case Resolve(succeeds, script) => ResolveStep(s, succeeds, script)
  }

  function After(calls: seq<Call>): State {
    if calls == [] then Fresh else Step(After(calls[..|calls| - 1]), calls[|calls| - 1])
  }

  // ---------------------------------------------------------------------------------------------
  // The factory
  // ---------------------------------------------------------------------------------------------

  class TxFactory {
    var tx: nat
    var resolved: bool
    var rollbackFlag: bool
    var postCommitActions: seq<nat>
    var handles: nat
    var registered: nat
    var log: seq<Event>

    function View(): State
      reads this
    {
      State(tx, resolved, rollbackFlag, postCommitActions, handles, registered, log)
    }

    constructor ()
      ensures View() == Fresh
    {
      tx, resolved, rollbackFlag, postCommitActions := 0, false, false, [];
      handles, registered, log := 1, 0, [Began(0)];
    }

    method Begin(opens: bool, scans: bool) returns (failed: bool)
      modifies this
      ensures View() == Step(old(View()), Call.Begin(opens, scans))
      ensures failed <==> !opens || !scans
    {
      if !opens { return true; }
      var handle := handles;
      handles := handles + 1;
      if !scans {
        log := log + [Abandoned(handle)];
        return true;
      }
      log := log + [Began(handle)];
      tx, resolved, rollbackFlag := handle, false, false;
      failed := false;
    }

    method AddPostCommitAction()
      modifies this
      ensures View() == AddStep(old(View()))
    {
      log := log + [Registered(registered)];
      postCommitActions := postCommitActions + [registered];
      registered := registered + 1;
    }

    method MarkForRollback()
      modifies this
      ensures View() == Step(old(View()), Call.MarkForRollback)
    {
      rollbackFlag := true;
    }

    /** Runs an action, with what it does to its own transaction. */
    method Run(action: nat, script: nat -> seq<Inner>)
      modifies this
      ensures View() == RunOne(old(View()), action, script)
    {
      log := log + [Ran(action)];
      var inner := script(action);
      for i := 0 to |inner|
        invariant DoAll(View(), inner[i..]) == RunOne(old(View()), action, script)
      {
        assert inner[i..][1..] == inner[i + 1..];
        match inner[i]
        case Registers => AddPostCommitAction();
        case Marks => MarkForRollback();
        case Begins => var failed := Begin(true, true);
      }
    }

    method Resolve(succeeds: bool, script: nat -> seq<Inner>) returns (failed: bool)
      modifies this
      ensures View() == Step(old(View()), Call.Resolve(succeeds, script))
      ensures failed <==> !old(resolved) && !succeeds
    {
      if resolved { return false; }
      resolved := true;
      var actions := postCommitActions;
      postCommitActions := [];
      if rollbackFlag {
        if !succeeds {
          log := log + [RollbackFailed(tx)];
          return true;
        }
        log := log + [RolledBack(tx)];
      } else {
        if !succeeds {
          log := log + [CommitFailed(tx)];
          return true;
        }
        log := log + [Committed(tx)];
        ghost var closed := View();
        for i := 0 to |actions|
          invariant RunAll(View(), actions[i..], script) == RunAll(closed, actions, script)
        {
          Run(actions[i], script);
          assert actions[i..][1..] == actions[i + 1..];
        }
      }
      failed := false;
    }
  }

  // ---------------------------------------------------------------------------------------------
  // What holds after any calls
  // ---------------------------------------------------------------------------------------------

  /** The last event that opened or resolved a transaction. */
  function Latest(log: seq<Event>): Event
    requires log != [] && log[0].Began?
    ensures !Latest(log).Registered? && !Latest(log).Ran?
  {
    var e := log[|log| - 1];
    if e.Registered? || e.Ran? then Latest(log[..|log| - 1]) else e
  }

  /** No transaction is resolved twice. */
  ghost predicate ResolvedOnce(log: seq<Event>) {
    forall i, j :: 0 <= i < j < |log| && Resolves(log[i]) && Resolves(log[j]) ==> log[i].tx != log[j].tx
  }

  /** Actions run in the order of their registration, none twice. */
  ghost predicate RunInOrder(log: seq<Event>) {
    forall i, j :: 0 <= i < j < |log| && log[i].Ran? && log[j].Ran? ==> log[i].action < log[j].action
  }

  /** Registration numbers are handed out in order. */
  ghost predicate RegisteredInOrder(log: seq<Event>) {
    forall i, j :: 0 <= i < j < |log| && log[i].Registered? && log[j].Registered? ==> log[i].action < log[j].action
  }

  /** An action that runs was registered before. */
  ghost predicate RunWhenRegistered(log: seq<Event>) {
    forall i :: 0 <= i < |log| && log[i].Ran? ==> Registered(log[i].action) in log[..i]
  }

  /** When an action runs, the transaction last heard of has just been committed. */
  ghost predicate RunAfterCommit(log: seq<Event>)
    requires log != [] && log[0].Began?
  {
    forall i :: 0 < i < |log| && log[i].Ran? ==> Latest(log[..i]).Committed?
  }

  /** What holds of the log whatever the actions do. */
  ghost predicate Orderly(log: seq<Event>) {
    && log != [] && log[0].Began?
    && ResolvedOnce(log) && RunInOrder(log) && RegisteredInOrder(log) && RunWhenRegistered(log)
  }

  ghost predicate Proper(log: seq<Event>) { Orderly(log) && RunAfterCommit(log) }

  /** Numbers in the log are below the counters, and an unresolved transaction has no resolution in the log. */
  ghost predicate Counted(s: State) {
    && s.tx < s.handles
    && (forall i :: 0 <= i < |s.log| && Resolves(s.log[i]) ==> s.log[i].tx < s.handles)
    && (forall i :: 0 <= i < |s.log| && s.log[i].Registered? ==> s.log[i].action < s.registered)
    && (!s.resolved ==> forall i :: 0 <= i < |s.log| && Resolves(s.log[i]) ==> s.log[i].tx != s.tx)
  }

  /** The actions `q` are the last ones registered, and none of them has run. */
  ghost predicate Waiting(s: State, q: seq<nat>) {
    && (forall k :: 0 <= k < |q| ==> q[k] == s.registered - |q| + k && Registered(q[k]) in s.log)
    && (forall i :: 0 <= i < |s.log| && s.log[i].Ran? ==> s.log[i].action < s.registered - |q|)
  }

  /** The invariant, with the actions `rest` still to be run by a Resolve in progress. */
  ghost predicate Holds(s: State, rest: seq<nat>) {
    Orderly(s.log) && Counted(s) && Waiting(s, rest + s.pending)
  }

  lemma LogSnoc(log: seq<Event>, e: Event)
    requires Orderly(log)
    requires Resolves(e) ==> forall i :: 0 <= i < |log| && Resolves(log[i]) ==> log[i].tx != e.tx
    requires e.Ran? ==> Registered(e.action) in log
    requires e.Ran? ==> forall i :: 0 <= i < |log| && log[i].Ran? ==> log[i].action < e.action
    requires e.Registered? ==> forall i :: 0 <= i < |log| && log[i].Registered? ==> log[i].action < e.action
    ensures Orderly(log + [e])
  {
    var longer := log + [e];
    forall i | 0 <= i < |longer| && longer[i].Ran? ensures Registered(longer[i].action) in longer[..i] {
      assert longer[..i] == log[..i];
      assert log[..|log|] == log;
    }
  }

  lemma AddKeeps(s: State, rest: seq<nat>)
    requires Holds(s, rest)
    ensures Holds(AddStep(s), rest)
  {
    LogSnoc(s.log, Registered(s.registered));
    assert rest + AddStep(s).pending == (rest + s.pending) + [s.registered];
  }

  lemma WaitingSnoc(s: State, t: State, e: Event, q: seq<nat>)
    requires Waiting(s, q) && !e.Ran? && !e.Registered? && t.log == s.log + [e] && t.registered == s.registered
    ensures Waiting(t, q)
  {
  }

  lemma BeginKeeps(s: State, opens: bool, scans: bool, rest: seq<nat>)
    requires Holds(s, rest)
    ensures Holds(BeginStep(s, opens, scans), rest)
  {
    if opens {
      var e := if scans then Began(s.handles) else Abandoned(s.handles);
      LogSnoc(s.log, e);
      WaitingSnoc(s, BeginStep(s, opens, scans), e, rest + s.pending);
    }
  }

  lemma {:induction false} DoAllKeeps(s: State, rest: seq<nat>, script: seq<Inner>)
    requires Holds(s, rest)
    ensures Holds(DoAll(s, script), rest)
    decreases |script|
  {
    if script != [] {
      AddKeeps(s, rest);
      BeginKeeps(s, true, true, rest);
      DoAllKeeps(Do(s, script[0]), rest, script[1..]);
    }
  }

  /** Running the first of the waiting actions leaves the others waiting. */
  lemma WaitingShrinks(s: State, t: State, q: seq<nat>)
    requires q != [] && Waiting(s, q) && t == s.(log := s.log + [Ran(q[0])])
    ensures Waiting(t, q[1..])
  {
    forall k | 0 <= k < |q[1..]| ensures q[1..][k] == t.registered - |q[1..]| + k && Registered(q[1..][k]) in t.log {
      assert q[1..][k] == q[k + 1];
    }
  }

  lemma RanIsOrderly(s: State, q: seq<nat>)
    requires q != [] && Orderly(s.log) && Waiting(s, q)
    ensures Orderly(s.log + [Ran(q[0])])
  {
    LogSnoc(s.log, Ran(q[0]));
  }

  lemma RanIsCounted(s: State, t: State, a: nat)
    requires Counted(s) && t == s.(log := s.log + [Ran(a)])
    ensures Counted(t)
  {
  }

  lemma RanKeeps(s: State, t: State, rest: seq<nat>)
    requires rest != [] && Holds(s, rest) && t == s.(log := s.log + [Ran(rest[0])])
    ensures Holds(t, rest[1..])
  {
    var q := rest + s.pending;
    assert q[0] == rest[0] && q[1..] == rest[1..] + t.pending;
    WaitingShrinks(s, t, q);
    RanIsOrderly(s, q);
    RanIsCounted(s, t, rest[0]);
  }

  lemma {:induction false} RunAllKeeps(s: State, rest: seq<nat>, script: nat -> seq<Inner>)
    requires Holds(s, rest)
    ensures Holds(RunAll(s, rest, script), [])
    decreases |rest|
  {
    if rest != [] {
      var t := s.(log := s.log + [Ran(rest[0])]);
      RanKeeps(s, t, rest);
      DoAllKeeps(t, rest[1..], script(rest[0]));
      RunAllKeeps(RunOne(s, rest[0], script), rest[1..], script);
    }
  }

  /** The open transaction is resolved, and the pending actions are still to be run or to be dropped. */
  lemma CloseKeeps(s: State, e: Event, closed: State)
    requires Holds(s, []) && !s.resolved && Resolves(e) && e.tx == s.tx
    requires closed == s.(resolved := true, pending := [], log := s.log + [e])
    ensures Holds(closed, s.pending) && Holds(closed, [])
  {
    assert [] + s.pending == s.pending == s.pending + [];
    LogSnoc(s.log, e);
    WaitingSnoc(s, closed, e, s.pending);
    assert [] + closed.pending == [];
  }

  lemma ResolveKeeps(s: State, succeeds: bool, script: nat -> seq<Inner>)
    requires Holds(s, [])
    ensures Holds(ResolveStep(s, succeeds, script), [])
  {
    if s.resolved { return; }
    var e := Outcome(s, succeeds);
    var closed := s.(resolved := true, pending := [], log := s.log + [e]);
    CloseKeeps(s, e, closed);
    if e.Committed? { RunAllKeeps(closed, s.pending, script); }
  }

  lemma StepKeeps(s: State, c: Call)
    requires Holds(s, [])
    ensures Holds(Step(s, c), [])
  {
    match c
    case Begin(opens, scans) => BeginKeeps(s, opens, scans, []);
    case AddPostCommitAction => AddKeeps(s, []);
    case MarkForRollback =>
    case Resolve(succeeds, script) => ResolveKeeps(s, succeeds, script);
  }

  /**
   Whatever is called in whatever order and whatever the actions do: no transaction is resolved twice, and actions run
   in the order of their registration, each after it was registered and none twice.
   */
  lemma {:induction false} AnyCalls(calls: seq<Call>)
    ensures Holds(After(calls), [])
  {
    if calls != [] {
      AnyCalls(calls[..|calls| - 1]);
      StepKeeps(After(calls[..|calls| - 1]), calls[|calls| - 1]);
    }
  }

  // ---------------------------------------------------------------------------------------------
  // Exactly when actions run only after a commit
  // ---------------------------------------------------------------------------------------------

  predicate BeginsNothing(script: seq<Inner>) { Begins !in script }

  /**
   What can be told before the call: if it commits, no pending action but the last one begins a transaction. The last
   one may, since no action runs after it.
   */
  predicate Tame(s: State, c: Call) {
    c.Resolve? && c.succeeds && !s.resolved && !s.rollbackFlag ==>
      forall k :: 0 <= k < |s.pending| - 1 ==> BeginsNothing(c.script(s.pending[k]))
  }

  ghost predicate Rooted(s: State) { s.log != [] && s.log[0].Began? }

  lemma CommitSnoc(log: seq<Event>, e: Event)
    requires log != [] && log[0].Began?
    ensures RunAfterCommit(log + [e]) <==> RunAfterCommit(log) && (e.Ran? ==> Latest(log).Committed?)
    ensures Latest(log + [e]) == if e.Registered? || e.Ran? then Latest(log) else e
  {
    var longer := log + [e];
    assert longer[..|log|] == log;
    assert forall i :: 0 <= i <= |log| ==> longer[..i] == log[..i];
  }

  lemma DoCommit(s: State, inner: Inner)
    requires Rooted(s)
    ensures Rooted(Do(s, inner)) && (RunAfterCommit(Do(s, inner).log) <==> RunAfterCommit(s.log))
    ensures Latest(Do(s, inner).log).Committed? <==> Latest(s.log).Committed? && inner != Begins
  {
    CommitSnoc(s.log, Registered(s.registered));
    CommitSnoc(s.log, Began(s.handles));
  }

  lemma {:induction false} DoAllCommit(s: State, script: seq<Inner>)
    requires Rooted(s)
    ensures Rooted(DoAll(s, script)) && (RunAfterCommit(DoAll(s, script).log) <==> RunAfterCommit(s.log))
    ensures Latest(DoAll(s, script).log).Committed? <==> Latest(s.log).Committed? && BeginsNothing(script)
    decreases |script|
  {
    if script != [] {
      DoCommit(s, script[0]);
      DoAllCommit(Do(s, script[0]), script[1..]);
      assert script == [script[0]] + script[1..];
    }
  }

  lemma RunOneCommit(s: State, a: nat, script: nat -> seq<Inner>)
    requires Rooted(s)
    ensures var t := RunOne(s, a, script);
      && Rooted(t)
      && (RunAfterCommit(t.log) <==> RunAfterCommit(s.log) && Latest(s.log).Committed?)
      && (Latest(t.log).Committed? <==> Latest(s.log).Committed? && BeginsNothing(script(a)))
  {
    CommitSnoc(s.log, Ran(a));
    DoAllCommit(s.(log := s.log + [Ran(a)]), script(a));
  }

  /** None of the actions but the last one begins a transaction. */
  predicate TameActions(actions: seq<nat>, script: nat -> seq<Inner>) {
    forall k :: 0 <= k < |actions| - 1 ==> BeginsNothing(script(actions[k]))
  }

  lemma TameRest(actions: seq<nat>, script: nat -> seq<Inner>)
    requires |actions| > 1
    ensures TameActions(actions, script) <==> BeginsNothing(script(actions[0])) && TameActions(actions[1..], script)
  {
    var rest := actions[1..];
    if TameActions(rest, script) && BeginsNothing(script(actions[0])) {
      forall k | 0 <= k < |actions| - 1 ensures BeginsNothing(script(actions[k])) {
        if k > 0 { assert actions[k] == rest[k - 1]; }
      }
    }
    if TameActions(actions, script) {
      assert forall k :: 0 <= k < |rest| - 1 ==> rest[k] == actions[k + 1];
    }
  }

  lemma {:induction false} RunAllCommit(s: State, actions: seq<nat>, script: nat -> seq<Inner>)
    requires Rooted(s)
    ensures Rooted(RunAll(s, actions, script))
    ensures RunAfterCommit(RunAll(s, actions, script).log) <==>
      RunAfterCommit(s.log) && (actions == [] || (Latest(s.log).Committed? && TameActions(actions, script)))
    decreases |actions|
  {
    if actions != [] {
      RunOneCommit(s, actions[0], script);
      RunAllCommit(RunOne(s, actions[0], script), actions[1..], script);
      if |actions| > 1 { TameRest(actions, script); }
    }
  }

  lemma ResolveCommit(s: State, succeeds: bool, script: nat -> seq<Inner>)
    requires Rooted(s)
    ensures Rooted(ResolveStep(s, succeeds, script))
    ensures RunAfterCommit(ResolveStep(s, succeeds, script).log) <==>
      RunAfterCommit(s.log) && Tame(s, Resolve(succeeds, script))
  {
    var e := Outcome(s, succeeds);
    CommitSnoc(s.log, e);
    if !s.resolved && e.Committed? {
      RunAllCommit(s.(resolved := true, pending := [], log := s.log + [e]), s.pending, script);
    }
  }

  lemma StepCommit(s: State, c: Call)
    requires Rooted(s)
    ensures Rooted(Step(s, c)) && (RunAfterCommit(Step(s, c).log) <==> RunAfterCommit(s.log) && Tame(s, c))
  {
    match c
    case Begin(opens, scans) => CommitSnoc(s.log, if scans then Began(s.handles) else Abandoned(s.handles));
    case AddPostCommitAction => CommitSnoc(s.log, Registered(s.registered));
    case MarkForRollback =>
    case Resolve(succeeds, script) => ResolveCommit(s, succeeds, script);
  }

  /** Each call is tame in the state in which it is made. */
  ghost predicate AllTame(calls: seq<Call>) { forall i :: 0 <= i < |calls| ==> Tame(After(calls[..i]), calls[i]) }

  lemma AllTameSnoc(calls: seq<Call>, n: nat)
    requires |calls| == n + 1
    ensures AllTame(calls) <==> AllTame(calls[..n]) && Tame(After(calls[..n]), calls[n])
  {
    assert forall i :: 0 <= i <= n ==> calls[..n][..i] == calls[..i];
  }

  lemma {:induction false} CommitExactlyWhen(calls: seq<Call>)
    ensures Rooted(After(calls)) && (RunAfterCommit(After(calls).log) <==> AllTame(calls))
  {
    if calls != [] {
      var n := |calls| - 1;
      CommitExactlyWhen(calls[..n]);
      StepCommit(After(calls[..n]), calls[n]);
      AllTameSnoc(calls, n);
    }
  }

  /**
   For every sequence of calls: the log is proper, so that each action runs directly after a commit as well, if and
   only if every call is tame.
   */
  lemma ProperExactlyWhen(calls: seq<Call>)
    ensures Proper(After(calls).log) <==> AllTame(calls)
  {
    AnyCalls(calls);
    CommitExactlyWhen(calls);
  }

  // ---------------------------------------------------------------------------------------------
  // No action is forgotten by a commit
  // ---------------------------------------------------------------------------------------------

  /** The actions that ran, in order. */
  function RanIn(log: seq<Event>): seq<nat> {
    if log == [] then []
    else RanIn(log[..|log| - 1]) + (if log[|log| - 1].Ran? then [log[|log| - 1].action] else [])
  }

  lemma RanInSnoc(log: seq<Event>, e: Event)
    ensures RanIn(log + [e]) == RanIn(log) + (if e.Ran? then [e.action] else [])
  {
    assert (log + [e])[..|log|] == log;
  }

  lemma {:induction false} DoAllRunsNothing(s: State, script: seq<Inner>)
    ensures RanIn(DoAll(s, script).log) == RanIn(s.log)
    decreases |script|
  {
    if script != [] {
      RanInSnoc(s.log, Registered(s.registered));
      RanInSnoc(s.log, Began(s.handles));
      DoAllRunsNothing(Do(s, script[0]), script[1..]);
    }
  }

  lemma {:induction false} RunAllRuns(s: State, actions: seq<nat>, script: nat -> seq<Inner>)
    ensures RanIn(RunAll(s, actions, script).log) == RanIn(s.log) + actions
    decreases |actions|
  {
    if actions != [] {
      var t := s.(log := s.log + [Ran(actions[0])]);
      RanInSnoc(s.log, Ran(actions[0]));
      DoAllRunsNothing(t, script(actions[0]));
      RunAllRuns(RunOne(s, actions[0], script), actions[1..], script);
      assert actions == [actions[0]] + actions[1..];
    }
  }

  /** Resolving runs every pending action exactly when it commits the open transaction, and no action otherwise. */
  lemma ResolveRunsThePending(s: State, succeeds: bool, script: nat -> seq<Inner>)
    ensures RanIn(ResolveStep(s, succeeds, script).log) ==
      RanIn(s.log) + (if !s.resolved && !s.rollbackFlag && succeeds then s.pending else [])
  {
    var e := Outcome(s, succeeds);
    RanInSnoc(s.log, e);
    if !s.resolved && e.Committed? {
      RunAllRuns(s.(resolved := true, pending := [], log := s.log + [e]), s.pending, script);
    }
  }

  // ---------------------------------------------------------------------------------------------
  // Which transaction an action runs with
  // ---------------------------------------------------------------------------------------------

  /** The transaction held after these events. */
  function Current(log: seq<Event>): nat {
    if log == [] then 0
    else if log[|log| - 1].Began? then log[|log| - 1].tx
    else Current(log[..|log| - 1])
  }

  /** Each resolution is that of the transaction held, and transactions are numbered in the order they began. */
  ghost predicate Tracked(log: seq<Event>) {
    && (forall i :: 0 <= i < |log| && Resolves(log[i]) ==> log[i].tx == Current(log[..i]))
    && (forall i :: 0 <= i < |log| && log[i].Began? ==> i == 0 || Current(log[..i]) < log[i].tx)
  }

  ghost predicate Tracks(s: State) {
    s.log != [] && Tracked(s.log) && s.tx == Current(s.log) && s.tx < s.handles
  }

  lemma TrackedSnoc(log: seq<Event>, e: Event)
    requires log != [] && Tracked(log)
    requires Resolves(e) ==> e.tx == Current(log)
    requires e.Began? ==> Current(log) < e.tx
    ensures Tracked(log + [e]) && Current(log + [e]) == if e.Began? then e.tx else Current(log)
  {
    var longer := log + [e];
    assert longer[..|log|] == log;
    forall i | 0 <= i < |longer|
      ensures Resolves(longer[i]) ==> longer[i].tx == Current(longer[..i])
      ensures longer[i].Began? ==> i == 0 || Current(longer[..i]) < longer[i].tx
    {
      if i < |log| { assert longer[..i] == log[..i]; }
    }
  }

  lemma DoTracks(s: State, inner: Inner)
    requires Tracks(s)
    ensures Tracks(Do(s, inner))
  {
    TrackedSnoc(s.log, Registered(s.registered));
    TrackedSnoc(s.log, Began(s.handles));
  }

  lemma {:induction false} DoAllTracks(s: State, script: seq<Inner>)
    requires Tracks(s)
    ensures Tracks(DoAll(s, script))
    decreases |script|
  {
    if script != [] {
      DoTracks(s, script[0]);
      DoAllTracks(Do(s, script[0]), script[1..]);
    }
  }

  lemma {:induction false} RunAllTracks(s: State, actions: seq<nat>, script: nat -> seq<Inner>)
    requires Tracks(s)
    ensures Tracks(RunAll(s, actions, script))
    decreases |actions|
  {
    if actions != [] {
      TrackedSnoc(s.log, Ran(actions[0]));
      DoAllTracks(s.(log := s.log + [Ran(actions[0])]), script(actions[0]));
      RunAllTracks(RunOne(s, actions[0], script), actions[1..], script);
    }
  }

  lemma StepTracks(s: State, c: Call)
    requires Tracks(s)
    ensures Tracks(Step(s, c))
  {
    match c
    case Begin(opens, scans) => TrackedSnoc(s.log, if scans then Began(s.handles) else Abandoned(s.handles));
    case AddPostCommitAction => TrackedSnoc(s.log, Registered(s.registered));
    case MarkForRollback =>
    case Resolve(succeeds, script) =>
      var e := Outcome(s, succeeds);
      TrackedSnoc(s.log, e);
      if !s.resolved && e.Committed? {
        RunAllTracks(s.(resolved := true, pending := [], log := s.log + [e]), s.pending, script);
      }
  }

  lemma {:induction false} AnyCallsTrack(calls: seq<Call>)
    ensures Tracks(After(calls))
  {
    if calls != [] {
      AnyCallsTrack(calls[..|calls| - 1]);
      StepTracks(After(calls[..|calls| - 1]), calls[|calls| - 1]);
    }
  }

  /** The held transaction only changes, and only grows, when another begins. */
  lemma {:induction false} CurrentGrows(log: seq<Event>, j: nat, i: nat)
    requires Tracked(log) && 0 < j <= i <= |log|
    ensures Current(log[..j]) <= Current(log[..i])
    ensures Current(log[..j]) == Current(log[..i]) <==> forall k :: j <= k < i ==> !log[k].Began?
  {
    if j < i {
      CurrentGrows(log, j, i - 1);
      CurrentStep(log, i - 1);
    }
  }

  lemma CurrentStep(log: seq<Event>, i: nat)
    requires i < |log|
    ensures Current(log[..i + 1]) == if log[i].Began? then log[i].tx else Current(log[..i])
  {
    assert log[..i + 1][..i] == log[..i];
  }

  /** A resolution that is the latest news is that of the transaction held. */
  lemma {:induction false} LatestIsCurrent(log: seq<Event>, i: nat)
    requires Tracked(log) && 0 < i <= |log| && log[0].Began? && Resolves(Latest(log[..i]))
    ensures Latest(log[..i]).tx == Current(log[..i])
  {
    assert log[..i][..i - 1] == log[..i - 1];
    if log[i - 1].Registered? || log[i - 1].Ran? { LatestIsCurrent(log, i - 1); }
  }

  /**
   An action that was registered at `j` and ran at `i` ran after the commit of the transaction that was open when
   it was registered if and only if no other transaction began in between: Begin keeps the pending actions.
   */
  lemma RunsWithItsTransactionIff(calls: seq<Call>, j: nat, i: nat)
    requires AllTame(calls)
    requires j < i < |After(calls).log|
    requires After(calls).log[i].Ran? && After(calls).log[j] == Registered(After(calls).log[i].action)
    ensures var log := After(calls).log;
      && log[0].Began? && Latest(log[..i]).Committed?
      && (Latest(log[..i]).tx == Current(log[..j]) <==> forall k :: j < k < i ==> !log[k].Began?)
  {
    ProperExactlyWhen(calls);
    AnyCallsTrack(calls);
    RunsWithCurrentIff(After(calls).log, j, i);
  }

  lemma RunsWithCurrentIff(log: seq<Event>, j: nat, i: nat)
    requires Tracked(log) && 0 < j < i < |log| && log[0].Began? && !log[j].Began? && Latest(log[..i]).Committed?
    ensures Latest(log[..i]).tx == Current(log[..j]) <==> forall k :: j < k < i ==> !log[k].Began?
  {
    LatestIsCurrent(log, i);
    CurrentGrows(log, j, i);
  }

  /** A run of three calls, each step given. */
  lemma ThreeCalls(c0: Call, c1: Call, c2: Call)
    ensures After([c0, c1, c2]) == Step(Step(Step(Fresh, c0), c1), c2)
  {
    assert [c0, c1, c2][..2] == [c0, c1] && [c0, c1][..1] == [c0] && [c0][..0] == [];
    assert After([]) == Fresh;
    assert After([c0]) == Step(Fresh, c0);
    assert After([c0, c1]) == Step(Step(Fresh, c0), c1);
  }

  /** An action can run with a later transaction, after the one it was registered under was never resolved at all. */
  lemma ActionsOutliveTheirTransaction() returns (calls: seq<Call>)
    ensures After(calls).log == [Began(0), Registered(0), Began(1), Committed(1), Ran(0)] && AllTame(calls)
  {
    var none: nat -> seq<Inner> := (a: nat) => [];
    var c0, c1, c2 := AddPostCommitAction, Call.Begin(true, true), Call.Resolve(true, none);
    calls := [c0, c1, c2];
    ThreeCalls(c0, c1, c2);
    var s := Step(Step(Fresh, c0), c1);
    assert s.pending == [0] && s.pending[1..] == [];
    var closed := s.(resolved := true, pending := [], log := s.log + [Committed(1)]);
    assert RunOne(closed, 0, none) == closed.(log := closed.log + [Ran(0)]);
    assert RunAll(closed, s.pending, none) == RunOne(closed, 0, none);
    CommitExactlyWhen(calls);
    CommitSnoc(closed.log, Ran(0));
    CommitSnoc(s.log, Committed(1));
  }

  /** An action that begins a transaction makes the next one run while that transaction is still open. */
  lemma BeginningActionsBreakTheOrder() returns (calls: seq<Call>)
    ensures After(calls).log ==
      [Began(0), Registered(0), Registered(1), Committed(0), Ran(0), Began(1), Ran(1), Began(2)]
    ensures !AllTame(calls) && !Proper(After(calls).log)
  {
    var begins: nat -> seq<Inner> := (a: nat) => [Begins];
    var c0, c2 := AddPostCommitAction, Call.Resolve(true, begins);
    calls := [c0, c0, c2];
    ThreeCalls(c0, c0, c2);
    var s := Step(Step(Fresh, c0), c0);
    assert s.pending == [0, 1] && s.pending[1..] == [1] && [1][1..] == [];
    var closed := s.(resolved := true, pending := [], log := s.log + [Committed(0)]);
    var s1, s2 := RunOne(closed, 0, begins), RunOne(RunOne(closed, 0, begins), 1, begins);
    assert [Begins][1..] == [];
    assert s1.log == closed.log + [Ran(0)] + [Began(1)] && s2.log == s1.log + [Ran(1)] + [Began(2)];
    assert RunAll(closed, [0, 1], begins) == s2;
    assert s2.log[6] == Ran(1) && s2.log[..6][5] == Began(1);
    ProperExactlyWhen(calls);
  }

  /** The last action may begin one: nothing runs after it. */
  lemma TheLastActionMayBegin() returns (calls: seq<Call>)
    ensures After(calls).log == [Began(0), Registered(0), Committed(0), Ran(0), Began(1)] && AllTame(calls)
  {
    var begins: nat -> seq<Inner> := (a: nat) => [Begins];
    var c0, c1 := AddPostCommitAction, Call.Resolve(true, begins);
    calls := [c0, c1];
    assert calls[..1] == [c0] && [c0][..0] == [] && calls[..0] == [];
    assert After([]) == Fresh && After([c0]) == AddStep(Fresh);
    var s := AddStep(Fresh);
    assert s.pending == [0] && s.pending[1..] == [];
    var closed := s.(resolved := true, pending := [], log := s.log + [Committed(0)]);
    assert [Begins][1..] == [];
    assert RunOne(closed, 0, begins).log == closed.log + [Ran(0)] + [Began(1)];
    assert RunAll(closed, s.pending, begins) == RunOne(closed, 0, begins);
    assert forall i :: 0 <= i < 2 ==> Tame(After(calls[..i]), calls[i]);
  }
}
