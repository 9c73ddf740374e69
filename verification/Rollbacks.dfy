/**
 Which transactions are rolled back, told from the calls and the scripts of the actions that ran (pkg/db/context.go,
 pkg/db/connection.go).
 */
module Rollbacks {
  import opened Transactions

  /** What matters for a rollback: a transaction is opened, or the current one is marked. */
  datatype Deed = Opened | Marked

  /** What an action does, in its order. */
  function InnerDeeds(script: seq<Inner>): seq<Deed> {
    if script == [] then [] else Inside(script[0]) + InnerDeeds(script[1..])
  }

  function Inside(inner: Inner): seq<Deed> {
    match inner
    case Registers => []
    case Marks => [Marked]
    case Begins => [Opened]
  }

  /** What the actions that ran did. */
  function DeedsOf(events: seq<Event>, script: nat -> seq<Inner>): seq<Deed> {
    if events == [] then []
    else (if events[0].Ran? then InnerDeeds(script(events[0].action)) else []) + DeedsOf(events[1..], script)
  }

  /** The events of a log that are not in an earlier one. */
  function News(before: seq<Event>, after: seq<Event>): seq<Event> {
    if |before| <= |after| then after[|before|..] else []
  }

  /** The deeds of all calls, and of the actions that ran during them. */
  function Deeds(calls: seq<Call>): seq<Deed> {
    if calls == [] then [Opened]
    else
      var earlier := calls[..|calls| - 1];
      Deeds(earlier) +
        match calls[|calls| - 1]
        case Begin(opens, scans) => if opens && scans then [Opened] else []
        case AddPostCommitAction => []
        case MarkForRollback => [Marked]
        case Resolve(_, script) => DeedsOf(News(After(earlier).log, After(calls).log), script)
  }

  /** There is a mark since a transaction was last opened. */
  ghost predicate MarkedSince(deeds: seq<Deed>) {
    exists i :: 0 <= i < |deeds| && deeds[i] == Marked && forall j :: i < j < |deeds| ==> deeds[j] != Opened
  }

  /** The transaction was resolved, with or without success. */
  ghost predicate ResolvedIn(log: seq<Event>, tx: nat) {
    exists i :: 0 <= i < |log| && Resolves(log[i]) && log[i].tx == tx
  }

  lemma MarkedSnoc(deeds: seq<Deed>)
    ensures MarkedSince(deeds + [Marked]) && !MarkedSince(deeds + [Opened])
  {
    var d := deeds + [Marked];
    assert d[|deeds|] == Marked;
    assert (deeds + [Opened])[|deeds|] == Opened;
  }

  /** The flag says what the deeds say. */
  ghost predicate Told(s: State, deeds: seq<Deed>) { s.rollbackFlag <==> MarkedSince(deeds) }

  ghost predicate RunsNothing(events: seq<Event>) { forall i :: 0 <= i < |events| ==> !events[i].Ran? }

  lemma {:induction false} NoDeeds(events: seq<Event>, script: nat -> seq<Inner>)
    requires RunsNothing(events)
    ensures DeedsOf(events, script) == []
    decreases |events|
  {
    if events != [] { NoDeeds(events[1..], script); }
  }

  lemma {:induction false} DeedsAppend(a: seq<Event>, b: seq<Event>, script: nat -> seq<Inner>)
    ensures DeedsOf(a + b, script) == DeedsOf(a, script) + DeedsOf(b, script)
    decreases |a|
  {
    if a == [] {
      assert a + b == b;
    } else {
      assert (a + b)[1..] == a[1..] + b;
      DeedsAppend(a[1..], b, script);
    }
  }

  lemma DeedsAssociate(a: seq<Deed>, b: seq<Deed>, c: seq<Deed>)
    ensures (a + b) + c == a + (b + c)
  {
  }

  lemma DoTold(s: State, inner: Inner, deeds: seq<Deed>)
    requires Told(s, deeds)
    ensures Told(Do(s, inner), deeds + Inside(inner))
    ensures s.log <= Do(s, inner).log && RunsNothing(News(s.log, Do(s, inner).log))
  {
    MarkedSnoc(deeds);
    assert deeds + [] == deeds;
  }

  lemma NewsJoin(a: seq<Event>, b: seq<Event>, c: seq<Event>)
    requires a <= b <= c
    ensures a <= c && News(a, c) == News(a, b) + News(b, c)
  {
  }

  lemma {:induction false} DoAllTold(s: State, script: seq<Inner>, deeds: seq<Deed>)
    requires Told(s, deeds)
    ensures Told(DoAll(s, script), deeds + InnerDeeds(script))
    ensures s.log <= DoAll(s, script).log && RunsNothing(News(s.log, DoAll(s, script).log))
    decreases |script|
  {
    if script == [] {
      assert deeds + [] == deeds;
    } else {
      var t := Do(s, script[0]);
      DoTold(s, script[0], deeds);
      DoAllTold(t, script[1..], deeds + Inside(script[0]));
      NewsJoin(s.log, t.log, DoAll(s, script).log);
      DeedsAssociate(deeds, Inside(script[0]), InnerDeeds(script[1..]));
    }
  }

  lemma RunOneTold(s: State, a: nat, script: nat -> seq<Inner>, deeds: seq<Deed>)
    requires Told(s, deeds)
    ensures var t := RunOne(s, a, script);
      s.log <= t.log && Told(t, deeds + DeedsOf(News(s.log, t.log), script))
  {
    var r := s.(log := s.log + [Ran(a)]);
    var t := RunOne(s, a, script);
    DoAllTold(r, script(a), deeds);
    NewsJoin(s.log, r.log, t.log);
    assert News(s.log, r.log) == [Ran(a)];
    DeedsAppend([Ran(a)], News(r.log, t.log), script);
    NoDeeds(News(r.log, t.log), script);
    assert [Ran(a)][1..] == [] && DeedsOf([], script) == [];
    assert DeedsOf(News(s.log, t.log), script) == InnerDeeds(script(a));
  }

  lemma {:induction false} RunAllTold(s: State, actions: seq<nat>, script: nat -> seq<Inner>, deeds: seq<Deed>)
    requires Told(s, deeds)
    ensures var t := RunAll(s, actions, script);
      s.log <= t.log && Told(t, deeds + DeedsOf(News(s.log, t.log), script))
    decreases |actions|
  {
    if actions == [] {
      assert News(s.log, s.log) == [] && deeds + [] == deeds;
    } else {
      var r := RunOne(s, actions[0], script);
      var first := DeedsOf(News(s.log, r.log), script);
      RunOneTold(s, actions[0], script, deeds);
      RunAllTold(r, actions[1..], script, deeds + first);
      var t := RunAll(s, actions, script);
      NewsJoin(s.log, r.log, t.log);
      DeedsAppend(News(s.log, r.log), News(r.log, t.log), script);
      DeedsAssociate(deeds, first, DeedsOf(News(r.log, t.log), script));
    }
  }

  lemma ResolveTold(s: State, succeeds: bool, script: nat -> seq<Inner>, deeds: seq<Deed>)
    requires Told(s, deeds)
    ensures var t := ResolveStep(s, succeeds, script);
      s.log <= t.log && Told(t, deeds + DeedsOf(News(s.log, t.log), script))
  {
    var t := ResolveStep(s, succeeds, script);
    var e := Outcome(s, succeeds);
    var closed := s.(resolved := true, pending := [], log := s.log + [e]);
    if s.resolved {
      assert News(s.log, t.log) == [] && deeds + [] == deeds;
    } else {
      assert News(s.log, closed.log) == [e];
      NoDeeds([e], script);
      assert deeds + [] == deeds;
      if e.Committed? {
        RunAllTold(closed, s.pending, script, deeds);
        NewsJoin(s.log, closed.log, t.log);
        DeedsAppend([e], News(closed.log, t.log), script);
        assert [] + DeedsOf(News(closed.log, t.log), script) == DeedsOf(News(closed.log, t.log), script);
      }
    }
  }

  lemma {:induction false} AnyCallsTold(calls: seq<Call>)
    ensures Told(After(calls), Deeds(calls))
  {
    if calls == [] {
      MarkedSnoc([]);
      assert [] + [Opened] == [Opened];
    } else {
      var earlier, c := calls[..|calls| - 1], calls[|calls| - 1];
      AnyCallsTold(earlier);
      MarkedSnoc(Deeds(earlier));
      assert Deeds(earlier) + [] == Deeds(earlier);
      if c.Resolve? { ResolveTold(After(earlier), c.succeeds, c.script, Deeds(earlier)); }
    }
  }

  /** The current transaction counts as resolved only if the log has its resolution. */
  ghost predicate Seen(s: State) { Rooted(s) && s.tx == Current(s.log) && (s.resolved ==> ResolvedIn(s.log, s.tx)) }

  lemma SeenSnoc(s: State, t: State, e: Event)
    requires Seen(s) && t.log == s.log + [e] && !e.Began? && t.tx == s.tx
    requires t.resolved ==> s.resolved || (Resolves(e) && e.tx == s.tx)
    ensures Seen(t)
  {
    assert (s.log + [e])[..|s.log|] == s.log;
    if t.resolved {
      if s.resolved {
        var i :| 0 <= i < |s.log| && Resolves(s.log[i]) && s.log[i].tx == s.tx;
        assert t.log[i] == s.log[i];
      } else {
        assert t.log[|s.log|] == e;
      }
    }
  }

  lemma DoSeen(s: State, inner: Inner)
    requires Seen(s)
    ensures Seen(Do(s, inner))
  {
    match inner
    case Registers => SeenSnoc(s, AddStep(s), Registered(s.registered));
    case Marks =>
    case Begins => BeginSeen(s, true, true);
  }

  lemma BeginSeen(s: State, opens: bool, scans: bool)
    requires Seen(s)
    ensures Seen(BeginStep(s, opens, scans))
  {
    if opens && !scans { SeenSnoc(s, BeginStep(s, opens, scans), Abandoned(s.handles)); }
  }

  lemma {:induction false} DoAllSeen(s: State, script: seq<Inner>)
    requires Seen(s)
    ensures Seen(DoAll(s, script))
    decreases |script|
  {
    if script != [] {
      DoSeen(s, script[0]);
      DoAllSeen(Do(s, script[0]), script[1..]);
    }
  }

  lemma {:induction false} RunAllSeen(s: State, actions: seq<nat>, script: nat -> seq<Inner>)
    requires Seen(s)
    ensures Seen(RunAll(s, actions, script))
    decreases |actions|
  {
    if actions != [] {
      var r := s.(log := s.log + [Ran(actions[0])]);
      SeenSnoc(s, r, Ran(actions[0]));
      DoAllSeen(r, script(actions[0]));
      RunAllSeen(RunOne(s, actions[0], script), actions[1..], script);
    }
  }

  lemma ResolveSeen(s: State, succeeds: bool, script: nat -> seq<Inner>)
    requires Seen(s)
    ensures Seen(ResolveStep(s, succeeds, script))
  {
    if !s.resolved {
      var e := Outcome(s, succeeds);
      var closed := s.(resolved := true, pending := [], log := s.log + [e]);
      SeenSnoc(s, closed, e);
      RunAllSeen(closed, s.pending, script);
    }
  }

  lemma {:induction false} AnyCallsSeen(calls: seq<Call>)
    ensures Seen(After(calls))
  {
    if calls != [] {
      var s, c := After(calls[..|calls| - 1]), calls[|calls| - 1];
      AnyCallsSeen(calls[..|calls| - 1]);
      match c
      case Begin(opens, scans) => BeginSeen(s, opens, scans);
      case AddPostCommitAction => SeenSnoc(s, AddStep(s), Registered(s.registered));
      case MarkForRollback =>
      case Resolve(succeeds, script) => ResolveSeen(s, succeeds, script);
    }
  }

  /** How a transaction ends: it is rolled back if it was marked and committed otherwise. */
  function Ending(marked: bool, succeeds: bool, tx: nat): Event {
    match (marked, succeeds)
    case (true, true) => RolledBack(tx)
    case (true, false) => RollbackFailed(tx)
    case (false, true) => Committed(tx)
    case (false, false) => CommitFailed(tx)
  }

  lemma ResolvedIffSeen(calls: seq<Call>)
    ensures After(calls).resolved <==> ResolvedIn(After(calls).log, Current(After(calls).log))
    ensures After(calls).tx == Current(After(calls).log)
  {
    AnyCalls(calls);
    AnyCallsSeen(calls);
  }

  lemma ResolveLogs(s: State, succeeds: bool, script: nat -> seq<Inner>, deeds: seq<Deed>)
    requires Told(s, deeds)
    ensures var after, e := ResolveStep(s, succeeds, script).log, Outcome(s, succeeds);
      if s.resolved then after == s.log else s.log + [e] <= after && (!e.Committed? ==> after == s.log + [e])
  {
    if !s.resolved {
      var closed := s.(resolved := true, pending := [], log := s.log + [Outcome(s, succeeds)]);
      RunAllTold(closed, s.pending, script, deeds);
    }
  }

  lemma OutcomeIsEnding(s: State, succeeds: bool, deeds: seq<Deed>)
    requires Told(s, deeds)
    ensures Outcome(s, succeeds) == Ending(MarkedSince(deeds), succeeds, s.tx)
  {
  }

  /**
   After any calls, Resolve does nothing to a resolved transaction. It rolls back the current one if and only if
   MarkForRollback was called, or an action marked it, since it was opened. Otherwise it commits it, and only then
   anything follows.
   */
  lemma ResolveFollowsTheMarks(calls: seq<Call>, succeeds: bool, script: nat -> seq<Inner>)
    ensures
      var log, after := After(calls).log, After(calls + [Resolve(succeeds, script)]).log;
      var ending := Ending(MarkedSince(Deeds(calls)), succeeds, Current(log));
      if ResolvedIn(log, Current(log)) then after == log
      else log + [ending] <= after && (!ending.Committed? ==> after == log + [ending])
  {
    var s, deeds := After(calls), Deeds(calls);
    assert (calls + [Resolve(succeeds, script)])[..|calls|] == calls;
    AnyCallsTold(calls);
    ResolvedIffSeen(calls);
    ResolveLogs(s, succeeds, script, deeds);
    OutcomeIsEnding(s, succeeds, deeds);
  }

  // ---------------------------------------------------------------------------------------------
  // Which actions run
  // ---------------------------------------------------------------------------------------------

  /** What the log says of an action: whether a transaction was resolved since its registration, and how. */
  datatype Fate = Unknown | Open | Due | Dropped

  function FateOf(log: seq<Event>, a: nat): Fate {
    if log == [] then Unknown
    else
      var before, e := FateOf(log[..|log| - 1], a), log[|log| - 1];
      if e == Registered(a) then Open
      else if before == Open && Resolves(e) then (if e.Committed? then Due else Dropped)
      else before
  }

  lemma FateSnoc(log: seq<Event>, e: Event, a: nat)
    ensures FateOf(log + [e], a) ==
      if e == Registered(a) then Open
      else if FateOf(log, a) == Open && Resolves(e) then (if e.Committed? then Due else Dropped)
      else FateOf(log, a)
  {
    assert (log + [e])[..|log|] == log;
  }

  /** Pending are the actions with no resolution since; due are those that have run or are next in line. */
  ghost predicate Accounted(s: State, rest: seq<nat>) {
    forall a: nat :: (a in s.pending <==> FateOf(s.log, a) == Open)
      && (Ran(a) in s.log || a in rest <==> FateOf(s.log, a) == Due)
  }

  lemma QuietSnoc(s: State, t: State, e: Event, rest: seq<nat>)
    requires Accounted(s, rest) && t.log == s.log + [e] && t.pending == s.pending
    requires !Resolves(e) && !e.Registered? && !e.Ran?
    ensures Accounted(t, rest)
  {
    forall a: nat ensures FateOf(t.log, a) == FateOf(s.log, a) { FateSnoc(s.log, e, a); }
  }

  lemma RegisterAccounts(s: State, rest: seq<nat>)
    requires Accounted(s, rest) && Holds(s, rest)
    ensures Accounted(AddStep(s), rest)
  {
    var e, t := Registered(s.registered), AddStep(s);
    forall a: nat
      ensures FateOf(t.log, a) == if a == s.registered then Open else FateOf(s.log, a)
    {
      FateSnoc(s.log, e, a);
    }
    NotYetHere(s, rest);
  }

  /** The next action to be registered is neither in line nor has it run. */
  lemma NotYetHere(s: State, rest: seq<nat>)
    requires Holds(s, rest)
    ensures s.registered !in rest && s.registered !in s.pending && Ran(s.registered) !in s.log
  {
    var q := rest + s.pending;
    assert forall a :: a in q ==> a < s.registered;
    assert forall a :: a in rest || a in s.pending ==> a in q;
  }

  lemma BeginAccounts(s: State, opens: bool, scans: bool, rest: seq<nat>)
    requires Accounted(s, rest)
    ensures Accounted(BeginStep(s, opens, scans), rest)
  {
    if opens {
      QuietSnoc(s, BeginStep(s, opens, scans), if scans then Began(s.handles) else Abandoned(s.handles), rest);
    }
  }

  lemma {:induction false} DoAllAccounts(s: State, script: seq<Inner>, rest: seq<nat>)
    requires Accounted(s, rest) && Holds(s, rest)
    ensures Accounted(DoAll(s, script), rest)
    decreases |script|
  {
    if script != [] {
      RegisterAccounts(s, rest);
      BeginAccounts(s, true, true, rest);
      AddKeeps(s, rest);
      BeginKeeps(s, true, true, rest);
      DoAllAccounts(Do(s, script[0]), script[1..], rest);
    }
  }

  lemma RanAccounts(s: State, t: State, rest: seq<nat>)
    requires Accounted(s, rest) && rest != [] && t == s.(log := s.log + [Ran(rest[0])])
    ensures Accounted(t, rest[1..])
  {
    assert rest == [rest[0]] + rest[1..];
    forall a: nat ensures FateOf(t.log, a) == FateOf(s.log, a) { FateSnoc(s.log, Ran(rest[0]), a); }
  }

  lemma {:induction false} RunAllAccounts(s: State, rest: seq<nat>, script: nat -> seq<Inner>)
    requires Accounted(s, rest) && Holds(s, rest)
    ensures Accounted(RunAll(s, rest, script), [])
    decreases |rest|
  {
    if rest != [] {
      var t := s.(log := s.log + [Ran(rest[0])]);
      RanAccounts(s, t, rest);
      RanKeeps(s, t, rest);
      DoAllAccounts(t, script(rest[0]), rest[1..]);
      DoAllKeeps(t, rest[1..], script(rest[0]));
      RunAllAccounts(RunOne(s, rest[0], script), rest[1..], script);
    }
  }

  lemma CloseAccounts(s: State, e: Event, t: State)
    requires Accounted(s, []) && Resolves(e) && t == s.(resolved := true, pending := [], log := s.log + [e])
    ensures Accounted(t, if e.Committed? then s.pending else [])
  {
    forall a: nat
      ensures FateOf(t.log, a) ==
        if FateOf(s.log, a) == Open then (if e.Committed? then Due else Dropped) else FateOf(s.log, a)
    {
      FateSnoc(s.log, e, a);
    }
  }

  lemma ResolveAccounts(s: State, succeeds: bool, script: nat -> seq<Inner>)
    requires Accounted(s, []) && Holds(s, [])
    ensures Accounted(ResolveStep(s, succeeds, script), [])
  {
    if !s.resolved {
      var e := Outcome(s, succeeds);
      var closed := s.(resolved := true, pending := [], log := s.log + [e]);
      CloseAccounts(s, e, closed);
      if e.Committed? {
        CloseKeeps(s, e, closed);
        RunAllAccounts(closed, s.pending, script);
      }
    }
  }

  lemma {:induction false} AnyCallsAccount(calls: seq<Call>)
    ensures Accounted(After(calls), [])
  {
    if calls == [] {
      assert [] + [Began(0)] == Fresh.log;
      forall a: nat ensures FateOf(Fresh.log, a) == Unknown { FateSnoc([], Began(0), a); }
    } else {
      var earlier, c := calls[..|calls| - 1], calls[|calls| - 1];
      var s := After(earlier);
      AnyCallsAccount(earlier);
      AnyCalls(earlier);
      match c
      case Begin(opens, scans) => BeginAccounts(s, opens, scans, []);
      case AddPostCommitAction => RegisterAccounts(s, []);
      case MarkForRollback =>
      case Resolve(succeeds, script) => ResolveAccounts(s, succeeds, script);
    }
  }

  /** The first resolution of a transaction after `j`. */
  ghost predicate ResolvesFirst(log: seq<Event>, j: nat, i: nat) {
    j < i < |log| && Resolves(log[i]) && forall k :: j < k < i ==> !Resolves(log[k])
  }

  /** The fate of an action that is registered once, at `j`. */
  lemma {:induction false} FateByResolution(log: seq<Event>, j: nat)
    requires j < |log| && log[j].Registered?
    requires forall k :: 0 <= k < |log| && log[k] == log[j] ==> k == j
    ensures FateOf(log, log[j].action) == Due <==> exists i: nat :: ResolvesFirst(log, j, i) && log[i].Committed?
    ensures FateOf(log, log[j].action) == Open <==> forall i :: j < i < |log| ==> !Resolves(log[i])
    decreases |log|
  {
    var front, a := log[..|log| - 1], log[j].action;
    assert front + [log[|log| - 1]] == log;
    if j < |log| - 1 {
      FateByResolution(front, j);
      FateSnoc(front, log[|log| - 1], a);
      FrontResolves(log, front, j);
    }
  }

  lemma FrontResolves(log: seq<Event>, front: seq<Event>, j: nat)
    requires log != [] && front == log[..|log| - 1] && j < |front|
    ensures forall i: nat :: i < |front| ==> (ResolvesFirst(log, j, i) <==> ResolvesFirst(front, j, i))
    ensures ResolvesFirst(log, j, |front|) <==>
      Resolves(log[|front|]) && forall k :: j < k < |front| ==> !Resolves(front[k])
  {
  }

  /**
   After any calls, whatever the actions do: an action has run if and only if the first transaction that was resolved
   after its registration was committed. A rollback or a failure in between drops it for good.
   */
  lemma RunsIffCommittedNext(calls: seq<Call>, j: nat)
    requires j < |After(calls).log| && After(calls).log[j].Registered?
    ensures var log := After(calls).log;
      Ran(log[j].action) in log <==> exists i: nat :: ResolvesFirst(log, j, i) && log[i].Committed?
  {
    AnyCalls(calls);
    AnyCallsAccount(calls);
    FateByResolution(After(calls).log, j);
  }
}
