/**
 The regex-labelled state machine of the search filter and its builder
 (pkg/services/queryparser/statemachine.go, statemachine_builder.go, and the grammar table of
 query_parser.go). States are addressed by name; each anchored pattern is a predicate on strings.
 */
module StateMachine {
  import opened Optional

  datatype Name =
    | StartState | EndState
    | OpenBrace | ClosedBrace | Column | Value | QuotedValue | Eq | NotEq | Like | And | Or

  datatype Family = NoFamily | BraceFamily | OpFamily | LogicalFamily | ColumnFamily | ValueFamily | QuotedFamily

  /** One constructor per accept pattern; Exactly and AnyCase stand for literal words. */
  datatype Pattern = Exactly(word: string) | AnyCase(lower: string) | Identifier | Bare | Quoted

  function Lower(c: char): char {
    if 'A' <= c <= 'Z' then (c as int + 32) as char else c
  }

  function ToLower(s: string): (r: string)
    ensures |r| == |s| && forall i :: 0 <= i < |s| ==> r[i] == Lower(s[i])
  {
    if s == "" then "" else [Lower(s[0])] + ToLower(s[1..])
  }

  predicate IsLetter(c: char) { 'a' <= c <= 'z' || 'A' <= c <= 'Z' }

  predicate IsWordChar(c: char) { IsLetter(c) || '0' <= c <= '9' || c == '_' }

  /** [A-Za-z][A-Za-z0-9_]* */
  predicate IsIdentifier(tok: string) {
    tok != "" && IsLetter(tok[0]) && forall i :: 1 <= i < |tok| ==> IsWordChar(tok[i])
  }

  /** [^'][^ ^(^)]*: the first character may be anything but a quote, a brace included. */
  predicate IsBareValue(tok: string) {
    && tok != "" && tok[0] != '\''
    && forall i :: 1 <= i < |tok| ==> tok[i] != ' ' && tok[i] != '^' && tok[i] != '(' && tok[i] != ')'
  }

  /** '([^']|\\')*': between the outer quotes, every quote follows a backslash. */
  predicate IsQuotedValue(tok: string) {
    && |tok| >= 2 && tok[0] == '\'' && tok[|tok| - 1] == '\''
    && forall i :: 1 <= i < |tok| - 1 && tok[i] == '\'' ==> tok[i - 1] == '\\'
  }

  predicate Matches(p: Pattern, tok: string) {
    match p
    case Exactly(word) => tok == word
    case AnyCase(lower) => ToLower(tok) == lower
    case Identifier => IsIdentifier(tok)
    case Bare => IsBareValue(tok)
    case Quoted => IsQuotedValue(tok)
  }

  datatype TokenDefinition = TokenDefinition(name: Name, family: Family, pattern: Pattern)

  datatype TransitionDefinition = TransitionDefinition(from: Name, targets: seq<Name>)

  datatype Grammar = Grammar(tokens: seq<TokenDefinition>, transitions: seq<TransitionDefinition>)

  datatype State = State(family: Family, pattern: Pattern, last: bool, isEof: bool, next: seq<Name>)

  type Machine = map<Name, State>

  // ---------------------------------------------------------------------------------------------
  // The builder
  // ---------------------------------------------------------------------------------------------

  /** The states before any transition is added; a later definition replaces an earlier one. */
  function TokenMap(tokens: seq<TokenDefinition>): Machine {
    if tokens == [] then
      map[StartState := State(NoFamily, Exactly(""), false, false, []),
          EndState := State(NoFamily, Exactly(""), false, true, [])]
    else
      var t := tokens[|tokens| - 1];
      TokenMap(tokens[..|tokens| - 1])[t.name := State(t.family, t.pattern, false, false, [])]
  }

  /** The targets that are states; an end state only marks its source as a possible last token. */
  function Kept(m: Machine, targets: seq<Name>): seq<Name>
    requires forall t :: t in targets ==> t in m
  {
    if targets == [] then []
    else
      var t := targets[|targets| - 1];
      Kept(m, targets[..|targets| - 1]) + (if m[t].isEof then [] else [t])
  }

  predicate Ends(m: Machine, targets: seq<Name>)
    requires forall t :: t in targets ==> t in m
  {
    exists t :: t in targets && m[t].isEof
  }

  ghost predicate Declared(m: Machine, transitions: seq<TransitionDefinition>) {
    forall k :: 0 <= k < |transitions| ==>
      transitions[k].from in m && forall t :: t in transitions[k].targets ==> t in m
  }

  /** The successors of `name`, over all its transition entries in order. */
  ghost function Successors(m: Machine, transitions: seq<TransitionDefinition>, name: Name): seq<Name>
    requires Declared(m, transitions)
  {
    if transitions == [] then []
    else
      var d := transitions[|transitions| - 1];
      Successors(m, transitions[..|transitions| - 1], name) + (if d.from == name then Kept(m, d.targets) else [])
  }

  ghost predicate MayEnd(m: Machine, transitions: seq<TransitionDefinition>, name: Name)
    requires Declared(m, transitions)
  {
    exists k :: 0 <= k < |transitions| && transitions[k].from == name && Ends(m, transitions[k].targets)
  }

  ghost predicate Built(m: Machine, base: Machine, transitions: seq<TransitionDefinition>)
    requires Declared(base, transitions)
  {
    && m.Keys == base.Keys
    && forall n :: n in base ==>
         m[n] == base[n].(next := Successors(base, transitions, n), last := MayEnd(base, transitions, n))
  }

  lemma TokenMapFresh(tokens: seq<TokenDefinition>)
    ensures var m := TokenMap(tokens); StartState in m && EndState in m
    ensures forall n :: n in TokenMap(tokens) ==> TokenMap(tokens)[n].next == [] && !TokenMap(tokens)[n].last
  {
  }

  method BuildTokens(tokens: seq<TokenDefinition>) returns (m: Machine)
    ensures m == TokenMap(tokens)
  {
    m := map[StartState := State(NoFamily, Exactly(""), false, false, []),
             EndState := State(NoFamily, Exactly(""), false, true, [])];
    for i := 0 to |tokens|
      invariant m == TokenMap(tokens[..i])
    {
      assert tokens[..i + 1][..i] == tokens[..i];
      m := m[tokens[i].name := State(tokens[i].family, tokens[i].pattern, false, false, [])];
    }
    assert tokens[..|tokens|] == tokens;
  }

  /** A state with the targets of one table entry added. */
  ghost function Extended(state: State, base: Machine, targets: seq<Name>): State
    requires forall t :: t in targets ==> t in base
  {
    state.(next := state.next + Kept(base, targets), last := state.last || Ends(base, targets))
  }

  lemma ExtendedSnoc(state: State, base: Machine, targets: seq<Name>, j: nat)
    requires j < |targets| && forall t :: t in targets ==> t in base
    ensures var before := Extended(state, base, targets[..j]);
      Extended(state, base, targets[..j + 1]) ==
        if base[targets[j]].isEof then before.(last := true) else before.(next := before.next + [targets[j]])
  {
    assert targets[..j + 1][..j] == targets[..j];
    assert targets[..j + 1] == targets[..j] + [targets[j]];
  }

  /** Adds one entry of the transition table; `base` is the map before any transition was added. */
  method AddTransitions(m0: Machine, d: TransitionDefinition, ghost base: Machine) returns (m: Machine)
    requires m0.Keys == base.Keys && d.from in base && forall t :: t in d.targets ==> t in base
    requires forall n :: n in base ==> m0[n].isEof == base[n].isEof
    ensures m == m0[d.from := Extended(m0[d.from], base, d.targets)]
  {
    m := m0;
    ghost var was := m0[d.from];
    assert d.targets[..0] == [] && was.next + [] == was.next;
    assert Extended(was, base, d.targets[..0]) == was;
    for j := 0 to |d.targets|
      invariant m == m0[d.from := Extended(was, base, d.targets[..j])]
    {
      var target, state := d.targets[j], m[d.from];
      ExtendedSnoc(was, base, d.targets, j);
      m := m[d.from := if m[target].isEof then state.(last := true) else state.(next := state.next + [target])];
      assert m == m0[d.from := m[d.from]];
    }
    assert d.targets[..|d.targets|] == d.targets;
  }

  lemma SuccessorsSnoc(base: Machine, transitions: seq<TransitionDefinition>, k: nat, n: Name)
    requires k < |transitions| && Declared(base, transitions)
    ensures var d := transitions[k];
      Successors(base, transitions[..k + 1], n) ==
        Successors(base, transitions[..k], n) + (if d.from == n then Kept(base, d.targets) else [])
  {
    assert transitions[..k + 1][..k] == transitions[..k];
  }

  lemma MayEndSnoc(base: Machine, transitions: seq<TransitionDefinition>, k: nat, n: Name)
    requires k < |transitions| && Declared(base, transitions)
    ensures var d := transitions[k];
      MayEnd(base, transitions[..k + 1], n) <==>
        (MayEnd(base, transitions[..k], n) || (d.from == n && Ends(base, d.targets)))
  {
    var before, after := transitions[..k], transitions[..k + 1];
    assert after[k] == transitions[k] && forall j :: 0 <= j < k ==> after[j] == before[j];
    if MayEnd(base, before, n) {
      var j :| 0 <= j < k && before[j].from == n && Ends(base, before[j].targets);
      assert after[j].from == n;
    }
  }

  lemma BuiltSnoc(m: Machine, base: Machine, transitions: seq<TransitionDefinition>, k: nat, m': Machine)
    requires k < |transitions| && Declared(base, transitions)
    requires Built(m, base, transitions[..k])
    requires var d := transitions[k];
      m' == m[d.from := Extended(m[d.from], base, d.targets)]
    ensures Built(m', base, transitions[..k + 1])
  {
    var after := transitions[..k + 1];
    forall n | n in base
      ensures m'[n] == base[n].(next := Successors(base, after, n), last := MayEnd(base, after, n))
    {
      SuccessorsSnoc(base, transitions, k, n);
      MayEndSnoc(base, transitions, k, n);
    }
  }

  /**
   The source's Build: every state keeps its definition and gets its successors in table order. The
   source fails on a name that was not declared, so names must be declared.
   */
  method Build(g: Grammar) returns (m: Machine)
    requires Declared(TokenMap(g.tokens), g.transitions)
    ensures Built(m, TokenMap(g.tokens), g.transitions)
  {
    m := BuildTokens(g.tokens);
    ghost var base := m;
    TokenMapFresh(g.tokens);
    for k := 0 to |g.transitions|
      invariant Built(m, base, g.transitions[..k])
    {
      ghost var before := m;
      m := AddTransitions(m, g.transitions[k], base);
      BuiltSnoc(before, base, g.transitions, k, m);
    }
    assert g.transitions[..|g.transitions|] == g.transitions;
  }

  /** The first successor that accepts `tok`. */
  function FirstAccepting(m: Machine, next: seq<Name>, tok: string): Option<Name>
    requires forall n :: n in next ==> n in m
  {
    if next == [] then None
    else if Matches(m[next[0]].pattern, tok) then Some(next[0])
    else FirstAccepting(m, next[1..], tok)
  }

  /** The search of state.parse. */
  method Accepting(m: Machine, next: seq<Name>, tok: string) returns (r: Option<Name>)
    requires forall n :: n in next ==> n in m
    ensures r == FirstAccepting(m, next, tok)
  {
    for i := 0 to |next|
      invariant FirstAccepting(m, next, tok) == FirstAccepting(m, next[i..], tok)
    {
      if Matches(m[next[i]].pattern, tok) {
        return Some(next[i]);
      }
      assert next[i..][1..] == next[i + 1..];
    }
    r := None;
  }

  // ---------------------------------------------------------------------------------------------
  // The filter grammar
  // ---------------------------------------------------------------------------------------------

  const FilterTokens: seq<TokenDefinition> := [
    TokenDefinition(OpenBrace, BraceFamily, Exactly("(")),
    TokenDefinition(ClosedBrace, BraceFamily, Exactly(")")),
    TokenDefinition(Column, ColumnFamily, Identifier),
    TokenDefinition(Value, ValueFamily, Bare),
    TokenDefinition(QuotedValue, QuotedFamily, Quoted),
    TokenDefinition(Eq, OpFamily, Exactly("=")),
    TokenDefinition(NotEq, OpFamily, Exactly("<>")),
    TokenDefinition(Like, OpFamily, AnyCase("like")),
    TokenDefinition(And, LogicalFamily, AnyCase("and")),
    TokenDefinition(Or, LogicalFamily, AnyCase("or"))
  ]

  const FilterTransitions: seq<TransitionDefinition> := [
    TransitionDefinition(StartState, [Column, OpenBrace]),
    TransitionDefinition(OpenBrace, [Column, OpenBrace]),
    TransitionDefinition(Column, [Eq, NotEq, Like]),
    TransitionDefinition(Eq, [QuotedValue, Value]),
    TransitionDefinition(NotEq, [QuotedValue, Value]),
    TransitionDefinition(Like, [QuotedValue, Value]),
    TransitionDefinition(QuotedValue, [Or, And, ClosedBrace, EndState]),
    TransitionDefinition(Value, [Or, And, ClosedBrace, EndState]),
    TransitionDefinition(ClosedBrace, [Or, And, ClosedBrace, EndState]),
    TransitionDefinition(And, [Column, OpenBrace]),
    TransitionDefinition(Or, [Column, OpenBrace])
  ]

  const FilterGrammar := Grammar(FilterTokens, FilterTransitions)

  predicate WantsTerm(s: Name) { s == StartState || s == OpenBrace || s == And || s == Or }

  predicate AfterOp(s: Name) { s == Eq || s == NotEq || s == Like }

  predicate AfterTerm(s: Name) { s == Value || s == QuotedValue || s == ClosedBrace }

  /** The machine in closed form: the only state a token can lead to. */
  function NextState(s: Name, tok: string): Option<Name> {
    if WantsTerm(s) then
      if IsIdentifier(tok) then Some(Column) else if tok == "(" then Some(OpenBrace) else None
    else if s == Column then
      if tok == "=" then Some(Eq) else if tok == "<>" then Some(NotEq)
      else if ToLower(tok) == "like" then Some(Like) else None
    else if AfterOp(s) then
      if IsQuotedValue(tok) then Some(QuotedValue) else if IsBareValue(tok) then Some(Value) else None
    else if AfterTerm(s) then
      if ToLower(tok) == "or" then Some(Or) else if ToLower(tok) == "and" then Some(And)
      else if tok == ")" then Some(ClosedBrace) else None
    else None
  }

  function FamilyOf(s: Name): Family {
    match s
    case OpenBrace => BraceFamily case ClosedBrace => BraceFamily
    case Column => ColumnFamily case Value => ValueFamily case QuotedValue => QuotedFamily
    case Eq => OpFamily case NotEq => OpFamily case Like => OpFamily
    case And => LogicalFamily case Or => LogicalFamily
    case _ => NoFamily
  }

  function PatternOf(s: Name): Pattern {
    match s
    case OpenBrace => Exactly("(") case ClosedBrace => Exactly(")")
    case Column => Identifier case Value => Bare case QuotedValue => Quoted
    case Eq => Exactly("=") case NotEq => Exactly("<>") case Like => AnyCase("like")
    case And => AnyCase("and") case Or => AnyCase("or")
    case _ => Exactly("")
  }

  lemma {:induction false} TokenMapAt(tokens: seq<TokenDefinition>, i: nat)
    requires i < |tokens| && forall j :: i < j < |tokens| ==> tokens[j].name != tokens[i].name
    ensures tokens[i].name in TokenMap(tokens)
    ensures TokenMap(tokens)[tokens[i].name] == State(tokens[i].family, tokens[i].pattern, false, false, [])
  {
    if i < |tokens| - 1 {
      TokenMapAt(tokens[..|tokens| - 1], i);
    }
  }

  lemma {:induction false} TokenMapReserved(tokens: seq<TokenDefinition>)
    requires forall j :: 0 <= j < |tokens| ==> tokens[j].name != EndState && tokens[j].name != StartState
    ensures StartState in TokenMap(tokens) && TokenMap(tokens)[StartState] == TokenMap([])[StartState]
    ensures EndState in TokenMap(tokens) && TokenMap(tokens)[EndState] == TokenMap([])[EndState]
  {
    if tokens != [] {
      TokenMapReserved(tokens[..|tokens| - 1]);
    }
  }

  /** A state with a single entry in the table has exactly that entry's targets as successors. */
  lemma {:induction false} SingleEntry(m: Machine, transitions: seq<TransitionDefinition>, i: nat)
    requires Declared(m, transitions) && i < |transitions|
    requires forall j :: 0 <= j < |transitions| && j != i ==> transitions[j].from != transitions[i].from
    ensures Successors(m, transitions, transitions[i].from) == Kept(m, transitions[i].targets)
    ensures MayEnd(m, transitions, transitions[i].from) <==> Ends(m, transitions[i].targets)
  {
    var last := |transitions| - 1;
    if i < last {
      SingleEntry(m, transitions[..last], i);
    } else {
      NoEntry(m, transitions[..last], transitions[i].from);
    }
  }

  lemma {:induction false} NoEntry(m: Machine, transitions: seq<TransitionDefinition>, name: Name)
    requires Declared(m, transitions)
    requires forall j :: 0 <= j < |transitions| ==> transitions[j].from != name
    ensures Successors(m, transitions, name) == []
  {
    if transitions != [] {
      NoEntry(m, transitions[..|transitions| - 1], name);
    }
  }

  /** The states of the filter grammar, as defined by its token table. */
  ghost predicate IsFilterBase(m: Machine) {
    forall n: Name ::
      n in m && m[n].family == FamilyOf(n) && m[n].pattern == PatternOf(n) && (m[n].isEof <==> n == EndState)
  }

  /** Where the token table defines a state. */
  function TokenIndex(s: Name): nat {
    match s
    case OpenBrace => 0 case ClosedBrace => 1 case Column => 2 case Value => 3 case QuotedValue => 4 case Eq => 5
    case NotEq => 6 case Like => 7 case And => 8 case Or => 9 case StartState => 10 case EndState => 11
  }

  lemma TokenEntry(i: nat)
    requires i < |FilterTokens|
    ensures var d := FilterTokens[i];
      TokenIndex(d.name) == i && d.family == FamilyOf(d.name) && d.pattern == PatternOf(d.name)
  {
    if i == 0 {} else if i == 1 {} else if i == 2 {} else if i == 3 {} else if i == 4 {} else if i == 5 {}
    else if i == 6 {} else if i == 7 {} else if i == 8 {} else {}
  }

  lemma SameIndexSameName(a: Name, b: Name)
    requires TokenIndex(a) == TokenIndex(b)
    ensures a == b
  {
  }

  lemma FilterBaseAt(tokens: seq<TokenDefinition>, n: Name)
    requires |tokens| == 10
    requires forall j :: 0 <= j < |tokens| ==>
      TokenIndex(tokens[j].name) == j && tokens[j].family == FamilyOf(tokens[j].name)
      && tokens[j].pattern == PatternOf(tokens[j].name)
    ensures var m := TokenMap(tokens);
      n in m && m[n].family == FamilyOf(n) && m[n].pattern == PatternOf(n) && (m[n].isEof <==> n == EndState)
  {
    var i := TokenIndex(n);
    if i < 10 {
      SameIndexSameName(tokens[i].name, n);
      TokenMapAt(tokens, i);
    } else {
      TokenMapReserved(tokens);
      assert TokenMap([]) == map[EndState := TokenMap([])[EndState], StartState := TokenMap([])[StartState]];
    }
  }

  lemma FilterBase()
    ensures IsFilterBase(TokenMap(FilterTokens))
  {
    forall j | 0 <= j < |FilterTokens| ensures
      && TokenIndex(FilterTokens[j].name) == j && FilterTokens[j].family == FamilyOf(FilterTokens[j].name)
      && FilterTokens[j].pattern == PatternOf(FilterTokens[j].name)
    {
      TokenEntry(j);
    }
    var m := TokenMap(FilterTokens);
    forall n: Name ensures
      n in m && m[n].family == FamilyOf(n) && m[n].pattern == PatternOf(n) && (m[n].isEof <==> n == EndState)
    {
      FilterBaseAt(FilterTokens, n);
    }
  }

  /** What the transition table gives each state. */
  function FilterNext(s: Name): seq<Name> {
    if WantsTerm(s) then [Column, OpenBrace]
    else if s == Column then [Eq, NotEq, Like]
    else if AfterOp(s) then [QuotedValue, Value]
    else if AfterTerm(s) then [Or, And, ClosedBrace]
    else []
  }

  function EntryIndex(s: Name): nat {
    match s
    case StartState => 0 case OpenBrace => 1 case Column => 2 case Eq => 3 case NotEq => 4 case Like => 5
    case QuotedValue => 6 case Value => 7 case ClosedBrace => 8 case And => 9 case Or => 10 case EndState => 11
  }

  lemma TableEntry(i: nat)
    requires i < |FilterTransitions|
    ensures var d := FilterTransitions[i];
      && EntryIndex(d.from) == i
      && d.targets == FilterNext(d.from) + (if AfterTerm(d.from) then [EndState] else [])
  {
    if i == 0 {} else if i == 1 {} else if i == 2 {} else if i == 3 {} else if i == 4 {} else if i == 5 {}
    else if i == 6 {} else if i == 7 {} else if i == 8 {} else if i == 9 {} else {}
  }

  lemma {:induction false} KeptAll(m: Machine, targets: seq<Name>)
    requires forall t :: t in targets ==> t in m && !m[t].isEof
    ensures Kept(m, targets) == targets
  {
    if targets != [] {
      KeptAll(m, targets[..|targets| - 1]);
    }
  }

  lemma FilterDeclared(m: Machine)
    requires IsFilterBase(m)
    ensures Declared(m, FilterTransitions)
  {
    forall j | 0 <= j < |FilterTransitions|
      ensures FilterTransitions[j].from in m && forall t :: t in FilterTransitions[j].targets ==> t in m
    {
      assert forall n: Name :: n in m;
    }
  }

  /** Any table whose only entry for `s` is the `i`-th. */
  lemma OnlyEntry(m: Machine, table: seq<TransitionDefinition>, s: Name)
    requires IsFilterBase(m) && Declared(m, table) && |table| == 11
    requires forall j :: 0 <= j < |table| ==>
      && EntryIndex(table[j].from) == j
      && table[j].targets == FilterNext(table[j].from) + (if AfterTerm(table[j].from) then [EndState] else [])
    ensures Successors(m, table, s) == FilterNext(s)
    ensures MayEnd(m, table, s) <==> AfterTerm(s)
  {
    var i := EntryIndex(s);
    if s == EndState {
      NoEntry(m, table, s);
    } else {
      assert table[i].from == s by { SameEntrySameName(table[i].from, s); }
      SingleEntry(m, table, i);
      FilterTargets(m, s, table[i].targets);
    }
  }

  lemma SameEntrySameName(a: Name, b: Name)
    requires EntryIndex(a) == EntryIndex(b)
    ensures a == b
  {
  }

  lemma FilterEntry(m: Machine, s: Name)
    requires IsFilterBase(m)
    ensures Declared(m, FilterTransitions)
    ensures Successors(m, FilterTransitions, s) == FilterNext(s)
    ensures MayEnd(m, FilterTransitions, s) <==> AfterTerm(s)
  {
    forall j | 0 <= j < |FilterTransitions| ensures
      && EntryIndex(FilterTransitions[j].from) == j
      && FilterTransitions[j].targets ==
          FilterNext(FilterTransitions[j].from) + (if AfterTerm(FilterTransitions[j].from) then [EndState] else [])
    {
      TableEntry(j);
    }
    FilterDeclared(m);
    OnlyEntry(m, FilterTransitions, s);
  }

  lemma FilterTargets(m: Machine, s: Name, targets: seq<Name>)
    requires IsFilterBase(m)
    requires targets == FilterNext(s) + (if AfterTerm(s) then [EndState] else [])
    ensures Kept(m, targets) == FilterNext(s) && (Ends(m, targets) <==> AfterTerm(s))
  {
    assert forall t :: t in FilterNext(s) ==> t != EndState;
    KeptAll(m, FilterNext(s));
    if AfterTerm(s) {
      assert targets[..|targets| - 1] == FilterNext(s) && targets[|targets| - 1] == EndState;
    } else {
      assert targets == FilterNext(s);
    }
  }

  ghost predicate IsFilterMachine(m: Machine) {
    IsFilterBase(m) && forall s: Name :: m[s].next == FilterNext(s) && (m[s].last <==> AfterTerm(s))
  }

  lemma FilterBuilt(m: Machine)
    requires IsFilterBase(TokenMap(FilterTokens)) && Declared(TokenMap(FilterTokens), FilterTransitions)
    requires Built(m, TokenMap(FilterTokens), FilterTransitions)
    ensures IsFilterMachine(m)
  {
    forall s: Name ensures m[s].next == FilterNext(s) && (m[s].last <==> AfterTerm(s)) {
      FilterEntry(TokenMap(FilterTokens), s);
    }
  }

  /** The machine of the search filter, built from its grammar tables. */
  method BuildFilterMachine() returns (m: Machine)
    ensures IsFilterMachine(m)
  {
    FilterBase();
    FilterEntry(TokenMap(FilterTokens), StartState);
    m := Build(FilterGrammar);
    FilterBuilt(m);
  }

  lemma FirstOf2(m: Machine, a: Name, b: Name, tok: string)
    requires a in m && b in m
    ensures FirstAccepting(m, [a, b], tok) ==
      if Matches(m[a].pattern, tok) then Some(a) else if Matches(m[b].pattern, tok) then Some(b) else None
  {
    assert [a, b][1..] == [b] && [b][1..] == [];
    assert FirstAccepting(m, [b], tok) == if Matches(m[b].pattern, tok) then Some(b) else None;
  }

  lemma FirstOf3(m: Machine, a: Name, b: Name, c: Name, tok: string)
    requires a in m && b in m && c in m
    ensures FirstAccepting(m, [a, b, c], tok) ==
      if Matches(m[a].pattern, tok) then Some(a) else FirstAccepting(m, [b, c], tok)
  {
    assert [a, b, c][1..] == [b, c];
  }

  lemma FirstTerm(m: Machine, tok: string)
    requires IsFilterMachine(m)
    ensures FirstAccepting(m, [Column, OpenBrace], tok) ==
      if IsIdentifier(tok) then Some(Column) else if tok == "(" then Some(OpenBrace) else None
  {
    FirstOf2(m, Column, OpenBrace, tok);
  }

  lemma FirstOperator(m: Machine, tok: string)
    requires IsFilterMachine(m)
    ensures FirstAccepting(m, [Eq, NotEq, Like], tok) ==
      if tok == "=" then Some(Eq) else if tok == "<>" then Some(NotEq)
      else if ToLower(tok) == "like" then Some(Like) else None
  {
    FirstOf3(m, Eq, NotEq, Like, tok);
    FirstOf2(m, NotEq, Like, tok);
  }

  lemma FirstValue(m: Machine, tok: string)
    requires IsFilterMachine(m)
    ensures FirstAccepting(m, [QuotedValue, Value], tok) ==
      if IsQuotedValue(tok) then Some(QuotedValue) else if IsBareValue(tok) then Some(Value) else None
  {
    FirstOf2(m, QuotedValue, Value, tok);
  }

  lemma FirstJoin(m: Machine, tok: string)
    requires Or in m && And in m && ClosedBrace in m
    requires m[Or].pattern == AnyCase("or") && m[And].pattern == AnyCase("and")
    requires m[ClosedBrace].pattern == Exactly(")")
    ensures FirstAccepting(m, [Or, And, ClosedBrace], tok) ==
      if ToLower(tok) == "or" then Some(Or) else if ToLower(tok) == "and" then Some(And)
      else if tok == ")" then Some(ClosedBrace) else None
  {
    FirstOf3(m, Or, And, ClosedBrace, tok);
    FirstOf2(m, And, ClosedBrace, tok);
  }

  lemma FirstInFilter(m: Machine, s: Name, next: seq<Name>, tok: string)
    requires IsFilterMachine(m) && next == FilterNext(s)
    ensures FirstAccepting(m, next, tok) == NextState(s, tok)
  {
    if WantsTerm(s) {
      FirstTerm(m, tok);
    } else if s == Column {
      FirstOperator(m, tok);
    } else if AfterOp(s) {
      FirstValue(m, tok);
    } else if AfterTerm(s) {
      FirstJoin(m, tok);
    }
  }

  /** Searching a state's successors in order finds the closed form. */
  lemma NextStateIsFirstAccepting(m: Machine, s: Name, tok: string)
    requires IsFilterMachine(m)
    ensures FirstAccepting(m, m[s].next, tok) == NextState(s, tok)
  {
    FirstInFilter(m, s, m[s].next, tok);
  }

  /** Words of the grammar that compete in one state differ in length. */
  lemma WordLengths(tok: string)
    ensures ToLower(tok) == "like" ==> |tok| == 4
    ensures ToLower(tok) == "and" ==> |tok| == 3
    ensures ToLower(tok) == "or" ==> |tok| == 2
  {
  }

  /** A successor that accepts the token is the one of the closed form. */
  lemma AcceptedIsNext(s: Name, a: Name, tok: string)
    requires a in FilterNext(s) && Matches(PatternOf(a), tok)
    ensures NextState(s, tok) == Some(a)
  {
    WordLengths(tok);
  }

  /** At most one transition of a state accepts a given token, so the order of the table is immaterial. */
  lemma TransitionsAreExclusive(m: Machine, s: Name, a: Name, b: Name, tok: string)
    requires IsFilterMachine(m)
    ensures
      a in m[s].next && b in m[s].next && Matches(m[a].pattern, tok) && Matches(m[b].pattern, tok) ==> a == b
  {
    assert m[s].next == FilterNext(s) && m[a].pattern == PatternOf(a) && m[b].pattern == PatternOf(b);
    if a in FilterNext(s) && b in FilterNext(s) && Matches(PatternOf(a), tok) && Matches(PatternOf(b), tok) {
      AcceptedIsNext(s, a, tok);
      AcceptedIsNext(s, b, tok);
    }
  }
}
