/**
 The search-filter compiler (pkg/services/queryparser/query_parser.go): tokens drive the state
 machine, and each accepted token extends a parameterised SQL condition and its value list.
 */
module QueryParsing {
  import opened Optional
  import opened Scanning
  import opened StateMachine

  const MaximumComplexity := 10

  const DefaultColumns := ["region", "name", "cloud_provider", "status", "owner"]

  datatype DBQuery = DBQuery(query: string, values: seq<string>, validColumns: seq<string>)

  datatype Cause = UnexpectedToken | UnexpectedClosingBrace | TooManyJoins | InvalidColumn

  datatype ParseError = At(position: nat, cause: Cause) | UnexpectedEof | UnclosedBrace

  datatype Result = Ok(query: DBQuery) | Error(error: ParseError)

  /** The parser between two tokens: machine state, the two counters, and the output so far. */
  datatype Run = Run(state: Name, open: int, joins: nat, query: string, values: seq<string>)

  /** After a failing token, `at` tokens have been consumed and `run` is the state they left. */
  datatype Progress = Reached(run: Run) | Stopped(run: Run, at: nat, cause: Cause)

  /** Replaces each \' by ', left to right. */
  function Unescape(s: string): string {
    if |s| < 2 then s
    else if s[0] == '\\' && s[1] == '\'' then "'" + Unescape(s[2..])
    else [s[0]] + Unescape(s[1..])
  }

  /** The value of a quoted token: unescaped, and without the outer quotes. */
  function Unquote(tok: string): string {
    var tmp := Unescape(tok);
    if |tmp| > 1 then tmp[1..|tmp| - 1] else tmp
  }

  function Trim(s: string): string
    decreases |s|
  {
    if s == "" then s
    else if s[0] == ' ' then Trim(s[1..])
    else if s[|s| - 1] == ' ' then Trim(s[..|s| - 1])
    else s
  }

  function Braces(open: int, tok: string): int {
    if tok == "(" then open + 1 else if tok == ")" then open - 1 else open
  }

  /** The callback: what entering state `s` with token `tok` does. */
  function Emit(cols: seq<string>, r: Run, s: Name, tok: string): Progress {
    match FamilyOf(s)
    case BraceFamily =>
      if Braces(r.open, tok) < 0 then Stopped(r, 0, UnexpectedClosingBrace)
      else Reached(r.(state := s, open := Braces(r.open, tok), query := r.query + tok))
    case ValueFamily => Reached(r.(state := s, query := r.query + " ?", values := r.values + [tok]))
    case QuotedFamily => Reached(r.(state := s, query := r.query + " ?", values := r.values + [Unquote(tok)]))
    case LogicalFamily =>
      if r.joins >= MaximumComplexity then Stopped(r, 0, TooManyJoins)
      else Reached(r.(state := s, joins := r.joins + 1, query := r.query + (" " + tok + " ")))
    case ColumnFamily =>
      if ToLower(tok) !in cols then Stopped(r, 0, InvalidColumn)
      else Reached(r.(state := s, query := r.query + ToLower(tok)))
    case _ => Reached(r.(state := s, query := r.query + (" " + tok)))
  }

  function Consume(cols: seq<string>, r: Run, tok: string): Progress {
    match NextState(r.state, tok)
    case None => Stopped(r, 0, UnexpectedToken)
    case Some(s) => Emit(cols, r, s, tok)
  }

  /** The machine's search for a successor, and the callback of the one found. */
  lemma ConsumeBySearch(machine: Machine, cols: seq<string>, r: Run, tok: string)
    requires IsFilterMachine(machine)
    ensures Consume(cols, r, tok) ==
      match FirstAccepting(machine, machine[r.state].next, tok)
      case None => Stopped(r, 0, UnexpectedToken)
      case Some(s) => Emit(cols, r, s, tok)
  {
    NextStateIsFirstAccepting(machine, r.state, tok);
  }

  function Feed(cols: seq<string>, r: Run, toks: seq<string>): Progress
    decreases |toks|
  {
    if toks == [] then Reached(r)
    else
      match Consume(cols, r, toks[0])
      case Stopped(_, _, _) => Consume(cols, r, toks[0])
      case Reached(r') =>
        var p := Feed(cols, r', toks[1..]);
        if p.Stopped? then p.(at := p.at + 1) else p
  }

  function Words(tokens: seq<Token>): (words: seq<string>)
    ensures |words| == |tokens| && forall i :: 0 <= i < |words| ==> words[i] == tokens[i].value
  {
    if tokens == [] then [] else [tokens[0].value] + Words(tokens[1..])
  }

  lemma {:induction false} StoppedWithin(cols: seq<string>, r: Run, toks: seq<string>)
    ensures var p := Feed(cols, r, toks); p.Stopped? ==> p.at < |toks|
    decreases |toks|
  {
    if toks != [] {
      var c := Consume(cols, r, toks[0]);
      if c.Reached? { StoppedWithin(cols, c.run, toks[1..]); }
    }
  }

  lemma {:induction false} FeedAppend(cols: seq<string>, r: Run, a: seq<string>, b: seq<string>)
    ensures var p := Feed(cols, r, a);
      Feed(cols, r, a + b) ==
        if p.Stopped? then p
        else var q := Feed(cols, p.run, b); Later(q, |a|)
    decreases |a|
  {
    if a == [] {
      assert a + b == b;
    } else {
      assert (a + b)[1..] == a[1..] + b;
      var c := Consume(cols, r, a[0]);
      if c.Reached? { FeedAppend(cols, c.run, a[1..], b); }
    }
  }

  function Later(p: Progress, k: nat): Progress { if p.Stopped? then p.(at := p.at + k) else p }

  lemma FeedNext(cols: seq<string>, whole: Progress, words: seq<string>, k: nat, r: Run)
    requires k < |words| && whole == Later(Feed(cols, r, words[k..]), k)
    ensures var c := Consume(cols, r, words[k]);
      whole == if c.Reached? then Later(Feed(cols, c.run, words[k + 1..]), k + 1) else Later(c, k)
  {
    assert words[k..][1..] == words[k + 1..];
  }

  /** From run `r`, the words from `k` on lead to the outcome `whole`. */
  ghost predicate Leads(cols: seq<string>, r: Run, words: seq<string>, k: nat, whole: Progress) {
    k <= |words| && whole == Later(Feed(cols, r, words[k..]), k)
  }

  lemma LeadsWhole(cols: seq<string>, r: Run, words: seq<string>, whole: Progress)
    requires whole == Feed(cols, r, words)
    ensures Leads(cols, r, words, 0, whole)
  {
    assert words[0..] == words;
  }

  lemma LeadsNowhere(cols: seq<string>, r: Run, words: seq<string>, whole: Progress)
    requires Leads(cols, r, words, |words|, whole)
    ensures whole == Reached(r)
  {
  }

  function Begin(q: DBQuery): Run { Run(StartState, 0, 0, q.query, q.values) }

  /** The end of a parse that stored `q` at the start and got as far as `p`. */
  function Conclude(q: DBQuery, tokens: seq<Token>, p: Progress): (DBQuery, Result)
    requires p.Stopped? ==> p.at < |tokens|
  {
    var after := q.(query := p.run.query, values := p.run.values);
    if p.Stopped? then (after, Error(At(tokens[p.at].position + 1, p.cause)))
    else if !AfterTerm(p.run.state) then (after, Error(UnexpectedEof))
    else if p.run.open > 0 then (after, Error(UnclosedBrace))
    else
      var done := after.(query := Trim(after.query));
      (done, Ok(done))
  }

  /** A whole parse from the parser's stored query: the stored query after it, and the result. */
  function ParseFrom(q: DBQuery, sql: string): (DBQuery, Result) {
    var tokens := ScanTokens(sql);
    StoppedWithin(q.validColumns, Begin(q), Words(tokens));
    Conclude(q, tokens, Feed(q.validColumns, Begin(q), Words(tokens)))
  }

  // ---------------------------------------------------------------------------------------------
  // The parser object
  // ---------------------------------------------------------------------------------------------

  method Contains(s: seq<string>, value: string) returns (found: bool)
    ensures found <==> value in s
  {
    for i := 0 to |s|
      invariant value !in s[..i]
    {
      if s[i] == value { return true; }
    }
    found := false;
  }

  method TrimSpaces(s: string) returns (r: string)
    ensures r == Trim(s)
  {
    r := s;
    while r != "" && (r[0] == ' ' || r[|r| - 1] == ' ')
      invariant Trim(r) == Trim(s)
      decreases |r|
    {
      if r[0] == ' ' { r := r[1..]; } else { r := r[..|r| - 1]; }
    }
  }

  class QueryParser {
    var dbqry: DBQuery
    var openBraces: int
    var complexity: nat

    constructor (columns: seq<string>)
      ensures dbqry == DBQuery("", [], if columns == [] then DefaultColumns else columns)
    {
      dbqry := DBQuery("", [], if |columns| == 0 then DefaultColumns else columns);
      openBraces, complexity := 0, 0;
    }

    ghost function Running(s: Name): Run
      reads this
    {
      Run(s, openBraces, complexity, dbqry.query, dbqry.values)
    }

    /** The token callback. A rejected token leaves the output as it was. */
    method OnNewToken(ghost from: Name, s: Name, tok: string) returns (err: Option<Cause>)
      modifies this
      ensures dbqry.validColumns == old(dbqry.validColumns)
      ensures match Emit(dbqry.validColumns, old(Running(from)), s, tok)
        case Reached(r) => err == None && Running(s) == r
        case Stopped(r, at, cause) => err == Some(cause) && dbqry == old(dbqry) && at == 0 && r == old(Running(from))
    {
      err := None;
      match FamilyOf(s)
      case BraceFamily =>
        if tok == "(" { openBraces := openBraces + 1; } else if tok == ")" { openBraces := openBraces - 1; }
        if openBraces < 0 { return Some(UnexpectedClosingBrace); }
        dbqry := dbqry.(query := dbqry.query + tok);
      case ValueFamily =>
        dbqry := dbqry.(query := dbqry.query + " ?", values := dbqry.values + [tok]);
      case QuotedFamily =>
        dbqry := dbqry.(query := dbqry.query + " ?", values := dbqry.values + [Unquote(tok)]);
      case LogicalFamily =>
        complexity := complexity + 1;
        if complexity > MaximumComplexity { return Some(TooManyJoins); }
        dbqry := dbqry.(query := dbqry.query + (" " + tok + " "));
      case ColumnFamily =>
        var columnName := ToLower(tok);
        var known := Contains(dbqry.validColumns, columnName);
        if !known { return Some(InvalidColumn); }
        dbqry := dbqry.(query := dbqry.query + columnName);
      case _ =>
        dbqry := dbqry.(query := dbqry.query + (" " + tok));
    }

    /** state.parse with the callback: the state that accepts `tok`, unless something is wrong. */
    method Step(machine: Machine, state: Name, tok: string) returns (next: Name, err: Option<Cause>)
      requires IsFilterMachine(machine)
      modifies this
      ensures dbqry.validColumns == old(dbqry.validColumns)
      ensures match Consume(dbqry.validColumns, old(Running(state)), tok)
        case Reached(r) => err == None && Running(next) == r
        case Stopped(r, at, cause) =>
          && err == Some(cause) && dbqry == old(dbqry)
          && at == 0 && r.query == dbqry.query && r.values == dbqry.values
    {
      ConsumeBySearch(machine, dbqry.validColumns, Running(state), tok);
      var found := Accepting(machine, machine[state].next, tok);
      if found == None {
        return state, Some(UnexpectedToken);
      }
      next := found.value;
      err := OnNewToken(state, next, tok);
    }

    /** The state of the parser is that of run `r`, as far as the output goes. */
    ghost predicate Shows(r: Run)
      reads this
    {
      r.query == dbqry.query && r.values == dbqry.values
    }

    /** How a parse that stopped or ended at `p` ends for the parser. */
    ghost predicate Driven(p: Progress, tokens: seq<Token>, state: Name, err: Option<ParseError>)
      reads this
    {
      && Shows(p.run)
      && (p.Reached? ==> err == None && p.run == Running(state))
      && (p.Stopped? ==> p.at < |tokens| && err == Some(At(tokens[p.at].position + 1, p.cause)))
    }

    /** One turn of the token loop, at token `k` of a parse whose outcome is `whole`. */
    method Turn(machine: Machine, state: Name, tok: Token, ghost tokens: seq<Token>, ghost k: nat,
        ghost whole: Progress)
      returns (next: Name, err: Option<ParseError>)
      requires IsFilterMachine(machine) && k < |tokens| && tokens[k] == tok
      requires Leads(dbqry.validColumns, Running(state), Words(tokens), k, whole)
      modifies this
      ensures dbqry.validColumns == old(dbqry.validColumns)
      ensures err == None ==> Leads(dbqry.validColumns, Running(next), Words(tokens), k + 1, whole)
      ensures err != None ==> Driven(whole, tokens, next, err)
    {
      FeedNext(dbqry.validColumns, whole, Words(tokens), k, Running(state));
      var cause;
      next, cause := Step(machine, state, tok.value);
      err := if cause == None then None else Some(At(tok.position + 1, cause.value));
    }

    /** The token loop, up to the first token that is rejected. */
    method Drive(machine: Machine, scanner: Scanner, ghost whole: Progress)
      returns (state: Name, err: Option<ParseError>)
      requires IsFilterMachine(machine) && scanner.pos == -1
      requires whole == Feed(dbqry.validColumns, Running(StartState), Words(scanner.tokens))
      modifies this, scanner`pos
      ensures dbqry.validColumns == old(dbqry.validColumns)
      ensures Driven(whole, scanner.tokens, state, err)
    {
      ghost var cols, words := dbqry.validColumns, Words(scanner.tokens);
      ghost var r, k := Running(StartState), 0;
      LeadsWhole(cols, r, words, whole);
      state, err := StartState, None;
      var more := scanner.Next();
      while more
        invariant if more then 0 <= scanner.pos == k < |words| else k == |words|
        invariant dbqry.validColumns == cols && r == Running(state) && Leads(cols, r, words, k, whole)
        decreases |words| - scanner.pos, more
      {
        state, err := Turn(machine, state, scanner.Current(), scanner.tokens, k, whole);
        if err != None { return; }
        r, k := Running(state), k + 1;
        more := scanner.Next();
      }
      LeadsNowhere(cols, r, words, whole);
      err := None;
    }

    /** The checks after the token loop. */
    method Finish(machine: Machine, state: Name, err: Option<ParseError>,
      ghost q: DBQuery, ghost tokens: seq<Token>, ghost p: Progress)
      returns (res: Result)
      requires IsFilterMachine(machine) && Driven(p, tokens, state, err) && dbqry.validColumns == q.validColumns
      modifies this`dbqry
      ensures (dbqry, res) == Conclude(q, tokens, p)
    {
      if err != None {
        return Error(err.value);
      }
      if !machine[state].last {
        return Error(UnexpectedEof);
      }
      if openBraces > 0 {
        return Error(UnclosedBrace);
      }
      var trimmed := TrimSpaces(dbqry.query);
      dbqry := dbqry.(query := trimmed);
      res := Ok(dbqry);
    }

    /** The stored query is not reset, so the output extends what earlier calls left. */
    method Parse(sql: string) returns (res: Result)
      modifies this
      ensures (dbqry, res) == ParseFrom(old(dbqry), sql)
    {
      openBraces, complexity := 0, 0;
      var machine := BuildFilterMachine();
      var scanner := new Scanner();
      scanner.Init(sql);
      assert scanner.tokens == ScanTokens(sql);
      ghost var p := Feed(dbqry.validColumns, Begin(dbqry), Words(scanner.tokens));
      var state, err := Drive(machine, scanner, p);
      res := Finish(machine, state, err, old(dbqry), scanner.tokens, p);
    }
  }
}
