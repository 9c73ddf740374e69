/**
 What the parser of the search filter reports for a text that it rejects, and what it trims
 (pkg/services/queryparser/query_parser.go).
 */
module ParseErrors {
  import opened Optional
  import opened Scanning
  import opened StateMachine
  import opened QueryParsing
  import opened QueryLanguage
  import opened LetterCase

  predicate Blank(s: string) { forall i :: 0 <= i < |s| ==> s[i] == ' ' }

  /** `r` is `s` from `i` to `j`, without the spaces around it. */
  predicate Trimmed(s: string, r: string, i: nat, j: nat) {
    && i <= j <= |s| && r == s[i..j] && Blank(s[..i]) && Blank(s[j..])
    && (r != "" ==> r[0] != ' ' && r[|r| - 1] != ' ')
  }

  lemma TrimmedAfterSpace(s: string, r: string, i: nat, j: nat)
    requires s != "" && s[0] == ' ' && Trimmed(s[1..], r, i, j)
    ensures Trimmed(s, r, i + 1, j + 1)
  {
    assert s[..i + 1] == [' '] + s[1..][..i] && s[j + 1..] == s[1..][j..] && s[i + 1..j + 1] == s[1..][i..j];
  }

  lemma TrimmedBeforeSpace(s: string, r: string, i: nat, j: nat)
    requires s != "" && s[|s| - 1] == ' ' && Trimmed(s[..|s| - 1], r, i, j)
    ensures Trimmed(s, r, i, j)
  {
    var front := s[..|s| - 1];
    assert s[..i] == front[..i] && s[j..] == front[j..] + [' '] && s[i..j] == front[i..j];
  }

  /** Only spaces were removed, and none is left at either end. */
  lemma {:induction false} TrimRemovesSpaces(s: string) returns (i: nat, j: nat)
    ensures Trimmed(s, Trim(s), i, j)
    decreases |s|
  {
    i, j := 0, |s|;
    if s != "" && s[0] == ' ' {
      i, j := TrimRemovesSpaces(s[1..]);
      TrimmedAfterSpace(s, Trim(s), i, j);
      i, j := i + 1, j + 1;
    } else if s != "" && s[|s| - 1] == ' ' {
      i, j := TrimRemovesSpaces(s[..|s| - 1]);
      TrimmedBeforeSpace(s, Trim(s), i, j);
    } else {
      assert s[0..|s|] == s;
    }
  }

  /** The token cannot come next, and why. */
  ghost predicate Rejects(cols: seq<string>, r: Run, tok: string, cause: Cause) {
    match cause
    case UnexpectedToken =>
      if WantsTerm(r.state) then !IsIdentifier(tok) && tok != "("
      else if r.state == Column then !IsComparison(tok)
      else if AfterOp(r.state) then !IsQuotedValue(tok) && !IsBareValue(tok)
      else AfterTerm(r.state) && !IsLogical(tok) && tok != ")"
    case UnexpectedClosingBrace => AfterTerm(r.state) && tok == ")" && r.open == 0
    case TooManyJoins => AfterTerm(r.state) && IsLogical(tok) && r.joins == 10
    case InvalidColumn =>
      WantsTerm(r.state) && IsIdentifier(tok) && forall name :: name in cols ==> !Names(tok, name)
  }

  /** The braces that are open and the joins so far stay in their limits, and the machine is in one of its states. */
  predicate InLimits(r: Run) {
    r.open >= 0 && r.joins <= 10 && (WantsTerm(r.state) || r.state == Column || AfterOp(r.state) || AfterTerm(r.state))
  }

  lemma NoBraceIsAWord(tok: string)
    ensures IsLogical(tok) ==> tok != ")" && tok != "("
    ensures IsIdentifier(tok) ==> tok != "("
  {
  }

  lemma ConsumeInLimits(cols: seq<string>, r: Run, tok: string)
    requires InLimits(r) && Consume(cols, r, tok).Reached?
    ensures InLimits(Consume(cols, r, tok).run)
  {
  }

  lemma UnknownColumn(cols: seq<string>, tok: string)
    ensures ToLower(tok) !in cols <==> forall name :: name in cols ==> !Names(tok, name)
  {
    forall name ensures Names(tok, name) <==> name == ToLower(tok) { LoweredNames(tok, name); }
  }

  lemma TermStopsIff(cols: seq<string>, r: Run, tok: string, cause: Cause)
    requires InLimits(r) && WantsTerm(r.state)
    ensures Consume(cols, r, tok) == Stopped(r, 0, cause) <==> Rejects(cols, r, tok, cause)
  {
    NoBraceIsAWord(tok);
    UnknownColumn(cols, tok);
  }

  lemma JoinStopsIff(cols: seq<string>, r: Run, tok: string, cause: Cause)
    requires InLimits(r) && AfterTerm(r.state)
    ensures Consume(cols, r, tok) == Stopped(r, 0, cause) <==> Rejects(cols, r, tok, cause)
  {
    NoBraceIsAWord(tok);
  }

  lemma OperandStopsIff(cols: seq<string>, r: Run, tok: string, cause: Cause)
    requires InLimits(r) && !WantsTerm(r.state) && !AfterTerm(r.state)
    ensures Consume(cols, r, tok) == Stopped(r, 0, cause) <==> Rejects(cols, r, tok, cause)
  {
  }

  lemma ConsumeStopsIff(cols: seq<string>, r: Run, tok: string, cause: Cause)
    requires InLimits(r)
    ensures Consume(cols, r, tok) == Stopped(r, 0, cause) <==> Rejects(cols, r, tok, cause)
  {
    if WantsTerm(r.state) {
      TermStopsIff(cols, r, tok, cause);
    } else if AfterTerm(r.state) {
      JoinStopsIff(cols, r, tok, cause);
    } else {
      OperandStopsIff(cols, r, tok, cause);
    }
  }

  lemma {:induction false} FeedInLimits(cols: seq<string>, r: Run, toks: seq<string>)
    requires InLimits(r) && Feed(cols, r, toks).Reached?
    ensures InLimits(Feed(cols, r, toks).run)
    decreases |toks|
  {
    if toks != [] {
      ConsumeInLimits(cols, r, toks[0]);
      FeedInLimits(cols, Consume(cols, r, toks[0]).run, toks[1..]);
    }
  }

  /** The first `k` tokens lead to `r`, and the next one is rejected. */
  ghost predicate FirstRejected(cols: seq<string>, start: Run, toks: seq<string>, k: nat, r: Run, cause: Cause) {
    k < |toks| && Feed(cols, start, toks[..k]) == Reached(r) && Rejects(cols, r, toks[k], cause)
  }

  lemma RejectedStops(cols: seq<string>, start: Run, toks: seq<string>, k: nat, r: Run, cause: Cause)
    requires InLimits(start) && FirstRejected(cols, start, toks, k, r, cause)
    ensures Feed(cols, start, toks) == Stopped(r, k, cause)
  {
    FeedInLimits(cols, start, toks[..k]);
    ConsumeStopsIff(cols, r, toks[k], cause);
    assert toks == toks[..k] + toks[k..] && toks[k..][0] == toks[k];
    FeedAppend(cols, start, toks[..k], toks[k..]);
  }

  lemma {:induction false} StoppedAtRejected(cols: seq<string>, start: Run, toks: seq<string>)
    requires InLimits(start) && Feed(cols, start, toks).Stopped?
    ensures var p := Feed(cols, start, toks); FirstRejected(cols, start, toks, p.at, p.run, p.cause)
    decreases |toks|
  {
    var c := Consume(cols, start, toks[0]);
    if c.Stopped? {
      ConsumeStopsIff(cols, start, toks[0], c.cause);
      assert toks[..0] == [];
    } else {
      var p := Feed(cols, c.run, toks[1..]);
      ConsumeInLimits(cols, start, toks[0]);
      StoppedAtRejected(cols, c.run, toks[1..]);
      assert toks[..p.at + 1][1..] == toks[1..][..p.at] && toks[..p.at + 1][0] == toks[0];
    }
  }

  /**
   For every stored query and text: the parser reports a position and a cause if and only if all tokens before that
   position were accepted and the one there is rejected for that cause. The two other errors mean that all tokens were
   accepted, but no value or closing brace was the last one, or a brace is open.
   */
  lemma ErrorsAreExact(q: DBQuery, sql: string, error: ParseError)
    ensures
      var tokens := ScanTokens(sql);
      var words, end := Words(tokens), Feed(q.validColumns, Begin(q), Words(tokens));
      ParseFrom(q, sql).1 == Error(error) <==>
        match error
        case At(position, cause) =>
          exists k: nat, r ::
            FirstRejected(q.validColumns, Begin(q), words, k, r, cause) && tokens[k].position + 1 == position
        case UnexpectedEof => end.Reached? && !AfterTerm(end.run.state)
        case UnclosedBrace => end.Reached? && AfterTerm(end.run.state) && end.run.open > 0
  {
    var words := Words(ScanTokens(sql));
    var end := Feed(q.validColumns, Begin(q), words);
    if end.Stopped? { StoppedAtRejected(q.validColumns, Begin(q), words); }
    if error.At? {
      forall k: nat, r | FirstRejected(q.validColumns, Begin(q), words, k, r, error.cause)
        ensures end == Stopped(r, k, error.cause)
      {
        RejectedStops(q.validColumns, Begin(q), words, k, r, error.cause);
      }
    }
  }
}
