/**
 Exactly when a printed filter parses back to what was printed, for every expression, every value and every layout
 (pkg/services/queryparser/scanner.go, query_parser.go). The scanner cuts a quoted value at braces and operator
 characters, and a backslash after the last quote keeps it from seeing the closing quote.
 */
module Survival {
  import opened Scanning
  import opened StateMachine
  import opened QueryParsing
  import opened QueryLanguage
  import opened RoundTrip
  import opened Optional

  /** The word begins with a quote, as quoted values and no other words do. */
  predicate Opens(w: string) { w != "" && w[0] == '\'' }

  /** The value that a quoted word was printed for. */
  function Plain(w: string): string { if |w| < 2 then "" else Unescape(w[1..|w| - 1]) }

  lemma {:induction false} UnescapeUndoes(v: string)
    ensures Unescape(Escape(v)) == v
    decreases |v|
  {
    if v != "" {
      var w := v[1..];
      UnescapeUndoes(w);
      if v[0] == '\'' {
        assert Escape(v)[2..] == Escape(w);
      } else {
        assert Escape(v)[1..] == Escape(w);
        assert w != "" ==> Escape(w)[0] != '\'';
      }
      assert v == [v[0]] + w;
    }
  }

  lemma PlainQuote(v: string)
    ensures Opens(Quote(v)) && Plain(Quote(v)) == v
  {
    assert Quote(v)[1..|Quote(v)| - 1] == Escape(v);
    UnescapeUndoes(v);
  }

  // ---------------------------------------------------------------------------------------------
  // The condition
  // ---------------------------------------------------------------------------------------------

  /** Nothing but closing braces follows, and no space. */
  ghost predicate OnlyBracesFollow(lay: seq<Laid>, i: nat, tail: nat) {
    tail == 0 && forall j :: i < j < |lay| ==> lay[j] == Laid(0, ")")
  }

  /** The value has no brace or operator character, no backslash at its end, and is closed or the last thing said. */
  ghost predicate ValueSurvives(lay: seq<Laid>, i: nat, tail: nat)
    requires i < |lay|
  {
    var v := Plain(lay[i].word);
    Unsplit(v) && !EndsInBackslash(v) && (Dangles(false, v) ==> OnlyBracesFollow(lay, i, tail))
  }

  ghost predicate Survives(lay: seq<Laid>, tail: nat) {
    forall i :: 0 <= i < |lay| && Opens(lay[i].word) ==> ValueSurvives(lay, i, tail)
  }

  // ---------------------------------------------------------------------------------------------
  // The parser on the words of a printed expression
  // ---------------------------------------------------------------------------------------------

  /** The machine runs through the words, and wherever it expects a value the word is a quoted one. */
  ghost predicate QuotedOnly(cols: seq<string>, r: Run, words: seq<string>)
    decreases |words|
  {
    words == [] ||
    (var c := Consume(cols, r, words[0]);
     c.Reached? && (AfterOp(r.state) ==> Opens(words[0])) && QuotedOnly(cols, c.run, words[1..]))
  }

  lemma {:induction false} QuotedOnlyRuns(cols: seq<string>, r: Run, words: seq<string>)
    requires QuotedOnly(cols, r, words)
    ensures Feed(cols, r, words).Reached?
    decreases |words|
  {
    if words != [] { QuotedOnlyRuns(cols, Consume(cols, r, words[0]).run, words[1..]); }
  }

  lemma {:induction false} QuotedOnlyAppend(cols: seq<string>, r: Run, a: seq<string>, b: seq<string>)
    requires Feed(cols, r, a).Reached?
    ensures QuotedOnly(cols, r, a + b) <==> QuotedOnly(cols, r, a) && QuotedOnly(cols, Feed(cols, r, a).run, b)
    decreases |a|
  {
    if a == [] {
      assert a + b == b;
    } else {
      assert (a + b)[0] == a[0] && (a + b)[1..] == a[1..] + b;
      QuotedOnlyAppend(cols, Consume(cols, r, a[0]).run, a[1..], b);
    }
  }

  lemma QuotedOnlyOne(cols: seq<string>, r: Run, w: string)
    requires Consume(cols, r, w).Reached? && (AfterOp(r.state) ==> Opens(w))
    ensures QuotedOnly(cols, r, [w])
  {
    assert [w][1..] == [];
  }

  lemma CmpQuotedOnly(cols: seq<string>, r: Run, c: string, op: string, v: string)
    requires WantsTerm(r.state) && IsIdentifier(c) && ToLower(c) in cols && IsComparison(op)
    ensures QuotedOnly(cols, r, [c, op, Quote(v)])
  {
    var r1 := WithColumn(r, c);
    var r2 := WithOperator(r1, op);
    QuoteIsQuotedValue(v);
    ConsumeColumn(cols, r, c); ConsumeOperator(cols, r1, op); ConsumeValue(cols, r2, Quote(v));
    assert [c, op, Quote(v)][1..] == [op, Quote(v)] && [op, Quote(v)][1..] == [Quote(v)];
    QuotedOnlyOne(cols, r2, Quote(v));
    assert QuotedOnly(cols, r1, [op, Quote(v)]);
  }

  lemma GroupQuotedOnly(cols: seq<string>, r: Run, inner: Piece)
    requires WantsTerm(r.state) && r.open >= 0
    requires RunsThrough(cols, Opened(r), inner) && QuotedOnly(cols, Opened(r), inner.tokens)
    ensures QuotedOnly(cols, r, (["("] + inner.tokens) + [")"])
  {
    var r2 := Feed(cols, Opened(r), inner.tokens).run;
    OpenRuns(cols, r);
    CloseRuns(cols, r2);
    FeedOne(cols, r, "("); FeedOne(cols, r2, ")");
    QuotedOnlyOne(cols, r, "(");
    QuotedOnlyOne(cols, r2, ")");
    FeedAppend(cols, r, ["("], inner.tokens);
    QuotedOnlyAppend(cols, r, ["("], inner.tokens);
    QuotedOnlyAppend(cols, r, ["("] + inner.tokens, [")"]);
  }

  lemma {:induction false} TermQuotedOnly(cols: seq<string>, r: Run, t: Term)
    requires UtterableTerm(t, cols) && WantsTerm(r.state) && r.open >= 0 && r.joins + TermJoins(t) <= MaximumComplexity
    ensures RunsThrough(cols, r, TermPiece(QuoteTerm(t))) && QuotedOnly(cols, r, TermPiece(QuoteTerm(t)).tokens)
    decreases t, 0
  {
    QuotedTermPiece(t, cols);
    TermRuns(cols, r, QuoteTerm(t));
    match t
    case Cmp(c, op, v) => CmpQuotedOnly(cols, r, c, op, v);
    case Group(e) =>
      ExprQuotedOnly(cols, Opened(r), e);
      GroupQuotedOnly(cols, r, ExprPiece(QuoteAll(e)));
  }

  lemma JoinQuotedOnly(cols: seq<string>, r: Run, a: seq<string>, op: string, b: seq<string>)
    requires Feed(cols, r, a).Reached? && QuotedOnly(cols, r, a)
    requires var r1 := Feed(cols, r, a).run;
      && AfterTerm(r1.state) && IsLogical(op) && r1.joins < MaximumComplexity
      && QuotedOnly(cols, Feed(cols, r1, [op]).run, b)
    ensures QuotedOnly(cols, r, (a + [op]) + b)
  {
    var r1 := Feed(cols, r, a).run;
    JoinRuns(cols, r1, op);
    FeedOne(cols, r1, op);
    QuotedOnlyOne(cols, r1, op);
    FeedAppend(cols, r, a, [op]);
    QuotedOnlyAppend(cols, r, a, [op]);
    QuotedOnlyAppend(cols, r, a + [op], b);
  }

  lemma {:induction false} ExprQuotedOnly(cols: seq<string>, r: Run, e: Expr)
    requires Utterable(e, cols) && WantsTerm(r.state) && r.open >= 0 && r.joins + Joins(e) <= MaximumComplexity
    ensures RunsThrough(cols, r, ExprPiece(QuoteAll(e))) && QuotedOnly(cols, r, ExprPiece(QuoteAll(e)).tokens)
    decreases e, 1
  {
    QuotedExprPiece(e, cols);
    ExprRuns(cols, r, QuoteAll(e));
    TermQuotedOnly(cols, r, e.term);
    if e.Join? {
      var a := TermPiece(QuoteTerm(e.term));
      QuotedTermPiece(e.term, cols);
      var r1 := Feed(cols, r, a.tokens).run;
      JoinRuns(cols, r1, e.op);
      ExprQuotedOnly(cols, Feed(cols, r1, [e.op]).run, e.rest);
      JoinQuotedOnly(cols, r, a.tokens, e.op, ExprPiece(QuoteAll(e.rest)).tokens);
    }
  }

  // ---------------------------------------------------------------------------------------------
  // The values of the words
  // ---------------------------------------------------------------------------------------------

  function Spoken(words: seq<string>): seq<string> {
    if words == [] then []
    else (if Opens(words[0]) then [Plain(words[0])] else []) + Spoken(words[1..])
  }

  lemma {:induction false} SpokenAppend(a: seq<string>, b: seq<string>)
    ensures Spoken(a + b) == Spoken(a) + Spoken(b)
    decreases |a|
  {
    if a == [] {
      assert a + b == b;
    } else {
      assert (a + b)[1..] == a[1..] + b;
      SpokenAppend(a[1..], b);
    }
  }

  lemma SpokenOne(w: string)
    ensures Spoken([w]) == if Opens(w) then [Plain(w)] else []
  {
    assert [w][1..] == [];
  }

  lemma {:induction false} SpokenHas(words: seq<string>, v: string) returns (i: nat)
    requires v in Spoken(words)
    ensures i < |words| && Opens(words[i]) && Plain(words[i]) == v
    decreases |words|
  {
    if Opens(words[0]) && Plain(words[0]) == v {
      i := 0;
    } else {
      i := SpokenHas(words[1..], v);
      i := i + 1;
    }
  }

  lemma WordDoesNotOpen(w: string)
    requires IsWord(w)
    ensures !Opens(w) && w != "" && '\'' !in w
  {
    if w != "" { assert w[0] in w; }
  }

  lemma {:induction false} TermSpoken(t: Term, cols: seq<string>)
    requires UtterableTerm(t, cols)
    ensures Spoken(TermPiece(QuoteTerm(t)).tokens) == TermLeaves(t)
    decreases t, 0
  {
    match t
    case Cmp(c, op, v) =>
      IdentifierIsWord(c); OperatorIsWord(op);
      WordDoesNotOpen(c); WordDoesNotOpen(op);
      PlainQuote(v);
      SpokenOne(c); SpokenOne(op); SpokenOne(Quote(v));
      SpokenAppend([c], [op]); SpokenAppend([c] + [op], [Quote(v)]);
      assert [c] + [op] + [Quote(v)] == [c, op, Quote(v)];
    case Group(e) =>
      var inner := ExprPiece(QuoteAll(e)).tokens;
      ExprSpoken(e, cols);
      SpokenOne("("); SpokenOne(")");
      SpokenAppend(["("], inner); SpokenAppend(["("] + inner, [")"]);
  }

  lemma {:induction false} ExprSpoken(e: Expr, cols: seq<string>)
    requires Utterable(e, cols)
    ensures Spoken(ExprPiece(QuoteAll(e)).tokens) == Leaves(e)
    decreases e, 1
  {
    TermSpoken(e.term, cols);
    if e.Join? {
      ExprSpoken(e.rest, cols);
      OperatorIsWord(e.op); WordDoesNotOpen(e.op);
      JoinSpoken(TermPiece(QuoteTerm(e.term)).tokens, e.op, ExprPiece(QuoteAll(e.rest)).tokens);
    }
  }

  lemma JoinSpoken(a: seq<string>, op: string, b: seq<string>)
    requires !Opens(op)
    ensures Spoken((a + [op]) + b) == Spoken(a) + Spoken(b)
  {
    SpokenOne(op);
    SpokenAppend(a, [op]); SpokenAppend(a + [op], b);
    assert Spoken(a) + [] == Spoken(a);
  }

  lemma ConsumeValues(cols: seq<string>, r: Run, w: string)
    requires Consume(cols, r, w).Reached? && (AfterOp(r.state) ==> Opens(w))
    ensures |Consume(cols, r, w).run.values| == |r.values| + (if Opens(w) then 1 else 0)
    ensures Opens(w) <==> AfterOp(r.state)
  {
  }

  lemma {:induction false} ValuesCounted(cols: seq<string>, r: Run, words: seq<string>)
    requires QuotedOnly(cols, r, words)
    ensures Feed(cols, r, words).Reached?
    ensures |Feed(cols, r, words).run.values| == |r.values| + |Spoken(words)|
    decreases |words|
  {
    if words != [] {
      ConsumeValues(cols, r, words[0]);
      ValuesCounted(cols, Consume(cols, r, words[0]).run, words[1..]);
    }
  }

  lemma ConsumeGrows(cols: seq<string>, r: Run, w: string)
    ensures r.values <= Consume(cols, r, w).run.values
  {
  }

  lemma {:induction false} ValuesGrow(cols: seq<string>, r: Run, words: seq<string>)
    ensures r.values <= Feed(cols, r, words).run.values
    decreases |words|
  {
    if words != [] {
      var c := Consume(cols, r, words[0]);
      ConsumeGrows(cols, r, words[0]);
      if c.Reached? { ValuesGrow(cols, c.run, words[1..]); }
    }
  }

  // ---------------------------------------------------------------------------------------------
  // A token that spoils the parse
  // ---------------------------------------------------------------------------------------------

  /** Outside values no token has a space or a quote. */
  predicate Foreign(tok: string) { ' ' in tok || '\'' in tok }

  /** The token is no value, or not the value `v`. */
  predicate BadValue(tok: string, v: string) { Opens(tok) && (IsQuotedValue(tok) ==> Unquote(tok) != v) }

  lemma LowerKeeps(tok: string, c: char)
    requires (c == ' ' || c == '\'') && c in tok
    ensures c in ToLower(tok)
  {
    var i :| 0 <= i < |tok| && tok[i] == c;
    assert ToLower(tok)[i] == c;
  }

  lemma ForeignIsNoIdentifier(tok: string)
    requires Foreign(tok)
    ensures !IsIdentifier(tok)
  {
    if IsIdentifier(tok) {
      assert forall i :: 0 <= i < |tok| ==> IsWordChar(tok[i]);
      assert false;
    }
  }

  lemma ForeignIsRejected(cols: seq<string>, r: Run, tok: string)
    requires !AfterOp(r.state) && Foreign(tok)
    ensures Consume(cols, r, tok).Stopped?
  {
    ForeignLeadsNowhere(r.state, tok);
  }

  lemma ForeignLeadsNowhere(s: Name, tok: string)
    requires !AfterOp(s) && Foreign(tok)
    ensures NextState(s, tok) == None
  {
    var c := if ' ' in tok then ' ' else '\'';
    LowerKeeps(tok, c);
    ForeignIsNoIdentifier(tok);
    assert c !in "like" && c !in "or" && c !in "and" && c !in "(" && c !in ")" && c !in "=" && c !in "<>";
  }

  lemma BadValueIsSeen(cols: seq<string>, r: Run, tok: string, v: string)
    requires AfterOp(r.state) && BadValue(tok, v)
    ensures var c := Consume(cols, r, tok);
      c.Reached? ==> |c.run.values| == |r.values| + 1 && c.run.values[|r.values|] != v
  {
  }

  /** Up to `i` the tokens are the words, and the token at `i` spoils the parse. */
  ghost predicate Spoils(words: seq<string>, toks: seq<string>, i: nat) {
    && i < |toks| && i <= |words| && toks[..i] == words[..i]
    && if i < |words| && Opens(words[i]) then BadValue(toks[i], Plain(words[i])) else Foreign(toks[i])
  }

  lemma PrefixRuns(cols: seq<string>, r: Run, words: seq<string>, i: nat) returns (r': Run)
    requires QuotedOnly(cols, r, words) && i <= |words|
    ensures Feed(cols, r, words[..i]) == Reached(r') && QuotedOnly(cols, r', words[i..])
    ensures |r'.values| == |r.values| + |Spoken(words[..i])|
  {
    assert words == words[..i] + words[i..];
    QuotedOnlyRuns(cols, r, words);
    FeedAppend(cols, r, words[..i], words[i..]);
    r' := Feed(cols, r, words[..i]).run;
    QuotedOnlyAppend(cols, r, words[..i], words[i..]);
    ValuesCounted(cols, r, words[..i]);
  }

  lemma SpokenAt(words: seq<string>, i: nat)
    requires i < |words| && Opens(words[i])
    ensures |Spoken(words[..i])| < |Spoken(words)| && Spoken(words)[|Spoken(words[..i])|] == Plain(words[i])
  {
    assert words == words[..i] + words[i..];
    SpokenAppend(words[..i], words[i..]);
  }

  lemma FeedAt(cols: seq<string>, r: Run, toks: seq<string>, i: nat, r': Run)
    requires i < |toks| && Feed(cols, r, toks[..i]) == Reached(r')
    ensures var c := Consume(cols, r', toks[i]); var p := Feed(cols, r, toks);
      if c.Reached? then c.run.values <= p.run.values else p.Stopped?
  {
    assert toks == toks[..i] + toks[i..];
    FeedAppend(cols, r, toks[..i], toks[i..]);
    var c := Consume(cols, r', toks[i]);
    if c.Reached? { ValuesGrow(cols, c.run, toks[i..][1..]); }
  }

  lemma SpoiltParse(cols: seq<string>, r: Run, words: seq<string>, toks: seq<string>, i: nat)
    requires QuotedOnly(cols, r, words) && r.values == [] && !AfterOp(Feed(cols, r, words).run.state)
    requires Spoils(words, toks, i)
    ensures var p := Feed(cols, r, toks); p.Stopped? || p.run.values != Spoken(words)
  {
    var r' := PrefixRuns(cols, r, words, i);
    FeedAt(cols, r, toks, i, r');
    if i < |words| && Opens(words[i]) {
      ConsumeValues(cols, r', words[i..][0]);
      BadValueIsSeen(cols, r', toks[i], Plain(words[i]));
      SpokenAt(words, i);
    } else {
      if i < |words| {
        ConsumeValues(cols, r', words[i..][0]);
      } else {
        assert words[..i] == words;
      }
      ForeignIsRejected(cols, r', toks[i]);
    }
  }

  // ---------------------------------------------------------------------------------------------
  // Where values stand among the words
  // ---------------------------------------------------------------------------------------------

  lemma AfterOpFrom(cols: seq<string>, r: Run, w: string)
    requires Consume(cols, r, w).Reached?
    ensures AfterOp(Consume(cols, r, w).run.state) ==> r.state == Column && IsComparison(w)
    ensures AfterOp(r.state) ==> AfterTerm(Consume(cols, r, w).run.state)
  {
    ConsumedState(cols, r, w);
    AfterOpNext(r.state, w);
  }

  lemma ConsumedState(cols: seq<string>, r: Run, w: string)
    requires Consume(cols, r, w).Reached?
    ensures NextState(r.state, w) == Some(Consume(cols, r, w).run.state)
  {
  }

  lemma AfterOpNext(s: Name, w: string)
    requires NextState(s, w).Some?
    ensures AfterOp(NextState(s, w).value) ==> s == Column && IsComparison(w)
    ensures AfterOp(s) ==> AfterTerm(NextState(s, w).value)
  {
  }

  lemma ComparisonIsNoBrace(w: string)
    requires IsComparison(w)
    ensures IsWord(w) && !IsBraceWord(w)
  {
    OperatorIsWord(w);
    assert ToLower("(")[0] == '(' && ToLower(")")[0] == ')';
  }

  /** The word before a value is an operator. */
  lemma BeforeAValue(cols: seq<string>, r: Run, words: seq<string>, k: nat)
    requires QuotedOnly(cols, r, words) && !AfterOp(r.state) && k < |words| && Opens(words[k])
    ensures k > 0 && IsWord(words[k - 1]) && !IsBraceWord(words[k - 1]) && !Opens(words[k - 1])
  {
    var r2 := PrefixRuns(cols, r, words, k);
    ConsumeValues(cols, r2, words[k..][0]);
    assert words[..0] == [];
    if k > 0 {
      var r1 := PrefixRuns(cols, r, words, k - 1);
      assert words[k - 1..][0] == words[k - 1] && words[..k] == words[..k - 1] + [words[k - 1]];
      FeedAppend(cols, r, words[..k - 1], [words[k - 1]]);
      FeedOne(cols, r1, words[k - 1]);
      AfterOpFrom(cols, r1, words[k - 1]);
      ComparisonIsNoBrace(words[k - 1]);
      WordDoesNotOpen(words[k - 1]);
    }
  }

  ghost predicate NoneOpens(words: seq<string>) { forall i :: 0 <= i < |words| ==> !Opens(words[i]) }

  predicate InTerm(s: Name) { WantsTerm(s) || s == Column || AfterOp(s) }

  lemma InTermStays(cols: seq<string>, r: Run, w: string)
    requires InTerm(r.state) && !AfterOp(r.state) && Consume(cols, r, w).Reached?
    ensures InTerm(Consume(cols, r, w).run.state)
  {
  }

  /** A term cannot be finished without a value. */
  lemma {:induction false} NoTermWithoutAValue(cols: seq<string>, r: Run, words: seq<string>)
    requires QuotedOnly(cols, r, words) && NoneOpens(words) && InTerm(r.state)
    ensures Feed(cols, r, words).Reached? && InTerm(Feed(cols, r, words).run.state)
    decreases |words|
  {
    if words != [] {
      InTermStays(cols, r, words[0]);
      NoTermWithoutAValue(cols, Consume(cols, r, words[0]).run, words[1..]);
    }
  }

  lemma AfterTermStep(cols: seq<string>, r: Run, w: string)
    requires AfterTerm(r.state) && Consume(cols, r, w).Reached?
    ensures if w == ")" then AfterTerm(Consume(cols, r, w).run.state) else WantsTerm(Consume(cols, r, w).run.state)
  {
    if w == ")" { assert ToLower(w)[0] == ')'; }
  }

  /** After the last value only closing braces come. */
  lemma {:induction false} OnlyBracesAfterTheLast(cols: seq<string>, r: Run, words: seq<string>)
    requires QuotedOnly(cols, r, words) && NoneOpens(words) && AfterTerm(r.state)
    requires Feed(cols, r, words).Reached? && AfterTerm(Feed(cols, r, words).run.state)
    ensures forall i :: 0 <= i < |words| ==> words[i] == ")"
    decreases |words|
  {
    if words != [] {
      var c := Consume(cols, r, words[0]);
      AfterTermStep(cols, r, words[0]);
      if words[0] == ")" {
        OnlyBracesAfterTheLast(cols, c.run, words[1..]);
        assert forall i :: 1 <= i < |words| ==> words[i] == words[1..][i - 1];
      } else {
        NoTermWithoutAValue(cols, c.run, words[1..]);
        assert false;
      }
    }
  }

  // ---------------------------------------------------------------------------------------------
  // The scanner: what is pending stays the beginning of its token
  // ---------------------------------------------------------------------------------------------

  /** The tokens of `s` are kept, and what is pending in `s` begins the next one. */
  ghost predicate Continues(s: Scan, t: Scan) {
    && s.tokens <= t.tokens
    && (s.text != "" ==>
          || (t.tokens == s.tokens && s.text <= t.text)
          || (|t.tokens| > |s.tokens| && s.text <= t.tokens[|s.tokens|].value))
  }

  /** The tokens and the pending text after one character. */
  lemma AdvanceShape(s: Scan, c: char, i: nat)
    ensures var t, f := Advance(s, c, i), Flush(s);
      || (t.tokens == s.tokens && t.text == s.text + [c])
      || (t.tokens == f.tokens && (t.text == "" || t.text == [c]))
      || (t.tokens == f.tokens + [Token(Brace, [c], i)] && t.text == "")
      || (t.tokens == s.tokens + [Token(s.kind, s.text + [c], Push(s, c, i).at)] && t.text == "")
  {
  }

  lemma ContinuesStep(s: Scan, c: char, i: nat)
    ensures Continues(s, Advance(s, c, i))
  {
    AdvanceShape(s, c, i);
  }

  lemma ContinuesTwice(s: Scan, t: Scan, u: Scan)
    requires Continues(s, t) && Continues(t, u)
    ensures Continues(s, u)
  {
  }

  lemma {:induction false} ContinuesAll(s: Scan, txt: string, base: nat)
    ensures Continues(s, AdvanceAll(s, txt, base))
    decreases |txt|
  {
    if txt != "" {
      var t := Advance(s, txt[0], base);
      ContinuesStep(s, txt[0], base);
      ContinuesAll(t, txt[1..], base + 1);
      ContinuesTwice(s, t, AdvanceAll(t, txt[1..], base + 1));
    }
  }

  /** The words of all tokens when `txt` follows. */
  function Final(s: Scan, txt: string, base: nat): seq<string> { Words(Flush(AdvanceAll(s, txt, base)).tokens) }

  lemma FinalBegins(s: Scan, txt: string, base: nat)
    ensures Words(s.tokens) <= Final(s, txt, base)
    ensures s.text != "" ==> |Final(s, txt, base)| > |s.tokens| && s.text <= Final(s, txt, base)[|s.tokens|]
  {
    var t := AdvanceAll(s, txt, base);
    ContinuesAll(s, txt, base);
    assert Continues(t, Flush(t));
    ContinuesTwice(s, t, Flush(t));
  }

  lemma FinalAppend(s: Scan, a: string, b: string, base: nat)
    ensures Final(s, a + b, base) == Final(AdvanceAll(s, a, base), b, base + |a|)
  {
    AdvanceAllAppend(s, a, b, base);
  }

  /** A character that follows a pending quoted text either belongs to it or ends it. */
  lemma PendingNext(s: Scan, c: char, rest: string, base: nat)
    requires InQuotes(s) && c != '\'' && c != '\\'
    ensures var toks := Final(s, [c] + rest, base);
      |toks| > |s.tokens| && (toks[|s.tokens|] == s.text || s.text + [c] <= toks[|s.tokens|])
  {
    assert ([c] + rest)[1..] == rest;
    QuotedShape(s, c, base);
    FinalBegins(Advance(s, c, base), rest, base + 1);
  }

  lemma QuotedShape(s: Scan, c: char, i: nat)
    requires InQuotes(s) && c != '\'' && c != '\\'
    ensures var t := Advance(s, c, i);
      || (t.tokens == s.tokens && t.text == s.text + [c])
      || (|t.tokens| > |s.tokens| && t.tokens[|s.tokens|].value == s.text)
  {
  }

  // ---------------------------------------------------------------------------------------------
  // Tokens at the place of a value
  // ---------------------------------------------------------------------------------------------

  lemma UnescapePair(x: string)
    ensures Unescape("\\'" + x) == "'" + Unescape(x)
  {
    assert ("\\'" + x)[2..] == x;
  }

  lemma UnescapeChar(c: char, x: string)
    requires c != '\\' || (x != "" && x[0] != '\'')
    ensures Unescape([c] + x) == [c] + Unescape(x)
  {
    assert ([c] + x)[1..] == x;
  }

  lemma AppendAfterPair(x: string, b: string)
    requires Unescape(x + b) == Unescape(x) + Unescape(b)
    ensures Unescape(("\\'" + x) + b) == Unescape("\\'" + x) + Unescape(b)
  {
    AppendAssociative("\\'", x, b);
    UnescapePair(x);
    UnescapePair(x + b);
    AppendAssociative("'", Unescape(x), Unescape(b));
  }

  lemma AppendAfterChar(c: char, x: string, b: string)
    requires Unescape(x + b) == Unescape(x) + Unescape(b)
    requires c != '\\' || (x != "" && x[0] != '\'')
    ensures Unescape(([c] + x) + b) == Unescape([c] + x) + Unescape(b)
  {
    AppendAssociative([c], x, b);
    UnescapeChar(c, x);
    UnescapeChar(c, x + b);
    AppendAssociative([c], Unescape(x), Unescape(b));
  }

  lemma {:induction false} UnescapeAppend(a: string, b: string)
    requires a != "" ==> a[|a| - 1] != '\\'
    ensures Unescape(a + b) == Unescape(a) + Unescape(b)
    decreases |a|
  {
    if a == "" {
      assert a + b == b && "" + Unescape(b) == Unescape(b);
    } else if |a| > 1 && a[0] == '\\' && a[1] == '\'' {
      UnescapeAppend(a[2..], b);
      AppendAfterPair(a[2..], b);
      assert a == "\\'" + a[2..];
    } else {
      UnescapeAppend(a[1..], b);
      AppendAfterChar(a[0], a[1..], b);
      assert a == [a[0]] + a[1..];
    }
  }

  lemma QuoteLength(v: string)
    ensures |Unescape(Quote(v))| >= |v| + 1
  {
    UnescapeEscape(v);
    var rest := Escape(v) + "'";
    assert Quote(v)[1..] == rest;
    assert Unescape(Quote(v)) == "'" + Unescape(rest);
  }

  lemma TailLength(z: string)
    requires |z| >= 2 && z[0] != '\\'
    ensures |Unescape(z)| >= 2
  {
    UnescapeAppend([z[0]], z[1..]);
    assert [z[0]] + z[1..] == z;
    assert Unescape([z[0]]) == [z[0]];
  }

  /** A quoted word that went on is another value, or none. */
  lemma ExtendedIsBad(v: string, c: char, tok: string)
    requires Quote(v) + [c] <= tok && c != '\'' && c != '\\'
    ensures BadValue(tok, v)
  {
    var q := Quote(v);
    var z := tok[|q|..];
    assert tok == q + z && z[0] == c;
    if IsQuotedValue(tok) {
      assert tok[|tok| - 1] == z[|z| - 1];
      UnescapeAppend(q, z);
      QuoteLength(v);
      TailLength(z);
    }
  }

  /** A quoted word that was cut short is another value, or none. */
  lemma CutIsBad(v: string, k: nat)
    requires k < |v|
    ensures BadValue("'" + Escape(v[..k]), v)
  {
    var tok := "'" + Escape(v[..k]);
    UnescapeUndoes(v[..k]);
    UnescapeAppend("'", Escape(v[..k]));
    assert Unescape("'") == "'";
    assert Unescape(tok) == "'" + v[..k];
  }

  // ---------------------------------------------------------------------------------------------
  // The scanner on words, while it is still inside quotes
  // ---------------------------------------------------------------------------------------------

  /** The text from word `j` on. */
  function Rest(lay: seq<Laid>, j: nat, tail: nat): string
    requires j <= |lay|
    decreases |lay| - j
  {
    if j == |lay| then Spaces(tail) else (Spaces(lay[j].gap) + lay[j].word) + Rest(lay, j + 1, tail)
  }

  lemma {:induction false} RestJoins(lay: seq<Laid>, j: nat, tail: nat)
    requires j <= |lay|
    ensures LayOut(lay[..j]) + Rest(lay, j, tail) == LayOut(lay) + Spaces(tail)
    decreases |lay| - j
  {
    if j == |lay| {
      assert lay[..j] == lay;
    } else {
      RestJoins(lay, j + 1, tail);
      assert lay[..j + 1][..j] == lay[..j];
      AppendAssociative(LayOut(lay[..j]), Spaces(lay[j].gap) + lay[j].word, Rest(lay, j + 1, tail));
    }
  }

  /** Inside quotes the first `j` words have become tokens, the last of them perhaps still pending. */
  ghost predicate Aligned(s: Scan, words: seq<string>, j: nat) {
    && s.quoted && !s.escaped && 0 < j <= |words|
    && if s.text == "" then s.kind == NoToken && IsBraceWord(words[j - 1]) && Words(s.tokens) == words[..j]
       else
         && s.text == words[j - 1] && !IsBraceWord(s.text) && Words(s.tokens) == words[..j - 1]
         && (if AllOf(s.text, Op) then s.kind == Op else s.kind == Literal || s.kind == QuotedLiteral)
  }

  lemma {:induction false} SpacesPend(s: Scan, n: nat, base: nat)
    requires s.quoted
    ensures var t := AdvanceAll(s, Spaces(n), base);
      t.tokens == s.tokens && t.text == s.text + Spaces(n)
    decreases n
  {
    if n == 0 {
      assert s.text + "" == s.text;
    } else {
      var t := Advance(s, ' ', base);
      assert Spaces(n)[1..] == Spaces(n - 1);
      SpacesPend(t, n - 1, base + 1);
      AppendAssociative(s.text, " ", Spaces(n - 1));
    }
  }

  lemma {:induction false} LettersPend(s: Scan, w: string, base: nat)
    requires s.quoted && !s.escaped && s.text != "" && s.kind == Literal
    requires forall c :: c in w ==> ClassOf(c) == Literal && c != '\'' && c != '\\'
    ensures AdvanceAll(s, w, base) == s.(text := s.text + w)
    decreases |w|
  {
    if w == "" {
      assert s.text + w == s.text;
    } else {
      assert w[0] in w;
      LettersPend(Advance(s, w[0], base), w[1..], base + 1);
      AppendAssociative(s.text, [w[0]], w[1..]);
      assert [w[0]] + w[1..] == w;
    }
  }

  lemma {:induction false} OpsPend(s: Scan, w: string, base: nat)
    requires s.quoted && !s.escaped && s.text != "" && s.kind == Op
    requires forall c :: c in w ==> ClassOf(c) == Op
    ensures AdvanceAll(s, w, base) == s.(text := s.text + w)
    decreases |w|
  {
    if w == "" {
      assert s.text + w == s.text;
    } else {
      assert w[0] in w;
      OpsPend(Advance(s, w[0], base), w[1..], base + 1);
      AppendAssociative(s.text, [w[0]], w[1..]);
      assert [w[0]] + w[1..] == w;
    }
  }

  /** The first character of a word of another kind than the pending one ends that one. */
  lemma WordStarts(s: Scan, c: char, i: nat)
    requires s.quoted && !s.escaped && (s.text == "" ==> s.kind == NoToken)
    requires ClassOf(c) == Literal || ClassOf(c) == Op
    requires c != '\'' && c != '\\'
    requires s.text == "" || (if ClassOf(c) == Op then s.kind == Literal || s.kind == QuotedLiteral else s.kind == Op)
    ensures Advance(s, c, i) == Scan(Flush(s).tokens, [c], i, ClassOf(c), true, false)
  {
    assert "" + [c] == [c];
  }

  lemma WordPends(s: Scan, w: string, kind: TokenType, base: nat)
    requires s.quoted && !s.escaped && (s.text == "" ==> s.kind == NoToken)
    requires AllOf(w, kind) && (kind == Literal || kind == Op) && '\\' !in w
    requires s.text == "" || (if kind == Op then s.kind == Literal || s.kind == QuotedLiteral else s.kind == Op)
    ensures AdvanceAll(s, w, base) == Scan(Flush(s).tokens, w, base, kind, true, false)
  {
    assert w[0] in w;
    var t := Advance(s, w[0], base);
    WordStarts(s, w[0], base);
    if kind == Op { OpsPend(t, w[1..], base + 1); } else { LettersPend(t, w[1..], base + 1); }
    assert [w[0]] + w[1..] == w;
  }

  lemma FlushAligned(s: Scan, words: seq<string>, j: nat)
    requires Aligned(s, words, j)
    ensures Words(Flush(s).tokens) == words[..j]
  {
    if s.text != "" { WordsSnoc(s.tokens, Token(s.kind, s.text, s.at)); }
  }

  lemma OneClass(w: string)
    ensures !(AllOf(w, Op) && AllOf(w, Literal)) && (IsBraceWord(w) ==> !AllOf(w, Op) && !AllOf(w, Literal))
  {
    if w != "" { assert w[0] in w; }
  }

  lemma BraceCuts(s: Scan, c: char, i: nat)
    requires IsBrace(c)
    ensures Advance(s, c, i) == Flush(s).(tokens := Flush(s).tokens + [Token(Brace, [c], i)])
  {
  }

  lemma BraceScans(s: Scan, c: char, base: nat)
    requires IsBrace(c)
    ensures AdvanceAll(s, [c], base) == Flush(s).(tokens := Flush(s).tokens + [Token(Brace, [c], base)])
  {
    BraceCuts(s, c, base);
    assert [c][1..] == "";
  }

  lemma AlignedAtBrace(t: Scan, words: seq<string>, j: nat, tokens: seq<Token>, base: nat)
    requires j < |words| && IsBraceWord(words[j]) && Words(tokens) == words[..j]
    requires t.quoted && !t.escaped && t.text == "" && t.kind == NoToken
    requires t.tokens == tokens + [Token(Brace, words[j], base)]
    ensures Aligned(t, words, j + 1)
  {
    WordsSnoc(tokens, Token(Brace, words[j], base));
    assert words[..j + 1] == words[..j] + [words[j]];
  }

  lemma AlignedBrace(s: Scan, words: seq<string>, j: nat, base: nat)
    requires Aligned(s, words, j) && j < |words| && IsBraceWord(words[j])
    ensures Aligned(AdvanceAll(s, words[j], base), words, j + 1)
  {
    var w := words[j];
    assert w == [w[0]];
    FlushAligned(s, words, j);
    BraceScans(s, w[0], base);
    AlignedAtBrace(AdvanceAll(s, w, base), words, j, Flush(s).tokens, base);
  }

  /** A word that does not run into the pending one. */
  lemma AlignedWord(s: Scan, words: seq<string>, j: nat, base: nat)
    requires Aligned(s, words, j) && j < |words| && IsWord(words[j])
    requires s.text != "" ==> MayTouch(s.text, words[j])
    requires Opens(s.text) ==> !AllOf(words[j], Literal)
    requires s.text != "" && !Opens(s.text) ==> IsWord(s.text)
    ensures Aligned(AdvanceAll(s, words[j], base), words, j + 1)
  {
    var w := words[j];
    OneClass(w);
    OneClass(s.text);
    if IsBraceWord(w) {
      AlignedBrace(s, words, j, base);
    } else {
      FlushAligned(s, words, j);
      WordPends(s, w, if AllOf(w, Op) then Op else Literal, base);
    }
  }

  // ---------------------------------------------------------------------------------------------
  // An unclosed value spoils the parse, unless it is the last thing said
  // ---------------------------------------------------------------------------------------------

  /** A quoted value or a plain word. */
  predicate Said(w: string) { if Opens(w) then w == Quote(Plain(w)) else IsWord(w) }

  /** The words of a layout, with the gaps that keep them apart. */
  ghost predicate Says(lay: seq<Laid>, words: seq<string>) {
    && |lay| == |words| && (forall i :: 0 <= i < |lay| ==> lay[i].word == words[i])
    && (forall i :: 0 <= i < |words| ==> Said(words[i]))
    && (forall i :: 0 < i < |lay| ==> lay[i].gap > 0 || MayTouch(words[i - 1], words[i]))
  }

  lemma PrefixHas(a: string, b: string, c: char)
    requires a <= b && c in a
    ensures c in b
  {
  }

  /** What is pending goes on with a character that does not belong there. */
  lemma PendingIsSpoilt(s: Scan, words: seq<string>, j: nat, c: char, toks: seq<string>)
    requires Aligned(s, words, j) && Said(words[j - 1]) && c != '\'' && c != '\\' && (Opens(s.text) || c == ' ')
    requires s.text == "" && j < |words| ==> !Opens(words[j])
    requires Words(s.tokens) <= toks && |toks| > |s.tokens| && s.text + [c] <= toks[|s.tokens|]
    ensures Spoils(words, toks, |s.tokens|)
  {
    var i := |s.tokens|;
    assert toks[..i] == Words(s.tokens);
    if Opens(s.text) {
      ExtendedIsBad(Plain(s.text), c, toks[i]);
    } else {
      PrefixHas(s.text + [c], toks[i], ' ');
    }
  }

  lemma FinalAfter(s: Scan, t: Scan, c: char, rest: string, base: nat)
    requires t.tokens == s.tokens && s.text + [c] <= t.text
    ensures var toks := Final(t, rest, base);
      Words(s.tokens) <= toks && |toks| > |s.tokens| && s.text + [c] <= toks[|s.tokens|]
  {
    FinalBegins(t, rest, base);
  }

  /** A space inside quotes. */
  lemma SpaceSpoils(s: Scan, words: seq<string>, j: nat, gap: nat, rest: string, base: nat)
    requires Aligned(s, words, j) && Said(words[j - 1]) && gap > 0
    requires s.text == "" && j < |words| ==> !Opens(words[j])
    ensures Spoils(words, Final(s, Spaces(gap) + rest, base), |s.tokens|)
  {
    SpacesPend(s, gap, base);
    FinalAppend(s, Spaces(gap), rest, base);
    FinalAfter(s, AdvanceAll(s, Spaces(gap), base), ' ', rest, base + |Spaces(gap)|);
    PendingIsSpoilt(s, words, j, ' ', Final(s, Spaces(gap) + rest, base));
  }

  lemma OpensHasNoClass(w: string)
    requires Opens(w)
    ensures !AllOf(w, Op) && !AllOf(w, Literal) && !IsBraceWord(w)
  {
    assert w[0] in w;
  }

  lemma LetterPends(s: Scan, c: char, i: nat)
    requires s.quoted && (s.kind == Literal || s.kind == QuotedLiteral) && ClassOf(c) == Literal
    requires c != '\'' && c != '\\'
    ensures Advance(s, c, i).tokens == s.tokens && Advance(s, c, i).text == s.text + [c]
  {
  }

  /** A letter that touches an unclosed value. */
  lemma LetterSpoils(s: Scan, words: seq<string>, j: nat, w: string, rest: string, base: nat)
    requires Aligned(s, words, j) && Opens(s.text) && Said(words[j - 1]) && AllOf(w, Literal) && '\\' !in w
    ensures Spoils(words, Final(s, w + rest, base), |s.tokens|)
  {
    assert w[0] in w;
    OpensHasNoClass(s.text);
    LetterPends(s, w[0], base);
    assert (w + rest)[0] == w[0] && (w + rest)[1..] == w[1..] + rest;
    FinalAfter(s, Advance(s, w[0], base), w[0], w[1..] + rest, base + 1);
    PendingIsSpoilt(s, words, j, w[0], Final(s, w + rest, base));
  }

  /** The quote of the next value closes the operator before it. */
  lemma QuoteSpoils(s: Scan, words: seq<string>, j: nat, w: string, rest: string, base: nat)
    requires Aligned(s, words, j) && s.text != "" && !Opens(words[j - 1]) && Opens(w)
    ensures Spoils(words, Final(s, w + rest, base), |s.tokens|)
  {
    var t := Advance(s, '\'', base);
    ClosingQuote(s, base);
    assert (w + rest)[0] == '\'' && (w + rest)[1..] == w[1..] + rest;
    WordsSnoc(s.tokens, Token(s.kind, s.text + "'", s.at));
    FinalBegins(t, w[1..] + rest, base + 1);
    var toks := Final(s, w + rest, base);
    assert toks[..|s.tokens|] == Words(s.tokens) && toks[|s.tokens|] == s.text + "'";
    assert '\'' in s.text + "'";
  }

  lemma RestSplit(lay: seq<Laid>, j: nat, tail: nat)
    requires j < |lay|
    ensures Rest(lay, j, tail) == Spaces(lay[j].gap) + (lay[j].word + Rest(lay, j + 1, tail))
    ensures lay[j].gap == 0 ==> Rest(lay, j, tail) == lay[j].word + Rest(lay, j + 1, tail)
  {
    AppendAssociative(Spaces(lay[j].gap), lay[j].word, Rest(lay, j + 1, tail));
    assert Spaces(0) + lay[j].word == lay[j].word;
  }

  lemma PassABrace(s: Scan, words: seq<string>, j: nat, rest: string, base: nat) returns (t: Scan, next: nat)
    requires Aligned(s, words, j) && j < |words| && IsBraceWord(words[j])
    ensures Aligned(t, words, j + 1) && Final(s, words[j] + rest, base) == Final(t, rest, next)
  {
    AlignedBrace(s, words, j, base);
    FinalAppend(s, words[j], rest, base);
    t, next := AdvanceAll(s, words[j], base), base + |words[j]|;
  }

  lemma PassAWord(s: Scan, words: seq<string>, j: nat, rest: string, base: nat) returns (t: Scan, next: nat)
    requires Aligned(s, words, j) && j < |words| && IsWord(words[j])
    requires s.text != "" ==> MayTouch(s.text, words[j])
    requires Opens(s.text) ==> !AllOf(words[j], Literal)
    requires s.text != "" && !Opens(s.text) ==> IsWord(s.text)
    ensures Aligned(t, words, j + 1) && Final(s, words[j] + rest, base) == Final(t, rest, next)
  {
    AlignedWord(s, words, j, base);
    FinalAppend(s, words[j], rest, base);
    t, next := AdvanceAll(s, words[j], base), base + |words[j]|;
  }

  /** With another value at `k` to come. */
  lemma {:induction false} WalkToAValue(lay: seq<Laid>, words: seq<string>, tail: nat, j: nat, k: nat, s: Scan,
      base: nat)
    returns (i: nat)
    requires Says(lay, words) && Aligned(s, words, j) && j <= k < |words| && Opens(words[k])
    requires forall m :: j <= m < k ==> !Opens(words[m])
    requires !IsBraceWord(words[k - 1]) && !Opens(words[k - 1])
    ensures Spoils(words, Final(s, Rest(lay, j, tail), base), i)
    decreases k - j
  {
    var w, rest := lay[j].word, Rest(lay, j + 1, tail);
    i := |s.tokens|;
    RestSplit(lay, j, tail);
    if lay[j].gap > 0 {
      SpaceSpoils(s, words, j, lay[j].gap, w + rest, base);
    } else if j == k {
      QuoteSpoils(s, words, j, w, rest, base);
    } else if Opens(s.text) && AllOf(w, Literal) {
      LetterSpoils(s, words, j, w, rest, base);
    } else {
      var t, next := PassAWord(s, words, j, rest, base);
      i := WalkToAValue(lay, words, tail, j + 1, k, t, next);
    }
  }

  /** With nothing but closing braces to come, and a space somewhere. */
  lemma {:induction false} WalkToASpace(lay: seq<Laid>, words: seq<string>, tail: nat, j: nat, s: Scan, base: nat)
    returns (i: nat)
    requires Says(lay, words) && Aligned(s, words, j) && forall m :: j <= m < |words| ==> words[m] == ")"
    requires tail > 0 || exists m :: j <= m < |lay| && lay[m].gap > 0
    ensures Spoils(words, Final(s, Rest(lay, j, tail), base), i)
    decreases |lay| - j
  {
    i := |s.tokens|;
    if j == |lay| {
      assert Spaces(tail) + "" == Spaces(tail);
      SpaceSpoils(s, words, j, tail, "", base);
    } else {
      var w, rest := lay[j].word, Rest(lay, j + 1, tail);
      RestSplit(lay, j, tail);
      if lay[j].gap > 0 {
        SpaceSpoils(s, words, j, lay[j].gap, w + rest, base);
      } else {
        var t, next := PassABrace(s, words, j, rest, base);
        i := WalkToASpace(lay, words, tail, j + 1, t, next);
      }
    }
  }

  /** With nothing but closing braces and no space to come, every word becomes its token. */
  lemma {:induction false} WalkToTheEnd(lay: seq<Laid>, words: seq<string>, j: nat, s: Scan, base: nat)
    requires Says(lay, words) && Aligned(s, words, j) && forall m :: j <= m < |lay| ==> lay[m] == Laid(0, ")")
    ensures Final(s, Rest(lay, j, 0), base) == words
    decreases |lay| - j
  {
    if j == |lay| {
      FlushAligned(s, words, j);
      assert words[..j] == words;
    } else {
      var w, rest := lay[j].word, Rest(lay, j + 1, 0);
      RestSplit(lay, j, 0);
      var t, next := PassABrace(s, words, j, rest, base);
      WalkToTheEnd(lay, words, j + 1, t, next);
    }
  }

  // ---------------------------------------------------------------------------------------------
  // The first value that does not survive
  // ---------------------------------------------------------------------------------------------

  lemma {:induction false} FirstSplitter(v: string) returns (k: nat)
    requires !Unsplit(v)
    ensures k < |v| && IsSplitter(v[k]) && Unsplit(v[..k])
    decreases |v|
  {
    if IsSplitter(v[0]) {
      k := 0;
    } else {
      assert v == [v[0]] + v[1..];
      k := FirstSplitter(v[1..]);
      assert v[..k + 1] == [v[0]] + v[1..][..k];
      k := k + 1;
    }
  }

  lemma {:induction false} EscapeAppend(a: string, b: string)
    ensures Escape(a + b) == Escape(a) + Escape(b)
    decreases |a|
  {
    if a == "" {
      assert a + b == b;
    } else {
      EscapeAppend(a[1..], b);
      assert (a + b)[0] == a[0] && (a + b)[1..] == a[1..] + b;
      AppendAssociative(if a[0] == '\'' then "\\'" else [a[0]], Escape(a[1..]), Escape(b));
    }
  }

  lemma QuoteAt(v: string, k: nat)
    requires k < |v| && IsSplitter(v[k])
    ensures Quote(v) == (("'" + Escape(v[..k])) + [v[k]]) + (Escape(v[k + 1..]) + "'")
  {
    var a, b := v[..k], v[k + 1..];
    assert v == a + ([v[k]] + b);
    EscapeAppend(a, [v[k]] + b);
    assert ([v[k]] + b)[1..] == b;
  }

  lemma {:induction false} LaidWordsAre(lay: seq<Laid>, words: seq<string>)
    requires |lay| == |words| && forall i :: 0 <= i < |lay| ==> lay[i].word == words[i]
    ensures LaidWords(lay) == words
  {
    forall i | 0 <= i < |lay| ensures |LaidWords(lay)| == |lay| && LaidWords(lay)[i] == words[i] { LaidWordAt(lay, i); }
  }

  lemma SaidIsAtomic(w: string)
    requires Said(w) && (Opens(w) ==> Quotable(Plain(w)))
    ensures Atomic(w)
  {
  }

  lemma GoodPrefix(lay: seq<Laid>, words: seq<string>, p: nat)
    requires Says(lay, words) && p < |words| && forall i :: 0 <= i < p && Opens(words[i]) ==> Quotable(Plain(words[i]))
    ensures Between(AdvanceAll(Blankslate, LayOut(lay[..p]), 0), words[..p])
  {
    var before := lay[..p];
    forall i | 0 <= i < p ensures Atomic(before[i].word) { SaidIsAtomic(words[i]); }
    assert Readable(before);
    ScanLayout(before);
    LaidWordsAre(before, words[..p]);
  }

  lemma GapBefore(s: Scan, words: seq<string>, gap: nat, base: nat)
    requires Between(s, words)
    ensures var t := AdvanceAll(s, Spaces(gap), base); !t.quoted && !t.escaped && Words(Flush(t).tokens) == words
  {
    if gap > 0 { ScanSpaces(s, gap, base); }
  }

  lemma AfterTheGap(text: string, words: seq<string>, gap: nat, rest: string) returns (s: Scan, base: nat)
    requires Between(AdvanceAll(Blankslate, text, 0), words)
    ensures !s.quoted && !s.escaped && Words(Flush(s).tokens) == words
    ensures Final(Blankslate, text + (Spaces(gap) + rest), 0) == Final(s, rest, base)
  {
    FinalAppend(Blankslate, text, Spaces(gap) + rest, 0);
    s, base := PassTheGap(AdvanceAll(Blankslate, text, 0), words, gap, rest, 0 + |text|);
  }

  lemma PassTheGap(s: Scan, words: seq<string>, gap: nat, rest: string, base: nat) returns (t: Scan, next: nat)
    requires Between(s, words)
    ensures !t.quoted && !t.escaped && Words(Flush(t).tokens) == words
    ensures Final(s, Spaces(gap) + rest, base) == Final(t, rest, next)
  {
    GapBefore(s, words, gap, base);
    FinalAppend(s, Spaces(gap), rest, base);
    t, next := AdvanceAll(s, Spaces(gap), base), base + |Spaces(gap)|;
  }

  lemma AllTokens(lay: seq<Laid>, tail: nat, p: nat)
    requires p < |lay|
    ensures Words(ScanTokens(LayOut(lay) + Spaces(tail))) ==
      Final(Blankslate, LayOut(lay[..p]) + (Spaces(lay[p].gap) + (lay[p].word + Rest(lay, p + 1, tail))), 0)
  {
    RestJoins(lay, p, tail);
    RestSplit(lay, p, tail);
  }

  /** All goes well up to the value at `p`; `s` is the scanner before its quote. */
  lemma ReachTheValue(lay: seq<Laid>, words: seq<string>, tail: nat, p: nat) returns (s: Scan, base: nat)
    requires Says(lay, words) && p < |words| && forall i :: 0 <= i < p && Opens(words[i]) ==> Quotable(Plain(words[i]))
    ensures !s.quoted && !s.escaped && Words(Flush(s).tokens) == words[..p]
    ensures Words(ScanTokens(LayOut(lay) + Spaces(tail))) == Final(s, words[p] + Rest(lay, p + 1, tail), base)
  {
    GoodPrefix(lay, words, p);
    AllTokens(lay, tail, p);
    s, base := AfterTheGap(LayOut(lay[..p]), words[..p], lay[p].gap, lay[p].word + Rest(lay, p + 1, tail));
  }

  lemma CutsHere(r: Scan, c: char, i: nat)
    requires InQuotes(r) && IsSplitter(c)
    ensures r.tokens + [Token(r.kind, r.text, r.at)] <= Advance(r, c, i).tokens
  {
  }

  lemma WordsPrefix(a: seq<Token>, b: seq<Token>)
    requires a <= b
    ensures Words(a) <= Words(b)
  {
  }

  /** A brace or operator character cuts the value. */
  lemma SplitSpoils(s: Scan, words: seq<string>, p: nat, rest: string, base: nat)
    requires !s.quoted && !s.escaped && p < |words| && Words(Flush(s).tokens) == words[..p]
    requires Opens(words[p]) && words[p] == Quote(Plain(words[p])) && !Unsplit(Plain(words[p]))
    ensures Spoils(words, Final(s, words[p] + rest, base), p)
  {
    var v := Plain(words[p]);
    var k := FirstSplitter(v);
    var head, more := "'" + Escape(v[..k]), Escape(v[k + 1..]) + "'";
    QuoteAt(v, k);
    ScanOpenQuote(s, v[..k], base);
    var r := AdvanceAll(s, head, base);
    AppendAssociative(head + [v[k]], more, rest);
    FinalAppend(s, head + [v[k]], more + rest, base);
    AdvanceAllSnoc(s, head, v[k], base);
    CutsHere(r, v[k], base + |head|);
    SpoiltByACut(r, Advance(r, v[k], base + |head|), words, p, k, more + rest, base + |head + [v[k]]|);
  }

  lemma SpoiltByACut(r: Scan, t: Scan, words: seq<string>, p: nat, k: nat, rest: string, base: nat)
    requires p < |words| && Words(r.tokens) == words[..p] && Opens(words[p]) && k < |Plain(words[p])|
    requires r.text == "'" + Escape(Plain(words[p])[..k]) && r.tokens + [Token(r.kind, r.text, r.at)] <= t.tokens
    ensures Spoils(words, Final(t, rest, base), p)
  {
    var cut := r.tokens + [Token(r.kind, r.text, r.at)];
    WordsSnoc(r.tokens, Token(r.kind, r.text, r.at));
    WordsPrefix(cut, t.tokens);
    FinalBegins(t, rest, base);
    CutIsBad(Plain(words[p]), k);
    var toks := Final(t, rest, base);
    assert Words(cut) <= toks && toks[..p] == words[..p] && toks[p] == r.text;
  }

  lemma EscapedQuotePends(r: Scan, i: nat)
    requires r.quoted && r.escaped && r.text != ""
    ensures Advance(r, '\'', i) == r.(text := r.text + "'", escaped := false)
  {
  }

  lemma UnclosedIsAligned(s: Scan, words: seq<string>, p: nat)
    requires p < |words| && Opens(words[p]) && InQuotes(s) && !s.escaped
    requires s.text == words[p] && Words(s.tokens) == words[..p]
    ensures Aligned(s, words, p + 1)
  {
    OpensHasNoClass(words[p]);
  }

  /** An unclosed value leaves the scanner inside quotes. */
  lemma ScanUnclosed(s: Scan, words: seq<string>, p: nat, rest: string, base: nat) returns (t: Scan, next: nat)
    requires !s.quoted && !s.escaped && p < |words| && Words(Flush(s).tokens) == words[..p]
    requires Opens(words[p]) && words[p] == Quote(Plain(words[p]))
    requires Unsplit(Plain(words[p])) && Dangles(false, Plain(words[p]))
    ensures Aligned(t, words, p + 1) && InQuotes(t) && t.text == words[p]
    ensures Final(s, words[p] + rest, base) == Final(t, rest, next)
  {
    t, next := UnclosedThen(s, Plain(words[p]), rest, base);
    UnclosedIsAligned(t, words, p);
  }

  lemma UnclosedThen(s: Scan, v: string, rest: string, base: nat) returns (t: Scan, next: nat)
    requires !s.quoted && !s.escaped && Unsplit(v) && Dangles(false, v)
    ensures InQuotes(t) && !t.escaped && t.text == Quote(v) && t.tokens == Flush(s).tokens
    ensures Final(s, Quote(v) + rest, base) == Final(t, rest, next)
  {
    UnclosedPends(s, v, base);
    t, next := AdvanceAll(s, Quote(v), base), base + |Quote(v)|;
    FinalAppend(s, Quote(v), rest, base);
  }

  lemma UnclosedPends(s: Scan, v: string, base: nat)
    requires !s.quoted && !s.escaped && Unsplit(v) && Dangles(false, v)
    ensures var t := AdvanceAll(s, Quote(v), base);
      InQuotes(t) && !t.escaped && t.text == Quote(v) && t.tokens == Flush(s).tokens
  {
    var open := "'" + Escape(v);
    ScanOpenQuote(s, v, base);
    AppendAssociative("'", Escape(v), "'");
    AdvanceAllSnoc(s, open, '\'', base);
    EscapedQuotePends(AdvanceAll(s, open, base), base + |open|);
  }

  lemma RestStarts(lay: seq<Laid>, words: seq<string>, j: nat, tail: nat)
    requires Says(lay, words) && j <= |words| && (j < |words| ==> !Opens(words[j]))
    ensures var rest := Rest(lay, j, tail);
      rest == "" || (rest[0] != '\'' && rest[0] != '\\')
  {
    if j < |words| {
      assert IsWord(words[j]) && words[j][0] in words[j];
      WordDoesNotOpen(words[j]);
    }
  }

  /** A final backslash is lost, whatever follows. */
  lemma BackslashSpoils(s: Scan, words: seq<string>, p: nat, rest: string, base: nat)
    requires Aligned(s, words, p + 1) && InQuotes(s) && s.text == words[p]
    requires Opens(words[p]) && words[p] == Quote(Plain(words[p])) && EndsInBackslash(Plain(words[p]))
    requires rest == "" || (rest[0] != '\'' && rest[0] != '\\')
    ensures Spoils(words, Final(s, rest, base), p)
  {
    var toks, v := Final(s, rest, base), Plain(words[p]);
    UnquoteQuote(v);
    FinalBegins(s, rest, base);
    assert toks[..p] == Words(s.tokens);
    if rest == "" {
      FlushAligned(s, words, p + 1);
    } else {
      assert [rest[0]] + rest[1..] == rest;
      PendingNext(s, rest[0], rest[1..], base);
      if toks[p] != s.text { ExtendedIsBad(v, rest[0], toks[p]); }
    }
  }

  /** The next value from `j` on, if any. */
  lemma {:induction false} NextOpening(words: seq<string>, j: nat) returns (k: nat)
    requires j <= |words|
    ensures j <= k <= |words| && (k < |words| ==> Opens(words[k])) && forall m :: j <= m < k ==> !Opens(words[m])
    decreases |words| - j
  {
    k := j;
    if j < |words| && !Opens(words[j]) { k := NextOpening(words, j + 1); }
  }

  lemma RunFrom(cols: seq<string>, r: Run, words: seq<string>, p: nat) returns (r': Run)
    requires QuotedOnly(cols, r, words) && p <= |words|
    ensures QuotedOnly(cols, r', words[p..]) && Feed(cols, r, words) == Feed(cols, r', words[p..])
  {
    r' := PrefixRuns(cols, r, words, p);
    QuotedOnlyRuns(cols, r', words[p..]);
    FeedAppend(cols, r, words[..p], words[p..]);
    assert words == words[..p] + words[p..];
  }

  lemma RunOnce(cols: seq<string>, r: Run, words: seq<string>) returns (r': Run)
    requires QuotedOnly(cols, r, words) && words != []
    ensures Consume(cols, r, words[0]) == Reached(r') && (AfterOp(r.state) ==> Opens(words[0]))
    ensures QuotedOnly(cols, r', words[1..]) && Feed(cols, r, words) == Feed(cols, r', words[1..])
  {
    r' := Consume(cols, r, words[0]).run;
    QuotedOnlyRuns(cols, r', words[1..]);
  }

  /** The run after the value at `p`, and what it makes of the words that follow. */
  lemma AfterTheValue(cols: seq<string>, r: Run, words: seq<string>, p: nat) returns (r': Run)
    requires QuotedOnly(cols, r, words) && p < |words| && Opens(words[p])
    ensures AfterTerm(r'.state) && QuotedOnly(cols, r', words[p + 1..])
    ensures Feed(cols, r, words) == Feed(cols, r', words[p + 1..])
  {
    var r1 := RunFrom(cols, r, words, p);
    assert words[p..][0] == words[p] && words[p..][1..] == words[p + 1..];
    r' := RunOnce(cols, r1, words[p..]);
    ConsumeValues(cols, r1, words[p]);
    AfterOpFrom(cols, r1, words[p]);
  }

  lemma LastOpening(cols: seq<string>, r: Run, words: seq<string>, p: nat)
    requires QuotedOnly(cols, r, words) && AfterTerm(Feed(cols, r, words).run.state)
    requires p < |words| && Opens(words[p]) && forall m :: p < m < |words| ==> !Opens(words[m])
    ensures forall m :: p < m < |words| ==> words[m] == ")"
  {
    var after := words[p + 1..];
    var r' := AfterTheValue(cols, r, words, p);
    QuotedOnlyRuns(cols, r, words);
    OnlyBracesAfterTheLast(cols, r', after);
    assert forall m :: p < m < |words| ==> words[m] == after[m - p - 1];
  }

  /** After an unclosed value that is not the last thing said. */
  lemma UnclosedSpoils(cols: seq<string>, r: Run, lay: seq<Laid>, words: seq<string>, tail: nat, p: nat, s: Scan,
      base: nat)
    returns (i: nat)
    requires Says(lay, words) && QuotedOnly(cols, r, words) && !AfterOp(r.state)
    requires AfterTerm(Feed(cols, r, words).run.state)
    requires p < |words| && Opens(words[p]) && Aligned(s, words, p + 1) && !OnlyBracesFollow(lay, p, tail)
    ensures Spoils(words, Final(s, Rest(lay, p + 1, tail), base), i)
  {
    var k := NextOpening(words, p + 1);
    if k < |words| {
      BeforeAValue(cols, r, words, k);
      i := WalkToAValue(lay, words, tail, p + 1, k, s, base);
    } else {
      LastOpening(cols, r, words, p);
      assert tail > 0 || exists m :: p < m < |lay| && lay[m] != Laid(0, ")");
      i := WalkToASpace(lay, words, tail, p + 1, s, base);
    }
  }

  lemma ValuesAreApart(cols: seq<string>, r: Run, words: seq<string>, p: nat)
    requires QuotedOnly(cols, r, words) && !AfterOp(r.state) && p < |words| && Opens(words[p])
    ensures p + 1 < |words| ==> !Opens(words[p + 1])
  {
    if p + 1 < |words| && Opens(words[p + 1]) {
      BeforeAValue(cols, r, words, p + 1);
      assert false;
    }
  }

  /** The value at `p` is cut nowhere, and the scanner is still inside quotes after it. */
  lemma AfterTheUnclosed(cols: seq<string>, r: Run, lay: seq<Laid>, words: seq<string>, tail: nat, p: nat, s: Scan,
      base: nat)
    returns (i: nat)
    requires Says(lay, words) && QuotedOnly(cols, r, words) && !AfterOp(r.state)
    requires AfterTerm(Feed(cols, r, words).run.state)
    requires p < |words| && Opens(words[p]) && Aligned(s, words, p + 1) && InQuotes(s) && s.text == words[p]
    requires EndsInBackslash(Plain(words[p])) || !OnlyBracesFollow(lay, p, tail)
    ensures Spoils(words, Final(s, Rest(lay, p + 1, tail), base), i)
  {
    i := p;
    if EndsInBackslash(Plain(words[p])) {
      ValuesAreApart(cols, r, words, p);
      RestStarts(lay, words, p + 1, tail);
      BackslashSpoils(s, words, p, Rest(lay, p + 1, tail), base);
    } else {
      i := UnclosedSpoils(cols, r, lay, words, tail, p, s, base);
    }
  }

  /** The first value that does not survive spoils the parse. */
  lemma BadValueSpoils(cols: seq<string>, r: Run, lay: seq<Laid>, words: seq<string>, tail: nat, p: nat)
    returns (i: nat)
    requires Says(lay, words) && QuotedOnly(cols, r, words) && !AfterOp(r.state)
    requires AfterTerm(Feed(cols, r, words).run.state)
    requires p < |words| && Opens(words[p]) && !ValueSurvives(lay, p, tail)
    requires forall m :: 0 <= m < p && Opens(words[m]) ==> Quotable(Plain(words[m]))
    ensures Spoils(words, Words(ScanTokens(LayOut(lay) + Spaces(tail))), i)
  {
    var s, base := ReachTheValue(lay, words, tail, p);
    i := SpoilsFrom(cols, r, lay, words, tail, p, s, base);
  }

  lemma SpoilsFrom(cols: seq<string>, r: Run, lay: seq<Laid>, words: seq<string>, tail: nat, p: nat, s: Scan, base: nat)
    returns (i: nat)
    requires Says(lay, words) && QuotedOnly(cols, r, words) && !AfterOp(r.state)
    requires AfterTerm(Feed(cols, r, words).run.state)
    requires p < |words| && Opens(words[p]) && !ValueSurvives(lay, p, tail)
    requires !s.quoted && !s.escaped && Words(Flush(s).tokens) == words[..p]
    ensures Spoils(words, Final(s, words[p] + Rest(lay, p + 1, tail), base), i)
  {
    i := p;
    if !Unsplit(Plain(words[p])) {
      SplitSpoils(s, words, p, Rest(lay, p + 1, tail), base);
    } else {
      DanglesLast(false, Plain(words[p]));
      var t, next := ScanUnclosed(s, words, p, Rest(lay, p + 1, tail), base);
      i := AfterTheUnclosed(cols, r, lay, words, tail, p, t, next);
    }
  }

  lemma {:induction false} FirstBad(lay: seq<Laid>, words: seq<string>, tail: nat, n: nat) returns (p: nat)
    requires Says(lay, words) && n <= |lay|
    ensures p <= n && (p < n ==> Opens(words[p]) && !ValueSurvives(lay, p, tail))
    ensures forall i :: 0 <= i < p && Opens(words[i]) ==> ValueSurvives(lay, i, tail)
  {
    if n == 0 {
      p := 0;
    } else {
      p := FirstBad(lay, words, tail, n - 1);
      if p == n - 1 && (Opens(words[p]) ==> ValueSurvives(lay, p, tail)) { p := n; }
    }
  }

  /** A surviving value with another one after it is closed. */
  lemma EarlierAreClosed(lay: seq<Laid>, words: seq<string>, tail: nat, i: nat, p: nat)
    requires Says(lay, words) && i < p < |words| && Opens(words[i]) && Opens(words[p]) && ValueSurvives(lay, i, tail)
    ensures Quotable(Plain(words[i]))
  {
    assert lay[p].word != ")";
  }

  lemma UnclosedScan(lay: seq<Laid>, words: seq<string>, p: nat)
    requires Says(lay, words) && p < |words| && Opens(words[p]) && OnlyBracesFollow(lay, p, 0)
    requires Unsplit(Plain(words[p])) && Dangles(false, Plain(words[p]))
    requires forall i :: 0 <= i < p && Opens(words[i]) ==> Quotable(Plain(words[i]))
    ensures Words(ScanTokens(LayOut(lay) + Spaces(0))) == words
  {
    var s, base := ReachTheValue(lay, words, 0, p);
    var t, next := ScanUnclosed(s, words, p, Rest(lay, p + 1, 0), base);
    WalkToTheEnd(lay, words, p + 1, t, next);
  }

  lemma ClosedScan(lay: seq<Laid>, words: seq<string>, tail: nat)
    requires Says(lay, words) && forall i :: 0 <= i < |words| && Opens(words[i]) ==> Quotable(Plain(words[i]))
    ensures Words(ScanTokens(LayOut(lay) + Spaces(tail))) == words
  {
    forall i | 0 <= i < |lay| ensures Atomic(lay[i].word) { SaidIsAtomic(words[i]); }
    LayoutsScanToTheirWords(lay, tail);
    LaidWordsAre(lay, words);
  }

  /** If every value survives, the tokens are the words. */
  lemma SurvivorsScan(lay: seq<Laid>, words: seq<string>, tail: nat)
    requires Says(lay, words) && Survives(lay, tail)
    ensures Words(ScanTokens(LayOut(lay) + Spaces(tail))) == words
  {
    if p :| 0 <= p < |words| && Opens(words[p]) && Dangles(false, Plain(words[p])) {
      assert ValueSurvives(lay, p, tail);
      forall i | 0 <= i < p && Opens(words[i]) ensures Quotable(Plain(words[i])) {
        EarlierAreClosed(lay, words, tail, i, p);
      }
      UnclosedScan(lay, words, p);
    } else {
      forall i | 0 <= i < |words| && Opens(words[i]) ensures Quotable(Plain(words[i])) {
        assert ValueSurvives(lay, i, tail);
      }
      ClosedScan(lay, words, tail);
    }
  }

  // ---------------------------------------------------------------------------------------------
  // The theorem
  // ---------------------------------------------------------------------------------------------

  lemma PrintedSays(e: Expr, cols: seq<string>, lay: seq<Laid>)
    requires Utterable(e, cols) && Prints(lay, e)
    ensures Says(lay, ExprPiece(QuoteAll(e)).tokens)
  {
    var words := ExprPiece(QuoteAll(e)).tokens;
    ExprTokensUttered(e, cols);
    forall i | 0 <= i < |lay| ensures |words| == |lay| && lay[i].word == words[i] { LaidWordAt(lay, i); }
    if |lay| == 0 { assert words == []; }
    forall i | 0 <= i < |words| ensures Said(words[i]) { UtteredIsSaid(words[i], Leaves(e)); }
  }

  lemma UtteredIsSaid(w: string, values: seq<string>)
    requires IsWord(w) || exists v :: v in values && w == Quote(v)
    ensures Said(w)
  {
    if IsWord(w) {
      WordDoesNotOpen(w);
    } else {
      var v :| v in values && w == Quote(v);
      PlainQuote(v);
    }
  }

  lemma ParsedValues(cols: seq<string>, sql: string, out: DBQuery)
    requires ParseFrom(DBQuery("", [], cols), sql).1 == Ok(out)
    ensures var p := Feed(cols, Begin(DBQuery("", [], cols)), Words(ScanTokens(sql)));
      p.Reached? && p.run.values == out.values
  {
  }

  /**
   For every expression with known columns and at most ten joins, whatever its values, and for every layout of its
   quoted form: parsing gives back the rendering and the values if and only if every value survives.
   */
  lemma PrintThenParseIff(e: Expr, cols: seq<string>, lay: seq<Laid>, tail: nat)
    requires Utterable(e, cols) && Joins(e) <= MaximumComplexity && Prints(lay, e)
    ensures
      ParseFrom(DBQuery("", [], cols), LayOut(lay) + Spaces(tail)).1 == Ok(DBQuery(Render(e), Leaves(e), cols))
      <==> Survives(lay, tail)
  {
    PrintedSays(e, cols, lay);
    if Survives(lay, tail) {
      SurvivorsParse(e, cols, lay, tail);
    } else {
      OthersDoNot(e, cols, lay, tail);
    }
  }

  lemma SurvivorsParse(e: Expr, cols: seq<string>, lay: seq<Laid>, tail: nat)
    requires Utterable(e, cols) && Joins(e) <= MaximumComplexity && Survives(lay, tail)
    requires Says(lay, ExprPiece(QuoteAll(e)).tokens)
    ensures ParseFrom(DBQuery("", [], cols), LayOut(lay) + Spaces(tail)).1 == Ok(DBQuery(Render(e), Leaves(e), cols))
  {
    var words := ExprPiece(QuoteAll(e)).tokens;
    SurvivorsScan(lay, words, tail);
    ExprSpoken(e, cols);
    forall v | v in Leaves(e) ensures !EndsInBackslash(v) {
      var i := SpokenHas(words, v);
      assert ValueSurvives(lay, i, tail);
    }
    QuotedExprPiece(e, cols);
    ParsesToRendering(QuoteAll(e), cols, LayOut(lay) + Spaces(tail));
  }

  lemma FindSpoiler(cols: seq<string>, r: Run, lay: seq<Laid>, words: seq<string>, tail: nat) returns (i: nat)
    requires Says(lay, words) && QuotedOnly(cols, r, words) && !AfterOp(r.state)
    requires AfterTerm(Feed(cols, r, words).run.state) && !Survives(lay, tail)
    ensures Spoils(words, Words(ScanTokens(LayOut(lay) + Spaces(tail))), i)
  {
    var p := FirstBad(lay, words, tail, |lay|);
    forall m | 0 <= m < p && Opens(words[m]) ensures Quotable(Plain(words[m])) {
      EarlierAreClosed(lay, words, tail, m, p);
    }
    i := BadValueSpoils(cols, r, lay, words, tail, p);
  }

  /** Tokens that are spoilt do not give the values that were said. */
  lemma SpoiltText(cols: seq<string>, r: Run, words: seq<string>, sql: string, i: nat, out: DBQuery)
    requires r == Begin(DBQuery("", [], cols)) && QuotedOnly(cols, r, words)
    requires !AfterOp(Feed(cols, r, words).run.state) && Spoils(words, Words(ScanTokens(sql)), i)
    requires out.values == Spoken(words)
    ensures ParseFrom(DBQuery("", [], cols), sql).1 != Ok(out)
  {
    SpoiltParse(cols, r, words, Words(ScanTokens(sql)), i);
    if ParseFrom(DBQuery("", [], cols), sql).1 == Ok(out) {
      ParsedValues(cols, sql, out);
      assert false;
    }
  }

  lemma OthersDoNot(e: Expr, cols: seq<string>, lay: seq<Laid>, tail: nat)
    requires Utterable(e, cols) && Joins(e) <= MaximumComplexity && !Survives(lay, tail)
    requires Says(lay, ExprPiece(QuoteAll(e)).tokens)
    ensures ParseFrom(DBQuery("", [], cols), LayOut(lay) + Spaces(tail)).1 != Ok(DBQuery(Render(e), Leaves(e), cols))
  {
    var words, r, sql := ExprPiece(QuoteAll(e)).tokens, Begin(DBQuery("", [], cols)), LayOut(lay) + Spaces(tail);
    ExprQuotedOnly(cols, r, e);
    ExprSpoken(e, cols);
    var i := FindSpoiler(cols, r, lay, words, tail);
    SpoiltText(cols, r, words, sql, i, DBQuery(Render(e), Leaves(e), cols));
  }

  // ---------------------------------------------------------------------------------------------
  // A single comparison
  // ---------------------------------------------------------------------------------------------

  lemma {:induction false} LayOutSnoc(lay: seq<Laid>, l: Laid)
    ensures LayOut(lay + [l]) == LayOut(lay) + (Spaces(l.gap) + l.word)
    ensures LaidWords(lay + [l]) == LaidWords(lay) + [l.word]
  {
    assert (lay + [l])[..|lay|] == lay;
  }

  lemma ComparisonLaidOut(c: string, op: string, w: string) returns (lay: seq<Laid>)
    ensures lay == [Laid(0, c), Laid(1, op), Laid(1, w)] && LaidWords(lay) == [c, op, w]
    ensures LayOut(lay) + Spaces(0) == c + " " + op + " " + w
  {
    lay := [Laid(0, c), Laid(1, op), Laid(1, w)];
    LayOutSnoc([], Laid(0, c));
    LayOutSnoc([Laid(0, c)], Laid(1, op));
    LayOutSnoc([Laid(0, c), Laid(1, op)], Laid(1, w));
    assert [] + [Laid(0, c)] == [Laid(0, c)] && [Laid(0, c)] + [Laid(1, op)] == [Laid(0, c), Laid(1, op)];
    assert [Laid(0, c), Laid(1, op)] + [Laid(1, w)] == lay;
    assert Spaces(1) == " " && Spaces(0) == "";
  }

  /**
   A comparison with the quoted value alone on the right parses back to that value if and only if the value has no
   brace or operator character and does not end in a backslash.
   */
  lemma QuotedValueSurvivesIff(c: string, op: string, v: string, cols: seq<string>)
    requires IsIdentifier(c) && ToLower(c) in cols && IsComparison(op)
    ensures
      ParseFrom(DBQuery("", [], cols), c + " " + op + " " + Quote(v)).1 ==
        Ok(DBQuery(ToLower(c) + (" " + op) + " ?", [v], cols))
      <==> Unsplit(v) && !EndsInBackslash(v)
  {
    var e := Single(Cmp(c, op, v));
    var lay := ComparisonLaidOut(c, op, Quote(v));
    IdentifierIsWord(c); OperatorIsWord(op);
    WordDoesNotOpen(c); WordDoesNotOpen(op);
    PlainQuote(v);
    assert Prints(lay, e);
    assert Survives(lay, 0) <==> ValueSurvives(lay, 2, 0);
    PrintThenParseIff(e, cols, lay, 0);
  }
}
