/**
 Capital and small letters in the search filter (pkg/services/queryparser/query_parser.go): what lower-casing a column
 does, letter by letter, and that the case of columns and keywords does not matter.
 */
module LetterCase {
  import opened Scanning
  import opened StateMachine
  import opened QueryParsing
  import opened QueryLanguage

  /** `d` is `c` as a small letter: in the same place of the other alphabet if `c` is a capital letter. */
  predicate SmallOf(c: char, d: char) {
    if 'A' <= c <= 'Z' then 'a' <= d <= 'z' && d as int - 'a' as int == c as int - 'A' as int else d == c
  }

  /** `name` is the word in small letters. */
  predicate Names(w: string, name: string) { |w| == |name| && forall i :: 0 <= i < |w| ==> SmallOf(w[i], name[i]) }

  lemma LowerIsSmall(c: char)
    ensures SmallOf(c, Lower(c))
  {
  }

  /** The name emitted for a column is its word in small letters, and no other text is. */
  lemma LoweredNames(w: string, name: string)
    ensures Names(w, name) <==> name == ToLower(w)
  {
    forall i | 0 <= i < |w| ensures SmallOf(w[i], ToLower(w)[i]) { LowerIsSmall(w[i]); }
  }

  /** A term compares a column if its word in small letters is a known one. */
  lemma ComparisonsNameColumns(t: Term, cols: seq<string>)
    requires t.Cmp?
    ensures WellFormedTerm(t, cols) <==>
      && IsIdentifier(t.column) && (exists name :: name in cols && Names(t.column, name))
      && IsComparison(t.op) && (IsQuotedValue(t.operand) || IsBareValue(t.operand))
    ensures forall name :: Names(t.column, name) ==> TermPiece(t).query == name + (" " + t.op) + " ?"
  {
    forall name ensures Names(t.column, name) <==> name == ToLower(t.column) { LoweredNames(t.column, name); }
  }

  // ---------------------------------------------------------------------------------------------
  // Texts that differ in the case of their letters
  // ---------------------------------------------------------------------------------------------

  predicate SameLetter(c: char, d: char) { c == d || SmallOf(c, d) || SmallOf(d, c) }

  predicate Alike(a: string, b: string) { |a| == |b| && forall i :: 0 <= i < |a| ==> SameLetter(a[i], b[i]) }

  predicate AlikeTokens(a: seq<Token>, b: seq<Token>) {
    |a| == |b| && forall i :: 0 <= i < |a| ==> a[i] == b[i].(value := a[i].value) && Alike(a[i].value, b[i].value)
  }

  predicate AlikeWords(a: seq<string>, b: seq<string>) {
    |a| == |b| && forall i :: 0 <= i < |a| ==> Alike(a[i], b[i])
  }

  predicate AlikeScans(s: Scan, t: Scan) {
    s == t.(tokens := s.tokens, text := s.text) && AlikeTokens(s.tokens, t.tokens) && Alike(s.text, t.text)
  }

  lemma AlikeLowers(a: string, b: string)
    requires Alike(a, b)
    ensures ToLower(a) == ToLower(b)
  {
    forall i | 0 <= i < |a| ensures ToLower(a)[i] == ToLower(b)[i] { SameSmall(a[i], b[i]); }
  }

  lemma SameSmall(c: char, d: char)
    requires SameLetter(c, d)
    ensures Lower(c) == Lower(d)
  {
  }

  lemma FlushAlike(s: Scan, t: Scan)
    requires AlikeScans(s, t)
    ensures AlikeScans(Flush(s), Flush(t))
  {
  }

  lemma PushAlike(s: Scan, t: Scan, c: char, d: char, i: nat)
    requires AlikeScans(s, t) && SameLetter(c, d)
    ensures AlikeScans(Push(s, c, i), Push(t, d, i))
  {
  }

  function FlushIf(s: Scan, flush: bool): Scan { if flush then Flush(s) else s }

  lemma FlushThenPushAlike(s: Scan, t: Scan, flush: bool, kind: TokenType, c: char, d: char, i: nat)
    requires AlikeScans(s, t) && SameLetter(c, d)
    ensures AlikeScans(Push(FlushIf(s, flush).(kind := kind), c, i), Push(FlushIf(t, flush).(kind := kind), d, i))
  {
    FlushAlike(s, t);
    PushAlike(FlushIf(s, flush).(kind := kind), FlushIf(t, flush).(kind := kind), c, d, i);
  }

  lemma PushLiteralAlike(s: Scan, t: Scan, c: char, d: char, i: nat)
    requires AlikeScans(s, t) && SameLetter(c, d)
    ensures AlikeScans(PushLiteral(s, c, i), PushLiteral(t, d, i))
  {
    FlushThenPushAlike(s, t, s.kind == Op || s.kind == Brace, Literal, c, d, i);
  }

  lemma QuoteAlike(s: Scan, t: Scan, i: nat)
    requires AlikeScans(s, t)
    ensures AlikeScans(Advance(s, '\'', i), Advance(t, '\'', i))
  {
    var c := '\'';
    if s.quoted {
      PushAlike(s, t, c, c, i);
      FlushAlike(Push(s, c, i), Push(t, c, i));
    } else {
      FlushThenPushAlike(s.(quoted := true), t.(quoted := true), true, QuotedLiteral, c, c, i);
    }
  }

  lemma BraceAlike(s: Scan, t: Scan, c: char, i: nat)
    requires AlikeScans(s, t) && IsBrace(c)
    ensures AlikeScans(Advance(s, c, i), Advance(t, c, i))
  {
    FlushAlike(s, t);
  }

  lemma OtherAlike(s: Scan, t: Scan, c: char, i: nat)
    requires AlikeScans(s, t) && (c == ' ' || c == '\\' || IsOp(c))
    ensures AlikeScans(Advance(s, c, i), Advance(t, c, i))
  {
    if c == ' ' {
      FlushAlike(s, t);
      PushAlike(s, t, c, c, i);
    } else if c == '\\' {
      PushLiteralAlike(s, t, c, c, i);
      PushAlike(s.(escaped := true), t.(escaped := true), c, c, i);
    } else {
      FlushThenPushAlike(s, t, s.kind != NoToken && s.kind != Op, Op, c, c, i);
    }
  }

  /** Whatever the scanner looks for is no letter. */
  lemma AdvanceAlike(s: Scan, t: Scan, c: char, d: char, i: nat)
    requires AlikeScans(s, t) && SameLetter(c, d)
    ensures AlikeScans(Advance(s, c, i), Advance(t, d, i))
  {
    if c == '\'' {
      QuoteAlike(s, t, i);
    } else if IsBrace(c) {
      BraceAlike(s, t, c, i);
    } else if c == ' ' || c == '\\' || IsOp(c) {
      OtherAlike(s, t, c, i);
    } else {
      PushLiteralAlike(s, t, c, d, i);
    }
  }

  lemma {:induction false} AdvanceAllAlike(s: Scan, t: Scan, x: string, y: string, base: nat)
    requires AlikeScans(s, t) && Alike(x, y)
    ensures AlikeScans(AdvanceAll(s, x, base), AdvanceAll(t, y, base))
    decreases |x|
  {
    if x != "" {
      AdvanceAlike(s, t, x[0], y[0], base);
      AdvanceAllAlike(Advance(s, x[0], base), Advance(t, y[0], base), x[1..], y[1..], base + 1);
    }
  }

  /** Tokens of texts that are alike are alike, of the same kind and in the same places. */
  lemma TokensAlike(x: string, y: string)
    requires Alike(x, y)
    ensures AlikeTokens(ScanTokens(x), ScanTokens(y)) && AlikeWords(Words(ScanTokens(x)), Words(ScanTokens(y)))
  {
    AdvanceAllAlike(Blankslate, Blankslate, x, y, 0);
    FlushAlike(AdvanceAll(Blankslate, x, 0), AdvanceAll(Blankslate, y, 0));
  }

  // ---------------------------------------------------------------------------------------------
  // Expressions that differ in the case of their letters
  // ---------------------------------------------------------------------------------------------

  predicate AlikeTerms(t: Term, u: Term)
    decreases t
  {
    match (t, u)
    case (Cmp(c, op, v), Cmp(c', op', v')) => Alike(c, c') && Alike(op, op') && Alike(v, v')
    case (Group(e), Group(e')) => AlikeExprs(e, e')
    case _ => false
  }

  predicate AlikeExprs(e: Expr, f: Expr)
    decreases e
  {
    match (e, f)
    case (Single(t), Single(u)) => AlikeTerms(t, u)
    case (Join(t, op, rest), Join(u, op', rest')) => AlikeTerms(t, u) && Alike(op, op') && AlikeExprs(rest, rest')
    case _ => false
  }

  /** The names of the columns that are compared, as they are emitted. */
  function TermColumns(t: Term): seq<string> { if t.Cmp? then [ToLower(t.column)] else Columns(t.inner) }

  function Columns(e: Expr): seq<string> { TermColumns(e.term) + if e.Join? then Columns(e.rest) else [] }

  /** The words in value position. */
  function TermOperands(t: Term): seq<string> { if t.Cmp? then [t.operand] else Operands(t.inner) }

  function Operands(e: Expr): seq<string> { TermOperands(e.term) + if e.Join? then Operands(e.rest) else [] }

  lemma IdentifiersAlike(a: string, b: string)
    requires Alike(a, b)
    ensures IsIdentifier(a) ==> IsIdentifier(b)
  {
  }

  lemma OperatorsAlike(a: string, b: string)
    requires Alike(a, b)
    ensures IsComparison(a) ==> IsComparison(b)
    ensures IsLogical(a) ==> IsLogical(b)
  {
    AlikeLowers(a, b);
    if a == "=" { assert b == "="; }
    if a == "<>" { assert b == "<>"; }
  }

  lemma ValuesAlike(a: string, b: string)
    requires Alike(a, b)
    ensures IsQuotedValue(a) ==> IsQuotedValue(b)
    ensures IsBareValue(a) ==> IsBareValue(b)
  {
  }

  lemma {:induction false} TermsAlike(t: Term, u: Term, cols: seq<string>)
    requires AlikeTerms(t, u) && WellFormedTerm(t, cols)
    ensures WellFormedTerm(u, cols) && TermColumns(t) == TermColumns(u) && TermPiece(t).joins == TermPiece(u).joins
    decreases t
  {
    match t
    case Cmp(c, op, v) =>
      IdentifiersAlike(c, u.column);
      AlikeLowers(c, u.column);
      OperatorsAlike(op, u.op);
      ValuesAlike(v, u.operand);
    case Group(e) => ExprsAlike(e, u.inner, cols);
  }

  lemma {:induction false} ExprsAlike(e: Expr, f: Expr, cols: seq<string>)
    requires AlikeExprs(e, f) && WellFormed(e, cols)
    ensures WellFormed(f, cols) && Columns(e) == Columns(f) && ExprPiece(e).joins == ExprPiece(f).joins
    decreases e
  {
    TermsAlike(e.term, f.term, cols);
    if e.Join? {
      OperatorsAlike(e.op, f.op);
      ExprsAlike(e.rest, f.rest, cols);
    }
  }

  lemma WordsSplit(a: seq<string>, b: seq<string>, words: seq<string>)
    requires AlikeWords(a + b, words)
    ensures |a| <= |words| && AlikeWords(a, words[..|a|]) && AlikeWords(b, words[|a|..])
    ensures words == words[..|a|] + words[|a|..]
  {
    forall i | 0 <= i < |a| ensures Alike(a[i], words[..|a|][i]) { assert (a + b)[i] == a[i]; }
    forall i | 0 <= i < |b| ensures Alike(b[i], words[|a|..][i]) { assert (a + b)[|a| + i] == b[i]; }
  }

  lemma OneWord(w: string, words: seq<string>)
    requires AlikeWords([w], words)
    ensures words == [words[0]] && Alike(w, words[0]) && (w == "(" || w == ")" ==> words[0] == w)
  {
    assert [w][0] == w;
  }

  /** Words that are like those of a term are those of a term like it. */
  lemma {:induction false} RetypeTerm(t: Term, words: seq<string>) returns (u: Term)
    requires AlikeWords(TermPiece(t).tokens, words)
    ensures TermPiece(u).tokens == words && AlikeTerms(t, u)
    decreases t
  {
    match t
    case Cmp(c, op, v) =>
      assert [c, op, v][0] == c && [c, op, v][1] == op && [c, op, v][2] == v;
      u := Cmp(words[0], words[1], words[2]);
    case Group(e) =>
      var inner := ExprPiece(e).tokens;
      WordsSplit(["("] + inner, [")"], words);
      var front := words[..1 + |inner|];
      WordsSplit(["("], inner, front);
      OneWord("(", front[..1]);
      OneWord(")", words[1 + |inner|..]);
      var f := RetypeExpr(e, front[1..]);
      u := Group(f);
  }

  lemma {:induction false} RetypeExpr(e: Expr, words: seq<string>) returns (f: Expr)
    requires AlikeWords(ExprPiece(e).tokens, words)
    ensures ExprPiece(f).tokens == words && AlikeExprs(e, f)
    decreases e
  {
    if e.Single? {
      var t := RetypeTerm(e.term, words);
      f := Single(t);
    } else {
      var first, rest := TermPiece(e.term).tokens, ExprPiece(e.rest).tokens;
      WordsSplit(first + [e.op], rest, words);
      var front := words[..|first| + 1];
      WordsSplit(first, [e.op], front);
      OneWord(e.op, front[|first|..]);
      var t := RetypeTerm(e.term, front[..|first|]);
      var r := RetypeExpr(e.rest, words[|first| + 1..]);
      f := Join(t, front[|first|], r);
    }
  }

  lemma {:induction false} SameOperandValues(e: Expr, f: Expr)
    requires AlikeExprs(e, f) && Operands(e) == Operands(f)
    ensures ExprPiece(e).values == ExprPiece(f).values
    decreases e
  {
    OperandCount(e.term, f.term);
    if e.Join? {
      assert TermOperands(e.term) == Operands(e)[..|TermOperands(e.term)|];
      assert TermOperands(f.term) == Operands(f)[..|TermOperands(f.term)|];
      assert Operands(e.rest) == Operands(e)[|TermOperands(e.term)|..];
      assert Operands(f.rest) == Operands(f)[|TermOperands(f.term)|..];
      SameOperandValues(e.rest, f.rest);
    } else {
      assert Operands(e) == TermOperands(e.term) && Operands(f) == TermOperands(f.term);
    }
    if e.term.Group? { SameOperandValues(e.term.inner, f.term.inner); }
  }

  lemma {:induction false} OperandCount(t: Term, u: Term)
    requires AlikeTerms(t, u)
    ensures |TermOperands(t)| == |TermOperands(u)|
    decreases t
  {
    if t.Group? { ExprOperandCount(t.inner, u.inner); }
  }

  lemma {:induction false} ExprOperandCount(e: Expr, f: Expr)
    requires AlikeExprs(e, f)
    ensures |Operands(e)| == |Operands(f)|
    decreases e
  {
    OperandCount(e.term, f.term);
    if e.Join? { ExprOperandCount(e.rest, f.rest); }
  }

  /** If a text is accepted, so is every text that differs from it in the case of letters only. */
  lemma Retyped(x: string, y: string, cols: seq<string>, e: Expr) returns (f: Expr)
    requires Alike(x, y) && Derives(e, cols, x)
    ensures Derives(f, cols, y) && AlikeExprs(e, f) && Columns(e) == Columns(f)
  {
    TokensAlike(x, y);
    f := RetypeExpr(e, Words(ScanTokens(y)));
    ExprsAlike(e, f, cols);
  }

  lemma AlikeBack(x: string, y: string)
    requires Alike(x, y)
    ensures Alike(y, x)
  {
  }

  /** Two texts that differ in the case of letters only are both accepted or both rejected. */
  lemma CaseDoesNotMatter(q: DBQuery, x: string, y: string)
    requires Alike(x, y)
    ensures ParseFrom(q, x).1.Ok? <==> ParseFrom(q, y).1.Ok?
  {
    AlikeBack(x, y);
    if ParseFrom(q, x).1.Ok? {
      var e := AcceptedIsDerivable(q, x);
      var f := Retyped(x, y, q.validColumns, e);
      DerivableIsAccepted(q, y, f);
    } else if ParseFrom(q, y).1.Ok? {
      var f := AcceptedIsDerivable(q, y);
      var e := Retyped(y, x, q.validColumns, f);
      DerivableIsAccepted(q, x, e);
    }
  }

  /** They then compare the same columns, and if they agree in the words of their values, have the same values. */
  lemma CaseChangesNoMeaning(q: DBQuery, x: string, y: string, e: Expr, f: Expr)
    requires Alike(x, y) && Derives(e, q.validColumns, x) && Derives(f, q.validColumns, y)
    ensures AlikeExprs(e, f) && Columns(e) == Columns(f) && ParseFrom(q, x).1.Ok? && ParseFrom(q, y).1.Ok?
    ensures Operands(e) == Operands(f) ==> ParseFrom(q, x).1.query.values == ParseFrom(q, y).1.query.values
  {
    var f' := Retyped(x, y, q.validColumns, e);
    LanguageIsUnambiguous(f, f', q.validColumns, y);
    DerivableIsAccepted(q, x, e);
    DerivableIsAccepted(q, y, f);
    if Operands(e) == Operands(f) { SameOperandValues(e, f); }
  }
}
