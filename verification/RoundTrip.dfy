/**
 Printing a filter and parsing it back. A value is printed between single quotes with its quotes
 escaped; tokens may be laid out with any spacing that keeps neighbouring words apart.
 */
module RoundTrip {
  import opened Scanning
  import opened StateMachine
  import opened QueryParsing
  import opened QueryLanguage

  function Escape(v: string): string {
    if v == "" then ""
    else (if v[0] == '\'' then "\\'" else [v[0]]) + Escape(v[1..])
  }

  function Quote(v: string): string { "'" + (Escape(v) + "'") }

  /** Scanning the escaped form of `v` inside quotes leaves the escape flag set. */
  predicate Dangles(escaped: bool, v: string)
    decreases |v|
  {
    if v == "" then escaped
    else Dangles(if v[0] == '\\' then true else if v[0] == '\'' then false else escaped, v[1..])
  }

  predicate IsSplitter(c: char) { IsBrace(c) || IsOp(c) }

  predicate Unsplit(v: string) { forall c :: c in v ==> !IsSplitter(c) }

  /** No brace or operator character, and no backslash after the last quote. */
  predicate Quotable(v: string) { Unsplit(v) && !Dangles(false, v) }

  // ---------------------------------------------------------------------------------------------
  // Quoting is undone by the parser
  // ---------------------------------------------------------------------------------------------

  predicate EndsInBackslash(v: string) { v != "" && v[|v| - 1] == '\\' }

  /** Only a final backslash is lost: it turns the closing quote into an escaped one. */
  lemma {:induction false} UnescapeEscape(v: string)
    ensures Unescape(Escape(v) + "'") == (if EndsInBackslash(v) then v[..|v| - 1] else v) + "'"
    decreases |v|
  {
    if |v| == 1 && v[0] == '\\' {
      assert Escape(v) == "\\" by { assert v == "\\"; }
    } else if v != "" {
      var w := v[1..];
      var t, all := Escape(w) + "'", Escape(v) + "'";
      UnescapeEscape(w);
      if v[0] == '\'' {
        assert all == "\\'" + t && all[2..] == t;
      } else {
        assert all == [v[0]] + t && all[1..] == t;
        assert w != "" ==> t[0] == Escape(w)[0] != '\'';
      }
      assert v == [v[0]] + w;
    }
  }

  lemma UnquoteQuote(v: string)
    ensures Unquote(Quote(v)) == v <==> !EndsInBackslash(v)
  {
    UnescapeEscape(v);
    var rest := Escape(v) + "'";
    assert Quote(v)[1..] == rest;
    assert Unescape(Quote(v)) == "'" + Unescape(rest);
  }

  lemma {:induction false} EscapedQuotes(v: string, i: nat)
    requires i < |Escape(v)| && Escape(v)[i] == '\''
    ensures i > 0 && Escape(v)[i - 1] == '\\'
    decreases |v|
  {
    var head := if v[0] == '\'' then "\\'" else [v[0]];
    if i >= |head| {
      EscapedQuotes(v[1..], i - |head|);
    }
  }

  lemma QuoteIsQuotedValue(v: string)
    ensures IsQuotedValue(Quote(v))
  {
    var q := Quote(v);
    forall i | 1 <= i < |q| - 1 && q[i] == '\'' ensures q[i - 1] == '\\' {
      EscapedQuotes(v, i - 1);
    }
  }

  // ---------------------------------------------------------------------------------------------
  // The scanner on quoted text
  // ---------------------------------------------------------------------------------------------

  predicate InQuotes(s: Scan) { s.quoted && s.text != "" && (s.kind == Literal || s.kind == QuotedLiteral) }

  lemma ScanEscapedQuote(s: Scan, base: nat)
    requires InQuotes(s)
    ensures AdvanceAll(s, "\\'", base) == s.(text := s.text + "\\'", escaped := false)
  {
    var s1 := Advance(s, '\\', base);
    assert "\\'"[1..] == "'" && "'"[1..] == "";
    assert AdvanceAll(s, "\\'", base) == AdvanceAll(s1, "'", base + 1) == Advance(s1, '\'', base + 1);
    assert (s.text + "\\") + "'" == s.text + "\\'";
  }

  lemma ScanQuotedChar(s: Scan, c: char, base: nat)
    requires InQuotes(s) && !IsSplitter(c) && c != '\''
    ensures var r := AdvanceAll(s, [c], base);
      InQuotes(r) && r == s.(text := s.text + [c], kind := r.kind, escaped := s.escaped || c == '\\')
  {
    assert AdvanceAll(s, [c], base) == Advance(s, c, base) by { assert [c][1..] == ""; }
  }

  function Head(v: string): string
    requires v != ""
  {
    if v[0] == '\'' then "\\'" else [v[0]]
  }

  lemma ScanHead(s: Scan, v: string, base: nat)
    requires InQuotes(s) && Unsplit(v) && v != ""
    ensures var r := AdvanceAll(s, Head(v), base);
      && InQuotes(r)
      && r == s.(text := s.text + Head(v), kind := r.kind, escaped := r.escaped)
      && Dangles(r.escaped, v[1..]) == Dangles(s.escaped, v)
  {
    assert v[0] in v;
    if v[0] == '\'' { ScanEscapedQuote(s, base); } else { ScanQuotedChar(s, v[0], base); }
  }

  lemma AppendAssociative(a: string, b: string, c: string)
    ensures (a + b) + c == a + (b + c)
  {
  }

  lemma {:induction false} ScanBody(s: Scan, v: string, base: nat)
    requires InQuotes(s) && Unsplit(v)
    ensures var r := AdvanceAll(s, Escape(v), base);
      InQuotes(r) && r == s.(text := s.text + Escape(v), kind := r.kind, escaped := Dangles(s.escaped, v))
    decreases |v|
  {
    if v == "" {
      assert s.text + "" == s.text;
    } else {
      var h, w := Head(v), v[1..];
      ScanHead(s, v, base);
      var s' := AdvanceAll(s, h, base);
      ScanBody(s', w, base + |h|);
      AdvanceAllAppend(s, h, Escape(w), base);
      AppendAssociative(s.text, h, Escape(w));
    }
  }

  lemma ScanOpening(s: Scan, base: nat)
    requires !s.quoted && !s.escaped
    ensures AdvanceAll(s, "'", base) == Scan(Flush(s).tokens, "'", base, QuotedLiteral, true, false)
  {
    assert "'"[1..] == "";
  }

  /** An opening quote and the escaped value: everything is pending. */
  lemma ScanOpenQuote(s: Scan, v: string, base: nat)
    requires !s.quoted && !s.escaped && Unsplit(v)
    ensures var r := AdvanceAll(s, "'" + Escape(v), base);
      InQuotes(r) && r == Scan(Flush(s).tokens, "'" + Escape(v), base, r.kind, true, Dangles(false, v))
  {
    ScanOpening(s, base);
    AdvanceAllAppend(s, "'", Escape(v), base);
    ScanBody(AdvanceAll(s, "'", base), v, base + 1);
  }

  /** A quotable value between quotes is one token, after which the scanner is outside quotes. */
  lemma ScanQuote(s: Scan, v: string, base: nat)
    requires !s.quoted && !s.escaped && Quotable(v)
    ensures var r := AdvanceAll(s, Quote(v), base);
      exists kind :: r == Scan(Flush(s).tokens + [Token(kind, Quote(v), base)], "", r.at, NoToken, false, false)
  {
    ScanOpenQuote(s, v, base);
    var r := AdvanceAll(s, "'" + Escape(v), base);
    AppendAssociative("'", Escape(v), "'");
    AdvanceAllSnoc(s, "'" + Escape(v), '\'', base);
    ClosingQuote(r, base + |"'" + Escape(v)|);
  }

  /** The quote that ends a quoted token. */
  lemma ClosingQuote(r: Scan, i: nat)
    requires r.quoted && !r.escaped && r.text != ""
    ensures Advance(r, '\'', i) == Scan(r.tokens + [Token(r.kind, r.text + "'", r.at)], "", r.at, NoToken, false, false)
  {
  }

  // ---------------------------------------------------------------------------------------------
  // Any layout of atomic words scans to those words
  // ---------------------------------------------------------------------------------------------

  predicate IsBraceWord(w: string) { w == "(" || w == ")" }

  predicate AllOf(w: string, kind: TokenType) {
    w != "" && forall c :: c in w ==> ClassOf(c) == kind && c != '\''
  }

  ghost predicate IsQuotedWord(w: string) { exists v :: Quotable(v) && w == Quote(v) }

  ghost predicate Atomic(w: string) { IsBraceWord(w) || AllOf(w, Op) || AllOf(w, Literal) || IsQuotedWord(w) }

  /** Two words that the scanner keeps apart even without a space between them. */
  predicate MayTouch(a: string, b: string) {
    !(AllOf(a, Op) && AllOf(b, Op)) && !(AllOf(a, Literal) && AllOf(b, Literal))
  }

  /** A word and the number of spaces before it. */
  datatype Laid = Laid(gap: nat, word: string)

  function Spaces(n: nat): string { if n == 0 then "" else " " + Spaces(n - 1) }

  function LayOut(lay: seq<Laid>): string {
    if lay == [] then ""
    else LayOut(lay[..|lay| - 1]) + (Spaces(lay[|lay| - 1].gap) + lay[|lay| - 1].word)
  }

  function LaidWords(lay: seq<Laid>): seq<string> {
    if lay == [] then [] else LaidWords(lay[..|lay| - 1]) + [lay[|lay| - 1].word]
  }

  ghost predicate Readable(lay: seq<Laid>) {
    && (forall i :: 0 <= i < |lay| ==> Atomic(lay[i].word))
    && (forall i :: 0 < i < |lay| ==> lay[i].gap > 0 || MayTouch(lay[i - 1].word, lay[i].word))
  }

  /** The scanner between two words, the last of which may still be pending. */
  ghost predicate Between(s: Scan, words: seq<string>) {
    && !s.quoted && !s.escaped
    && Words(Flush(s).tokens) == words
    && (if s.text == "" then s.kind == NoToken else
          (s.kind == Op || s.kind == Literal) && AllOf(s.text, s.kind) && words != [] && words[|words| - 1] == s.text)
  }

  lemma {:induction false} WordsSnoc(tokens: seq<Token>, t: Token)
    ensures Words(tokens + [t]) == Words(tokens) + [t.value]
  {
    assert forall i :: 0 <= i < |tokens| ==> (tokens + [t])[i] == tokens[i];
  }

  lemma {:induction false} ScanSpaces(s: Scan, n: nat, base: nat)
    requires !s.quoted && n > 0
    ensures AdvanceAll(s, Spaces(n), base) == Flush(s)
    decreases n
  {
    assert Spaces(n)[1..] == Spaces(n - 1);
    if n > 1 { ScanSpaces(Flush(s), n - 1, base + 1); }
  }

  lemma {:induction false} ScanRun(s: Scan, w: string, kind: TokenType, base: nat)
    requires !s.quoted && s.text != "" && s.kind == kind && (kind == Op || kind == Literal)
    requires forall c :: c in w ==> ClassOf(c) == kind && c != '\''
    ensures AdvanceAll(s, w, base) == s.(text := s.text + w)
    decreases |w|
  {
    if w == "" {
      assert s.text + w == s.text;
    } else {
      assert w[0] in w;
      ScanRun(Advance(s, w[0], base), w[1..], kind, base + 1);
      assert (s.text + [w[0]]) + w[1..] == s.text + w;
    }
  }

  lemma StartRun(s: Scan, c: char, kind: TokenType, base: nat)
    requires !s.quoted && !s.escaped && (kind == Op || kind == Literal) && ClassOf(c) == kind && c != '\''
    requires if s.text == "" then s.kind == NoToken else (s.kind == Op || s.kind == Literal) && s.kind != kind
    ensures Advance(s, c, base) == Scan(Flush(s).tokens, [c], base, kind, false, false)
  {
    AdvancePlain(s, c, base);
    assert "" + [c] == [c];
  }

  lemma ScanRunFrom(s: Scan, w: string, kind: TokenType, base: nat)
    requires !s.quoted && !s.escaped && (kind == Op || kind == Literal) && AllOf(w, kind)
    requires if s.text == "" then s.kind == NoToken else (s.kind == Op || s.kind == Literal) && s.kind != kind
    ensures AdvanceAll(s, w, base) == Scan(Flush(s).tokens, w, base, kind, false, false)
  {
    assert w[0] in w;
    StartRun(s, w[0], kind, base);
    ScanRun(Advance(s, w[0], base), w[1..], kind, base + 1);
    assert [w[0]] + w[1..] == w;
  }

  lemma ScanWordRun(s: Scan, words: seq<string>, w: string, kind: TokenType, r: Scan)
    requires Between(s, words) && (kind == Op || kind == Literal) && AllOf(w, kind)
    requires r == Scan(Flush(s).tokens, w, r.at, kind, false, false)
    ensures Between(r, words + [w])
  {
    WordsSnoc(Flush(s).tokens, Token(kind, w, r.at));
  }

  lemma ScanWord(s: Scan, words: seq<string>, w: string, base: nat)
    requires Between(s, words) && Atomic(w) && (s.text == "" || MayTouch(s.text, w))
    ensures Between(AdvanceAll(s, w, base), words + [w])
  {
    if AllOf(w, Op) {
      ScanRunFrom(s, w, Op, base);
      ScanWordRun(s, words, w, Op, AdvanceAll(s, w, base));
    } else if AllOf(w, Literal) {
      ScanRunFrom(s, w, Literal, base);
      ScanWordRun(s, words, w, Literal, AdvanceAll(s, w, base));
    } else if IsBraceWord(w) {
      assert w[1..] == "" && w == [w[0]];
      WordsSnoc(Flush(s).tokens, Token(Brace, w, base));
    } else {
      var v :| Quotable(v) && w == Quote(v);
      ScanQuote(s, v, base);
      var r := AdvanceAll(s, w, base);
      var kind :| r == Scan(Flush(s).tokens + [Token(kind, w, base)], "", r.at, NoToken, false, false);
      WordsSnoc(Flush(s).tokens, Token(kind, w, base));
    }
  }

  lemma FlushBetween(s: Scan, words: seq<string>)
    requires Between(s, words)
    ensures Between(Flush(s), words)
  {
  }

  lemma ScanSkip(s: Scan, gap: nat, w: string, base: nat)
    requires !s.quoted && gap > 0
    ensures AdvanceAll(s, Spaces(gap) + w, base) == AdvanceAll(Flush(s), w, base + |Spaces(gap)|)
  {
    AdvanceAllAppend(s, Spaces(gap), w, base);
    ScanSpaces(s, gap, base);
  }

  lemma ScanFlushed(s: Scan, words: seq<string>, w: string, base: nat, r: Scan)
    requires Between(s, words) && Atomic(w) && r == AdvanceAll(Flush(s), w, base)
    ensures Between(r, words + [w])
  {
    FlushBetween(s, words);
    ScanWord(Flush(s), words, w, base);
  }

  lemma ScanGapAndWord(s: Scan, words: seq<string>, l: Laid, base: nat)
    requires Between(s, words) && Atomic(l.word) && (s.text == "" || l.gap > 0 || MayTouch(s.text, l.word))
    ensures Between(AdvanceAll(s, Spaces(l.gap) + l.word, base), words + [l.word])
  {
    if l.gap == 0 {
      assert Spaces(0) + l.word == l.word;
      ScanWord(s, words, l.word, base);
    } else {
      ScanSkip(s, l.gap, l.word, base);
      ScanFlushed(s, words, l.word, base + |Spaces(l.gap)|, AdvanceAll(s, Spaces(l.gap) + l.word, base));
    }
  }

  lemma ScanMore(text: string, words: seq<string>, l: Laid)
    requires Between(AdvanceAll(Blankslate, text, 0), words) && Atomic(l.word)
    requires words == [] || l.gap > 0 || MayTouch(words[|words| - 1], l.word)
    ensures Between(AdvanceAll(Blankslate, text + (Spaces(l.gap) + l.word), 0), words + [l.word])
  {
    AdvanceAllAppend(Blankslate, text, Spaces(l.gap) + l.word, 0);
    ScanGapAndWord(AdvanceAll(Blankslate, text, 0), words, l, |text|);
  }

  lemma ReadableBefore(lay: seq<Laid>, n: nat)
    requires Readable(lay) && |lay| == n + 1
    ensures Readable(lay[..n]) && Atomic(lay[n].word)
    ensures n > 0 ==> lay[n].gap > 0 || MayTouch(lay[..n][n - 1].word, lay[n].word)
  {
  }

  lemma {:induction false} ScanLayout(lay: seq<Laid>)
    requires Readable(lay)
    ensures Between(AdvanceAll(Blankslate, LayOut(lay), 0), LaidWords(lay))
    decreases |lay|
  {
    if lay != [] {
      var n := |lay| - 1;
      var before, l := lay[..n], lay[n];
      ReadableBefore(lay, n);
      ScanLayout(before);
      if before != [] { LastWord(before); }
      ScanMore(LayOut(before), LaidWords(before), l);
    }
  }

  lemma LastWord(lay: seq<Laid>)
    requires lay != []
    ensures var ws := LaidWords(lay); ws != [] && ws[|ws| - 1] == lay[|lay| - 1].word
  {
  }

  lemma ScanTail(s: Scan, txt: string, tail: nat)
    requires s == AdvanceAll(Blankslate, txt, 0) && !s.quoted
    ensures ScanTokens(txt + Spaces(tail)) == Flush(s).tokens
  {
    if tail == 0 {
      assert txt + Spaces(0) == txt;
    } else {
      AdvanceAllAppend(Blankslate, txt, Spaces(tail), 0);
      ScanSpaces(s, tail, |txt|);
    }
  }

  /** Scanning undoes every readable layout, with any number of trailing spaces. */
  lemma LayoutsScanToTheirWords(lay: seq<Laid>, tail: nat)
    requires Readable(lay)
    ensures Words(ScanTokens(LayOut(lay) + Spaces(tail))) == LaidWords(lay)
  {
    ScanLayout(lay);
    ScanTail(AdvanceAll(Blankslate, LayOut(lay), 0), LayOut(lay), tail);
  }

  // ---------------------------------------------------------------------------------------------
  // Print, then parse
  // ---------------------------------------------------------------------------------------------

  /** An expression with plain values as operands, printed with every value quoted. */
  function QuoteTerm(t: Term): Term {
    match t
    case Cmp(c, op, v) => Cmp(c, op, Quote(v))
    case Group(e) => Group(QuoteAll(e))
  }

  function QuoteAll(e: Expr): Expr {
    match e
    case Single(t) => Single(QuoteTerm(t))
    case Join(t, op, rest) => Join(QuoteTerm(t), op, QuoteAll(rest))
  }

  /** The rendering with a question mark for each value, and the values from left to right. */
  function RenderTerm(t: Term): string {
    match t
    case Cmp(c, op, _) => ToLower(c) + (" " + op) + " ?"
    case Group(e) => "(" + Render(e) + ")"
  }

  function Render(e: Expr): string {
    match e
    case Single(t) => RenderTerm(t)
    case Join(t, op, rest) => RenderTerm(t) + (" " + op + " ") + Render(rest)
  }

  function TermLeaves(t: Term): seq<string> {
    match t
    case Cmp(_, _, v) => [v]
    case Group(e) => Leaves(e)
  }

  function Leaves(e: Expr): seq<string> {
    match e
    case Single(t) => TermLeaves(t)
    case Join(t, _, rest) => TermLeaves(t) + Leaves(rest)
  }

  function TermJoins(t: Term): nat { if t.Cmp? then 0 else Joins(t.inner) }

  function Joins(e: Expr): nat { TermJoins(e.term) + (if e.Single? then 0 else 1 + Joins(e.rest)) }

  predicate UtterableTerm(t: Term, cols: seq<string>) {
    match t
    case Cmp(c, op, _) => IsIdentifier(c) && ToLower(c) in cols && IsComparison(op)
    case Group(e) => Utterable(e, cols)
  }

  /** Known columns and proper operators, with any values. */
  predicate Utterable(e: Expr, cols: seq<string>) {
    UtterableTerm(e.term, cols) && (e.Join? ==> IsLogical(e.op) && Utterable(e.rest, cols))
  }

  /** The same, with values that survive quoting anywhere. */
  ghost predicate Printable(e: Expr, cols: seq<string>) {
    Utterable(e, cols) && forall v :: v in Leaves(e) ==> Quotable(v)
  }

  lemma QuotableEnds(v: string)
    requires !Dangles(false, v)
    ensures !EndsInBackslash(v)
  {
    DanglesLast(false, v);
  }

  lemma {:induction false} DanglesLast(escaped: bool, v: string)
    ensures EndsInBackslash(v) ==> Dangles(escaped, v)
    decreases |v|
  {
    if |v| > 1 {
      DanglesLast(if v[0] == '\\' then true else if v[0] == '\'' then false else escaped, v[1..]);
    }
  }

  ghost predicate NoneEndsInBackslash(values: seq<string>) { forall v :: v in values ==> !EndsInBackslash(v) }

  lemma {:induction false} QuotedTermPiece(t: Term, cols: seq<string>)
    requires UtterableTerm(t, cols)
    ensures var p := TermPiece(QuoteTerm(t));
      && WellFormedTerm(QuoteTerm(t), cols) && p.query == RenderTerm(t) && p.joins == TermJoins(t)
      && (NoneEndsInBackslash(TermLeaves(t)) ==> p.values == TermLeaves(t))
    decreases t, 0
  {
    match t
    case Cmp(c, op, v) =>
      QuoteIsQuotedValue(v);
      UnquoteQuote(v);
      assert v in TermLeaves(t);
    case Group(e) =>
      QuotedExprPiece(e, cols);
      var p := ExprPiece(QuoteAll(e));
      assert [] + p.values + [] == p.values;
  }

  lemma {:induction false} QuotedExprPiece(e: Expr, cols: seq<string>)
    requires Utterable(e, cols)
    ensures var p := ExprPiece(QuoteAll(e));
      && WellFormed(QuoteAll(e), cols) && p.query == Render(e) && p.joins == Joins(e)
      && (NoneEndsInBackslash(Leaves(e)) ==> p.values == Leaves(e))
    decreases e, 1
  {
    QuotedTermPiece(e.term, cols);
    if e.Join? {
      QuotedExprPiece(e.rest, cols);
      var a := TermPiece(QuoteTerm(e.term));
      assert a.values + [] == a.values;
    }
  }

  /** How a printed expression may be laid out: its tokens in order, neighbouring words kept apart. */
  ghost predicate Prints(lay: seq<Laid>, e: Expr) {
    && LaidWords(lay) == ExprPiece(QuoteAll(e)).tokens
    && forall i :: 0 < i < |lay| ==> lay[i].gap > 0 || MayTouch(lay[i - 1].word, lay[i].word)
  }

  /** A word that is printed for anything but a value. */
  predicate IsWord(w: string) {
    (IsBraceWord(w) || AllOf(w, Op) || AllOf(w, Literal)) && '\\' !in w
  }

  lemma IdentifierIsWord(c: string)
    requires IsIdentifier(c)
    ensures IsWord(c)
  {
    assert forall i :: 0 <= i < |c| ==> IsWordChar(c[i]);
    assert AllOf(c, Literal);
  }

  lemma LettersAreWords(op: string)
    requires ToLower(op) == "like" || IsLogical(op)
    ensures IsWord(op)
  {
    assert forall i :: 0 <= i < |op| ==> 'a' <= Lower(op[i]) <= 'z';
    assert AllOf(op, Literal);
  }

  lemma OperatorIsWord(op: string)
    requires IsComparison(op) || IsLogical(op)
    ensures IsWord(op)
  {
    if op == "=" || op == "<>" { assert AllOf(op, Op); } else { LettersAreWords(op); }
  }

  /** Words, and quoted values from `values`. */
  ghost predicate Uttered(words: seq<string>, values: seq<string>) {
    forall w :: w in words ==> IsWord(w) || exists v :: v in values && w == Quote(v)
  }

  lemma UtteredGrows(words: seq<string>, values: seq<string>, more: seq<string>)
    requires Uttered(words, values) && forall v :: v in values ==> v in more
    ensures Uttered(words, more)
  {
  }

  lemma {:induction false} TermTokensUttered(t: Term, cols: seq<string>)
    requires UtterableTerm(t, cols)
    ensures Uttered(TermPiece(QuoteTerm(t)).tokens, TermLeaves(t))
    decreases t, 0
  {
    match t
    case Cmp(c, op, v) =>
      IdentifierIsWord(c);
      OperatorIsWord(op);
      assert v in TermLeaves(t);
    case Group(e) =>
      ExprTokensUttered(e, cols);
      assert IsWord("(") && IsWord(")");
  }

  lemma {:induction false} ExprTokensUttered(e: Expr, cols: seq<string>)
    requires Utterable(e, cols)
    ensures Uttered(ExprPiece(QuoteAll(e)).tokens, Leaves(e))
    decreases e, 1
  {
    TermTokensUttered(e.term, cols);
    if e.Join? {
      ExprTokensUttered(e.rest, cols);
      OperatorIsWord(e.op);
      UtteredGrows(TermPiece(QuoteTerm(e.term)).tokens, TermLeaves(e.term), Leaves(e));
      UtteredGrows(ExprPiece(QuoteAll(e.rest)).tokens, Leaves(e.rest), Leaves(e));
    }
  }

  ghost predicate AllAtomic(words: seq<string>) { forall w :: w in words ==> Atomic(w) }

  lemma {:induction false} LaidWordAt(lay: seq<Laid>, i: nat)
    requires i < |lay|
    ensures |LaidWords(lay)| == |lay| && LaidWords(lay)[i] == lay[i].word
    decreases |lay|
  {
    var n := |lay| - 1;
    if n > 0 { LaidWordAt(lay[..n], if i < n then i else 0); }
  }

  /**
   For every expression with known columns, at most ten joins and quotable values, and for every
   layout of its quoted form: parsing succeeds, the query is the rendering with one question mark
   per value, and the values are the original ones from left to right.
   */
  lemma PrintThenParse(e: Expr, cols: seq<string>, lay: seq<Laid>, tail: nat)
    requires Printable(e, cols) && Joins(e) <= MaximumComplexity && Prints(lay, e)
    ensures ParseFrom(DBQuery("", [], cols), LayOut(lay) + Spaces(tail)).1 == Ok(DBQuery(Render(e), Leaves(e), cols))
  {
    ExprTokensUttered(e, cols);
    PrintedTokens(e, lay, tail);
    forall v | v in Leaves(e) ensures !EndsInBackslash(v) { QuotableEnds(v); }
    QuotedExprPiece(e, cols);
    ParsesToRendering(QuoteAll(e), cols, LayOut(lay) + Spaces(tail));
  }

  lemma PrintedTokens(e: Expr, lay: seq<Laid>, tail: nat)
    requires Prints(lay, e) && AllAtomic(ExprPiece(QuoteAll(e)).tokens)
    ensures Words(ScanTokens(LayOut(lay) + Spaces(tail))) == ExprPiece(QuoteAll(e)).tokens
  {
    forall i | 0 <= i < |lay| ensures Atomic(lay[i].word) { LaidWordAt(lay, i); }
    LayoutsScanToTheirWords(lay, tail);
  }

  lemma ParsesToRendering(e: Expr, cols: seq<string>, sql: string)
    requires Derives(e, cols, sql)
    ensures ParseFrom(DBQuery("", [], cols), sql).1 == Ok(DBQuery(ExprPiece(e).query, ExprPiece(e).values, cols))
  {
    ExprConserves(e, cols);
    DerivableIsAccepted(DBQuery("", [], cols), sql, e);
    FreshOutput(ExprPiece(e));
  }

  lemma FreshOutput(p: Piece)
    requires Tight(p.query)
    ensures Trim("" + p.query) == p.query && [] + p.values == p.values
  {
    assert "" + p.query == p.query;
    TightIsTrimmed(p.query);
  }

  lemma TightIsTrimmed(s: string)
    requires Tight(s)
    ensures Trim(s) == s
  {
  }
}
