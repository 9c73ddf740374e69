/**
 The hand-written scanner of the search filter (pkg/services/queryparser/scanner.go).

 `Scanner` keeps the source's fields and its character loop. `Advance` is one turn of that loop on
 the variables that matter, and `ScanTokens` is the whole scan. Text is ASCII, so that a character
 index is a byte offset.
 */
module Scanning {

  datatype TokenType = Op | Brace | Literal | QuotedLiteral | NoToken

  datatype Token = Token(tokenType: TokenType, value: string, position: nat)

  /** The scanner between two characters: `text` is the pending token, which started at `at`. */
  datatype Scan = Scan(tokens: seq<Token>, text: string, at: nat, kind: TokenType, quoted: bool, escaped: bool)

  const Blankslate := Scan([], "", 0, NoToken, false, false)

  predicate IsBrace(c: char) { c == '(' || c == ')' }

  predicate IsOp(c: char) { c == '=' || c == '<' || c == '>' }

  function Flush(s: Scan): Scan {
    if s.text == "" then s.(kind := NoToken)
    else s.(tokens := s.tokens + [Token(s.kind, s.text, s.at)], text := "", kind := NoToken)
  }

  function Push(s: Scan, c: char, i: nat): Scan {
    s.(text := s.text + [c], at := if s.text == "" then i else s.at)
  }

  function PushLiteral(s: Scan, c: char, i: nat): Scan {
    var s := if s.kind == Op || s.kind == Brace then Flush(s) else s;
    Push(s.(kind := Literal), c, i)
  }

  /** What the scanner does with character `c` at index `i`. */
  function Advance(s: Scan, c: char, i: nat): Scan {
    if c == ' ' then
      if s.quoted then Push(s, c, i) else Flush(s)
    else if IsBrace(c) then
      var s := Flush(s);
      s.(tokens := s.tokens + [Token(Brace, [c], i)])
    else if IsOp(c) then
      Push((if s.kind != NoToken && s.kind != Op then Flush(s) else s).(kind := Op), c, i)
    else if c == '\\' then
      if s.quoted then Push(s.(escaped := true), c, i) else PushLiteral(s, c, i)
    else if c == '\'' then
      if s.quoted then
        var s := Push(s, c, i);
        if s.escaped then s.(escaped := false) else Flush(s).(quoted := false)
      else
        Push(Flush(s).(quoted := true, kind := QuotedLiteral), c, i)
    else
      PushLiteral(s, c, i)
  }

  function AdvanceAll(s: Scan, txt: string, base: nat): Scan
    decreases |txt|
  {
    if txt == "" then s else AdvanceAll(Advance(s, txt[0], base), txt[1..], base + 1)
  }

  /** All tokens of `txt`. */
  function ScanTokens(txt: string): seq<Token> {
    Flush(AdvanceAll(Blankslate, txt, 0)).tokens
  }

  lemma {:induction false} AdvanceAllAppend(s: Scan, a: string, b: string, base: nat)
    ensures AdvanceAll(s, a + b, base) == AdvanceAll(AdvanceAll(s, a, base), b, base + |a|)
    decreases |a|
  {
    if a == "" {
      assert a + b == b;
    } else {
      assert (a + b)[1..] == a[1..] + b;
      AdvanceAllAppend(Advance(s, a[0], base), a[1..], b, base + 1);
    }
  }

  lemma AdvanceAllSnoc(s: Scan, a: string, c: char, base: nat)
    ensures AdvanceAll(s, a + [c], base) == Advance(AdvanceAll(s, a, base), c, base + |a|)
  {
    AdvanceAllAppend(s, a, [c], base);
  }

  lemma ScanPrefixStep(txt: string, n: nat)
    requires n < |txt|
    ensures AdvanceAll(Blankslate, txt[..n + 1], 0) == Advance(AdvanceAll(Blankslate, txt[..n], 0), txt[n], n)
  {
    assert txt[..n + 1] == txt[..n] + [txt[n]];
    AdvanceAllSnoc(Blankslate, txt[..n], txt[n], 0);
  }

  // ---------------------------------------------------------------------------------------------
  // The scanner object
  // ---------------------------------------------------------------------------------------------

  /** The source's pending single-character tokens spell `text`, which starts at `at`. */
  ghost predicate Spells(buffer: seq<Token>, text: string, at: nat) {
    && |buffer| == |text|
    && (forall j :: 0 <= j < |buffer| ==> buffer[j].value == [text[j]])
    && (buffer != [] ==> buffer[0].position == at)
  }

  /** The source's sendCurrentTokens: at most one token, holding the pending characters. */
  method SendCurrentTokens(buffer: seq<Token>, current: TokenType, ghost text: string, ghost at: nat)
    returns (sent: seq<Token>)
    requires Spells(buffer, text, at)
    ensures sent == if text == "" then [] else [Token(current, text, at)]
  {
    var res := "";
    for i := 0 to |buffer|
      invariant res == text[..i]
    {
      res := res + buffer[i].value;
    }
    assert text[..|text|] == text;
    if res != "" {
      sent := [Token(current, res, buffer[0].position)];
    } else {
      sent := [];
    }
  }

  lemma SpellsPush(buffer: seq<Token>, s: Scan, c: char, i: nat, tokenType: TokenType)
    requires Spells(buffer, s.text, s.at)
    ensures Spells(buffer + [Token(tokenType, [c], i)], Push(s, c, i).text, Push(s, c, i).at)
  {
  }

  /** Adds a character to the pending token, or sends that token and starts another if `cut` says so. */
  method Extend(buffer: seq<Token>, current: TokenType, cut: bool, kind: TokenType, c: char, i: nat, ghost s: Scan)
    returns (sent: seq<Token>, buffer': seq<Token>)
    requires Spells(buffer, s.text, s.at) && current == s.kind
    ensures var next := Push((if cut then Flush(s) else s).(kind := kind), c, i);
      next.tokens == s.tokens + sent && Spells(buffer', next.text, next.at)
  {
    if cut {
      sent := SendCurrentTokens(buffer, current, s.text, s.at);
      buffer' := [Token(kind, [c], i)];
    } else {
      SpellsPush(buffer, s, c, i, kind);
      sent, buffer' := [], buffer + [Token(kind, [c], i)];
    }
  }

  /** The turn for a quote. */
  method AcceptQuote(buffer: seq<Token>, current: TokenType, quoted: bool, escaped: bool, i: nat, ghost s: Scan)
    returns (sent: seq<Token>, buffer': seq<Token>, current': TokenType, quoted': bool)
    requires Spells(buffer, s.text, s.at) && current == s.kind && quoted == s.quoted && escaped == s.escaped
    ensures var next := Advance(s, '\'', i);
      && next.tokens == s.tokens + sent && Spells(buffer', next.text, next.at)
      && current' == next.kind && quoted' == next.quoted && next.escaped == (escaped && !quoted)
  {
    sent, current', quoted' := [], current, quoted;
    if quoted {
      SpellsPush(buffer, s, '\'', i, QuotedLiteral);
      buffer' := buffer + [Token(QuotedLiteral, ['\''], i)];
      if !escaped {
        sent := SendCurrentTokens(buffer', current, Push(s, '\'', i).text, Push(s, '\'', i).at);
        buffer', quoted', current' := [], false, NoToken;
      }
    } else {
      sent := SendCurrentTokens(buffer, current, s.text, s.at);
      quoted', current' := true, QuotedLiteral;
      buffer' := [Token(Op, ['\''], i)];
    }
  }

  /** The turn for a space or a brace. */
  method AcceptBreak(buffer: seq<Token>, current: TokenType, quoted: bool, c: char, i: nat, ghost s: Scan)
    returns (sent: seq<Token>, buffer': seq<Token>, current': TokenType)
    requires Spells(buffer, s.text, s.at) && current == s.kind && quoted == s.quoted && (c == ' ' || IsBrace(c))
    ensures var next := Advance(s, c, i);
      && next.tokens == s.tokens + sent && Spells(buffer', next.text, next.at) && current' == next.kind
      && next.quoted == s.quoted && next.escaped == s.escaped
  {
    if c == ' ' && quoted {
      SpellsPush(buffer, s, c, i, Literal);
      return [], buffer + [Token(Literal, [c], i)], current;
    }
    sent := SendCurrentTokens(buffer, current, s.text, s.at);
    buffer', current' := [], NoToken;
    if c != ' ' { sent := sent + [Token(Brace, [c], i)]; }
  }

  /** One turn of the character loop on the pending tokens; `sent` goes to the scanner's list. */
  method Accept(buffer: seq<Token>, current: TokenType, quoted: bool, escaped: bool, c: char, i: nat, ghost s: Scan)
    returns (sent: seq<Token>, buffer': seq<Token>, current': TokenType, quoted': bool, escaped': bool)
    requires Spells(buffer, s.text, s.at) && current == s.kind && quoted == s.quoted && escaped == s.escaped
    ensures var next := Advance(s, c, i);
      && next.tokens == s.tokens + sent && Spells(buffer', next.text, next.at)
      && current' == next.kind && quoted' == next.quoted && escaped' == next.escaped
  {
    sent, buffer', current', quoted', escaped' := [], buffer, current, quoted, escaped;
    if c == ' ' || IsBrace(c) {
      sent, buffer', current' := AcceptBreak(buffer, current, quoted, c, i, s);
    } else if IsOp(c) {
      sent, buffer' := Extend(buffer, current, current != NoToken && current != Op, Op, c, i, s);
      current' := Op;
    } else if c == '\\' && quoted {
      escaped' := true;
      SpellsPush(buffer, s, c, i, QuotedLiteral);
      buffer' := buffer + [Token(QuotedLiteral, [c], i)];
    } else if c == '\'' {
      sent, buffer', current', quoted' := AcceptQuote(buffer, current, quoted, escaped, i, s);
      if quoted { escaped' := false; }
    } else {
      var cut := current != NoToken && current != Literal && current != QuotedLiteral;
      sent, buffer' := Extend(buffer, current, cut, Literal, c, i, s);
      current' := Literal;
    }
  }

  class Scanner {
    var tokens: seq<Token>
    var pos: int

    constructor ()
      ensures tokens == [] && pos == -1
    {
      tokens, pos := [], -1;
    }

    /** Appends the tokens of `txt`; neither the tokens already there nor the position is reset. */
    method Init(txt: string)
      modifies this`tokens
      ensures tokens == old(tokens) + ScanTokens(txt)
    {
      var buffer: seq<Token> := [];
      var current, quoted, escaped := NoToken, false, false;
      ghost var s := Blankslate;
      for i := 0 to |txt|
        invariant s == AdvanceAll(Blankslate, txt[..i], 0)
        invariant tokens == old(tokens) + s.tokens
        invariant Spells(buffer, s.text, s.at) && current == s.kind && quoted == s.quoted && escaped == s.escaped
      {
        ScanPrefixStep(txt, i);
        var sent;
        sent, buffer, current, quoted, escaped := Accept(buffer, current, quoted, escaped, txt[i], i, s);
        tokens := tokens + sent;
        s := Advance(s, txt[i], i);
      }
      assert txt[..|txt|] == txt;
      var sent := SendCurrentTokens(buffer, current, s.text, s.at);
      tokens := tokens + sent;
    }

    method Next() returns (more: bool)
      modifies this`pos
      ensures more == (old(pos) < |tokens| - 1)
      ensures pos == if more then old(pos) + 1 else old(pos)
    {
      more := pos < |tokens| - 1;
      if more { pos := pos + 1; }
    }

    function Current(): Token
      requires 0 <= pos < |tokens|
      reads this
    {
      tokens[pos]
    }
  }

  // ---------------------------------------------------------------------------------------------
  // Exactness: the tokens tile the text, up to the spaces outside quotes
  // ---------------------------------------------------------------------------------------------

  /** Quotation, defined on the text alone: a backslash inside quotes stays in force until a quote. */
  datatype QuoteMode = Outside | Inside | InsideEscaped

  function NextMode(m: QuoteMode, c: char): QuoteMode {
    match m
    case Outside => if c == '\'' then Inside else Outside
    case Inside => if c == '\'' then Outside else if c == '\\' then InsideEscaped else Inside
    case InsideEscaped => if c == '\'' then Inside else InsideEscaped
  }

  function ModeAt(txt: string, i: nat): QuoteMode
    requires i <= |txt|
  {
    if i == 0 then Outside else NextMode(ModeAt(txt, i - 1), txt[i - 1])
  }

  predicate Separator(txt: string, i: nat)
    requires i < |txt|
  {
    txt[i] == ' ' && ModeAt(txt, i) == Outside
  }

  predicate Covers(t: Token, i: nat) { t.position <= i < t.position + |t.value| }

  ghost predicate Slice(t: Token, txt: string, hi: nat)
    requires hi <= |txt|
  {
    && t.value != ""
    && t.position + |t.value| <= hi
    && txt[t.position..t.position + |t.value|] == t.value
    && (forall i :: Covers(t, i) ==> !Separator(txt, i))
    && (forall i :: t.position + |t.value| <= i < hi ==> Separator(txt, i))
  }

  /** The tokens cover `txt[..hi]` from right to left, leaving only separators between them. */
  ghost predicate Tiles(tokens: seq<Token>, txt: string, hi: nat)
    requires hi <= |txt|
    decreases |tokens|
  {
    if tokens == [] then forall i :: 0 <= i < hi ==> Separator(txt, i)
    else
      var t := tokens[|tokens| - 1];
      Slice(t, txt, hi) && Tiles(tokens[..|tokens| - 1], txt, t.position)
  }

  /** The scan of the first `n` characters. */
  ghost predicate Exact(s: Scan, txt: string, n: nat)
    requires n <= |txt|
  {
    && ModeAt(txt, n) == (if !s.quoted then Outside else if s.escaped then InsideEscaped else Inside)
    && (s.escaped ==> s.quoted)
    && (if s.text == "" then Tiles(s.tokens, txt, n)
        else
          && s.at + |s.text| == n
          && txt[s.at..n] == s.text
          && (forall i :: s.at <= i < n ==> !Separator(txt, i))
          && Tiles(s.tokens, txt, s.at))
  }

  lemma ExactFlush(s: Scan, txt: string, n: nat)
    requires n <= |txt| && Exact(s, txt, n)
    ensures Exact(Flush(s), txt, n)
  {
    var f := Flush(s);
    if s.text != "" {
      var t := Token(s.kind, s.text, s.at);
      assert f.tokens[..|f.tokens| - 1] == s.tokens;
      assert Slice(t, txt, n);
    }
  }

  lemma TilesExtend(tokens: seq<Token>, txt: string, n: nat)
    requires n < |txt| && Separator(txt, n) && Tiles(tokens, txt, n)
    ensures Tiles(tokens, txt, n + 1)
  {
    if tokens != [] {
      assert Slice(tokens[|tokens| - 1], txt, n + 1);
    }
  }

  lemma ExactPush(s: Scan, txt: string, n: nat, next: Scan)
    requires n < |txt| && Exact(s, txt, n) && !Separator(txt, n)
    requires next.tokens == s.tokens && (next.escaped ==> next.quoted)
    requires next.text == s.text + [txt[n]] && next.at == if s.text == "" then n else s.at
    requires ModeAt(txt, n + 1) == (if !next.quoted then Outside else if next.escaped then InsideEscaped else Inside)
    ensures Exact(next, txt, n + 1)
  {
    assert txt[next.at..n + 1] == next.text by { SliceGrows(txt, next.at, n); }
  }

  lemma SliceGrows(txt: string, at: nat, n: nat)
    requires at <= n < |txt|
    ensures txt[at..n + 1] == txt[at..n] + [txt[n]]
  {
  }

  lemma ExactQuote(s: Scan, txt: string, n: nat)
    requires n < |txt| && Exact(s, txt, n) && txt[n] == '\'' && s.quoted
    ensures Exact(Advance(s, txt[n], n), txt, n + 1)
  {
    var p := Push(s, txt[n], n);
    if s.escaped {
      ExactPush(s, txt, n, p.(escaped := false));
    } else {
      ExactPush(s, txt, n, p.(quoted := false));
      ExactFlush(p.(quoted := false), txt, n + 1);
    }
  }

  lemma ExactBrace(s: Scan, txt: string, n: nat)
    requires n < |txt| && Exact(s, txt, n) && IsBrace(txt[n]) && s.text == ""
    ensures Exact(Advance(s, txt[n], n), txt, n + 1)
  {
    var t := Token(Brace, [txt[n]], n);
    assert (s.tokens + [t])[..|s.tokens|] == s.tokens;
    assert Slice(t, txt, n + 1);
  }

  /** The pending token ends before `c`, which starts a new one. */
  predicate Breaks(s: Scan, c: char) {
    if IsOp(c) then s.kind != NoToken && s.kind != Op
    else if c == '\'' then !s.quoted
    else (c != '\\' || !s.quoted) && (s.kind == Op || s.kind == Brace)
  }

  lemma ExactBreak(s: Scan, txt: string, n: nat)
    requires n < |txt| && Exact(Flush(s), txt, n) && txt[n] != ' ' && !IsBrace(txt[n]) && Breaks(s, txt[n])
    ensures Exact(Advance(s, txt[n], n), txt, n + 1)
  {
    ExactPush(Flush(s), txt, n, Advance(s, txt[n], n));
  }

  lemma ExactContinue(s: Scan, txt: string, n: nat)
    requires n < |txt| && Exact(s, txt, n) && txt[n] != ' ' && !IsBrace(txt[n]) && !Breaks(s, txt[n])
    requires txt[n] != '\''
    ensures Exact(Advance(s, txt[n], n), txt, n + 1)
  {
    ExactPush(s, txt, n, Advance(s, txt[n], n));
  }

  lemma ExactAdvance(s: Scan, txt: string, n: nat)
    requires n < |txt| && Exact(s, txt, n)
    ensures Exact(Advance(s, txt[n], n), txt, n + 1)
  {
    var c := txt[n];
    var f := Flush(s);
    ExactFlush(s, txt, n);
    if c == ' ' {
      if s.quoted { ExactPush(s, txt, n, Push(s, c, n)); } else { TilesExtend(f.tokens, txt, n); }
    } else if IsBrace(c) {
      ExactBrace(f, txt, n);
      assert Advance(s, c, n) == Advance(f, c, n);
    } else if c == '\'' && s.quoted {
      ExactQuote(s, txt, n);
    } else if Breaks(s, c) {
      ExactBreak(s, txt, n);
    } else {
      ExactContinue(s, txt, n);
    }
  }

  lemma {:induction false} ExactPrefix(txt: string, n: nat)
    requires n <= |txt|
    ensures Exact(AdvanceAll(Blankslate, txt[..n], 0), txt, n)
  {
    if n > 0 {
      ExactPrefix(txt, n - 1);
      ScanPrefixStep(txt, n - 1);
      ExactAdvance(AdvanceAll(Blankslate, txt[..n - 1], 0), txt, n - 1);
    }
  }

  ghost predicate Ordered(tokens: seq<Token>, txt: string) {
    && (forall k :: 0 <= k < |tokens| ==>
          && tokens[k].value != "" && tokens[k].position + |tokens[k].value| <= |txt|
          && txt[tokens[k].position..tokens[k].position + |tokens[k].value|] == tokens[k].value)
    && (forall j, k :: 0 <= j < k < |tokens| ==>
          tokens[j].position + |tokens[j].value| <= tokens[k].position)
  }

  lemma OrderedSnoc(rest: seq<Token>, t: Token, txt: string, hi: nat)
    requires hi <= |txt| && Ordered(rest, txt) && Slice(t, txt, hi)
    requires forall k :: 0 <= k < |rest| ==> rest[k].position + |rest[k].value| <= t.position
    ensures Ordered(rest + [t], txt)
  {
  }

  lemma {:induction false} TilesOrdered(tokens: seq<Token>, txt: string, hi: nat)
    requires hi <= |txt| && Tiles(tokens, txt, hi)
    ensures Ordered(tokens, txt)
    ensures forall k :: 0 <= k < |tokens| ==> tokens[k].position + |tokens[k].value| <= hi
    decreases |tokens|
  {
    if tokens != [] {
      var last := |tokens| - 1;
      var t, rest := tokens[last], tokens[..last];
      TilesOrdered(rest, txt, t.position);
      OrderedSnoc(rest, t, txt, hi);
      assert tokens == rest + [t];
    }
  }

  ghost predicate Covered(tokens: seq<Token>, i: nat) {
    exists k :: 0 <= k < |tokens| && Covers(tokens[k], i)
  }

  lemma {:induction false} TilesCover(tokens: seq<Token>, txt: string, hi: nat, i: nat)
    requires i < hi <= |txt| && Tiles(tokens, txt, hi)
    ensures Covered(tokens, i) <==> !Separator(txt, i)
    decreases |tokens|
  {
    if tokens != [] {
      var last := |tokens| - 1;
      var t, rest := tokens[last], tokens[..last];
      TilesOrdered(rest, txt, t.position);
      assert forall k :: 0 <= k < last ==> tokens[k] == rest[k];
      if i < t.position {
        TilesCover(rest, txt, t.position, i);
        if Covered(tokens, i) {
          var k :| 0 <= k < |tokens| && Covers(tokens[k], i);
          assert Covers(rest[k], i);
        }
      } else if Covers(t, i) {
        assert Covers(tokens[last], i);
      }
    }
  }

  /**
   For every text: each token is the non-empty slice of the text at its position, the tokens are in
   order and disjoint, and a character belongs to some token exactly when it is not a space outside
   quotes.
   */
  lemma ScannerExactness(txt: string)
    ensures Ordered(ScanTokens(txt), txt)
    ensures forall i :: 0 <= i < |txt| ==> (Covered(ScanTokens(txt), i) <==> !Separator(txt, i))
  {
    ExactPrefix(txt, |txt|);
    assert txt[..|txt|] == txt;
    ExactFlush(AdvanceAll(Blankslate, txt, 0), txt, |txt|);
    TilesOrdered(ScanTokens(txt), txt, |txt|);
    forall i | 0 <= i < |txt| ensures Covered(ScanTokens(txt), i) <==> !Separator(txt, i) {
      TilesCover(ScanTokens(txt), txt, |txt|, i);
    }
  }

  /** At every point of every scan: `escaped` only inside quotes, and quotation follows the text. */
  lemma EscapedOnlyInsideQuotes(txt: string, n: nat)
    requires n <= |txt|
    ensures var s := AdvanceAll(Blankslate, txt[..n], 0);
      (s.escaped ==> s.quoted) && (s.quoted <==> ModeAt(txt, n) != Outside)
  {
    ExactPrefix(txt, n);
  }

  // ---------------------------------------------------------------------------------------------
  // Text without quotes: the tokens are the maximal runs of one character class
  // ---------------------------------------------------------------------------------------------

  function ClassOf(c: char): TokenType {
    if c == ' ' then NoToken else if IsBrace(c) then Brace else if IsOp(c) then Op else Literal
  }

  /** All characters of one class; a brace stands alone. */
  ghost predicate Run(t: Token) {
    && t.value != "" && t.tokenType != NoToken
    && (forall i :: 0 <= i < |t.value| ==> ClassOf(t.value[i]) == t.tokenType)
    && (t.tokenType == Brace ==> |t.value| == 1)
  }

  ghost predicate Maximal(tokens: seq<Token>) {
    && (forall k :: 0 <= k < |tokens| ==> Run(tokens[k]))
    && (forall k :: 0 < k < |tokens| && tokens[k - 1].position + |tokens[k - 1].value| == tokens[k].position ==>
          tokens[k - 1].tokenType != tokens[k].tokenType || tokens[k].tokenType == Brace)
  }

  ghost predicate Plain(s: Scan, n: nat) {
    && !s.quoted
    && Maximal(Flush(s).tokens)
    && (s.text != "" ==> (s.kind == Op || s.kind == Literal) && s.at + |s.text| == n)
    && (s.text == "" ==> s.kind == NoToken && (s.tokens != [] ==>
          var t := s.tokens[|s.tokens| - 1];
          t.position + |t.value| < n || (t.position + |t.value| == n && t.tokenType == Brace)))
  }

  ghost predicate Parted(tokens: seq<Token>, t: Token) {
    tokens != [] ==>
      var p := tokens[|tokens| - 1];
      p.position + |p.value| == t.position ==> p.tokenType != t.tokenType || t.tokenType == Brace
  }

  lemma MaximalSnoc(tokens: seq<Token>, t: Token)
    ensures Maximal(tokens + [t]) <==> Maximal(tokens) && Run(t) && Parted(tokens, t)
  {
    var all := tokens + [t];
    assert all[|tokens|] == t;
    assert forall k :: 0 <= k < |tokens| ==> all[k] == tokens[k];
    if Maximal(all) {
      assert forall k :: 0 <= k < |tokens| ==> Run(all[k]);
      assert tokens != [] ==> all[|tokens| - 1] == tokens[|tokens| - 1];
    }
  }

  lemma PlainGrow(s: Scan, c: char, n: nat)
    requires Plain(s, n) && s.text != "" && ClassOf(c) == s.kind
    ensures Plain(Push(s, c, n), n + 1)
  {
    MaximalSnoc(s.tokens, Token(s.kind, s.text, s.at));
    var t := Token(s.kind, s.text + [c], s.at);
    MaximalSnoc(s.tokens, t);
  }

  lemma PlainStart(s: Scan, c: char, n: nat)
    requires Plain(s, n) && (s.text != "" ==> s.kind != ClassOf(c)) && (ClassOf(c) == Op || ClassOf(c) == Literal)
    ensures Plain(Push(Flush(s).(kind := ClassOf(c)), c, n), n + 1)
  {
    var f := Flush(s);
    MaximalSnoc(f.tokens, Token(ClassOf(c), [c], n));
    assert "" + [c] == [c];
  }

  lemma PlainBrace(s: Scan, c: char, n: nat)
    requires Plain(s, n) && IsBrace(c)
    ensures Plain(Flush(s).(tokens := Flush(s).tokens + [Token(Brace, [c], n)]), n + 1)
  {
    MaximalSnoc(Flush(s).tokens, Token(Brace, [c], n));
  }

  /** Outside quotes the scanner only looks at the class of the next character. */
  lemma AdvancePlain(s: Scan, c: char, n: nat)
    requires !s.quoted && c != '\'' && (if s.text == "" then s.kind == NoToken else s.kind == Op || s.kind == Literal)
    ensures Advance(s, c, n) ==
      if c == ' ' then Flush(s)
      else if IsBrace(c) then Flush(s).(tokens := Flush(s).tokens + [Token(Brace, [c], n)])
      else if s.text != "" && s.kind == ClassOf(c) then Push(s, c, n)
      else Push(Flush(s).(kind := ClassOf(c)), c, n)
  {
  }

  lemma PlainAdvance(s: Scan, c: char, n: nat, next: Scan)
    requires Plain(s, n) && c != '\'' && next == Advance(s, c, n)
    ensures Plain(next, n + 1)
  {
    AdvancePlain(s, c, n);
    if c == ' ' {
      assert Flush(next) == next;
    } else if IsBrace(c) {
      PlainBrace(s, c, n);
    } else if s.text != "" && s.kind == ClassOf(c) {
      PlainGrow(s, c, n);
    } else {
      PlainStart(s, c, n);
    }
  }

  lemma {:induction false} PlainAll(s: Scan, txt: string, base: nat)
    requires Plain(s, base) && '\'' !in txt
    ensures Plain(AdvanceAll(s, txt, base), base + |txt|)
    decreases |txt|
  {
    if txt != "" {
      var next := Advance(s, txt[0], base);
      PlainAdvance(s, txt[0], base, next);
      PlainAll(next, txt[1..], base + 1);
    }
  }

  /**
   On text without quotes every token is a run of one character class (a brace alone), and two
   tokens that touch are of different classes or the right one is a brace. With ScannerExactness
   this fixes the tokens of such a text.
   */
  lemma UnquotedTokensAreMaximalRuns(txt: string)
    requires '\'' !in txt
    ensures Maximal(ScanTokens(txt))
  {
    PlainAll(Blankslate, txt, 0);
  }
}
