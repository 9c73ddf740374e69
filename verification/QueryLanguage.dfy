/**
 The language of the search filter, given by expression trees, and the proof that the parser
 accepts exactly the token sequences of those trees and emits exactly their rendering.
 */
module QueryLanguage {
  import opened Scanning
  import opened StateMachine
  import opened QueryParsing

  datatype Term = Cmp(column: string, op: string, operand: string) | Group(inner: Expr)

  datatype Expr = Single(term: Term) | Join(term: Term, op: string, rest: Expr)

  /** The word has the keyword's length, and each of its characters is the small or the capital letter. */
  predicate Spelled(w: string, small: string, capital: string)
    requires |small| == |capital|
  {
    |w| == |small| && forall i :: 0 <= i < |w| ==> w[i] == small[i] || w[i] == capital[i]
  }

  predicate IsComparison(op: string): (b: bool)
    ensures b <==> op == "=" || op == "<>" || ToLower(op) == "like"
  {
    op == "=" || op == "<>" || Spelled(op, "like", "LIKE")
  }

  predicate IsLogical(op: string): (b: bool)
    ensures b <==> ToLower(op) == "or" || ToLower(op) == "and"
  {
    Spelled(op, "or", "OR") || Spelled(op, "and", "AND")
  }

  predicate WellFormedTerm(t: Term, cols: seq<string>)
    decreases t
  {
    match t
    case Cmp(c, op, v) =>
      IsIdentifier(c) && ToLower(c) in cols && IsComparison(op) && (IsQuotedValue(v) || IsBareValue(v))
    case Group(e) => WellFormed(e, cols)
  }

  predicate WellFormed(e: Expr, cols: seq<string>)
    decreases e
  {
    WellFormedTerm(e.term, cols) && (e.Join? ==> IsLogical(e.op) && WellFormed(e.rest, cols))
  }

  /** What a piece of an expression contributes: its tokens, its SQL, its values and its joins. */
  datatype Piece = Piece(tokens: seq<string>, query: string, values: seq<string>, joins: nat)

  function Plus(a: Piece, b: Piece): Piece {
    Piece(a.tokens + b.tokens, a.query + b.query, a.values + b.values, a.joins + b.joins)
  }

  function Word(tok: string, sql: string): Piece { Piece([tok], sql, [], 0) }

  /** The value that a token in value position stands for. */
  function Meaning(tok: string): string { if IsQuotedValue(tok) then Unquote(tok) else tok }

  function TermPiece(t: Term): Piece
    decreases t
  {
    match t
    case Cmp(c, op, v) => Piece([c, op, v], ToLower(c) + (" " + op) + " ?", [Meaning(v)], 0)
    case Group(e) => Plus(Plus(Word("(", "("), ExprPiece(e)), Word(")", ")"))
  }

  function JoinPiece(op: string): Piece { Piece([op], " " + op + " ", [], 1) }

  function ExprPiece(e: Expr): Piece
    decreases e
  {
    match e
    case Single(t) => TermPiece(t)
    case Join(t, op, rest) => Plus(Plus(TermPiece(t), JoinPiece(op)), ExprPiece(rest))
  }

  // ---------------------------------------------------------------------------------------------
  // Completeness: the machine runs through the tokens of every expression
  // ---------------------------------------------------------------------------------------------

  /** Run `r` extended by what piece `p` contributes, now in state `s`. */
  function Extended(r: Run, p: Piece, s: Name): Run {
    Run(s, r.open, r.joins + p.joins, r.query + p.query, r.values + p.values)
  }

  ghost predicate RunsThrough(cols: seq<string>, r: Run, p: Piece) {
    var f := Feed(cols, r, p.tokens);
    f.Reached? && AfterTerm(f.run.state) && f.run == Extended(r, p, f.run.state)
  }

  lemma FeedOne(cols: seq<string>, r: Run, tok: string)
    ensures Feed(cols, r, [tok]) == Consume(cols, r, tok)
  {
    var c := Consume(cols, r, tok);
    if c.Reached? { assert [tok][1..] == []; }
  }

  /** What a comparison's tokens do to a run, one by one. */
  function WithColumn(r: Run, c: string): Run { r.(state := Column, query := r.query + ToLower(c)) }

  function WithOperator(r: Run, op: string): Run
    requires IsComparison(op)
  {
    r.(state := NextState(Column, op).value, query := r.query + (" " + op))
  }

  function WithValue(r: Run, v: string): Run {
    r.(state := if IsQuotedValue(v) then QuotedValue else Value,
       query := r.query + " ?", values := r.values + [Meaning(v)])
  }

  lemma ConsumeColumn(cols: seq<string>, r: Run, c: string)
    requires WantsTerm(r.state) && IsIdentifier(c) && ToLower(c) in cols
    ensures Consume(cols, r, c) == Reached(WithColumn(r, c))
  {
  }

  lemma ConsumeOperator(cols: seq<string>, r: Run, op: string)
    requires r.state == Column && IsComparison(op)
    ensures Consume(cols, r, op) == Reached(WithOperator(r, op)) && AfterOp(WithOperator(r, op).state)
  {
  }

  lemma ConsumeValue(cols: seq<string>, r: Run, v: string)
    requires AfterOp(r.state) && (IsBareValue(v) || IsQuotedValue(v))
    ensures Consume(cols, r, v) == Reached(WithValue(r, v))
  {
  }

  lemma CmpFeed(cols: seq<string>, r: Run, c: string, op: string, v: string)
    requires WantsTerm(r.state) && IsIdentifier(c) && ToLower(c) in cols && IsComparison(op)
    requires IsBareValue(v) || IsQuotedValue(v)
    ensures Feed(cols, r, [c, op, v]) == Reached(WithValue(WithOperator(WithColumn(r, c), op), v))
  {
    var r1 := WithColumn(r, c);
    var r2 := WithOperator(r1, op);
    ConsumeColumn(cols, r, c); ConsumeOperator(cols, r1, op); ConsumeValue(cols, r2, v);
    FeedOne(cols, r, c); FeedOne(cols, r1, op); FeedOne(cols, r2, v);
    FeedAppend(cols, r, [c], [op]);
    FeedAppend(cols, r, [c] + [op], [v]);
    assert [c] + [op] + [v] == [c, op, v];
  }

  lemma Regroup(a: string, b: string, c: string, d: string)
    ensures a + ((b + c) + d) == ((a + b) + c) + d
  {
  }

  lemma CmpRuns(cols: seq<string>, r: Run, t: Term)
    requires t.Cmp? && WellFormedTerm(t, cols) && WantsTerm(r.state)
    ensures RunsThrough(cols, r, TermPiece(t))
  {
    var c, op, v := t.column, t.op, t.operand;
    CmpFeed(cols, r, c, op, v);
    Regroup(r.query, ToLower(c), " " + op, " ?");
  }

  function Opened(r: Run): Run { r.(state := OpenBrace, open := r.open + 1, query := r.query + "(") }

  lemma OpenRuns(cols: seq<string>, r: Run)
    requires WantsTerm(r.state) && r.open >= 0
    ensures Feed(cols, r, ["("]) == Reached(Opened(r))
  {
    FeedOne(cols, r, "(");
  }

  lemma CloseRuns(cols: seq<string>, r: Run)
    requires AfterTerm(r.state) && r.open > 0
    ensures Feed(cols, r, [")"]) == Reached(r.(state := ClosedBrace, open := r.open - 1, query := r.query + ")"))
  {
    assert ToLower(")")[0] == ')';
    FeedOne(cols, r, ")");
  }

  lemma GroupFeed(cols: seq<string>, r: Run, tokens: seq<string>, r2: Run)
    requires WantsTerm(r.state) && r.open >= 0 && Feed(cols, Opened(r), tokens) == Reached(r2)
    requires AfterTerm(r2.state) && r2.open > 0
    ensures Feed(cols, r, (["("] + tokens) + [")"]) ==
      Reached(r2.(state := ClosedBrace, open := r2.open - 1, query := r2.query + ")"))
  {
    OpenRuns(cols, r);
    CloseRuns(cols, r2);
    FeedAppend(cols, r, ["("], tokens);
    FeedAppend(cols, r, ["("] + tokens, [")"]);
  }

  lemma GroupRuns(cols: seq<string>, r: Run, inner: Piece)
    requires WantsTerm(r.state) && r.open >= 0 && RunsThrough(cols, Opened(r), inner)
    ensures RunsThrough(cols, r, Plus(Plus(Word("(", "("), inner), Word(")", ")")))
  {
    GroupFeed(cols, r, inner.tokens, Feed(cols, Opened(r), inner.tokens).run);
    Regroup(r.query, "(", inner.query, ")");
    assert [] + inner.values + [] == inner.values;
  }

  lemma {:induction false} TermRuns(cols: seq<string>, r: Run, t: Term)
    requires WellFormedTerm(t, cols) && WantsTerm(r.state)
    requires r.open >= 0 && r.joins + TermPiece(t).joins <= MaximumComplexity
    ensures RunsThrough(cols, r, TermPiece(t))
    decreases t, 0
  {
    match t
    case Cmp(_, _, _) => CmpRuns(cols, r, t);
    case Group(e) =>
      ExprRuns(cols, Opened(r), e);
      GroupRuns(cols, r, ExprPiece(e));
  }

  lemma {:induction false} ExprRuns(cols: seq<string>, r: Run, e: Expr)
    requires WellFormed(e, cols) && WantsTerm(r.state)
    requires r.open >= 0 && r.joins + ExprPiece(e).joins <= MaximumComplexity
    ensures RunsThrough(cols, r, ExprPiece(e))
    decreases e, 1
  {
    TermRuns(cols, r, e.term);
    if e.Join? {
      var p, j, rest := TermPiece(e.term), JoinPiece(e.op), ExprPiece(e.rest);
      var r1 := Feed(cols, r, p.tokens).run;
      JoinRuns(cols, r1, e.op);
      var r2 := Feed(cols, r1, [e.op]).run;
      ExprRuns(cols, r2, e.rest);
      FeedAppend(cols, r, p.tokens, [e.op]);
      FeedAppend(cols, r, p.tokens + [e.op], rest.tokens);
      ExtendedTwice(r, p, j, rest);
    }
  }

  lemma JoinRuns(cols: seq<string>, r: Run, op: string)
    requires AfterTerm(r.state) && IsLogical(op) && r.joins < MaximumComplexity
    ensures var f := Feed(cols, r, [op]);
      f.Reached? && WantsTerm(f.run.state) && f.run == Extended(r, JoinPiece(op), f.run.state)
  {
    FeedOne(cols, r, op);
    assert r.values + [] == r.values;
  }

  lemma ExtendedTwice(r: Run, a: Piece, b: Piece, c: Piece)
    ensures forall s, s', s'' {:trigger Extended(Extended(Extended(r, a, s), b, s'), c, s'')} ::
      Extended(Extended(Extended(r, a, s), b, s'), c, s'') == Extended(r, Plus(Plus(a, b), c), s'')
  {
    assert r.query + ((a.query + b.query) + c.query) == ((r.query + a.query) + b.query) + c.query;
    assert r.values + ((a.values + b.values) + c.values) == ((r.values + a.values) + b.values) + c.values;
  }

  // ---------------------------------------------------------------------------------------------
  // Soundness: a partial derivation follows every run, one stack level per open brace
  // ---------------------------------------------------------------------------------------------

  /** The completed joins of one level, last one outermost. */
  datatype Prefix = Empty | More(before: Prefix, term: Term, op: string)

  datatype Stack = Bottom(level: Prefix) | Nested(outer: Stack, level: Prefix)

  datatype Pending = NoTerm | Col(column: string) | ColOp(column: string, op: string) | Done(term: Term)

  datatype Partial = Partial(stack: Stack, pending: Pending)

  function Close(p: Prefix, e: Expr): Expr {
    match p
    case Empty => e
    case More(before, t, op) => Close(before, Join(t, op, e))
  }

  /** What soundness needs of a piece: its tokens and its joins. The tree then fixes the output. */
  datatype Bit = Bit(tokens: seq<string>, joins: nat)

  const NoBit := Bit([], 0)

  function Cat(a: Bit, b: Bit): Bit { Bit(a.tokens + b.tokens, a.joins + b.joins) }

  function TokenBit(tok: string): Bit { Bit([tok], 0) }

  function JoinBit(op: string): Bit { Bit([op], 1) }

  function TermBit(t: Term): Bit { Bit(TermPiece(t).tokens, TermPiece(t).joins) }

  function ExprBit(e: Expr): Bit { Bit(ExprPiece(e).tokens, ExprPiece(e).joins) }

  lemma CatAssociative(a: Bit, b: Bit, c: Bit)
    ensures Cat(Cat(a, b), c) == Cat(a, Cat(b, c))
  {
    assert (a.tokens + b.tokens) + c.tokens == a.tokens + (b.tokens + c.tokens);
  }

  lemma CatNone(a: Bit)
    ensures Cat(a, NoBit) == a && Cat(NoBit, a) == a
  {
    assert a.tokens + [] == a.tokens;
  }

  lemma GroupBit(e: Expr)
    ensures TermBit(Group(e)) == Cat(Cat(TokenBit("("), ExprBit(e)), TokenBit(")"))
  {
  }

  lemma ConsBit(t: Term, op: string, rest: Expr)
    ensures ExprBit(Join(t, op, rest)) == Cat(Cat(TermBit(t), JoinBit(op)), ExprBit(rest))
  {
  }

  function PrefixBit(p: Prefix): Bit {
    match p
    case Empty => NoBit
    case More(before, t, op) => Cat(PrefixBit(before), Cat(TermBit(t), JoinBit(op)))
  }

  function StackBit(s: Stack): Bit {
    match s
    case Bottom(level) => PrefixBit(level)
    case Nested(outer, level) => Cat(Cat(StackBit(outer), TokenBit("(")), PrefixBit(level))
  }

  function PendingBit(p: Pending): Bit {
    match p
    case NoTerm => NoBit
    case Col(c) => TokenBit(c)
    case ColOp(c, op) => Bit([c, op], 0)
    case Done(t) => TermBit(t)
  }

  function PartialBit(p: Partial): Bit { Cat(StackBit(p.stack), PendingBit(p.pending)) }

  function Depth(s: Stack): nat {
    match s
    case Bottom(_) => 0
    case Nested(outer, _) => 1 + Depth(outer)
  }

  predicate GoodPrefix(p: Prefix, cols: seq<string>) {
    match p
    case Empty => true
    case More(before, t, op) => GoodPrefix(before, cols) && WellFormedTerm(t, cols) && IsLogical(op)
  }

  predicate GoodStack(s: Stack, cols: seq<string>) {
    match s
    case Bottom(level) => GoodPrefix(level, cols)
    case Nested(outer, level) => GoodPrefix(level, cols) && GoodStack(outer, cols)
  }

  predicate GoodPending(p: Pending, cols: seq<string>) {
    match p
    case NoTerm => true
    case Col(c) => IsIdentifier(c) && ToLower(c) in cols
    case ColOp(c, op) => IsIdentifier(c) && ToLower(c) in cols && IsComparison(op)
    case Done(t) => WellFormedTerm(t, cols)
  }

  predicate Expects(p: Pending, s: Name) {
    match p
    case NoTerm => WantsTerm(s)
    case Col(_) => s == Column
    case ColOp(_, _) => AfterOp(s)
    case Done(_) => AfterTerm(s)
  }

  /** Run `r` has consumed exactly the tokens of partial derivation `p`. */
  ghost predicate Follows(cols: seq<string>, r: Run, p: Partial) {
    && GoodStack(p.stack, cols) && GoodPending(p.pending, cols) && Expects(p.pending, r.state)
    && r.open == Depth(p.stack) && r.joins == PartialBit(p).joins <= MaximumComplexity
  }

  lemma {:induction false} CloseBit(p: Prefix, e: Expr)
    ensures ExprBit(Close(p, e)) == Cat(PrefixBit(p), ExprBit(e))
    decreases p
  {
    match p
    case Empty => CatNone(ExprBit(e));
    case More(before, t, op) =>
      CloseBit(before, Join(t, op, e));
      ConsBit(t, op, e);
      CatAssociative(PrefixBit(before), Cat(TermBit(t), JoinBit(op)), ExprBit(e));
  }

  lemma {:induction false} CloseIsGood(p: Prefix, e: Expr, cols: seq<string>)
    requires GoodPrefix(p, cols) && WellFormed(e, cols)
    ensures WellFormed(Close(p, e), cols)
    decreases p
  {
    if p.More? { CloseIsGood(p.before, Join(p.term, p.op, e), cols); }
  }

  // What the machine does with a token, by what is pending.

  lemma AfterNoTerm(cols: seq<string>, r: Run, tok: string, r': Run)
    requires WantsTerm(r.state) && r.open >= 0 && Consume(cols, r, tok) == Reached(r')
    ensures r'.joins == r.joins
    ensures if IsIdentifier(tok) then r'.state == Column && r'.open == r.open && ToLower(tok) in cols
      else tok == "(" && r'.state == OpenBrace && r'.open == r.open + 1
  {
  }

  lemma AfterColumn(cols: seq<string>, r: Run, tok: string, r': Run)
    requires r.state == Column && Consume(cols, r, tok) == Reached(r')
    ensures IsComparison(tok) && AfterOp(r'.state) && r'.open == r.open && r'.joins == r.joins
  {
    ColumnLeads(tok);
  }

  lemma ColumnLeads(tok: string)
    ensures var s := NextState(Column, tok);
      s.Some? ==> IsComparison(tok) && AfterOp(s.value) && FamilyOf(s.value) == OpFamily
  {
  }

  lemma AfterOperator(cols: seq<string>, r: Run, tok: string, r': Run)
    requires AfterOp(r.state) && Consume(cols, r, tok) == Reached(r')
    ensures (IsQuotedValue(tok) || IsBareValue(tok)) && AfterTerm(r'.state) && r'.open == r.open && r'.joins == r.joins
  {
  }

  lemma AfterDone(cols: seq<string>, r: Run, tok: string, r': Run)
    requires AfterTerm(r.state) && r.open >= 0 && Consume(cols, r, tok) == Reached(r')
    ensures if IsLogical(tok)
      then WantsTerm(r'.state) && r'.open == r.open && r'.joins == r.joins + 1 <= MaximumComplexity
      else tok == ")" && r'.state == ClosedBrace && r'.open == r.open - 1 >= 0 && r'.joins == r.joins
  {
  }

  /** One more token of a pending comparison. */
  lemma PendingGrows(p: Partial, pending: Pending, tok: string)
    requires PendingBit(pending) == Cat(PendingBit(p.pending), TokenBit(tok))
    ensures PartialBit(Partial(p.stack, pending)) == Cat(PartialBit(p), TokenBit(tok))
  {
    CatAssociative(StackBit(p.stack), PendingBit(p.pending), TokenBit(tok));
  }

  /** The partial derivation with a level pushed. */
  function Pushed(p: Partial): Partial { Partial(Nested(p.stack, Empty), NoTerm) }

  lemma PushedBit(p: Partial)
    requires p.pending.NoTerm?
    ensures PartialBit(Pushed(p)) == Cat(PartialBit(p), TokenBit("("))
  {
    CatNone(StackBit(p.stack));
    CatNone(Cat(StackBit(p.stack), TokenBit("(")));
  }

  /** The partial derivation with its finished term joined to the current level. */
  function Joined(p: Partial, op: string): Partial
    requires p.pending.Done?
  {
    var level := More(p.stack.level, p.pending.term, op);
    Partial(if p.stack.Bottom? then Bottom(level) else Nested(p.stack.outer, level), NoTerm)
  }

  lemma JoinedStack(p: Partial, op: string)
    requires p.pending.Done?
    ensures StackBit(Joined(p, op).stack) == Cat(StackBit(p.stack), Cat(TermBit(p.pending.term), JoinBit(op)))
  {
    if p.stack.Nested? {
      var w, level := TokenBit("("), p.stack.level;
      NestedStack(p.stack.outer, level, w);
      NestedStack(p.stack.outer, More(level, p.pending.term, op), w);
      CatAssociative(Cat(StackBit(p.stack.outer), w), PrefixBit(level), Cat(TermBit(p.pending.term), JoinBit(op)));
    }
  }

  lemma JoinedBit(p: Partial, op: string)
    requires p.pending.Done?
    ensures PartialBit(Joined(p, op)) == Cat(PartialBit(p), JoinBit(op))
  {
    JoinedStack(p, op);
    CatNone(StackBit(Joined(p, op).stack));
    CatAssociative(StackBit(p.stack), TermBit(p.pending.term), JoinBit(op));
  }

  lemma JoinedIsGood(p: Partial, op: string, cols: seq<string>)
    requires p.pending.Done? && IsLogical(op) && GoodStack(p.stack, cols) && GoodPending(p.pending, cols)
    ensures GoodStack(Joined(p, op).stack, cols) && Depth(Joined(p, op).stack) == Depth(p.stack)
  {
  }

  /** The partial derivation with its top level closed to a group and popped. */
  function Popped(p: Partial): Partial
    requires p.pending.Done? && p.stack.Nested?
  {
    Partial(p.stack.outer, Done(Group(Close(p.stack.level, Single(p.pending.term)))))
  }

  lemma RegroupBits(o: Bit, w: Bit, l: Bit, t: Bit, x: Bit)
    ensures Cat(o, Cat(Cat(w, Cat(l, t)), x)) == Cat(Cat(Cat(Cat(o, w), l), t), x)
  {
    CatAssociative(o, Cat(w, Cat(l, t)), x);
    CatAssociative(o, w, Cat(l, t));
    CatAssociative(Cat(o, w), l, t);
  }

  lemma PoppedTerm(level: Prefix, t: Term)
    ensures TermBit(Group(Close(level, Single(t)))) ==
      Cat(Cat(TokenBit("("), Cat(PrefixBit(level), TermBit(t))), TokenBit(")"))
  {
    CloseBit(level, Single(t));
    assert ExprBit(Single(t)) == TermBit(t);
    GroupBit(Close(level, Single(t)));
  }

  lemma NestedStack(outer: Stack, level: Prefix, w: Bit)
    requires w == TokenBit("(")
    ensures StackBit(Nested(outer, level)) == Cat(Cat(StackBit(outer), w), PrefixBit(level))
  {
  }

  lemma NestedBit(p: Partial, s: Bit)
    requires p.pending.Done? && s == StackBit(p.stack)
    ensures PartialBit(p) == Cat(s, TermBit(p.pending.term))
  {
  }

  lemma PoppedStack(p: Partial, g: Bit)
    requires p.pending.Done? && p.stack.Nested? && g == TermBit(Popped(p).pending.term)
    ensures PartialBit(Popped(p)) == Cat(StackBit(p.stack.outer), g)
  {
  }

  lemma PoppedBits(o: Bit, w: Bit, l: Bit, t: Bit, x: Bit, g: Bit, s: Bit, before: Bit, after: Bit)
    requires g == Cat(Cat(w, Cat(l, t)), x) && s == Cat(Cat(o, w), l) && before == Cat(s, t) && after == Cat(o, g)
    ensures after == Cat(before, x)
  {
    RegroupBits(o, w, l, t, x);
  }

  lemma PoppedBit(p: Partial, w: Bit, x: Bit)
    requires p.pending.Done? && p.stack.Nested? && w == TokenBit("(") && x == TokenBit(")")
    ensures PartialBit(Popped(p)) == Cat(PartialBit(p), x)
  {
    var outer, level, t := p.stack.outer, p.stack.level, p.pending.term;
    var g, s := TermBit(Popped(p).pending.term), StackBit(p.stack);
    PoppedTerm(level, t);
    PoppedStack(p, g);
    NestedStack(outer, level, w);
    NestedBit(p, s);
    PoppedBits(StackBit(outer), w, PrefixBit(level), TermBit(t), x, g, s, PartialBit(p), PartialBit(Popped(p)));
  }

  lemma ColumnPending(cols: seq<string>, r: Run, p: Partial, tok: string, r': Run)
    requires Follows(cols, r, p) && p.pending.NoTerm? && IsIdentifier(tok) && ToLower(tok) in cols
    requires r'.state == Column && r'.open == r.open && r'.joins == r.joins
    ensures var p' := Partial(p.stack, Col(tok));
      Follows(cols, r', p') && PartialBit(p').tokens == PartialBit(p).tokens + [tok]
  {
    CatNone(TokenBit(tok));
    PendingGrows(p, Col(tok), tok);
  }

  lemma LevelPushed(cols: seq<string>, r: Run, p: Partial, r': Run)
    requires Follows(cols, r, p) && p.pending.NoTerm?
    requires r'.state == OpenBrace && r'.open == r.open + 1 && r'.joins == r.joins
    ensures Follows(cols, r', Pushed(p)) && PartialBit(Pushed(p)).tokens == PartialBit(p).tokens + ["("]
  {
    PushedBit(p);
  }

  lemma FollowTerm(cols: seq<string>, r: Run, p: Partial, tok: string, r': Run) returns (p': Partial)
    requires Follows(cols, r, p) && p.pending.NoTerm? && Consume(cols, r, tok) == Reached(r')
    ensures Follows(cols, r', p') && PartialBit(p').tokens == PartialBit(p).tokens + [tok]
  {
    AfterNoTerm(cols, r, tok, r');
    if IsIdentifier(tok) {
      p' := Partial(p.stack, Col(tok));
      ColumnPending(cols, r, p, tok, r');
    } else {
      p' := Pushed(p);
      LevelPushed(cols, r, p, r');
    }
  }

  lemma FollowOperator(cols: seq<string>, r: Run, p: Partial, tok: string, r': Run) returns (p': Partial)
    requires Follows(cols, r, p) && p.pending.Col? && Consume(cols, r, tok) == Reached(r')
    ensures Follows(cols, r', p') && PartialBit(p').tokens == PartialBit(p).tokens + [tok]
  {
    AfterColumn(cols, r, tok, r');
    var pending := ColOp(p.pending.column, tok);
    p' := Partial(p.stack, pending);
    PendingGrows(p, pending, tok);
  }

  lemma FollowValue(cols: seq<string>, r: Run, p: Partial, tok: string, r': Run) returns (p': Partial)
    requires Follows(cols, r, p) && p.pending.ColOp? && Consume(cols, r, tok) == Reached(r')
    ensures Follows(cols, r', p') && PartialBit(p').tokens == PartialBit(p).tokens + [tok]
  {
    AfterOperator(cols, r, tok, r');
    var pending := Done(Cmp(p.pending.column, p.pending.op, tok));
    p' := Partial(p.stack, pending);
    PendingGrows(p, pending, tok);
  }

  lemma FollowDone(cols: seq<string>, r: Run, p: Partial, tok: string, r': Run) returns (p': Partial)
    requires Follows(cols, r, p) && p.pending.Done? && Consume(cols, r, tok) == Reached(r')
    ensures Follows(cols, r', p') && PartialBit(p').tokens == PartialBit(p).tokens + [tok]
  {
    AfterDone(cols, r, tok, r');
    if IsLogical(tok) {
      p' := Joined(p, tok);
      JoinedBit(p, tok);
      JoinedIsGood(p, tok, cols);
    } else {
      p' := Popped(p);
      PoppedBit(p, TokenBit("("), TokenBit(")"));
      CloseIsGood(p.stack.level, Single(p.pending.term), cols);
    }
  }

  lemma FollowStep(cols: seq<string>, r: Run, p: Partial, tok: string, r': Run) returns (p': Partial)
    requires Follows(cols, r, p) && Consume(cols, r, tok) == Reached(r')
    ensures Follows(cols, r', p') && PartialBit(p').tokens == PartialBit(p).tokens + [tok]
  {
    match p.pending
    case NoTerm => p' := FollowTerm(cols, r, p, tok, r');
    case Col(_) => p' := FollowOperator(cols, r, p, tok, r');
    case ColOp(_, _) => p' := FollowValue(cols, r, p, tok, r');
    case Done(_) => p' := FollowDone(cols, r, p, tok, r');
  }

  lemma FeedCons(cols: seq<string>, r: Run, tok: string, rest: seq<string>, last: Run) returns (r': Run)
    requires Feed(cols, r, [tok] + rest) == Reached(last)
    ensures Consume(cols, r, tok) == Reached(r') && Feed(cols, r', rest) == Reached(last)
  {
    assert ([tok] + rest)[0] == tok && ([tok] + rest)[1..] == rest;
    r' := Consume(cols, r, tok).run;
  }

  lemma {:induction false} FollowAll(cols: seq<string>, r: Run, p: Partial, toks: seq<string>, last: Run)
    returns (p': Partial)
    requires Follows(cols, r, p) && Feed(cols, r, toks) == Reached(last)
    ensures Follows(cols, last, p') && PartialBit(p').tokens == PartialBit(p).tokens + toks
    decreases |toks|
  {
    if toks == [] {
      p' := p;
      assert PartialBit(p).tokens + [] == PartialBit(p).tokens;
    } else {
      var tok, rest := toks[0], toks[1..];
      assert toks == [tok] + rest;
      var r' := FeedCons(cols, r, tok, rest, last);
      var p1 := FollowStep(cols, r, p, tok, r');
      p' := FollowAll(cols, r', p1, rest, last);
      SplitTokens(PartialBit(p).tokens, tok, rest, toks);
    }
  }

  lemma SplitTokens(done: seq<string>, tok: string, rest: seq<string>, toks: seq<string>)
    requires toks == [tok] + rest
    ensures done + toks == (done + [tok]) + rest
  {
  }

  // ---------------------------------------------------------------------------------------------
  // The parser accepts exactly the language, and emits exactly the rendering
  // ---------------------------------------------------------------------------------------------

  /** `e` is an expression over `cols`, within the join limit, whose tokens are those of `sql`. */
  ghost predicate Derives(e: Expr, cols: seq<string>, sql: string) {
    && WellFormed(e, cols)
    && ExprPiece(e).joins <= MaximumComplexity
    && ExprPiece(e).tokens == Words(ScanTokens(sql))
  }

  /** The partial derivation of no tokens. */
  lemma StartFollows(cols: seq<string>, r: Run, start: Partial)
    requires r.state == StartState && r.open == 0 && r.joins == 0
    requires start.pending.NoTerm? && start.stack.Bottom? && start.stack.level.Empty?
    ensures Follows(cols, r, start) && PartialBit(start).tokens == []
  {
    EmptyIsGood(cols, start);
    EmptyBit(start);
  }

  lemma EmptyIsGood(cols: seq<string>, start: Partial)
    requires start.pending.NoTerm? && start.stack.Bottom? && start.stack.level.Empty?
    ensures GoodStack(start.stack, cols) && GoodPending(start.pending, cols) && Depth(start.stack) == 0
  {
  }

  lemma EmptyBit(start: Partial)
    requires start.pending.NoTerm? && start.stack.Bottom? && start.stack.level.Empty?
    ensures PartialBit(start).tokens == [] && PartialBit(start).joins == 0
  {
    assert PartialBit(start).tokens == PrefixBit(start.stack.level).tokens + [];
  }

  lemma StartPartial(cols: seq<string>, r: Run) returns (start: Partial)
    requires r.state == StartState && r.open == 0 && r.joins == 0
    ensures Follows(cols, r, start) && PartialBit(start).tokens == []
  {
    start := Partial(Bottom(Empty), NoTerm);
    StartFollows(cols, r, start);
  }

  /** A partial derivation with no open brace and a finished term is that of an expression. */
  lemma CloseAll(cols: seq<string>, r: Run, p: Partial) returns (e: Expr)
    requires Follows(cols, r, p) && AfterTerm(r.state) && r.open <= 0
    ensures WellFormed(e, cols) && ExprBit(e) == PartialBit(p)
  {
    var level, t := p.stack.level, p.pending.term;
    e := Close(level, Single(t));
    CloseIsGood(level, Single(t), cols);
    CloseBit(level, Single(t));
    assert ExprBit(Single(t)) == TermBit(t);
  }

  lemma FindFrom(cols: seq<string>, r: Run, start: Partial, words: seq<string>, last: Run) returns (e: Expr)
    requires Follows(cols, r, start) && PartialBit(start).tokens == []
    requires Feed(cols, r, words) == Reached(last) && AfterTerm(last.state) && last.open <= 0
    ensures WellFormed(e, cols) && ExprBit(e).joins <= MaximumComplexity && ExprBit(e).tokens == words
  {
    var p := FollowAll(cols, r, start, words, last);
    assert PartialBit(start).tokens + words == words;
    e := CloseAll(cols, last, p);
  }

  lemma FindDerivation(cols: seq<string>, r: Run, words: seq<string>, last: Run) returns (e: Expr)
    requires r.state == StartState && r.open == 0 && r.joins == 0
    requires Feed(cols, r, words) == Reached(last) && AfterTerm(last.state) && last.open <= 0
    ensures WellFormed(e, cols) && ExprPiece(e).joins <= MaximumComplexity && ExprPiece(e).tokens == words
  {
    var start := StartPartial(cols, r);
    e := FindFrom(cols, r, start, words, last);
  }

  lemma DerivableIsAccepted(q: DBQuery, sql: string, e: Expr)
    requires Derives(e, q.validColumns, sql)
    ensures ParseFrom(q, sql).1 ==
      Ok(DBQuery(Trim(q.query + ExprPiece(e).query), q.values + ExprPiece(e).values, q.validColumns))
  {
    ExprRuns(q.validColumns, Begin(q), e);
  }

  /** What Parse accepts is an expression, and it emits the rendering and the values of that expression. */
  lemma AcceptedIsDerivable(q: DBQuery, sql: string) returns (e: Expr)
    requires ParseFrom(q, sql).1.Ok?
    ensures Derives(e, q.validColumns, sql)
    ensures ParseFrom(q, sql).1 ==
      Ok(DBQuery(Trim(q.query + ExprPiece(e).query), q.values + ExprPiece(e).values, q.validColumns))
  {
    var end := Feed(q.validColumns, Begin(q), Words(ScanTokens(sql)));
    e := FindDerivation(q.validColumns, Begin(q), Words(ScanTokens(sql)), end.run);
    DerivableIsAccepted(q, sql, e);
  }

  /**
   For every stored query and every text: Parse succeeds exactly when the tokens of the text are
   those of an expression with known columns and at most ten joins. It then emits the rendering of
   that expression and its values in order, after what was already stored.
   */
  lemma ParserAcceptsExactlyTheLanguage(q: DBQuery, sql: string)
    ensures ParseFrom(q, sql).1.Ok? <==> exists e :: Derives(e, q.validColumns, sql)
    ensures forall e :: Derives(e, q.validColumns, sql) ==>
      ParseFrom(q, sql).1 ==
        Ok(DBQuery(Trim(q.query + ExprPiece(e).query), q.values + ExprPiece(e).values, q.validColumns))
  {
    if ParseFrom(q, sql).1.Ok? {
      var e := AcceptedIsDerivable(q, sql);
    }
    forall e | Derives(e, q.validColumns, sql)
      ensures ParseFrom(q, sql).1 ==
        Ok(DBQuery(Trim(q.query + ExprPiece(e).query), q.values + ExprPiece(e).values, q.validColumns))
    {
      DerivableIsAccepted(q, sql, e);
    }
  }

  // ---------------------------------------------------------------------------------------------
  // The language is unambiguous
  // ---------------------------------------------------------------------------------------------

  /** What may follow an expression: nothing, or a closing brace. */
  predicate MayFollow(x: seq<string>) { x == [] || x[0] == ")" }

  /** The tokens of an expression after its first term. */
  function Tail(e: Expr): seq<string> { if e.Join? then [e.op] + ExprPiece(e.rest).tokens else [] }

  lemma TermThenTail(e: Expr, x: seq<string>)
    ensures ExprPiece(e).tokens + x == TermPiece(e.term).tokens + (Tail(e) + x)
  {
    if e.Join? {
      assert ExprPiece(e).tokens == (TermPiece(e.term).tokens + [e.op]) + ExprPiece(e.rest).tokens;
      RegroupTokens(TermPiece(e.term).tokens, [e.op], ExprPiece(e.rest).tokens, x);
    } else {
      assert Tail(e) + x == x;
    }
  }

  lemma RegroupTokens(a: seq<string>, b: seq<string>, c: seq<string>, d: seq<string>)
    ensures ((a + b) + c) + d == a + ((b + c) + d)
  {
  }

  lemma GroupTokens(e: Expr, x: seq<string>)
    ensures TermPiece(Group(e)).tokens + x == ["("] + (ExprPiece(e).tokens + ([")"] + x))
  {
    assert TermPiece(Group(e)).tokens == (["("] + ExprPiece(e).tokens) + [")"];
  }

  lemma SameHead(a: string, x: seq<string>, b: string, y: seq<string>)
    requires [a] + x == [b] + y
    ensures a == b && x == y
  {
    assert ([a] + x)[0] == a && ([b] + y)[0] == b;
    assert x == ([a] + x)[1..] && y == ([b] + y)[1..];
  }

  lemma CmpUnique(t: Term, t': Term, x: seq<string>, x': seq<string>)
    requires t.Cmp? && t'.Cmp? && TermPiece(t).tokens + x == TermPiece(t').tokens + x'
    ensures t == t' && x == x'
  {
    var s, s' := TermPiece(t).tokens + x, TermPiece(t').tokens + x';
    assert s[0] == t.column && s[1] == t.op && s[2] == t.operand && s[3..] == x;
    assert s'[0] == t'.column && s'[1] == t'.op && s'[2] == t'.operand && s'[3..] == x';
  }

  lemma CmpIsNoGroup(t: Term, e: Expr, cols: seq<string>, x: seq<string>, x': seq<string>)
    requires t.Cmp? && WellFormedTerm(t, cols)
    ensures TermPiece(t).tokens + x != TermPiece(Group(e)).tokens + x'
  {
    GroupTokens(e, x');
    assert (TermPiece(t).tokens + x)[0] == t.column && !IsIdentifier("(");
  }

  lemma BraceIsNotLogical()
    ensures !IsLogical(")")
  {
    assert ToLower(")")[0] == ')';
  }

  lemma {:induction false} TermUnique(t: Term, t': Term, cols: seq<string>, x: seq<string>, x': seq<string>)
    requires WellFormedTerm(t, cols) && WellFormedTerm(t', cols)
    requires TermPiece(t).tokens + x == TermPiece(t').tokens + x'
    ensures t == t' && x == x'
    decreases t, 0
  {
    match (t, t')
    case (Cmp(_, _, _), Cmp(_, _, _)) => CmpUnique(t, t', x, x');
    case (Cmp(_, _, _), Group(e')) => CmpIsNoGroup(t, e', cols, x, x');
    case (Group(e), Cmp(_, _, _)) => CmpIsNoGroup(t', e, cols, x', x);
    case (Group(e), Group(e')) =>
      GroupTokens(e, x); GroupTokens(e', x');
      SameHead("(", ExprPiece(e).tokens + ([")"] + x), "(", ExprPiece(e').tokens + ([")"] + x'));
      ExprUnique(e, e', cols, [")"] + x, [")"] + x');
      SameHead(")", x, ")", x');
  }

  lemma {:induction false} ExprUnique(e: Expr, e': Expr, cols: seq<string>, x: seq<string>, x': seq<string>)
    requires WellFormed(e, cols) && WellFormed(e', cols) && MayFollow(x) && MayFollow(x')
    requires ExprPiece(e).tokens + x == ExprPiece(e').tokens + x'
    ensures e == e' && x == x'
    decreases e, 1
  {
    TermThenTail(e, x); TermThenTail(e', x');
    TermUnique(e.term, e'.term, cols, Tail(e) + x, Tail(e') + x');
    TailUnique(e, e', x, x');
    if e.Join? { ExprUnique(e.rest, e'.rest, cols, x, x'); }
  }

  lemma TailTokens(e: Expr, x: seq<string>)
    ensures Tail(e) + x == if e.Join? then [e.op] + (ExprPiece(e.rest).tokens + x) else x
  {
  }

  /** What follows the first term decides whether the expression goes on. */
  lemma TailUnique(e: Expr, e': Expr, x: seq<string>, x': seq<string>)
    requires e.Join? ==> IsLogical(e.op)
    requires e'.Join? ==> IsLogical(e'.op)
    requires MayFollow(x) && MayFollow(x') && Tail(e) + x == Tail(e') + x'
    ensures e.Join? <==> e'.Join?
    ensures e.Join? ==> e.op == e'.op && ExprPiece(e.rest).tokens + x == ExprPiece(e'.rest).tokens + x'
    ensures !e.Join? ==> x == x'
  {
    TailTokens(e, x); TailTokens(e', x');
    BraceIsNotLogical();
    if e.Join? && e'.Join? {
      SameHead(e.op, ExprPiece(e.rest).tokens + x, e'.op, ExprPiece(e'.rest).tokens + x');
    }
  }

  /** A text stands for at most one expression. */
  lemma LanguageIsUnambiguous(e: Expr, e': Expr, cols: seq<string>, sql: string)
    requires Derives(e, cols, sql) && Derives(e', cols, sql)
    ensures e == e'
  {
    assert ExprPiece(e).tokens + [] == ExprPiece(e').tokens + [];
    ExprUnique(e, e', cols, [], []);
  }

  // ---------------------------------------------------------------------------------------------
  // What every emitted query keeps
  // ---------------------------------------------------------------------------------------------

  function Marks(s: string): nat {
    if s == "" then 0 else Marks(s[..|s| - 1]) + (if s[|s| - 1] == '?' then 1 else 0)
  }

  function Level(s: string): int {
    if s == "" then 0
    else Level(s[..|s| - 1]) + (if s[|s| - 1] == '(' then 1 else if s[|s| - 1] == ')' then -1 else 0)
  }

  /** Braces balance, and no prefix closes more than it opened. */
  ghost predicate Balanced(s: string) {
    Level(s) == 0 && forall i :: 0 <= i <= |s| ==> Level(s[..i]) >= 0
  }

  lemma {:induction false} CountAppend(a: string, b: string)
    ensures Level(a + b) == Level(a) + Level(b) && Marks(a + b) == Marks(a) + Marks(b)
    decreases |b|
  {
    if b == "" {
      assert a + b == a;
    } else {
      var b' := b[..|b| - 1];
      CountAppend(a, b');
      assert (a + b)[..|a + b| - 1] == a + b';
    }
  }

  lemma BalancedAppend(a: string, b: string)
    requires Balanced(a) && Balanced(b)
    ensures Balanced(a + b)
  {
    CountAppend(a, b);
    forall i | 0 <= i <= |a + b| ensures Level((a + b)[..i]) >= 0 {
      if i <= |a| {
        assert (a + b)[..i] == a[..i];
      } else {
        assert (a + b)[..i] == a + b[..i - |a|];
        CountAppend(a, b[..i - |a|]);
      }
    }
  }

  lemma BalancedInBraces(a: string)
    requires Balanced(a)
    ensures Balanced("(" + a + ")")
  {
    var s := "(" + a + ")";
    CountAppend("(", a); CountAppend("(" + a, ")");
    assert Level("(") == 1 && Level(")") == -1;
    forall i | 0 <= i <= |s| ensures Level(s[..i]) >= 0 {
      if i == 0 {
      } else if i <= |a| + 1 {
        assert s[..i] == "(" + a[..i - 1];
        CountAppend("(", a[..i - 1]);
      } else {
        assert s[..i] == s;
      }
    }
  }

  /** No brace and no question mark. */
  predicate Quiet(s: string) { forall c :: c in s ==> c != '(' && c != ')' && c != '?' }

  lemma {:induction false} QuietCounts(s: string)
    requires Quiet(s)
    ensures Balanced(s) && Marks(s) == 0 && Level(s) == 0
    decreases |s|
  {
    if s != "" {
      var s' := s[..|s| - 1];
      assert forall c :: c in s' ==> c in s;
      assert s[|s| - 1] in s;
      QuietCounts(s');
      forall i | 0 <= i <= |s| ensures Level(s[..i]) >= 0 {
        if i < |s| { assert s[..i] == s'[..i]; } else { assert s[..i] == s; }
      }
    }
  }

  /** No leading or trailing space, so trimming has nothing to do. */
  predicate Tight(s: string) { s != "" && s[0] != ' ' && s[|s| - 1] != ' ' }

  ghost predicate Conserves(p: Piece) {
    Balanced(p.query) && Marks(p.query) == |p.values| == p.joins + 1 && Tight(p.query)
  }

  lemma WordsAreQuiet(c: string, op: string)
    requires IsIdentifier(c)
    ensures Quiet(ToLower(c)) && ToLower(c) != "" && ToLower(c)[0] != ' '
    ensures IsComparison(op) || IsLogical(op) ==> Quiet(op)
  {
    assert forall i :: 0 <= i < |c| ==> IsWordChar(c[i]);
    if ToLower(op) == "like" || IsLogical(op) {
      assert forall i :: 0 <= i < |op| ==> 'a' <= Lower(op[i]) <= 'z';
    }
  }

  lemma CmpConserves(t: Term, cols: seq<string>)
    requires t.Cmp? && WellFormedTerm(t, cols)
    ensures Conserves(TermPiece(t))
  {
    var a, b, m := ToLower(t.column), " " + t.op, " ?";
    WordsAreQuiet(t.column, t.op);
    QuietCounts(a); QuietCounts(b);
    CountAppend(a, b); CountAppend(a + b, m);
    MarkCounts();
    BalancedAppend(a, b); BalancedAppend(a + b, m);
  }

  lemma MarkCounts()
    ensures Balanced(" ?") && Marks(" ?") == 1
  {
    QuietCounts(" ");
    CountAppend(" ", "?");
    assert " " + "?" == " ?";
    assert "?"[..0] == "" && "?"[..1] == "?";
    assert Level("?") == 0 && Marks("?") == 1;
    assert Balanced("?");
    BalancedAppend(" ", "?");
  }

  lemma {:induction false} TermConserves(t: Term, cols: seq<string>)
    requires WellFormedTerm(t, cols)
    ensures Conserves(TermPiece(t))
    decreases t, 0
  {
    match t
    case Cmp(_, _, _) => CmpConserves(t, cols);
    case Group(e) =>
      var q := ExprPiece(e).query;
      ExprConserves(e, cols);
      BalancedInBraces(q);
      CountAppend("(", q); CountAppend("(" + q, ")");
      assert Marks("(") == 0 && Marks(")") == 0;
  }

  lemma {:induction false} ExprConserves(e: Expr, cols: seq<string>)
    requires WellFormed(e, cols)
    ensures Conserves(ExprPiece(e))
    decreases e, 1
  {
    TermConserves(e.term, cols);
    if e.Join? {
      ExprConserves(e.rest, cols);
      LogicalIsQuiet(e.op);
      JoinConserves(TermPiece(e.term), JoinPiece(e.op), ExprPiece(e.rest));
    }
  }

  lemma LogicalIsQuiet(op: string)
    requires IsLogical(op)
    ensures Quiet(JoinPiece(op).query)
  {
    assert forall i :: 0 <= i < |op| ==> 'a' <= Lower(op[i]) <= 'z';
  }

  lemma JoinConserves(a: Piece, b: Piece, c: Piece)
    requires Conserves(a) && Conserves(c) && Quiet(b.query) && b.values == [] && b.joins == 1
    ensures Conserves(Plus(Plus(a, b), c))
  {
    QuietCounts(b.query);
    CountAppend(a.query, b.query); CountAppend(a.query + b.query, c.query);
    BalancedAppend(a.query, b.query); BalancedAppend(a.query + b.query, c.query);
  }

  /**
   On every text a fresh parser accepts: one question mark per value, one value more than joins, at most eleven,
   balanced braces with no prefix below zero, and no space at either end even before trimming.
   */
  lemma AcceptedQueriesAreConsistent(cols: seq<string>, sql: string)
    requires ParseFrom(DBQuery("", [], cols), sql).1.Ok?
    ensures var out := ParseFrom(DBQuery("", [], cols), sql).1.query;
      var end := Feed(cols, Begin(DBQuery("", [], cols)), Words(ScanTokens(sql))).run;
      && Marks(out.query) == |out.values| == end.joins + 1 <= 11
      && Balanced(out.query)
      && out.query == end.query
  {
    var q := DBQuery("", [], cols);
    var e := AcceptedIsDerivable(q, sql);
    DerivableIsAccepted(q, sql, e);
    ExprConserves(e, cols);
    ExprRuns(cols, Begin(q), e);
    assert "" + ExprPiece(e).query == ExprPiece(e).query;
    assert [] + ExprPiece(e).values == ExprPiece(e).values;
  }
}
