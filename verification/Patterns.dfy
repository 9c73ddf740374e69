/**
 The accept patterns of the search filter as regular expressions (pkg/services/queryparser/query_parser.go), with the
 usual meaning of classes, sequence, choice and repetition, and the proof that the predicates of the state machine
 accept exactly their words.
 */
module Patterns {
  import opened StateMachine

  /** A character from `low` to `high`. */
  datatype Range = Range(low: char, high: char)

  datatype Regex =
    | OneOf(ranges: seq<Range>)     // [...]
    | NoneOf(ranges: seq<Range>)    // [^...]
    | Then(first: Regex, second: Regex)
    | Either(left: Regex, right: Regex)
    | Many(inner: Regex)            // (...)*

  predicate Within(c: char, ranges: seq<Range>) {
    exists i :: 0 <= i < |ranges| && ranges[i].low <= c <= ranges[i].high
  }

  /** The whole of `s` matches. */
  ghost predicate In(r: Regex, s: string)
    decreases r, |s|
  {
    match r
    case OneOf(ranges) => |s| == 1 && Within(s[0], ranges)
    case NoneOf(ranges) => |s| == 1 && !Within(s[0], ranges)
    case Then(a, b) => exists i :: 0 <= i <= |s| && In(a, s[..i]) && In(b, s[i..])
    case Either(a, b) => In(a, s) || In(b, s)
    case Many(a) => s == "" || exists i :: 0 < i <= |s| && In(a, s[..i]) && In(r, s[i..])
  }

  function Only(c: char): Regex { OneOf([Range(c, c)]) }

  function Cased(capital: char, small: char): Regex { OneOf([Range(capital, capital), Range(small, small)]) }

  const Letter: seq<Range> := [Range('A', 'Z'), Range('a', 'z')]

  const WordChar: seq<Range> := [Range('A', 'Z'), Range('a', 'z'), Range('0', '9'), Range('_', '_')]

  const NoValue: seq<Range> := [Range(' ', ' '), Range('^', '^'), Range('(', '('), Range('^', '^'), Range(')', ')')]

  const Quote: seq<Range> := [Range('\'', '\'')]

  /** The inside of a quoted value. */
  const Inside: Regex := Many(Either(NoneOf(Quote), Then(Only('\\'), Only('\''))))

  /** The pattern that the grammar has for a state. */
  function PatternIn(s: Name): Regex
    requires s != StartState && s != EndState
  {
    match s
    case OpenBrace => Only('(')
    case ClosedBrace => Only(')')
    case Column => Then(OneOf(Letter), Many(OneOf(WordChar)))
    case Value => Then(NoneOf(Quote), Many(NoneOf(NoValue)))
    case QuotedValue => Then(Only('\''), Then(Inside, Only('\'')))
    case Eq => Only('=')
    case NotEq => Then(Only('<'), Only('>'))
    case Like => Then(Cased('L', 'l'), Then(Cased('I', 'i'), Then(Cased('K', 'k'), Cased('E', 'e'))))
    case And => Then(Cased('A', 'a'), Then(Cased('N', 'n'), Cased('D', 'd')))
    case Or => Then(Cased('O', 'o'), Cased('R', 'r'))
  }

  predicate IsClass(r: Regex) { r.OneOf? || r.NoneOf? }

  predicate Takes(r: Regex, c: char)
    requires IsClass(r)
  {
    if r.OneOf? then Within(c, r.ranges) else !Within(c, r.ranges)
  }

  lemma ClassThen(r: Regex, next: Regex, s: string)
    requires IsClass(r)
    ensures In(Then(r, next), s) <==> s != "" && Takes(r, s[0]) && In(next, s[1..])
  {
    if i :| 0 <= i <= |s| && In(r, s[..i]) && In(next, s[i..]) {
      assert i == 1 && s[..1][0] == s[0];
    }
    if s != "" && Takes(r, s[0]) && In(next, s[1..]) {
      assert s[..1] == [s[0]] && In(r, s[..1]);
    }
  }

  lemma {:induction false} ManyOfClass(r: Regex, s: string)
    requires IsClass(r)
    ensures In(Many(r), s) <==> forall i :: 0 <= i < |s| ==> Takes(r, s[i])
    decreases |s|
  {
    if s != "" {
      ManyOfClass(r, s[1..]);
      if In(Many(r), s) {
        var i :| 0 < i <= |s| && In(r, s[..i]) && In(Many(r), s[i..]);
        assert i == 1 && s[..1][0] == s[0];
        assert forall k :: 1 <= k < |s| ==> s[k] == s[1..][k - 1];
      }
      if forall i :: 0 <= i < |s| ==> Takes(r, s[i]) {
        assert In(r, s[..1]) && In(Many(r), s[1..]);
      }
    }
  }

  /** Every quote follows a backslash. */
  predicate Escaped(s: string) { forall i :: 0 <= i < |s| && s[i] == '\'' ==> i > 0 && s[i - 1] == '\\' }

  lemma OnlyTakes(c: char, d: char)
    ensures Takes(Only(c), d) <==> d == c
  {
    assert Only(c).ranges[0] == Range(c, c);
  }

  lemma PairIn(s: string)
    ensures In(Then(Only('\\'), Only('\'')), s) <==> s == "\\'"
  {
    ClassThen(Only('\\'), Only('\''), s);
    if |s| == 2 {
      OnlyTakes('\\', s[0]);
      OnlyTakes('\'', s[1]);
      assert s == [s[0], s[1]];
    }
  }

  lemma PieceIn(s: string)
    ensures In(Inside.inner, s) <==> (|s| == 1 && s[0] != '\'') || s == "\\'"
  {
    PairIn(s);
    if |s| == 1 { WithinLetters(s[0]); }
  }

  lemma {:induction false} InsideIsEscaped(s: string)
    requires In(Inside, s)
    ensures Escaped(s)
    decreases |s|
  {
    if s != "" {
      var i :| 0 < i <= |s| && In(Inside.inner, s[..i]) && In(Inside, s[i..]);
      PieceIn(s[..i]);
      InsideIsEscaped(s[i..]);
      forall k | 0 <= k < |s| && s[k] == '\'' ensures k > 0 && s[k - 1] == '\\' {
        if k >= i { assert s[i..][k - i] == '\''; } else { assert s[..i][k] == '\'' && s[..i] == "\\'"; }
      }
    }
  }

  lemma {:induction false} EscapedIsInside(s: string)
    requires Escaped(s)
    ensures In(Inside, s)
    decreases |s|
  {
    if s != "" {
      var i := if |s| > 1 && s[1] == '\'' then 2 else 1;
      assert i == 2 ==> s[..2] == "\\'";
      PieceIn(s[..i]);
      assert forall k :: 0 <= k < |s| - i ==> s[i..][k] == s[k + i];
      EscapedIsInside(s[i..]);
    }
  }

  lemma EndsWith(r: Regex, c: char, s: string)
    ensures In(Then(r, Only(c)), s) <==> s != "" && s[|s| - 1] == c && In(r, s[..|s| - 1])
  {
    if s != "" { OnlyTakes(c, s[|s| - 1]); }
    if i :| 0 <= i <= |s| && In(r, s[..i]) && In(Only(c), s[i..]) {
      assert i == |s| - 1 && s[i..][0] == s[i];
    }
    if s != "" && s[|s| - 1] == c && In(r, s[..|s| - 1]) {
      assert s[|s| - 1..] == [c] && In(Only(c), s[|s| - 1..]);
    }
  }

  lemma InsideIff(s: string)
    ensures In(Inside, s) <==> Escaped(s)
  {
    if In(Inside, s) { InsideIsEscaped(s); }
    if Escaped(s) { EscapedIsInside(s); }
  }

  /** A quote, then an escaped text, then a quote. */
  lemma QuotedParts(s: string)
    ensures In(PatternIn(QuotedValue), s) <==>
      |s| > 1 && s[0] == '\'' && s[|s| - 1] == '\'' && Escaped(s[1..|s| - 1])
  {
    var rest := Then(Inside, Only('\''));
    ClassThen(Only('\''), rest, s);
    if s != "" {
      OnlyTakes('\'', s[0]);
      EndsWith(Inside, '\'', s[1..]);
      if |s| > 1 {
        assert s[1..][..|s| - 2] == s[1..|s| - 1];
        InsideIff(s[1..|s| - 1]);
      }
    }
  }

  lemma QuotedIs(s: string)
    ensures In(PatternIn(QuotedValue), s) <==> IsQuotedValue(s)
  {
    QuotedParts(s);
    if |s| > 1 && s[0] == '\'' { InnerQuotes(s, s[1..|s| - 1]); }
  }

  lemma InnerQuotes(s: string, inside: string)
    requires |s| > 1 && s[0] == '\'' && inside == s[1..|s| - 1]
    ensures Escaped(inside) <==> forall i :: 1 <= i < |s| - 1 && s[i] == '\'' ==> s[i - 1] == '\\'
  {
    assert forall i :: 0 <= i < |inside| ==> inside[i] == s[i + 1];
    if forall i :: 1 <= i < |s| - 1 && s[i] == '\'' ==> s[i - 1] == '\\' {
      forall i | 0 <= i < |inside| && inside[i] == '\'' ensures i > 0 && inside[i - 1] == '\\' {
        assert s[i + 1] == '\'' && s[i] == '\\';
      }
    }
    if Escaped(inside) {
      forall i | 1 <= i < |s| - 1 && s[i] == '\'' ensures s[i - 1] == '\\' { assert inside[i - 1] == '\''; }
    }
  }

  lemma WithinLetters(c: char)
    ensures Within(c, Letter) <==> IsLetter(c)
    ensures Within(c, WordChar) <==> IsWordChar(c)
    ensures Within(c, NoValue) <==> c == ' ' || c == '^' || c == '(' || c == ')'
    ensures Within(c, Quote) <==> c == '\''
  {
    assert Letter[0] == Range('A', 'Z') && Letter[1] == Range('a', 'z');
    assert WordChar[0] == Range('A', 'Z') && WordChar[1] == Range('a', 'z');
    assert WordChar[2] == Range('0', '9') && WordChar[3] == Range('_', '_');
    assert NoValue[0] == Range(' ', ' ') && NoValue[1] == Range('^', '^') && NoValue[2] == Range('(', '(');
    assert NoValue[4] == Range(')', ')') && Quote[0] == Range('\'', '\'');
  }

  lemma ColumnIs(s: string)
    ensures In(PatternIn(Column), s) <==> IsIdentifier(s)
  {
    ClassThen(OneOf(Letter), Many(OneOf(WordChar)), s);
    if s != "" {
      ManyOfClass(OneOf(WordChar), s[1..]);
      WithinLetters(s[0]);
      forall i | 1 <= i < |s| ensures Within(s[1..][i - 1], WordChar) <==> IsWordChar(s[i]) { WithinLetters(s[i]); }
    }
  }

  lemma ValueIs(s: string)
    ensures In(PatternIn(Value), s) <==> IsBareValue(s)
  {
    ClassThen(NoneOf(Quote), Many(NoneOf(NoValue)), s);
    if s != "" {
      ManyOfClass(NoneOf(NoValue), s[1..]);
      WithinLetters(s[0]);
      forall i | 1 <= i < |s|
        ensures Within(s[1..][i - 1], NoValue) <==> s[i] == ' ' || s[i] == '^' || s[i] == '(' || s[i] == ')'
      {
        WithinLetters(s[i]);
      }
    }
  }

  lemma OnlyIs(c: char, s: string)
    ensures In(Only(c), s) <==> s == [c]
  {
    assert Only(c).ranges[0] == Range(c, c);
  }

  lemma CasedIs(capital: char, small: char, c: char)
    ensures Takes(Cased(capital, small), c) <==> c == capital || c == small
  {
    var ranges := Cased(capital, small).ranges;
    assert ranges[0] == Range(capital, capital) && ranges[1] == Range(small, small);
  }

  /** The letters of a keyword are those of the word in lower case. */
  lemma LowerLetter(s: string, word: string)
    requires |s| == |word|
    ensures ToLower(s) == word <==> forall i :: 0 <= i < |s| ==> Lower(s[i]) == word[i]
  {
  }

  lemma LikeIs(s: string)
    ensures In(PatternIn(Like), s) <==> ToLower(s) == "like"
  {
    var e := Cased('E', 'e');
    var ke := Then(Cased('K', 'k'), e);
    ClassThen(Cased('L', 'l'), Then(Cased('I', 'i'), ke), s);
    if |s| == 4 {
      ClassThen(Cased('I', 'i'), ke, s[1..]);
      ClassThen(Cased('K', 'k'), e, s[1..][1..]);
      CasedIs('L', 'l', s[0]); CasedIs('I', 'i', s[1]); CasedIs('K', 'k', s[2]); CasedIs('E', 'e', s[3]);
      LowerLetter(s, "like");
    } else if s != "" {
      ClassThen(Cased('I', 'i'), ke, s[1..]);
      if |s| > 1 { ClassThen(Cased('K', 'k'), e, s[1..][1..]); }
    }
  }

  lemma AndIs(s: string)
    ensures In(PatternIn(And), s) <==> ToLower(s) == "and"
  {
    var d := Cased('D', 'd');
    ClassThen(Cased('A', 'a'), Then(Cased('N', 'n'), d), s);
    if |s| == 3 {
      ClassThen(Cased('N', 'n'), d, s[1..]);
      CasedIs('A', 'a', s[0]); CasedIs('N', 'n', s[1]); CasedIs('D', 'd', s[2]);
      LowerLetter(s, "and");
    } else if s != "" {
      ClassThen(Cased('N', 'n'), d, s[1..]);
    }
  }

  lemma OrIs(s: string)
    ensures In(PatternIn(Or), s) <==> ToLower(s) == "or"
  {
    ClassThen(Cased('O', 'o'), Cased('R', 'r'), s);
    if |s| == 2 {
      CasedIs('O', 'o', s[0]); CasedIs('R', 'r', s[1]);
      LowerLetter(s, "or");
    }
  }

  /** Every state accepts exactly the words of its regular expression. */
  lemma PatternsAreTheirExpressions(s: Name, tok: string)
    requires s != StartState && s != EndState
    ensures Matches(PatternOf(s), tok) <==> In(PatternIn(s), tok)
  {
    match s
    case Column => ColumnIs(tok);
    case Value => ValueIs(tok);
    case QuotedValue => QuotedIs(tok);
    case Like => LikeIs(tok);
    case And => AndIs(tok);
    case Or => OrIs(tok);
    case OpenBrace => OnlyIs('(', tok);
    case ClosedBrace => OnlyIs(')', tok);
    case Eq => OnlyIs('=', tok);
    case NotEq =>
      ClassThen(Only('<'), Only('>'), tok);
      if tok != "" { OnlyIs('<', [tok[0]]); OnlyIs('>', tok[1..]); }
      if |tok| == 2 { assert tok == [tok[0], tok[1]]; }
  }
}
