/** The revision counter in the annotations of a Central (fleetshard/pkg/util/revision.go). */
module Revision {
  import opened Optional

  const RevisionAnnotation := "rhacs.redhat.com/revision"

  const MaxInt := 0x7fff_ffff_ffff_ffff
  const MinInt := -0x8000_0000_0000_0000

  predicate IsDigit(c: char) { '0' <= c <= '9' }

  predicate AllDigits(s: string) { forall c :: c in s ==> IsDigit(c) }

  function DigitChar(d: nat): (c: char)
    requires d < 10
    ensures IsDigit(c) && c as int - '0' as int == d
  {
    ('0' as int + d) as char
  }

  /** Decimal digits of a natural number. */
  function Digits(n: nat): string {
    (if n < 10 then "" else Digits(n / 10)) + [DigitChar(n % 10)]
  }

  function DigitValue(c: char): nat
    requires IsDigit(c)
  {
    c as int - '0' as int
  }

  function ValueOf(s: string): nat
    requires AllDigits(s)
  {
    if s == "" then 0 else ValueOf(s[..|s| - 1]) * 10 + DigitValue(s[|s| - 1])
  }

  function Itoa(n: int): string { if n < 0 then "-" + Digits(-n) else Digits(n) }

  /** Decimal text with an optional sign, if the number fits 64 bits. */
  function Atoi(s: string): Option<int> {
    var signed := s != "" && (s[0] == '-' || s[0] == '+');
    var digits := if signed then s[1..] else s;
    if digits == "" || !AllDigits(digits) then None
    else
      var value: int := ValueOf(digits);
      var n := if signed && s[0] == '-' then -value else value;
      if MinInt <= n <= MaxInt then Some(n) else None
  }

  /** The next revision in 64-bit arithmetic. */
  function Successor(n: int): int { if n == MaxInt then MinInt else n + 1 }

  function PowerOfTen(n: nat): nat { if n == 0 then 1 else 10 * PowerOfTen(n - 1) }

  /** Digits count by their decimal place. */
  lemma {:induction false} ValueByPlace(a: string, b: string)
    requires AllDigits(a) && AllDigits(b)
    ensures AllDigits(a + b) && ValueOf(a + b) == ValueOf(a) * PowerOfTen(|b|) + ValueOf(b)
    ensures |a| == 1 ==> ValueOf(a) == a[0] as int - '0' as int
    decreases |b|
  {
    if b == "" {
      assert a + b == a;
    } else {
      var front := b[..|b| - 1];
      assert (a + b)[..|a + b| - 1] == a + front && (a + b)[|a + b| - 1] == b[|b| - 1];
      ValueByPlace(a, front);
      OnePlaceUp(ValueOf(a), PowerOfTen(|front|), ValueOf(front), DigitValue(b[|b| - 1]));
    }
  }

  lemma OnePlaceUp(a: nat, power: nat, rest: nat, digit: nat)
    ensures (a * power + rest) * 10 + digit == a * (10 * power) + (rest * 10 + digit)
  {
    assert (a * power) * 10 == a * (10 * power);
  }

  lemma ValueSnoc(front: string, d: nat)
    requires AllDigits(front) && d < 10
    ensures AllDigits(front + [DigitChar(d)]) && ValueOf(front + [DigitChar(d)]) == ValueOf(front) * 10 + d
  {
    assert (front + [DigitChar(d)])[..|front|] == front;
  }

  lemma {:induction false} DigitsRoundTrip(n: nat)
    ensures Digits(n) != "" && AllDigits(Digits(n)) && ValueOf(Digits(n)) == n
  {
    if n < 10 {
      ValueSnoc("", n);
    } else {
      DigitsRoundTrip(n / 10);
      ValueSnoc(Digits(n / 10), n % 10);
    }
  }

  lemma AtoiNegative(digits: string)
    requires digits != "" && AllDigits(digits) && ValueOf(digits) <= -MinInt
    ensures Atoi("-" + digits) == Some(0 - ValueOf(digits))
  {
    assert ("-" + digits)[1..] == digits;
  }

  lemma AtoiUnsigned(digits: string)
    requires digits != "" && AllDigits(digits) && ValueOf(digits) <= MaxInt
    ensures Atoi(digits) == Some(ValueOf(digits))
  {
    assert digits[0] in digits;
  }

  /** Reading back a printed number gives that number. */
  lemma AtoiItoa(n: int)
    requires MinInt <= n <= MaxInt
    ensures Atoi(Itoa(n)) == Some(n)
  {
    if n < 0 {
      DigitsRoundTrip(-n);
      AtoiNegative(Digits(-n));
    } else {
      DigitsRoundTrip(n);
      AtoiUnsigned(Digits(n));
    }
  }

  /** Text is a number if it is digits, with or without a sign, and the number fits 64 bits. */
  lemma AtoiReads(s: string, n: int)
    ensures Atoi(s) == Some(n) <==>
      && -0x8000_0000_0000_0000 <= n <= 0x7fff_ffff_ffff_ffff
      && exists digits :: digits != "" && AllDigits(digits) &&
           (if s == "-" + digits then n == 0 - ValueOf(digits)
            else (s == digits || s == "+" + digits) && n == ValueOf(digits))
  {
    var signed := s != "" && (s[0] == '-' || s[0] == '+');
    var digits := if signed then s[1..] else s;
    assert signed ==> s == [s[0]] + digits;
    forall d: string | d != "" && AllDigits(d) && (s == d || s == "+" + d || s == "-" + d) ensures d == digits {
      assert d[0] in d;
      assert ("+" + d)[1..] == d && ("-" + d)[1..] == d;
    }
  }

  /** The revision that annotations stand for; none yet is zero. */
  ghost predicate HasRevision(annotations: map<string, string>, n: int) {
    if RevisionAnnotation in annotations then Atoi(annotations[RevisionAnnotation]) == Some(n) else n == 0
  }

  /** One more, or the least number after the greatest one. */
  predicate OneHigher(n: int, m: int) { (n < MaxInt ==> m == n + 1) && (n == MaxInt ==> m == MinInt) }

  /** The revision was a number and went up by one, and every other annotation is as before. */
  ghost predicate NextRevision(before: map<string, string>, after: map<string, string>) {
    && (exists n, m :: HasRevision(before, n) && HasRevision(after, m) && OneHigher(n, m))
    && after.Keys == before.Keys + {RevisionAnnotation}
    && forall k :: k in before && k != RevisionAnnotation ==> after[k] == before[k]
  }

  lemma FirstRevision(before: map<string, string>)
    requires RevisionAnnotation !in before
    ensures HasRevision(before, 0) && NextRevision(before, before[RevisionAnnotation := "1"])
  {
    AtoiItoa(1);
    assert Itoa(1) == "1";
    assert HasRevision(before[RevisionAnnotation := "1"], 1) && OneHigher(0, 1);
  }

  lemma RevisionAfter(before: map<string, string>, n: int)
    requires RevisionAnnotation in before && HasRevision(before, n)
    ensures NextRevision(before, before[RevisionAnnotation := Itoa(Successor(n))])
  {
    var text := Itoa(Successor(n));
    AtoiInRange(before[RevisionAnnotation], n);
    AtoiItoa(Successor(n));
    Restated(before, n, text, Successor(n));
  }

  lemma AtoiInRange(s: string, n: int)
    requires Atoi(s) == Some(n)
    ensures MinInt <= n <= MaxInt && MinInt <= Successor(n) <= MaxInt
  {
  }

  /** A text for the next number makes the next revision. */
  lemma Restated(before: map<string, string>, n: int, text: string, m: int)
    requires RevisionAnnotation in before && HasRevision(before, n) && Atoi(text) == Some(m) && OneHigher(n, m)
    ensures NextRevision(before, before[RevisionAnnotation := text])
  {
    var after := before[RevisionAnnotation := text];
    assert HasRevision(before, n) && HasRevision(after, m) && OneHigher(n, m);
  }

  /** The annotations of a Central, which may be nil. */
  class CentralMeta {
    var annotations: Option<map<string, string>>

    constructor (annotations: Option<map<string, string>>)
      ensures this.annotations == annotations
    {
      this.annotations := annotations;
    }

    function Held(): map<string, string>
      reads this
    {
      if annotations.None? then map[] else annotations.value
    }
  }

  /**
   IncrementCentralRevision: fails exactly without a Central or on a revision that is not a number, and then changes
   nothing; otherwise the revision goes up by one and every other annotation stays.
   */
  method IncrementCentralRevision(central: CentralMeta?) returns (ok: bool)
    modifies central
    ensures ok <==> central != null && exists n :: HasRevision(old(central.Held()), n)
    ensures !ok && central != null ==> central.annotations == old(central.annotations)
    ensures ok ==> central.annotations.Some? && NextRevision(old(central.Held()), central.Held())
    ensures ok && RevisionAnnotation !in old(central.Held()) ==>
      central.Held() == old(central.Held())[RevisionAnnotation := "1"]
  {
    if central == null { return false; }
    if RevisionAnnotation !in central.Held() { FirstRevision(central.Held()); }
    if central.annotations == None {
      central.annotations := Some(map[RevisionAnnotation := "1"]);
      return true;
    }
    var annotations := central.annotations.value;
    if RevisionAnnotation !in annotations {
      central.annotations := Some(annotations[RevisionAnnotation := "1"]);
      return true;
    }
    var revision := Atoi(annotations[RevisionAnnotation]);
    if revision == None { return false; }
    RevisionAfter(annotations, revision.value);
    central.annotations := Some(annotations[RevisionAnnotation := Itoa(Successor(revision.value))]);
    ok := true;
  }
}
