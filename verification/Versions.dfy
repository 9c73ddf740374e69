/**
 Version comparison (pkg/api/semverutil.go). Precedence is item 11 of Semantic Versioning 2.0.0;
 versions of equal precedence are then ordered by their build metadata, which item 10 would ignore.
 Parsing is done by a library and starts here from parsed versions.
 */
module Versions {

  /** One dot-separated identifier of a pre-release. */
  datatype Identifier = Numeric(n: nat) | Alphanumeric(s: string)

  datatype Version = Version(major: nat, minor: nat, patch: nat, pre: seq<Identifier>, build: seq<string>)

  /** Build identifiers are not empty and contain no dot. */
  predicate WellFormed(v: Version) {
    forall i :: 0 <= i < |v.build| ==> v.build[i] != "" && '.' !in v.build[i]
  }

  function CompareNat(a: nat, b: nat): int { if a < b then -1 else if a > b then 1 else 0 }

  /** Byte-wise comparison of strings. */
  function CompareText(a: string, b: string): int
    decreases |a|
  {
    if a == "" || b == "" then CompareNat(|a|, |b|)
    else if a[0] != b[0] then (if a[0] < b[0] then -1 else 1)
    else CompareText(a[1..], b[1..])
  }

  /** Numeric identifiers come before alphanumeric ones. */
  function CompareIdentifier(a: Identifier, b: Identifier): int {
    match (a, b)
    case (Numeric(m), Numeric(n)) => CompareNat(m, n)
    case (Numeric(_), Alphanumeric(_)) => -1
    case (Alphanumeric(_), Numeric(_)) => 1
    case (Alphanumeric(s), Alphanumeric(t)) => CompareText(s, t)
  }

  /** Identifier by identifier; a longer list comes after its prefix. */
  function CompareIdentifiers(a: seq<Identifier>, b: seq<Identifier>): int
    decreases |a|
  {
    if a == [] || b == [] then CompareNat(|a|, |b|)
    else
      var c := CompareIdentifier(a[0], b[0]);
      if c != 0 then c else CompareIdentifiers(a[1..], b[1..])
  }

  /** A release comes after all its pre-releases. */
  function ComparePre(a: seq<Identifier>, b: seq<Identifier>): int {
    if a == [] && b == [] then 0
    else if a == [] then 1
    else if b == [] then -1
    else CompareIdentifiers(a, b)
  }

  function Precedence(v: Version, w: Version): int {
    if v.major != w.major then CompareNat(v.major, w.major)
    else if v.minor != w.minor then CompareNat(v.minor, w.minor)
    else if v.patch != w.patch then CompareNat(v.patch, w.patch)
    else ComparePre(v.pre, w.pre)
  }

  /** The build metadata as text, identifiers joined by dots. */
  function Join(parts: seq<string>): string {
    if parts == [] then ""
    else if |parts| == 1 then parts[0]
    else parts[0] + ("." + Join(parts[1..]))
  }

  /** buildAwareSemanticVersioningCompare on parsed versions. */
  function BuildAwareCompare(v: Version, w: Version): int {
    var res := Precedence(v, w);
    if res != 0 then res else CompareText(Join(v.build), Join(w.build))
  }

  /** checkIfMinorDowngrade on parsed versions. */
  function MinorCompare(v: Version, w: Version): int {
    if v.major < w.major then -1
    else if v.major > w.major then 1
    else if v.minor == w.minor then 0
    else if v.minor > w.minor then 1
    else -1
  }

  // ---------------------------------------------------------------------------------------------
  // The comparison is a total order
  // ---------------------------------------------------------------------------------------------

  lemma {:induction false} TextOrder(a: string, b: string)
    ensures CompareText(a, b) in {-1, 0, 1} && CompareText(b, a) == -CompareText(a, b)
    ensures CompareText(a, b) == 0 <==> a == b
    decreases |a|
  {
    if a != "" && b != "" && a[0] == b[0] {
      TextOrder(a[1..], b[1..]);
      assert a == [a[0]] + a[1..] && b == [b[0]] + b[1..];
    }
  }

  lemma {:induction false} TextTransitive(a: string, b: string, c: string)
    requires CompareText(a, b) <= 0 && CompareText(b, c) <= 0
    ensures CompareText(a, c) <= 0
    decreases |a|
  {
    if a != "" && b != "" && c != "" && a[0] == b[0] == c[0] {
      TextTransitive(a[1..], b[1..], c[1..]);
    }
  }

  lemma IdentifierOrder(a: Identifier, b: Identifier)
    ensures CompareIdentifier(a, b) in {-1, 0, 1} && CompareIdentifier(b, a) == -CompareIdentifier(a, b)
    ensures CompareIdentifier(a, b) == 0 <==> a == b
  {
    if a.Alphanumeric? && b.Alphanumeric? { TextOrder(a.s, b.s); }
  }

  lemma IdentifierTransitive(a: Identifier, b: Identifier, c: Identifier)
    requires CompareIdentifier(a, b) <= 0 && CompareIdentifier(b, c) <= 0
    ensures CompareIdentifier(a, c) <= 0
  {
    if a.Alphanumeric? && b.Alphanumeric? && c.Alphanumeric? { TextTransitive(a.s, b.s, c.s); }
  }

  lemma {:induction false} IdentifiersOrder(a: seq<Identifier>, b: seq<Identifier>)
    ensures CompareIdentifiers(a, b) in {-1, 0, 1} && CompareIdentifiers(b, a) == -CompareIdentifiers(a, b)
    ensures CompareIdentifiers(a, b) == 0 <==> a == b
    decreases |a|
  {
    if a != [] && b != [] {
      IdentifierOrder(a[0], b[0]);
      IdentifiersOrder(a[1..], b[1..]);
      assert a == [a[0]] + a[1..] && b == [b[0]] + b[1..];
    }
  }

  lemma {:induction false} IdentifiersTransitive(a: seq<Identifier>, b: seq<Identifier>, c: seq<Identifier>)
    requires CompareIdentifiers(a, b) <= 0 && CompareIdentifiers(b, c) <= 0
    ensures CompareIdentifiers(a, c) <= 0
    decreases |a|
  {
    if a != [] && b != [] && c != [] {
      IdentifierOrder(a[0], b[0]); IdentifierOrder(b[0], c[0]); IdentifierOrder(a[0], c[0]);
      IdentifierTransitive(a[0], b[0], c[0]);
      if a[0] == b[0] == c[0] {
        IdentifiersTransitive(a[1..], b[1..], c[1..]);
      }
    }
  }

  lemma PrecedenceOrder(v: Version, w: Version)
    ensures Precedence(v, w) in {-1, 0, 1} && Precedence(w, v) == -Precedence(v, w)
    ensures Precedence(v, w) == 0 <==> v.(build := []) == w.(build := [])
  {
    IdentifiersOrder(v.pre, w.pre);
  }

  lemma PrecedenceTransitive(u: Version, v: Version, w: Version)
    requires Precedence(u, v) <= 0 && Precedence(v, w) <= 0
    ensures Precedence(u, w) <= 0
  {
    PrecedenceOrder(u, v); PrecedenceOrder(v, w);
    if u.major == v.major == w.major && u.minor == v.minor == w.minor && u.patch == v.patch == w.patch {
      if u.pre != [] && v.pre != [] && w.pre != [] {
        IdentifiersTransitive(u.pre, v.pre, w.pre);
      }
    }
  }

  /** Position of the first dot, or the length. */
  function FirstDot(s: string): nat { if s == "" || s[0] == '.' then 0 else 1 + FirstDot(s[1..]) }

  lemma {:induction false} FirstDotAfter(part: string, rest: string)
    requires '.' !in part && (rest == "" || rest[0] == '.')
    ensures FirstDot(part + rest) == |part|
    decreases |part|
  {
    if part == "" {
      assert part + rest == rest;
    } else {
      assert (part + rest)[1..] == part[1..] + rest;
      assert part[0] in part;
      FirstDotAfter(part[1..], rest);
    }
  }

  /** Joined metadata determines its identifiers. */
  lemma {:induction false} JoinInjective(a: seq<string>, b: seq<string>)
    requires forall i :: 0 <= i < |a| ==> a[i] != "" && '.' !in a[i]
    requires forall i :: 0 <= i < |b| ==> b[i] != "" && '.' !in b[i]
    requires Join(a) == Join(b)
    ensures a == b
    decreases |a|
  {
    if a != [] && b != [] {
      var ra := if |a| == 1 then "" else "." + Join(a[1..]);
      var rb := if |b| == 1 then "" else "." + Join(b[1..]);
      assert Join(a) == a[0] + ra by { if |a| == 1 { assert a[0] + "" == a[0]; } }
      assert Join(b) == b[0] + rb by { if |b| == 1 { assert b[0] + "" == b[0]; } }
      FirstDotAfter(a[0], ra);
      FirstDotAfter(b[0], rb);
      assert a[0] == Join(a)[..|a[0]|] && b[0] == Join(b)[..|a[0]|];
      assert ra == Join(a)[|a[0]|..] && rb == Join(b)[|a[0]|..];
      if |a| > 1 && |b| > 1 {
        assert Join(a[1..]) == ra[1..] == rb[1..] == Join(b[1..]);
        JoinInjective(a[1..], b[1..]);
      }
      assert a == [a[0]] + a[1..] && b == [b[0]] + b[1..];
    }
  }

  /** Antisymmetric, with result -1, 0 or 1, and zero only for identical versions. */
  lemma ComparisonIsAntisymmetric(v: Version, w: Version)
    requires WellFormed(v) && WellFormed(w)
    ensures BuildAwareCompare(v, w) in {-1, 0, 1} && BuildAwareCompare(w, v) == -BuildAwareCompare(v, w)
    ensures BuildAwareCompare(v, w) == 0 <==> v == w
  {
    PrecedenceOrder(v, w);
    TextOrder(Join(v.build), Join(w.build));
    if BuildAwareCompare(v, w) == 0 {
      JoinInjective(v.build, w.build);
    }
  }

  lemma ComparisonIsTransitive(u: Version, v: Version, w: Version)
    requires BuildAwareCompare(u, v) <= 0 && BuildAwareCompare(v, w) <= 0
    ensures BuildAwareCompare(u, w) <= 0
  {
    PrecedenceOrder(u, v); PrecedenceOrder(v, w); PrecedenceOrder(u, w);
    PrecedenceTransitive(u, v, w);
    if Precedence(u, w) == 0 {
      PrecedenceTransitive(v, w, u);
      PrecedenceTransitive(w, u, v);
      TextTransitive(Join(u.build), Join(v.build), Join(w.build));
    }
  }

  /** Whenever major and minor differ, they alone decide the full comparison. */
  lemma MinorComparisonAgrees(v: Version, w: Version)
    ensures MinorCompare(v, w) != 0 ==> BuildAwareCompare(v, w) == MinorCompare(v, w)
    ensures MinorCompare(v, w) == 0 <==> v.major == w.major && v.minor == w.minor
  {
  }

  // ---------------------------------------------------------------------------------------------
  // What the order is: item 11 of Semantic Versioning 2.0.0, and then the build metadata
  // ---------------------------------------------------------------------------------------------

  /** The two agree before `k` and differ there. */
  ghost predicate DifferFirstAt<T>(a: seq<T>, b: seq<T>, k: nat) {
    k < |a| && k < |b| && a[..k] == b[..k] && a[k] != b[k]
  }

  /** Text by its first differing character; a proper prefix comes first. */
  ghost predicate TextBefore(a: string, b: string) {
    a < b || exists k: nat :: DifferFirstAt(a, b, k) && a[k] < b[k]
  }

  /** Numbers by value, text as text, and numbers before text. */
  ghost predicate IdentifierBefore(a: Identifier, b: Identifier) {
    if a.Numeric? then b.Alphanumeric? || a.n < b.n else b.Alphanumeric? && TextBefore(a.s, b.s)
  }

  /** By the first differing identifier; a proper prefix comes first. */
  ghost predicate IdentifiersBefore(a: seq<Identifier>, b: seq<Identifier>) {
    a < b || exists k: nat :: DifferFirstAt(a, b, k) && IdentifierBefore(a[k], b[k])
  }

  /** A pre-release comes before its release. */
  ghost predicate PreReleaseBefore(a: seq<Identifier>, b: seq<Identifier>) {
    a != [] && (b == [] || IdentifiersBefore(a, b))
  }

  ghost predicate SameNumbers(v: Version, w: Version) {
    v.major == w.major && v.minor == w.minor && v.patch == w.patch
  }

  /** Older: by major, minor and patch, then as a pre-release, then by the joined build metadata. */
  ghost predicate Older(v: Version, w: Version) {
    || v.major < w.major
    || (v.major == w.major && v.minor < w.minor)
    || (v.major == w.major && v.minor == w.minor && v.patch < w.patch)
    || (SameNumbers(v, w) && PreReleaseBefore(v.pre, w.pre))
    || (SameNumbers(v, w) && v.pre == w.pre && TextBefore(Join(v.build), Join(w.build)))
  }

  lemma DifferLater<T>(a: seq<T>, b: seq<T>, k: nat)
    requires a != [] && b != [] && a[0] == b[0]
    ensures DifferFirstAt(a[1..], b[1..], k) <==> DifferFirstAt(a, b, k + 1)
  {
    if k + 1 <= |a| && k + 1 <= |b| {
      assert a[..k + 1] == [a[0]] + a[1..][..k] && b[..k + 1] == [b[0]] + b[1..][..k];
      assert a[..k + 1][1..] == a[1..][..k] && b[..k + 1][1..] == b[1..][..k];
    }
  }

  lemma PrefixLater<T>(a: seq<T>, b: seq<T>)
    requires a != [] && b != [] && a[0] == b[0]
    ensures a[1..] < b[1..] <==> a < b
  {
    if a[1..] < b[1..] { assert a == [a[0]] + a[1..] && b == [b[0]] + b[1..]; }
  }

  lemma NoDifferenceBefore<T>(a: seq<T>, b: seq<T>, k: nat)
    requires a != [] && b != [] && DifferFirstAt(a, b, k)
    ensures a[0] != b[0] <==> k == 0
  {
    if k > 0 { assert a[..k][0] == b[..k][0]; }
  }

  lemma TextBeforeLater(a: string, b: string)
    requires a != "" && b != "" && a[0] == b[0]
    ensures TextBefore(a, b) <==> TextBefore(a[1..], b[1..])
  {
    PrefixLater(a, b);
    if k: nat :| DifferFirstAt(a, b, k) && a[k] < b[k] {
      NoDifferenceBefore(a, b, k);
      DifferLater(a, b, k - 1);
      assert a[1..][k - 1] < b[1..][k - 1];
    }
    if k: nat :| DifferFirstAt(a[1..], b[1..], k) && a[1..][k] < b[1..][k] {
      DifferLater(a, b, k);
      assert a[k + 1] < b[k + 1];
    }
  }

  lemma TextBeforeNow(a: string, b: string)
    requires a != "" && b != "" && a[0] != b[0]
    ensures TextBefore(a, b) <==> a[0] < b[0]
  {
    if k: nat :| DifferFirstAt(a, b, k) && a[k] < b[k] { NoDifferenceBefore(a, b, k); }
    assert DifferFirstAt(a, b, 0);
  }

  lemma {:induction false} TextDecides(a: string, b: string)
    ensures CompareText(a, b) == -1 <==> TextBefore(a, b)
    decreases |a|
  {
    if a != "" && b != "" {
      if a[0] == b[0] { TextBeforeLater(a, b); TextDecides(a[1..], b[1..]); } else { TextBeforeNow(a, b); }
    }
  }

  lemma IdentifierDecides(a: Identifier, b: Identifier)
    ensures CompareIdentifier(a, b) == -1 <==> IdentifierBefore(a, b)
  {
    if a.Alphanumeric? && b.Alphanumeric? { TextDecides(a.s, b.s); }
  }

  lemma IdentifiersBeforeLater(a: seq<Identifier>, b: seq<Identifier>)
    requires a != [] && b != [] && a[0] == b[0]
    ensures IdentifiersBefore(a, b) <==> IdentifiersBefore(a[1..], b[1..])
  {
    PrefixLater(a, b);
    if k: nat :| DifferFirstAt(a, b, k) && IdentifierBefore(a[k], b[k]) {
      NoDifferenceBefore(a, b, k);
      DifferLater(a, b, k - 1);
      assert IdentifierBefore(a[1..][k - 1], b[1..][k - 1]);
    }
    if k: nat :| DifferFirstAt(a[1..], b[1..], k) && IdentifierBefore(a[1..][k], b[1..][k]) {
      DifferLater(a, b, k);
      assert IdentifierBefore(a[k + 1], b[k + 1]);
    }
  }

  lemma IdentifiersBeforeNow(a: seq<Identifier>, b: seq<Identifier>)
    requires a != [] && b != [] && a[0] != b[0]
    ensures IdentifiersBefore(a, b) <==> IdentifierBefore(a[0], b[0])
  {
    if k: nat :| DifferFirstAt(a, b, k) && IdentifierBefore(a[k], b[k]) { NoDifferenceBefore(a, b, k); }
    assert DifferFirstAt(a, b, 0);
  }

  lemma {:induction false} IdentifiersDecide(a: seq<Identifier>, b: seq<Identifier>)
    ensures CompareIdentifiers(a, b) == -1 <==> IdentifiersBefore(a, b)
    decreases |a|
  {
    if a != [] && b != [] {
      IdentifierOrder(a[0], b[0]);
      IdentifierDecides(a[0], b[0]);
      if a[0] == b[0] {
        IdentifiersBeforeLater(a, b);
        IdentifiersDecide(a[1..], b[1..]);
      } else {
        IdentifiersBeforeNow(a, b);
      }
    }
  }

  /** The comparison is exactly that order, in both directions. */
  lemma ComparisonIsItem11(v: Version, w: Version)
    requires WellFormed(v) && WellFormed(w)
    ensures BuildAwareCompare(v, w) == -1 <==> Older(v, w)
    ensures BuildAwareCompare(v, w) == 1 <==> Older(w, v)
  {
    ComparisonIsAntisymmetric(v, w);
    OlderDecides(v, w);
    OlderDecides(w, v);
  }

  lemma OlderDecides(v: Version, w: Version)
    ensures BuildAwareCompare(v, w) == -1 <==> Older(v, w)
  {
    PrecedenceOrder(v, w);
    IdentifiersOrder(v.pre, w.pre);
    IdentifiersDecide(v.pre, w.pre);
    TextDecides(Join(v.build), Join(w.build));
  }

  /** The joined text of two lists of identifiers is theirs with a dot between. */
  lemma {:induction false} JoinAppend(a: seq<string>, b: seq<string>)
    requires a != [] && b != []
    ensures Join(a + b) == Join(a) + ("." + Join(b))
    ensures |a| == 1 ==> Join(a) == a[0]
    decreases |a|
  {
    assert (a + b)[1..] == a[1..] + b;
    if |a| == 1 {
      assert a[1..] + b == b;
    } else {
      JoinAppend(a[1..], b);
      Associative(a[0], "." + Join(a[1..]), "." + Join(b));
      Associative(".", Join(a[1..]), "." + Join(b));
    }
  }

  lemma Associative(a: string, b: string, c: string)
    ensures (a + b) + c == a + (b + c)
  {
  }
}
