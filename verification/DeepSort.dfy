/**
 Sorting of operator versions and of the Central versions inside each (pkg/api/cluster_types.go).
 Slices are arrays, so that copying and sorting in place can be told apart.
 */
module DeepSort {
  import opened Optional
  import opened Versions

  type ParsedVersion = v: Version | WellFormed(v) witness Version(0, 0, 0, [], [])

  /** A version text: what the parser makes of it, or a text it rejects. */
  datatype VersionText = Parsed(text: string, version: ParsedVersion) | Malformed(text: string)

  /** The source's comparison: an error for a text that cannot be parsed. */
  predicate Compares(a: VersionText, b: VersionText) { a.Parsed? && b.Parsed? }

  predicate Below(a: VersionText, b: VersionText) {
    Compares(a, b) && BuildAwareCompare(a.version, b.version) == -1
  }

  predicate AtMost(a: VersionText, b: VersionText) {
    Compares(a, b) && BuildAwareCompare(a.version, b.version) <= 0
  }

  /** `perm` lists every index below its length exactly once. */
  ghost predicate IsPermutation(perm: seq<int>) {
    && (forall i :: 0 <= i < |perm| ==> 0 <= perm[i] < |perm|)
    && (forall i, j :: 0 <= i < j < |perm| ==> perm[i] != perm[j])
  }

  function Swap<T>(s: seq<T>, i: nat, j: nat): seq<T>
    requires i < |s| && j < |s|
  {
    s[i := s[j]][j := s[i]]
  }

  lemma SwapKeepsPermutation(perm: seq<int>, i: nat, j: nat)
    requires IsPermutation(perm) && i < |perm| && j < |perm|
    ensures IsPermutation(Swap(perm, i, j))
  {
  }

  ghost predicate SortedBy<T>(s: seq<T>, key: T -> VersionText) {
    forall i, j :: 0 <= i < j < |s| ==> AtMost(key(s[i]), key(s[j]))
  }

  ghost predicate AllParsed<T>(s: seq<T>, key: T -> VersionText) {
    forall i :: 0 <= i < |s| ==> key(s[i]).Parsed?
  }

  /** `after` is `before` rearranged by `perm`. */
  ghost predicate Rearranged<T>(before: seq<T>, after: seq<T>, perm: seq<int>) {
    && |perm| == |before| == |after| && IsPermutation(perm)
    && forall i :: 0 <= i < |after| ==> after[i] == before[perm[i]]
  }

  lemma SwapRearranges<T>(before: seq<T>, after: seq<T>, perm: seq<int>, i: nat, j: nat)
    requires Rearranged(before, after, perm) && i < |after| && j < |after|
    ensures Rearranged(before, Swap(after, i, j), Swap(perm, i, j))
  {
    SwapKeepsPermutation(perm, i, j);
  }

  lemma {:induction false} RearrangedKeepsParsed<T>(before: seq<T>, after: seq<T>, perm: seq<int>,
    key: T -> VersionText)
    requires Rearranged(before, after, perm)
    ensures AllParsed(before, key) <==> AllParsed(after, key)
  {
    if AllParsed(after, key) {
      forall i | 0 <= i < |before| ensures key(before[i]).Parsed? {
        Onto(perm, i);
        var k :| 0 <= k < |perm| && perm[k] == i;
        assert after[k] == before[i];
      }
    }
  }

  /** A permutation reaches every index. */
  lemma Onto(perm: seq<int>, i: nat)
    requires IsPermutation(perm) && i < |perm|
    ensures exists k :: 0 <= k < |perm| && perm[k] == i
  {
    var image := set k | 0 <= k < |perm| :: perm[k];
    ImageSize(perm, |perm|);
    assert image <= Range(|perm|);
    SubsetOfSameSize(image, Range(|perm|));
    assert i in image;
  }

  lemma {:induction false} ImageSize(perm: seq<int>, n: nat)
    requires IsPermutation(perm) && n <= |perm|
    ensures |set k | 0 <= k < n :: perm[k]| == n
  {
    if n > 0 {
      ImageSize(perm, n - 1);
      var before := set k | 0 <= k < n - 1 :: perm[k];
      assert (set k | 0 <= k < n :: perm[k]) == before + {perm[n - 1]};
    }
  }

  ghost function Range(n: nat): (r: set<int>)
    ensures |r| == n && forall k :: k in r <==> 0 <= k < n
  {
    if n == 0 then {} else Range(n - 1) + {n - 1}
  }

  lemma SubsetOfSameSize<T>(a: set<T>, b: set<T>)
    requires a <= b && |a| == |b|
    ensures a == b
  {
    assert b == a + (b - a) && |b - a| == |b| - |a|;
  }

  // ---------------------------------------------------------------------------------------------
  // Sorting one slice in place
  // ---------------------------------------------------------------------------------------------

  /** Sorted up to `i`, except that the element at `j` still has to move left. */
  ghost predicate SortedExcept<T>(s: seq<T>, key: T -> VersionText, i: nat, j: nat)
    requires i < |s|
  {
    forall p, q :: 0 <= p < q <= i && q != j ==> AtMost(key(s[p]), key(s[q]))
  }

  lemma NotBelowIsAtMost(a: VersionText, b: VersionText)
    requires Compares(a, b)
    ensures Below(a, b) || AtMost(b, a)
    ensures Below(a, b) ==> AtMost(a, b)
    ensures AtMost(a, a)
  {
    ComparisonIsAntisymmetric(a.version, b.version);
    ComparisonIsAntisymmetric(a.version, a.version);
  }

  lemma AtMostTransitive(a: VersionText, b: VersionText, c: VersionText)
    requires AtMost(a, b) && AtMost(b, c)
    ensures AtMost(a, c)
  {
    ComparisonIsTransitive(a.version, b.version, c.version);
  }

  lemma Settled<T>(s: seq<T>, key: T -> VersionText, i: nat, j: nat)
    requires i < |s| && j <= i && SortedExcept(s, key, i, j)
    requires j > 0 ==> AtMost(key(s[j - 1]), key(s[j]))
    ensures forall p, q :: 0 <= p < q <= i ==> AtMost(key(s[p]), key(s[q]))
  {
    forall p | 0 <= p < j ensures AtMost(key(s[p]), key(s[j])) {
      if p < j - 1 { AtMostTransitive(key(s[p]), key(s[j - 1]), key(s[j])); }
    }
  }

  lemma SwapMovesLeft<T>(s: seq<T>, key: T -> VersionText, i: nat, j: nat)
    requires 0 < j <= i < |s| && SortedExcept(s, key, i, j) && AtMost(key(s[j]), key(s[j - 1]))
    ensures SortedExcept(Swap(s, j - 1, j), key, i, j - 1)
  {
  }

  ghost predicate ParsedAlike<T>(s: seq<T>, t: seq<T>, key: T -> VersionText) {
    |s| == |t| && forall k :: 0 <= k < |s| ==> key(s[k]).Parsed? == key(t[k]).Parsed?
  }

  ghost predicate SortedTo<T>(s: seq<T>, key: T -> VersionText, n: nat)
    requires n <= |s|
  {
    forall p, q :: 0 <= p < q < n ==> AtMost(key(s[p]), key(s[q]))
  }

  ghost predicate ParsedTo<T>(s: seq<T>, key: T -> VersionText, n: nat)
    requires n <= |s|
  {
    forall p :: 0 <= p < n ==> key(s[p]).Parsed?
  }

  method SwapLeft<T>(a: array<T>, j: nat, ghost start: seq<T>, ghost perm0: seq<int>) returns (ghost perm: seq<int>)
    requires 0 < j < a.Length && Rearranged(start, a[..], perm0)
    modifies a
    ensures a[..] == Swap(old(a[..]), j - 1, j) && Rearranged(start, a[..], perm)
  {
    SwapRearranges(start, a[..], perm0, j - 1, j);
    perm := Swap(perm0, j - 1, j);
    a[j - 1], a[j] := a[j], a[j - 1];
    assert a[..] == Swap(old(a[..]), j - 1, j);
  }

  /** Moves `a[i]` to its place among the sorted elements on its left, until a comparison says stop or fails. */
  method Insert<T>(a: array<T>, key: T -> VersionText, i: nat, ghost start: seq<T>, ghost perm0: seq<int>)
    returns (failed: bool, ghost perm: seq<int>)
    requires 0 < i < a.Length && Rearranged(start, a[..], perm0)
    modifies a
    ensures Rearranged(start, a[..], perm) && ParsedAlike(old(a[..]), a[..], key)
    ensures failed ==> !ParsedTo(a[..], key, i + 1)
    ensures !failed ==> Compares(key(old(a[..])[i]), key(old(a[..])[i - 1]))
    ensures !failed && SortedTo(old(a[..]), key, i) ==> SortedTo(a[..], key, i + 1)
  {
    failed, perm := false, perm0;
    ghost var was := a[..];
    ghost var sorted := SortedTo(was, key, i);
    var j := i;
    while j > 0
      invariant 0 <= j <= i && !failed && Rearranged(start, a[..], perm) && ParsedAlike(was, a[..], key)
      invariant j < i ==> Compares(key(was[i]), key(was[i - 1]))
      invariant j == i ==> a[..] == was
      invariant sorted ==> SortedExcept(a[..], key, i, j)
    {
      ghost var before := a[..];
      assert a[j] == before[j] && a[j - 1] == before[j - 1];
      if !Compares(key(a[j]), key(a[j - 1])) {
        failed := true;
        break;
      }
      NotBelowIsAtMost(key(a[j]), key(a[j - 1]));
      if !Below(key(a[j]), key(a[j - 1])) {
        break;
      }
      if sorted { SwapMovesLeft(before, key, i, j); }
      perm := SwapLeft(a, j, start, perm);
      j := j - 1;
    }
    if sorted && !failed { Settled(a[..], key, i, j); }
  }

  /** The first `n` elements have been sorted, or a comparison among them failed. */
  ghost predicate Sorting<T>(s: seq<T>, key: T -> VersionText, n: nat, failed: bool)
    requires 0 < n <= |s|
  {
    && (n == 1 ==> !failed)
    && (n > 1 ==> (failed <==> !ParsedTo(s, key, n)))
    && (!failed ==> SortedTo(s, key, n))
  }

  lemma SortingStep<T>(s: seq<T>, t: seq<T>, key: T -> VersionText, i: nat, failed: bool, stuck: bool)
    requires 0 < i < |s| && Sorting(s, key, i, failed) && ParsedAlike(s, t, key)
    requires stuck ==> !ParsedTo(t, key, i + 1)
    requires !stuck ==> Compares(key(s[i]), key(s[i - 1])) && (SortedTo(s, key, i) ==> SortedTo(t, key, i + 1))
    ensures Sorting(t, key, i + 1, failed || stuck)
  {
    if failed {
      var p :| 0 <= p < i && !key(s[p]).Parsed?;
      assert !key(t[p]).Parsed?;
    } else if !stuck {
      assert forall p :: 0 <= p < i + 1 ==> key(s[p]).Parsed? && key(t[p]).Parsed?;
    }
  }

  /** sort.Slice with the comparison of the source; any comparison that fails makes the whole sort fail. */
  method SortSlice<T>(a: array<T>, key: T -> VersionText) returns (failed: bool, ghost perm: seq<int>)
    modifies a
    ensures Rearranged(old(a[..]), a[..], perm)
    ensures failed <==> a.Length >= 2 && !AllParsed(old(a[..]), key)
    ensures !failed ==> SortedBy(a[..], key)
  {
    ghost var start := a[..];
    failed, perm := false, seq(a.Length, k => k);
    if a.Length < 2 { return; }
    var i := 1;
    while i < a.Length
      invariant 1 <= i <= a.Length && Rearranged(start, a[..], perm) && Sorting(a[..], key, i, failed)
    {
      ghost var before := a[..];
      var stuck;
      stuck, perm := Insert(a, key, i, start, perm);
      SortingStep(before, a[..], key, i, failed, stuck);
      failed := failed || stuck;
      i := i + 1;
    }
    RearrangedKeepsParsed(start, a[..], perm, key);
  }

  // ---------------------------------------------------------------------------------------------
  // Sorting both levels
  // ---------------------------------------------------------------------------------------------

  /** An operator version with the slice of its Central versions, which may be nil. */
  datatype OperatorVersion = OperatorVersion(version: VersionText, ready: bool, centrals: array?<VersionText>)

  function OperatorKey(v: OperatorVersion): VersionText { v.version }

  function CentralKey(t: VersionText): VersionText { t }

  ghost function Content(v: OperatorVersion): seq<VersionText>
    reads v.centrals
  {
    if v.centrals == null then [] else v.centrals[..]
  }

  ghost predicate SameElements<T>(s: seq<T>, t: seq<T>) { exists perm :: Rearranged(s, t, perm) }

  ghost predicate Unsortable(s: seq<VersionText>) { |s| >= 2 && !AllParsed(s, CentralKey) }

  method DeepCopy(v: OperatorVersion) returns (r: OperatorVersion)
    ensures r.version == v.version && r.ready == v.ready && (r.centrals == null <==> v.centrals == null)
    ensures r.centrals != null ==> fresh(r.centrals)
    ensures Content(r) == Content(v)
  {
    r := v.(centrals := null);
    if v.centrals != null {
      var copied := new VersionText[v.centrals.Length]
        (i requires 0 <= i < v.centrals.Length reads v.centrals => v.centrals[i]);
      assert copied[..] == v.centrals[..];
      r := r.(centrals := copied);
    }
  }

  /** No two elements share a slice. */
  ghost predicate Apart(list: seq<OperatorVersion>) {
    forall i, j :: 0 <= i < j < |list| && list[i].centrals != null ==> list[i].centrals != list[j].centrals
  }

  ghost predicate Within(list: seq<OperatorVersion>, cells: set<array<VersionText>>) {
    forall i :: 0 <= i < |list| && list[i].centrals != null ==> list[i].centrals in cells
  }

  /** What sorting one slice of Central versions leaves behind. */
  ghost predicate Tidied(before: seq<VersionText>, after: seq<VersionText>) {
    SameElements(before, after) && SortedBy(after, CentralKey)
  }

  method SortCentrals(v: OperatorVersion) returns (failed: bool)
    modifies if v.centrals == null then {} else {v.centrals}
    ensures failed <==> Unsortable(old(Content(v)))
    ensures !failed ==> Tidied(old(Content(v)), Content(v))
  {
    failed := false;
    if v.centrals == null {
      assert Rearranged(Content(v), Content(v), []);
    } else {
      ghost var perm;
      failed, perm := SortSlice(v.centrals, CentralKey);
      assert Rearranged(old(Content(v)), Content(v), perm);
    }
  }

  ghost predicate Holds(list: seq<OperatorVersion>, contents: seq<seq<VersionText>>, lo: nat)
    reads set i | 0 <= i < |list| && list[i].centrals != null :: list[i].centrals
  {
    |contents| == |list| && forall i :: lo <= i < |list| ==> Content(list[i]) == contents[i]
  }

  ghost predicate TidiedTo(list: seq<OperatorVersion>, contents: seq<seq<VersionText>>, hi: nat)
    requires hi <= |list| == |contents|
    reads set i | 0 <= i < |list| && list[i].centrals != null :: list[i].centrals
  {
    forall i :: 0 <= i < hi ==> Tidied(contents[i], Content(list[i])) && !Unsortable(contents[i])
  }

  /** Sorts the slice of the element at `idx`, leaving those of the others alone. */
  method SortAt(list: seq<OperatorVersion>, idx: nat, ghost contents: seq<seq<VersionText>>,
    ghost cells: set<array<VersionText>>) returns (failed: bool)
    requires idx < |list| && Apart(list) && Within(list, cells)
    requires Holds(list, contents, idx) && TidiedTo(list, contents, idx)
    modifies cells
    ensures failed <==> Unsortable(contents[idx])
    ensures !failed ==> Holds(list, contents, idx + 1) && TidiedTo(list, contents, idx + 1)
  {
    failed := SortCentrals(list[idx]);
    forall i | 0 <= i < |list| && i != idx ensures Content(list[i]) == old(Content(list[i])) {
      assert list[i].centrals == null || list[i].centrals != list[idx].centrals;
    }
  }

  /** Sorts the slice of every element in place; `contents` is what the slices held before. */
  method SortInner(list: seq<OperatorVersion>, ghost contents: seq<seq<VersionText>>,
    ghost cells: set<array<VersionText>>)
    returns (failed: bool)
    requires Apart(list) && Within(list, cells) && Holds(list, contents, 0)
    modifies cells
    ensures failed <==> exists i :: 0 <= i < |list| && Unsortable(contents[i])
    ensures !failed ==> forall i :: 0 <= i < |list| ==> Tidied(contents[i], Content(list[i]))
  {
    for idx := 0 to |list|
      invariant Holds(list, contents, idx) && TidiedTo(list, contents, idx)
    {
      failed := SortAt(list, idx, contents, cells);
      if failed { return; }
    }
    failed := false;
  }

  // ---------------------------------------------------------------------------------------------
  // The deep sort
  // ---------------------------------------------------------------------------------------------

  /** The value of an operator version: what JSON writes of it. */
  datatype Release = Release(version: VersionText, ready: bool, centrals: Option<seq<VersionText>>)

  function ReleaseKey(r: Release): VersionText { r.version }

  function Inner(r: Release): seq<VersionText> {
    if r.centrals.None? then [] else r.centrals.value
  }

  function Snapshot(v: OperatorVersion): (r: Release)
    reads v.centrals
    ensures Inner(r) == Content(v) && (r.centrals.None? <==> v.centrals == null)
  {
    Release(v.version, v.ready, if v.centrals == null then None else Some(v.centrals[..]))
  }

  function Snapshots(list: seq<OperatorVersion>): (r: seq<Release>)
    reads set i | 0 <= i < |list| && list[i].centrals != null :: list[i].centrals
    ensures |r| == |list| && forall i :: 0 <= i < |r| ==> r[i] == Snapshot(list[i])
  {
    if list == [] then [] else
      assert forall i :: 0 <= i < |list| - 1 ==> list[..|list| - 1][i] == list[i];
      Snapshots(list[..|list| - 1]) + [Snapshot(list[|list| - 1])]
  }

  /** The inputs on which some comparison fails; the elements of a list of one are never compared. */
  ghost predicate Rejected(input: seq<Release>) {
    || (|input| >= 2 && !AllParsed(input, ReleaseKey))
    || exists i :: 0 <= i < |input| && Unsortable(Inner(input[i]))
  }

  /** The same release, with its Central versions sorted. */
  ghost predicate SortedCopy(r: Release, s: Release) {
    && s.version == r.version && s.ready == r.ready && (s.centrals.None? <==> r.centrals.None?)
    && Tidied(Inner(r), Inner(s))
  }

  /** `output` holds the releases of `input`, each once, sorted at both levels. */
  ghost predicate DeeplySorted(input: seq<Release>, output: seq<Release>, perm: seq<int>) {
    && |perm| == |input| == |output| && IsPermutation(perm)
    && SortedBy(output, ReleaseKey)
    && forall k :: 0 <= k < |output| ==> SortedCopy(input[perm[k]], output[k])
  }

  /** `copy` is a deep copy of `v` in new storage. */
  ghost predicate IsCopy(v: OperatorVersion, copy: OperatorVersion)
    reads v.centrals, copy.centrals
  {
    Snapshot(copy) == Snapshot(v)
  }

  lemma ApartSnoc(list: seq<OperatorVersion>, v: OperatorVersion)
    requires Apart(list) && forall i :: 0 <= i < |list| && v.centrals != null ==> list[i].centrals != v.centrals
    ensures Apart(list + [v])
  {
  }

  method CopyAll(versions: array<OperatorVersion>)
    returns (copies: seq<OperatorVersion>, ghost cells: set<array<VersionText>>)
    ensures |copies| == versions.Length && Apart(copies) && Within(copies, cells) && fresh(cells)
    ensures forall i :: 0 <= i < |copies| ==> IsCopy(versions[i], copies[i])
  {
    copies, cells := [], {};
    for idx := 0 to versions.Length
      invariant |copies| == idx && Apart(copies) && Within(copies, cells) && fresh(cells)
      invariant forall i :: 0 <= i < idx ==> IsCopy(versions[i], copies[i])
    {
      var copied := DeepCopy(versions[idx]);
      ApartSnoc(copies, copied);
      copies := copies + [copied];
      if copied.centrals != null { cells := cells + {copied.centrals}; }
    }
  }

  lemma ApartRearranged(before: seq<OperatorVersion>, after: seq<OperatorVersion>, perm: seq<int>)
    requires Apart(before) && Rearranged(before, after, perm)
    ensures Apart(after)
  {
    forall i, j | 0 <= i < j < |after| && after[i].centrals != null
      ensures after[i].centrals != after[j].centrals
    {
      assert perm[i] != perm[j];
      assert after[i] == before[perm[i]] && after[j] == before[perm[j]];
    }
  }

  /** Sorting the copies by version and then each slice gives a deeply sorted list. */
  lemma BothLevels(input: seq<Release>, list: seq<OperatorVersion>, output: seq<Release>, perm: seq<int>)
    requires |perm| == |input| == |list| == |output| && IsPermutation(perm) && SortedBy(list, OperatorKey)
    requires forall k :: 0 <= k < |list| ==>
      SortedCopy(input[perm[k]], output[k]) && output[k].version == list[k].version
    ensures DeeplySorted(input, output, perm)
  {
    forall i, j | 0 <= i < j < |output| ensures AtMost(ReleaseKey(output[i]), ReleaseKey(output[j])) {
      assert AtMost(OperatorKey(list[i]), OperatorKey(list[j]));
    }
  }

  /** The two levels fail exactly on the rejected inputs. */
  lemma RejectedBy(input: seq<Release>, contents: seq<seq<VersionText>>, perm: seq<int>)
    requires |perm| == |input| == |contents| && IsPermutation(perm)
    requires forall k :: 0 <= k < |perm| ==> contents[k] == Inner(input[perm[k]])
    ensures (exists k :: 0 <= k < |perm| && Unsortable(contents[k]))
       <==> (exists i :: 0 <= i < |input| && Unsortable(Inner(input[i])))
  {
    if i :| 0 <= i < |input| && Unsortable(Inner(input[i])) {
      Onto(perm, i);
      var k :| 0 <= k < |perm| && perm[k] == i;
      assert Unsortable(contents[k]);
    }
  }

  /** The copies in the order of their versions, in a slice of their own. */
  method SortOuter(copies: seq<OperatorVersion>)
    returns (failed: bool, sorted: array<OperatorVersion>, ghost perm: seq<int>)
    requires Apart(copies)
    ensures fresh(sorted) && Rearranged(copies, sorted[..], perm) && Apart(sorted[..])
    ensures failed <==> |copies| >= 2 && !AllParsed(copies, OperatorKey)
    ensures !failed ==> SortedBy(sorted[..], OperatorKey)
  {
    sorted := new OperatorVersion[|copies|](i requires 0 <= i < |copies| => copies[i]);
    assert sorted[..] == copies;
    failed, perm := SortSlice(sorted, OperatorKey);
    ApartRearranged(copies, sorted[..], perm);
  }

  /** What the slices of a rearranged list hold, read off the snapshots of the list. */
  ghost function Moved(input: seq<Release>, perm: seq<int>): (r: seq<seq<VersionText>>)
    requires |perm| == |input| && IsPermutation(perm)
    ensures |r| == |perm| && forall k :: 0 <= k < |r| ==> r[k] == Inner(input[perm[k]])
  {
    seq(|perm|, k requires 0 <= k < |perm| => Inner(input[perm[k]]))
  }

  lemma MovedHolds(copies: seq<OperatorVersion>, list: seq<OperatorVersion>, perm: seq<int>, input: seq<Release>)
    requires Rearranged(copies, list, perm) && input == Snapshots(copies)
    ensures Holds(list, Moved(input, perm), 0)
  {
  }

  /** `input` agrees with `copies` in all that sorting the slices leaves alone. */
  ghost predicate SameLabels(copies: seq<OperatorVersion>, input: seq<Release>)
  {
    && |input| == |copies|
    && forall i :: 0 <= i < |input| ==>
        && input[i].version == copies[i].version && input[i].ready == copies[i].ready
        && (input[i].centrals.None? <==> copies[i].centrals == null)
  }

  lemma SortedCopies(copies: seq<OperatorVersion>, list: seq<OperatorVersion>, perm: seq<int>, input: seq<Release>)
    requires Rearranged(copies, list, perm) && SameLabels(copies, input)
    requires forall k :: 0 <= k < |list| ==> Tidied(Moved(input, perm)[k], Content(list[k]))
    requires SortedBy(list, OperatorKey)
    ensures DeeplySorted(input, Snapshots(list), perm)
  {
    var output := Snapshots(list);
    forall k | 0 <= k < |list| ensures SortedCopy(input[perm[k]], output[k]) && output[k].version == list[k].version {
      assert list[k] == copies[perm[k]];
      IsSortedCopy(input[perm[k]], list[k], output[k]);
    }
    BothLevels(input, list, output, perm);
  }

  lemma IsSortedCopy(r: Release, v: OperatorVersion, s: Release)
    requires s == Snapshot(v) && Tidied(Inner(r), Content(v))
    requires r.version == v.version && r.ready == v.ready && (r.centrals.None? <==> v.centrals == null)
    ensures SortedCopy(r, s)
  {
  }

  /** Sorts the copies by operator version, then the slice of each. */
  method SortCopies(copies: seq<OperatorVersion>, ghost input: seq<Release>, ghost cells: set<array<VersionText>>)
    returns (failed: bool, sorted: array<OperatorVersion>, ghost perm: seq<int>)
    requires Apart(copies) && Within(copies, cells) && Snapshots(copies) == input
    modifies cells
    ensures fresh(sorted) && Within(sorted[..], cells)
    ensures failed <==> Rejected(input)
    ensures !failed ==> DeeplySorted(input, Snapshots(sorted[..]), perm)
  {
    failed, sorted, perm := SortOuter(copies);
    assert SameLabels(copies, input);
    ParsedAgree(copies, input);
    assert Within(sorted[..], cells);
    if failed { return; }
    var list := sorted[..];
    ghost var contents := Moved(input, perm);
    MovedHolds(copies, list, perm, input);
    RejectedBy(input, contents, perm);
    failed := SortInner(list, contents, cells);
    if !failed { SortedCopies(copies, list, perm, input); }
  }

  lemma ParsedAgree(copies: seq<OperatorVersion>, input: seq<Release>)
    requires SameLabels(copies, input)
    ensures AllParsed(copies, OperatorKey) <==> AllParsed(input, ReleaseKey)
  {
    if AllParsed(input, ReleaseKey) {
      assert forall i :: 0 <= i < |input| ==> OperatorKey(copies[i]) == ReleaseKey(input[i]);
    }
    if AllParsed(copies, OperatorKey) {
      assert forall i :: 0 <= i < |input| ==> OperatorKey(copies[i]) == ReleaseKey(input[i]);
    }
  }

  ghost function Input(versions: array?<OperatorVersion>): seq<Release>
    reads versions
    reads if versions == null then {} else
        set i | 0 <= i < versions.Length && versions[i].centrals != null :: versions[i].centrals
  {
    if versions == null then [] else Snapshots(versions[..])
  }

  lemma SnapshotsOfCopies(list: seq<OperatorVersion>, copies: seq<OperatorVersion>)
    requires |copies| == |list| && forall i :: 0 <= i < |copies| ==> IsCopy(list[i], copies[i])
    ensures Snapshots(copies) == Snapshots(list)
  {
  }

  /** Every slice of the list is new since the call began, so no caller can hold it. */
  twostate predicate New(new list: seq<OperatorVersion>) {
    forall i :: 0 <= i < |list| && list[i].centrals != null ==> fresh(list[i].centrals)
  }

  method CopyAndSort(versions: array<OperatorVersion>)
    returns (failed: bool, sorted: array<OperatorVersion>, ghost perm: seq<int>)
    ensures failed <==> Rejected(old(Snapshots(versions[..])))
    ensures !failed ==> DeeplySorted(old(Snapshots(versions[..])), Snapshots(sorted[..]), perm)
    ensures fresh(sorted) && New(sorted[..])
  {
    var copies;
    ghost var cells;
    copies, cells := CopyAll(versions);
    SnapshotsOfCopies(versions[..], copies);
    failed, sorted, perm := SortCopies(copies, Snapshots(copies), cells);
  }

  /** The deep sort. It may change nothing, so the caller's lists stay as they were. */
  method CentralOperatorVersionsDeepSort(versions: array?<OperatorVersion>)
    returns (failed: bool, sorted: array?<OperatorVersion>, ghost perm: seq<int>)
    ensures failed <==> Rejected(old(Input(versions)))
    ensures failed ==> sorted == null
    ensures !failed ==>
      (sorted == null <==> versions == null) && DeeplySorted(old(Input(versions)), Input(sorted), perm)
    ensures sorted != null ==> fresh(sorted) && New(sorted[..])
  {
    failed, sorted, perm := false, null, [];
    if versions == null { return; }
    if versions.Length == 0 {
      sorted := new OperatorVersion[0];
      return;
    }
    failed, sorted, perm := CopyAndSort(versions);
    if failed { sorted := null; }
  }

  // ---------------------------------------------------------------------------------------------
  // Storing the versions in a cluster
  // ---------------------------------------------------------------------------------------------

  /** The JSON column of a cluster: not set, a list of releases, or a text that is no such list. */
  datatype Column = Unset | Releases(list: seq<Release>) | Garbage

  function ReadyOf(list: seq<Release>): (r: seq<Release>)
  {
    if list == [] then []
    else ReadyOf(list[..|list| - 1]) + (if list[|list| - 1].ready then [list[|list| - 1]] else [])
  }

  class ClusterRow {
    var available: Column

    method SetAvailableCentralOperatorVersions(versions: array?<OperatorVersion>)
      returns (failed: bool, ghost perm: seq<int>)
      modifies this
      ensures failed <==> Rejected(old(Input(versions)))
      ensures failed ==> available == old(available)
      ensures !failed ==> available.Releases? && DeeplySorted(old(Input(versions)), available.list, perm)
    {
      var sorted;
      failed, sorted, perm := CentralOperatorVersionsDeepSort(versions);
      if failed { return; }
      available := if sorted == null then Releases([]) else Releases(Snapshots(sorted[..]));
    }

    method GetAvailableCentralOperatorVersions() returns (failed: bool, list: seq<Release>)
      ensures failed <==> available.Garbage?
      ensures list == if available.Releases? then available.list else []
    {
      match available
      case Unset => return false, [];
      case Releases(stored) => return false, stored;
      case Garbage => return true, [];
    }

    method GetAvailableAndReadyCentralOperatorVersions() returns (failed: bool, ready: seq<Release>)
      ensures failed <==> available.Garbage?
      ensures ready == if available.Releases? then ReadyOf(available.list) else []
    {
      ready := [];
      var list;
      failed, list := GetAvailableCentralOperatorVersions();
      if failed { return; }
      for i := 0 to |list|
        invariant ready == ReadyOf(list[..i])
      {
        assert list[..i + 1][..i] == list[..i];
        if list[i].ready { ready := ready + [list[i]]; }
      }
      assert list[..|list|] == list;
    }
  }

  /** The filter drops the unready releases and nothing else. */
  lemma {:induction false} ReadyOfIsTheReady(list: seq<Release>, r: Release)
    ensures r in ReadyOf(list) <==> r in list && r.ready
  {
    if list != [] {
      ReadyOfIsTheReady(list[..|list| - 1], r);
      assert list == list[..|list| - 1] + [list[|list| - 1]];
    }
  }

  /** The last ready release of a list comes at or after any other ready one. */
  lemma {:induction false} LastReady(list: seq<Release>, i: nat) returns (last: nat)
    requires i < |list| && list[i].ready
    ensures i <= last < |list| && list[last].ready && ReadyOf(list) != []
    ensures ReadyOf(list)[|ReadyOf(list)| - 1] == list[last]
  {
    last := |list| - 1;
    if !list[last].ready { last := LastReady(list[..|list| - 1], i); }
  }

  predicate SameLabel(r: Release, s: Release) { s.version == r.version && s.ready == r.ready }

  /** Where a release given has gone. */
  lemma Place(input: seq<Release>, output: seq<Release>, perm: seq<int>, i: nat) returns (k: nat)
    requires DeeplySorted(input, output, perm) && i < |input|
    ensures k < |perm| && perm[k] == i && SameLabel(input[i], output[k])
  {
    Onto(perm, i);
    k :| 0 <= k < |perm| && perm[k] == i;
    assert SortedCopy(input[perm[k]], output[k]);
  }

  lemma LaterIsLarger(input: seq<Release>, output: seq<Release>, perm: seq<int>, k: nat, last: nat)
    requires DeeplySorted(input, output, perm) && k <= last < |output|
    ensures k == last || AtMost(input[perm[k]].version, output[last].version)
  {
    assert SortedCopy(input[perm[k]], output[k]);
    if k < last { assert AtMost(ReleaseKey(output[k]), ReleaseKey(output[last])); }
  }

  /** The oldest comes first: nothing later in the list is older. */
  lemma SortedIsOldestFirst<T>(s: seq<T>, key: T -> VersionText, i: nat, j: nat)
    requires SortedBy(s, key) && i < j < |s|
    ensures key(s[i]).Parsed? && key(s[j]).Parsed? && !Older(key(s[j]).version, key(s[i]).version)
  {
    assert AtMost(key(s[i]), key(s[j]));
    ComparisonIsItem11(key(s[i]).version, key(s[j]).version);
  }

  /**
   After the versions were set, the last available and ready one is a ready version given,
   and no other ready version given is newer.
   */
  lemma LastReadyIsMaximal(input: seq<Release>, output: seq<Release>, perm: seq<int>, i: nat) returns (j: nat)
    requires DeeplySorted(input, output, perm) && i < |input| && input[i].ready
    ensures j < |input| && input[j].ready && ReadyOf(output) != []
    ensures var last := ReadyOf(output)[|ReadyOf(output)| - 1];
      && SortedCopy(input[j], last)
      && (i == j ||
          (input[i].version.Parsed? && last.version.Parsed? && !Older(last.version.version, input[i].version.version)))
  {
    var k := Place(input, output, perm, i);
    var last := LastReady(output, k);
    j := perm[last];
    assert SortedCopy(input[j], output[last]);
    LaterIsLarger(input, output, perm, k, last);
    if i != j { ComparisonIsItem11(input[i].version.version, output[last].version.version); }
  }
}
