/** The JavaScript array operations that the mock tables are built from
    (`find`, `findIndex`, `some`, `filter`, `splice`, `[...new Set(..)]`,
    `slice`), as functions on sequences. Each store method gives its new table
    as a function of the old one: an append is `old(rows) + [record]`; a delete
    or an update is one of these functions. */
module Tables {
  import opened Common

  /** `k` is the index that `findIndex(p)` answers: the first element satisfying `p`. */
  ghost predicate IsFirstMatch<T>(s: seq<T>, p: T -> bool, k: int) {
    0 <= k < |s| && p(s[k]) && forall j :: 0 <= j < k ==> !p(s[j])
  }

  /** No element satisfies `p`. */
  ghost predicate NoMatch<T>(s: seq<T>, p: T -> bool) {
    forall j :: 0 <= j < |s| ==> !p(s[j])
  }

  /** `Array.prototype.findIndex`, with -1 written as `None`. */
  function FindIndex<T>(s: seq<T>, p: T -> bool): (r: Option<nat>)
    ensures r.Some? ==> IsFirstMatch(s, p, r.value)
    ensures r.None? <==> NoMatch(s, p)
    decreases |s|
  {
    if |s| == 0 then None
    else if p(s[0]) then Some(0)
    else match FindIndex(s[1..], p)
      case None => None
      case Some(k) => Some(k + 1)
  }

  /** `Array.prototype.find`, with `undefined` written as `None`: the first
      element satisfying `p`. */
  function Find<T>(s: seq<T>, p: T -> bool): (r: Option<T>)
    ensures r.None? <==> NoMatch(s, p)
    ensures r.Some? ==> p(r.value) && exists k :: IsFirstMatch(s, p, k) && s[k] == r.value
  {
    match FindIndex(s, p)
    case None => None
    case Some(k) => Some(s[k])
  }

  /** `Array.prototype.some`. */
  function Any<T>(s: seq<T>, p: T -> bool): (r: bool)
    ensures r <==> exists j :: 0 <= j < |s| && p(s[j])
  {
    FindIndex(s, p).Some?
  }

  /** `Array.prototype.filter`: the elements satisfying `p`, in order. */
  function Filter<T>(s: seq<T>, p: T -> bool): (r: seq<T>)
    ensures |r| <= |s|
    ensures forall i :: 0 <= i < |r| ==> r[i] in s && p(r[i])
    ensures forall j :: 0 <= j < |s| && p(s[j]) ==> s[j] in r
    decreases |s|
  {
    if |s| == 0 then []
    else if p(s[0]) then [s[0]] + Filter(s[1..], p)
    else Filter(s[1..], p)
  }

  /** `findIndex` followed by `splice(index, 1)` when the index is not -1:
      the first element satisfying `p` is deleted, nothing else. */
  function RemoveFirst<T>(s: seq<T>, p: T -> bool): (r: seq<T>)
    ensures NoMatch(s, p) ==> r == s
    ensures forall k :: IsFirstMatch(s, p, k) ==> r == s[..k] + s[k + 1..]
  {
    match FindIndex(s, p)
    case None => s
    case Some(k) => s[..k] + s[k + 1..]
  }

  /** `find` followed by a mutation of the found object: the first element
      satisfying `p` is replaced by its image under `f`, nothing else changes. */
  function UpdateFirst<T>(s: seq<T>, p: T -> bool, f: T -> T): (r: seq<T>)
    ensures |r| == |s|
    ensures NoMatch(s, p) ==> r == s
    ensures forall k :: IsFirstMatch(s, p, k) ==>
      r[k] == f(s[k]) && forall j :: 0 <= j < |s| && j != k ==> r[j] == s[j]
  {
    match FindIndex(s, p)
    case None => s
    case Some(k) => s[k := f(s[k])]
  }

  /** `find`, then mutate the found object in place and answer it: the new
      table is `UpdateFirst`, and the answer is the updated first match, or
      `undefined` when nothing matches. The mutation must keep the object
      matching, as every handler's does (it never changes the id). */
  method UpdateFound<T>(s: seq<T>, p: T -> bool, f: T -> T) returns (s': seq<T>, r: Option<T>)
    requires forall x :: p(x) ==> p(f(x))
    ensures s' == UpdateFirst(s, p, f)
    ensures r.None? <==> NoMatch(s, p)
    ensures r.Some? ==> exists k :: IsFirstMatch(s, p, k) && r.value == f(s[k])
    ensures r == Find(s', p)
  {
    var index := FindIndex(s, p);
    if index.Some? {
      s' := s[index.value := f(s[index.value])];
      assert IsFirstMatch(s', p, index.value);
      FirstMatchUnique(s', p, index.value, FindIndex(s', p).value);
      r := Some(s'[index.value]);
    } else {
      s' := s;
      r := None;
    }
  }

  /** `[...new Set(s)]`: a Set keeps the order in which values were first
      inserted, and inserting a value already present does nothing. */
  function Distinct<T(==)>(s: seq<T>): (r: seq<T>)
    ensures |r| <= |s|
    ensures forall i :: 0 <= i < |r| ==> r[i] in s
    decreases |s|
  {
    if |s| == 0 then []
    else
      var d := Distinct(s[..|s| - 1]);
      if s[|s| - 1] in d then d else d + [s[|s| - 1]]
  }

  /** The index of the first occurrence of `x` in `s`. */
  function FirstIndexOf<T(==)>(s: seq<T>, x: T): (i: nat)
    requires x in s
    ensures i < |s| && s[i] == x && forall j :: 0 <= j < i ==> s[j] != x
    decreases |s|
  {
    if s[0] == x then 0 else 1 + FirstIndexOf(s[1..], x)
  }

  /** `s.slice(0, end)` for an integer `end`: a negative end counts back from
      the length, an end past the length is clamped. */
  function SliceTo<T>(s: seq<T>, end: int): (r: seq<T>)
    ensures |r| == if end < 0 then (if |s| + end < 0 then 0 else |s| + end)
                   else (if end < |s| then end else |s|)
    ensures r <= s
  {
    var stop := if end < 0 then (if |s| + end < 0 then 0 else |s| + end)
                else (if end < |s| then end else |s|);
    s[..stop]
  }

  // ---------------------------------------------------------------------
  // Properties

  /** A first match is unique: `findIndex` has exactly one answer. */
  lemma FirstMatchUnique<T>(s: seq<T>, p: T -> bool, i: int, j: int)
    requires IsFirstMatch(s, p, i) && IsFirstMatch(s, p, j)
    ensures i == j
  {
  }

  /** Filtering distributes over concatenation; with `Filter([x], p)` this
      fixes the order of the result: it is the subsequence of `s` that satisfies `p`. */
  lemma {:induction false} FilterAppend<T>(a: seq<T>, b: seq<T>, p: T -> bool)
    ensures Filter(a + b, p) == Filter(a, p) + Filter(b, p)
    decreases |a|
  {
    if |a| == 0 {
      assert a + b == b;
    } else {
      assert (a + b)[1..] == a[1..] + b;
      FilterAppend(a[1..], b, p);
    }
  }

  /** Filtering keeps every element satisfying `p` as often as it occurs, and
      no other element. */
  lemma {:induction false} FilterCount<T>(s: seq<T>, p: T -> bool, x: T)
    ensures multiset(Filter(s, p))[x] == if p(x) then multiset(s)[x] else 0
    decreases |s|
  {
    if |s| > 0 {
      FilterCount(s[1..], p, x);
      assert s == [s[0]] + s[1..];
    }
  }

  /** Deleting the first match removes exactly one occurrence of that element. */
  lemma RemoveFirstMultiset<T>(s: seq<T>, p: T -> bool, k: int)
    requires IsFirstMatch(s, p, k)
    ensures multiset(RemoveFirst(s, p)) + multiset{s[k]} == multiset(s)
    ensures |RemoveFirst(s, p)| == |s| - 1
  {
    assert s == s[..k] + [s[k]] + s[k + 1..];
  }

  /** Appending an element that is the only match, then deleting the first
      match, gives back the original sequence. */
  lemma RemoveFirstAfterAppend<T>(s: seq<T>, x: T, p: T -> bool)
    requires NoMatch(s, p) && p(x)
    ensures RemoveFirst(s + [x], p) == s
  {
    assert IsFirstMatch(s + [x], p, |s|);
    assert (s + [x])[..|s|] == s;
  }

  /** Applying two updates to the first match is one update with their
      composition, provided the first update keeps the element matching. */
  lemma UpdateFirstTwice<T>(s: seq<T>, p: T -> bool, f: T -> T, g: T -> T)
    requires forall x :: p(x) ==> p(f(x))
    ensures UpdateFirst(UpdateFirst(s, p, f), p, g) == UpdateFirst(s, p, x => g(f(x)))
  {
    var s1 := UpdateFirst(s, p, f);
    match FindIndex(s, p)
    case None =>
    case Some(k) =>
      assert IsFirstMatch(s1, p, k);
      FirstMatchUnique(s1, p, k, FindIndex(s1, p).value);
  }

  /** The values listed by `Distinct` are exactly the values of `s`. */
  lemma {:induction false} DistinctSameElements<T>(s: seq<T>)
    ensures forall x :: x in Distinct(s) <==> x in s
    decreases |s|
  {
    if |s| > 0 {
      var init := s[..|s| - 1];
      DistinctSameElements(init);
      assert s == init + [s[|s| - 1]];
    }
  }

  /** `Distinct` lists each value once. */
  lemma {:induction false} DistinctNoDuplicates<T>(s: seq<T>)
    ensures forall i, j :: 0 <= i < j < |Distinct(s)| ==> Distinct(s)[i] != Distinct(s)[j]
    decreases |s|
  {
    if |s| > 0 {
      DistinctNoDuplicates(s[..|s| - 1]);
    }
  }

  /** The first occurrence of a value of a prefix is its first occurrence in the
      whole sequence. */
  lemma FirstIndexOfPrefix<T>(s: seq<T>, n: nat, x: T)
    requires n <= |s| && x in s[..n]
    ensures FirstIndexOf(s, x) == FirstIndexOf(s[..n], x)
  {
    var i, j := FirstIndexOf(s, x), FirstIndexOf(s[..n], x);
    assert s[..n][j] == s[j];
    assert i <= j;
    assert s[..n][i] == s[i];
  }

  /** `Distinct` lists the values in the order of their first appearance in `s`. */
  lemma {:induction false} DistinctFirstAppearanceOrder<T>(s: seq<T>)
    ensures forall x :: x in Distinct(s) ==> x in s
    ensures forall i, j :: 0 <= i < j < |Distinct(s)| ==>
      FirstIndexOf(s, Distinct(s)[i]) < FirstIndexOf(s, Distinct(s)[j])
    decreases |s|
  {
    DistinctSameElements(s);
    if |s| > 0 {
      var n := |s| - 1;
      var init := s[..n];
      var d := Distinct(init);
      DistinctFirstAppearanceOrder(init);
      DistinctSameElements(init);
      forall y | y in d
        ensures FirstIndexOf(s, y) == FirstIndexOf(init, y) < n
      {
        FirstIndexOfPrefix(s, n, y);
      }
      if s[n] !in d {
        assert s[n] !in init;
        assert FirstIndexOf(s, s[n]) == n;
      }
    }
  }
}
