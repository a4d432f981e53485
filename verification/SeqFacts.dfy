/** Facts about sums, index sets and multisets of sequences that the other modules share. */
module SeqFacts {

  function Max(a: int, b: int): int {
    if a > b then a else b
  }

  function Min(a: int, b: int): int {
    if a < b then a else b
  }

  function Sum(s: seq<int>): int {
    if s == [] then 0 else Sum(s[..|s| - 1]) + s[|s| - 1]
  }

  lemma {:induction false} SumConcat(a: seq<int>, b: seq<int>)
    ensures Sum(a + b) == Sum(a) + Sum(b)
    decreases |b|
  {
    if b == [] {
      assert a + b == a;
    } else {
      assert (a + b)[..|a + b| - 1] == a + b[..|b| - 1];
      SumConcat(a, b[..|b| - 1]);
    }
  }

  lemma SumAround(a: seq<int>, x: int, b: seq<int>)
    ensures Sum(a + ([x] + b)) == Sum(a) + x + Sum(b)
  {
    SumConcat(a, [x] + b);
    SumConcat([x], b);
    assert [x][..0] == [];
  }

  lemma SumUpdate(s: seq<int>, i: int, x: int)
    requires 0 <= i < |s|
    ensures Sum(s[i := x]) == Sum(s) - s[i] + x
  {
    assert s == s[..i] + ([s[i]] + s[i + 1..]);
    assert s[i := x] == s[..i] + ([x] + s[i + 1..]);
    SumAround(s[..i], s[i], s[i + 1..]);
    SumAround(s[..i], x, s[i + 1..]);
  }

  lemma SumRemove(s: seq<int>, i: int)
    requires 0 <= i < |s|
    ensures Sum(s[..i] + s[i + 1..]) == Sum(s) - s[i]
  {
    assert s == s[..i] + ([s[i]] + s[i + 1..]);
    SumAround(s[..i], s[i], s[i + 1..]);
    SumConcat(s[..i], s[i + 1..]);
  }

  lemma {:induction false} SumZero(s: seq<int>)
    requires forall i :: 0 <= i < |s| ==> s[i] == 0
    ensures Sum(s) == 0
  {
    if s != [] {
      SumZero(s[..|s| - 1]);
    }
  }

  lemma {:induction false} SumBounds(s: seq<int>)
    requires forall i :: 0 <= i < |s| ==> s[i] >= 0
    ensures Sum(s) >= 0
    ensures forall i :: 0 <= i < |s| ==> s[i] <= Sum(s)
  {
    if s != [] {
      SumBounds(s[..|s| - 1]);
    }
  }

  /** The first place of an element, or the length. */
  function IndexOf<T(==)>(s: seq<T>, x: T): (i: nat)
    ensures i <= |s|
    ensures i < |s| ==> s[i] == x
    ensures forall k :: 0 <= k < i ==> s[k] != x
  {
    if s == [] || s[0] == x then 0 else 1 + IndexOf(s[1..], x)
  }

  lemma IndexOfIs<T>(s: seq<T>, x: T)
    ensures IndexOf(s, x) < |s| <==> x in s
  {
  }

  ghost predicate Distinct<T>(s: seq<T>) {
    forall i, j :: 0 <= i < j < |s| ==> s[i] != s[j]
  }

  lemma {:induction false} FirstIndex<T>(s: seq<T>, x: T, i: int)
    requires 0 <= i < |s| && s[i] == x && x !in s[..i]
    ensures IndexOf(s, x) == i
  {
    if i > 0 {
      assert s[..i][0] == s[0];
      forall k | 0 <= k < i - 1 ensures s[1..][k] != x {
        assert s[..i][k + 1] == s[k + 1];
      }
      FirstIndex(s[1..], x, i - 1);
    }
  }

  lemma DistinctIndex<T>(s: seq<T>, k: int)
    requires Distinct(s) && 0 <= k < |s|
    ensures IndexOf(s, s[k]) == k
  {
    FirstIndex(s, s[k], k);
  }

  /** The numbers 0 up to, but not including, n. */
  ghost function Below(n: nat): (s: set<int>)
    ensures forall i :: i in s <==> 0 <= i < n
    ensures |s| == n
  {
    if n == 0 then {} else Below(n - 1) + {n - 1}
  }

  lemma SubsetCard<T>(a: set<T>, b: set<T>)
    requires a <= b
    ensures |a| <= |b|
    ensures |a| == |b| ==> a == b
  {
    assert b == a + (b - a);
  }

  /** Every value that occurs in the sequence occurs exactly twice. */
  ghost predicate Paired(values: seq<int>) {
    forall i :: 0 <= i < |values| ==> multiset(values)[values[i]] == 2
  }

  lemma SplitAt<T>(s: seq<T>, i: int)
    requires 0 <= i < |s|
    ensures multiset(s) == multiset(s[..i]) + multiset{s[i]} + multiset(s[i + 1..])
  {
    assert s == s[..i] + [s[i]] + s[i + 1..];
  }

  lemma Partner(values: seq<int>, i: int) returns (j: int)
    requires Paired(values) && 0 <= i < |values|
    ensures 0 <= j < |values| && j != i && values[j] == values[i]
  {
    SplitAt(values, i);
    var v := values[i];
    assert multiset(values[..i])[v] + multiset(values[i + 1..])[v] == 1;
    if v in multiset(values[..i]) {
      j :| 0 <= j < i && values[..i][j] == v;
    } else {
      assert v in values[i + 1..];
      var k :| 0 <= k < |values[i + 1..]| && values[i + 1..][k] == v;
      j := i + 1 + k;
    }
  }

  lemma NoThird(values: seq<int>, i: int, j: int, k: int)
    requires Paired(values)
    requires 0 <= i < |values| && 0 <= j < |values| && 0 <= k < |values|
    requires i != j && values[i] == values[j] == values[k]
    ensures k == i || k == j
  {
    if k != i && k != j {
      var a, b, c := Ordered(i, j, k);
      var v := values[i];
      SplitAt(values, c);
      SplitAt(values[..c], b);
      SplitAt(values[..c][..b], a);
    }
  }

  lemma Ordered(i: int, j: int, k: int) returns (a: int, b: int, c: int)
    requires i != j && j != k && i != k
    ensures a < b < c && {a, b, c} == {i, j, k}
  {
    a := if i < j && i < k then i else if j < k then j else k;
    c := if i > j && i > k then i else if j > k then j else k;
    b := i + j + k - a - c;
  }
}
