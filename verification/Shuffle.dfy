/** The Fisher-Yates shuffle of server_src/game.c and the deck it is applied to. */
module Shuffle {
  import opened SeqFacts

  /** A choice sequence: js[i] is the index drawn when position i is filled. */
  ghost predicate Choices(js: seq<int>, n: nat) {
    |js| == n && forall i :: 0 <= i < n ==> 0 <= js[i] <= i
  }

  function Swap<T>(s: seq<T>, i: int, j: int): seq<T>
    requires 0 <= i < |s| && 0 <= j < |s|
  {
    s[i := s[j]][j := s[i]]
  }

  /** What is left to do once every position above i has been filled. */
  function ShuffleFrom<T>(s: seq<T>, js: seq<int>, i: int): (r: seq<T>)
    requires |js| == |s| && i < |s|
    requires forall k :: 0 <= k < |js| ==> 0 <= js[k] <= k
    ensures |r| == |s|
    decreases i
  {
    if i <= 0 then s else ShuffleFrom(Swap(s, i, js[i]), js, i - 1)
  }

  function Shuffled<T>(s: seq<T>, js: seq<int>): seq<T>
    requires |js| == |s|
    requires forall k :: 0 <= k < |js| ==> 0 <= js[k] <= k
  {
    ShuffleFrom(s, js, |s| - 1)
  }

  /** The draws a run of rand() makes: position i is filled from rand() % (i + 1). */
  function Reduced(rand: seq<nat>): (js: seq<int>)
    ensures |js| == |rand|
    ensures forall k :: 0 <= k < |js| ==> 0 <= js[k] <= k
  {
    seq(|rand|, i requires 0 <= i < |rand| => rand[i] % (i + 1))
  }

  /** The first n values of a stream of rand() results. */
  function Draws(rand: nat -> nat, n: nat): (r: seq<nat>)
    ensures |r| == n
  {
    if n == 0 then [] else Draws(rand, n - 1) + [rand(n - 1)]
  }

  method ShuffleArray(a: array<int>, rand: seq<nat>)
    requires |rand| == a.Length
    modifies a
    ensures a[..] == Shuffled(old(a[..]), Reduced(rand))
  {
    ghost var js := Reduced(rand);
    var i := a.Length - 1;
    while i > 0
      invariant -1 <= i < a.Length
      invariant ShuffleFrom(a[..], js, i) == Shuffled(old(a[..]), js)
    {
      ghost var before := a[..];
      var j := rand[i] % (i + 1);
      var temp := a[i];
      a[i] := a[j];
      a[j] := temp;
      assert a[..] == Swap(before, i, js[i]);
      i := i - 1;
    }
  }

  lemma SwapPermutes<T>(s: seq<T>, i: int, j: int)
    requires 0 <= j <= i < |s|
    ensures multiset(Swap(s, i, j)) == multiset(s)
  {
  }

  lemma {:induction false} Untouched<T>(s: seq<T>, js: seq<int>, i: int, k: int)
    requires Choices(js, |s|) && i < |s|
    requires 0 <= k < |s| && i < k
    ensures ShuffleFrom(s, js, i)[k] == s[k]
    decreases i
  {
    if i > 0 {
      Untouched(Swap(s, i, js[i]), js, i - 1, k);
    }
  }

  lemma {:induction false} FromPermutes<T>(s: seq<T>, js: seq<int>, i: int)
    requires Choices(js, |s|) && i < |s|
    ensures multiset(ShuffleFrom(s, js, i)) == multiset(s)
    decreases i
  {
    if i > 0 {
      SwapPermutes(s, i, js[i]);
      FromPermutes(Swap(s, i, js[i]), js, i - 1);
    }
  }

  /** Whatever is drawn, the result is a permutation. */
  lemma ShufflePermutes<T>(s: seq<T>, js: seq<int>)
    requires Choices(js, |s|)
    ensures multiset(Shuffled(s, js)) == multiset(s)
  {
    FromPermutes(s, js, |s| - 1);
  }

  lemma SwapDistinct<T>(s: seq<T>, i: int, j: int)
    requires Distinct(s) && 0 <= j <= i < |s|
    ensures Distinct(Swap(s, i, j))
  {
  }

  lemma {:induction false} FromInjective<T>(s: seq<T>, js: seq<int>, ks: seq<int>, i: int)
    requires Distinct(s) && Choices(js, |s|) && Choices(ks, |s|) && i < |s|
    requires ShuffleFrom(s, js, i) == ShuffleFrom(s, ks, i)
    ensures forall k :: 0 <= k <= i ==> js[k] == ks[k]
    decreases i
  {
    if i > 0 {
      Untouched(Swap(s, i, js[i]), js, i - 1, i);
      Untouched(Swap(s, i, ks[i]), ks, i - 1, i);
      assert s[js[i]] == s[ks[i]];
      SwapDistinct(s, i, js[i]);
      FromInjective(Swap(s, i, js[i]), js, ks, i - 1);
    }
  }

  /** Different draws give different orders: no order is reached twice. */
  lemma ShuffleInjective<T>(s: seq<T>, js: seq<int>, ks: seq<int>)
    requires Distinct(s) && Choices(js, |s|) && Choices(ks, |s|)
    ensures Shuffled(s, js) == Shuffled(s, ks) <==> js == ks
  {
    if Shuffled(s, js) == Shuffled(s, ks) {
      FromInjective(s, js, ks, |s| - 1);
    }
  }

  lemma {:induction false} FromAgree<T>(s: seq<T>, js: seq<int>, ks: seq<int>, i: int)
    requires Choices(js, |s|) && Choices(ks, |s|) && i < |s|
    requires forall k :: 0 <= k <= i ==> js[k] == ks[k]
    ensures ShuffleFrom(s, js, i) == ShuffleFrom(s, ks, i)
    decreases i
  {
    if i > 0 {
      FromAgree(Swap(s, i, js[i]), js, ks, i - 1);
    }
  }

  ghost predicate AgreeAbove<T>(s: seq<T>, t: seq<T>, i: int) {
    |s| == |t| && forall k :: 0 <= k < |s| && i < k ==> s[k] == t[k]
  }

  lemma LastOccursInPrefix<T>(s: seq<T>, t: seq<T>, i: int) returns (j: int)
    requires 0 <= i < |s| && AgreeAbove(s, t, i) && multiset(s) == multiset(t)
    ensures 0 <= j <= i && s[j] == t[i]
  {
    var v, rest := t[i], s[i + 1..];
    assert s == s[..i + 1] + rest;
    assert t == t[..i + 1] + rest;
    assert multiset(s)[v] == multiset(s[..i + 1])[v] + multiset(rest)[v];
    assert multiset(t)[v] == multiset(t[..i + 1])[v] + multiset(rest)[v];
    assert t[..i + 1][i] == v;
    assert v in multiset(t[..i + 1]);
    assert v in multiset(s[..i + 1]);
    j :| 0 <= j < i + 1 && s[..i + 1][j] == t[i];
  }

  lemma {:induction false} FromSurjective<T>(s: seq<T>, t: seq<T>, i: int) returns (js: seq<int>)
    requires -1 <= i < |s| && AgreeAbove(s, t, i) && multiset(s) == multiset(t)
    ensures Choices(js, |s|) && ShuffleFrom(s, js, i) == t
    decreases i
  {
    if i < 0 {
      js := seq(|s|, k => 0);
      assert s == t;
    } else {
      var j := LastOccursInPrefix(s, t, i);
      if i == 0 {
        js := seq(|s|, k => 0);
        assert s == t;
      } else {
        js := SurjectiveStep(s, t, i, j);
      }
    }
  }

  lemma {:induction false} SurjectiveStep<T>(s: seq<T>, t: seq<T>, i: int, j: int) returns (js: seq<int>)
    requires 0 < i < |s| && AgreeAbove(s, t, i) && multiset(s) == multiset(t)
    requires 0 <= j <= i && s[j] == t[i]
    ensures Choices(js, |s|) && ShuffleFrom(s, js, i) == t
    decreases i, 0
  {
    var s' := Swap(s, i, j);
    SwapPermutes(s, i, j);
    assert AgreeAbove(s', t, i - 1);
    var rest := FromSurjective(s', t, i - 1);
    js := rest[i := j];
    FromAgree(s', js, rest, i - 1);
  }

  /** Every order is reached by some draws: with ShuffleInjective, draws and orders are in bijection. */
  lemma ShuffleSurjective<T>(s: seq<T>, t: seq<T>) returns (js: seq<int>)
    requires multiset(s) == multiset(t)
    ensures Choices(js, |s|) && Shuffled(s, js) == t
  {
    SameLength(s, t);
    js := FromSurjective(s, t, |s| - 1);
  }

  lemma SameLength<T>(s: seq<T>, t: seq<T>)
    requires multiset(s) == multiset(t)
    ensures |s| == |t|
  {
    assert |multiset(s)| == |s| && |multiset(t)| == |t|;
  }

  /** 1, 1, 2, 2, ..., pairs, pairs. */
  function Deck(pairs: nat): (d: seq<int>)
    ensures |d| == 2 * pairs
  {
    if pairs == 0 then [] else Deck(pairs - 1) + [pairs, pairs]
  }

  lemma {:induction false} DeckCounts(pairs: nat, v: int)
    ensures multiset(Deck(pairs))[v] == if 1 <= v <= pairs then 2 else 0
  {
    if pairs > 0 {
      DeckCounts(pairs - 1, v);
      assert multiset([pairs, pairs]) == multiset{pairs, pairs};
    }
  }

  /** A deck with a spare card is never a set of pairs; without one, each value is on exactly two cards. */
  lemma ShuffledDeckPaired(pairs: nat, spare: seq<int>, js: seq<int>)
    requires |spare| <= 1 && Choices(js, 2 * pairs + |spare|)
    ensures Paired(Shuffled(Deck(pairs) + spare, js)) <==> spare == []
    ensures spare == [] ==>
              forall v :: multiset(Shuffled(Deck(pairs), js))[v] == if 1 <= v <= pairs then 2 else 0
  {
    hide Deck, Shuffled;
    var d := Deck(pairs) + spare;
    var r := Shuffled(d, js);
    ShufflePermutes(d, js);
    forall v ensures multiset(Deck(pairs))[v] == if 1 <= v <= pairs then 2 else 0 {
      DeckCounts(pairs, v);
    }
    if spare == [] {
      assert d == Deck(pairs);
      forall i | 0 <= i < |r| ensures multiset(r)[r[i]] == 2 {
        assert r[i] in multiset(r);
      }
    } else {
      var v := spare[0];
      assert d[|d| - 1] == v;
      assert multiset(d)[v] == multiset(Deck(pairs))[v] + 1;
      assert v in multiset(r);
      var i :| 0 <= i < |r| && r[i] == v;
    }
  }
}
