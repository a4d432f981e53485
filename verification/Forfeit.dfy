/** The forfeit split: the pairs nobody matched are shared among the best of the players who stay.
    server_src/room.c:225-261 and server_src/server.c:414-450 hold the same two loops. */
module Forfeit {
  import opened SeqFacts

  /** The best score among the players who stay, or -1. */
  function Best(scores: seq<int>, stays: seq<bool>): int
    requires |scores| == |stays|
  {
    if scores == [] then -1
    else
      var n := |scores| - 1;
      var best := Best(scores[..n], stays[..n]);
      if stays[n] then Max(best, scores[n]) else best
  }

  predicate Takes(scores: seq<int>, stays: seq<bool>, best: int, k: int)
    requires |scores| == |stays| && 0 <= k < |scores|
  {
    stays[k] && scores[k] == best
  }

  /** How many of the first k seats take a share. */
  function Takers(scores: seq<int>, stays: seq<bool>, best: int, k: nat): nat
    requires |scores| == |stays| && k <= |scores|
  {
    if k == 0 then 0
    else Takers(scores, stays, best, k - 1) + if Takes(scores, stays, best, k - 1) then 1 else 0
  }

  /** The share of the taker with the given rank: the first remaining % takers of them get one more. */
  function Share(remaining: int, takers: nat, rank: nat): int
    requires takers > 0
  {
    remaining / takers + if rank < remaining % takers then 1 else 0
  }

  function Bonus(scores: seq<int>, stays: seq<bool>, remaining: int, k: int): int
    requires |scores| == |stays| && 0 <= k < |scores|
    requires Takers(scores, stays, Best(scores, stays), |scores|) > 0
  {
    var best := Best(scores, stays);
    if Takes(scores, stays, best, k)
    then Share(remaining, Takers(scores, stays, best, |scores|), Takers(scores, stays, best, k))
    else 0
  }

  /** The scores after the split. */
  function Split(scores: seq<int>, stays: seq<bool>, remaining: int): (r: seq<int>)
    requires |scores| == |stays|
    ensures |r| == |scores|
  {
    if Takers(scores, stays, Best(scores, stays), |scores|) == 0 || remaining <= 0 then scores
    else seq(|scores|, k requires 0 <= k < |scores| => scores[k] + Bonus(scores, stays, remaining, k))
  }

  lemma SplitSeat(scores: seq<int>, stays: seq<bool>, remaining: int, k: int)
    requires |scores| == |stays| && 0 <= k < |scores| && remaining > 0
    requires Takers(scores, stays, Best(scores, stays), |scores|) > 0
    ensures var best := Best(scores, stays);
            var takers := Takers(scores, stays, best, |scores|);
            Split(scores, stays, remaining)[k] ==
            if !Takes(scores, stays, best, k) then scores[k]
            else if Takers(scores, stays, best, k) < remaining % takers then scores[k] + remaining / takers + 1
            else scores[k] + remaining / takers
  {
  }

  // ---- what the first pass finds ----

  lemma {:induction false} BestIsBest(scores: seq<int>, stays: seq<bool>)
    requires |scores| == |stays|
    ensures Best(scores, stays) >= -1
    ensures forall k :: 0 <= k < |scores| && stays[k] ==> scores[k] <= Best(scores, stays)
    ensures Best(scores, stays) == -1 || exists k :: 0 <= k < |scores| && Takes(scores, stays, Best(scores, stays), k)
  {
    if scores != [] {
      var n := |scores| - 1;
      BestIsBest(scores[..n], stays[..n]);
      forall k | 0 <= k < n ensures scores[..n][k] == scores[k] && stays[..n][k] == stays[k] {}
      var before := Best(scores[..n], stays[..n]);
      if exists k :: 0 <= k < n && Takes(scores[..n], stays[..n], before, k) {
        var k :| 0 <= k < n && Takes(scores[..n], stays[..n], before, k);
        assert Takes(scores, stays, before, k);
      }
      if stays[n] && scores[n] > before {
        assert Takes(scores, stays, scores[n], n);
      }
    }
  }

  lemma {:induction false} NoTakersAbove(scores: seq<int>, stays: seq<bool>, best: int, k: nat)
    requires |scores| == |stays| && k <= |scores|
    requires forall j :: 0 <= j < k && stays[j] ==> scores[j] < best
    ensures Takers(scores, stays, best, k) == 0
  {
    if k > 0 {
      NoTakersAbove(scores, stays, best, k - 1);
    }
  }

  lemma {:induction false} TakersMonotone(scores: seq<int>, stays: seq<bool>, best: int, j: nat, k: nat)
    requires |scores| == |stays| && j <= k <= |scores|
    ensures Takers(scores, stays, best, j) <= Takers(scores, stays, best, k)
    ensures j < k && Takes(scores, stays, best, j) ==> Takers(scores, stays, best, j) < Takers(scores, stays, best, k)
    decreases k
  {
    if j < k {
      TakersMonotone(scores, stays, best, j, k - 1);
    }
  }

  // ---- what the second pass hands out ----

  /** What the first rank takers get together. */
  function HandedOut(remaining: int, takers: nat, rank: nat): int
    requires takers > 0
  {
    remaining / takers * rank + Min(rank, remaining % takers)
  }

  lemma NextShare(remaining: int, takers: nat, rank: nat)
    requires takers > 0
    ensures HandedOut(remaining, takers, rank + 1)
         == HandedOut(remaining, takers, rank) + Share(remaining, takers, rank)
    ensures HandedOut(remaining, takers, takers) == remaining
  {
    assert remaining / takers * (rank + 1) == remaining / takers * rank + remaining / takers;
  }

  lemma {:induction false} SplitPrefixSum(scores: seq<int>, stays: seq<bool>, remaining: int, k: nat)
    requires |scores| == |stays| && k <= |scores| && remaining > 0
    requires Takers(scores, stays, Best(scores, stays), |scores|) > 0
    ensures var best := Best(scores, stays);
            Sum(Split(scores, stays, remaining)[..k])
            == Sum(scores[..k]) + HandedOut(remaining, Takers(scores, stays, best, |scores|),
                                            Takers(scores, stays, best, k))
  {
    if k > 0 {
      SplitPrefixSum(scores, stays, remaining, k - 1);
      var r, best := Split(scores, stays, remaining), Best(scores, stays);
      assert r[..k][..k - 1] == r[..k - 1] && scores[..k][..k - 1] == scores[..k - 1];
      NextShare(remaining, Takers(scores, stays, best, |scores|), Takers(scores, stays, best, k - 1));
    }
  }

  ghost predicate TopOfThoseWhoStay(scores: seq<int>, stays: seq<bool>, k: int)
    requires |scores| == |stays| && 0 <= k < |scores|
  {
    stays[k] && forall j :: 0 <= j < |scores| && stays[j] ==> scores[j] <= scores[k]
  }

  lemma TakersAreTop(scores: seq<int>, stays: seq<bool>, k: int)
    requires |scores| == |stays| && 0 <= k < |scores|
    requires forall j :: 0 <= j < |scores| ==> scores[j] >= 0
    ensures Takes(scores, stays, Best(scores, stays), k) <==> TopOfThoseWhoStay(scores, stays, k)
  {
    BestIsBest(scores, stays);
  }

  lemma SomebodyTakes(scores: seq<int>, stays: seq<bool>)
    requires |scores| == |stays|
    requires forall k :: 0 <= k < |scores| ==> scores[k] >= 0
    requires exists k :: 0 <= k < |stays| && stays[k]
    ensures Takers(scores, stays, Best(scores, stays), |scores|) > 0
  {
    BestIsBest(scores, stays);
    var best := Best(scores, stays);
    var k :| 0 <= k < |scores| && Takes(scores, stays, best, k);
    TakersMonotone(scores, stays, best, k, |scores|);
  }

  /** As long as somebody stays, exactly the remaining pairs are handed out. */
  lemma ForfeitConserves(scores: seq<int>, stays: seq<bool>, remaining: nat)
    requires |scores| == |stays|
    requires forall k :: 0 <= k < |scores| ==> scores[k] >= 0
    requires exists k :: 0 <= k < |stays| && stays[k]
    ensures Sum(Split(scores, stays, remaining)) == Sum(scores) + remaining
  {
    SomebodyTakes(scores, stays);
    if remaining > 0 {
      SplitPrefixSum(scores, stays, remaining, |scores|);
      NextShare(remaining, Takers(scores, stays, Best(scores, stays), |scores|), 0);
      var r := Split(scores, stays, remaining);
      assert r[..|r|] == r && scores[..|scores|] == scores;
    }
  }

  /** Only the best of those who stay gain; no two of them gain amounts more than one apart, and an
      earlier seat never gets less than a later one. */
  lemma ForfeitIsFair(scores: seq<int>, stays: seq<bool>, remaining: nat, j: int, k: int)
    requires |scores| == |stays| && 0 <= j < k < |scores|
    requires forall i :: 0 <= i < |scores| ==> scores[i] >= 0
    ensures var r := Split(scores, stays, remaining);
            && (!TopOfThoseWhoStay(scores, stays, j) ==> r[j] == scores[j])
            && (!TopOfThoseWhoStay(scores, stays, k) ==> r[k] == scores[k])
            && (TopOfThoseWhoStay(scores, stays, j) && TopOfThoseWhoStay(scores, stays, k) ==> r[k] <= r[j] <= r[k] + 1)
  {
    TakersAreTop(scores, stays, j);
    TakersAreTop(scores, stays, k);
    TakersMonotone(scores, stays, Best(scores, stays), j, k);
  }
}
