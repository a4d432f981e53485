/** Taking a player out of a running game, and finding the winners of a finished one. */
module Roster {
  import opened SeqFacts
  import opened GameModel
  import opened GameInvariant

  /** Where a survivor's old seat k ends up when seat i is emptied. */
  function NewSeat(k: int, i: int): int {
    if k < i then k else k - 1
  }

  lemma WithoutShifts<T>(s: seq<T>, i: int, k: int)
    requires 0 <= i < |s| && 0 <= k < |s| && k != i
    ensures 0 <= NewSeat(k, i) < |Without(s, i)| == |s| - 1
    ensures Without(s, i)[NewSeat(k, i)] == s[k]
  {
  }

  lemma WithoutDistinct<T>(s: seq<T>, i: int)
    requires 0 <= i < |s| && Distinct(s)
    ensures Distinct(Without(s, i)) && s[i] !in Without(s, i)
  {
  }

  /** Survivors keep their order, and each keeps its own score and ready flag. */
  lemma SurvivorsKeepTheirs<P>(g: GameState<P>, who: P, k: int)
    requires RosterOk(g) && who in g.players
    requires 0 <= k < |g.players| && g.players[k] != who
    ensures var r := RemovePlayer(g, who);
            && |r.players| == |r.scores| == |r.ready| == |g.players| - 1
            && who !in r.players && g.players[k] in r.players
            && IndexOf(r.players, g.players[k]) == NewSeat(k, IndexOf(g.players, who))
            && r.scores[IndexOf(r.players, g.players[k])] == g.scores[k]
            && r.ready[IndexOf(r.players, g.players[k])] == g.ready[k]
  {
    var i := IndexOf(g.players, who);
    IndexOfIs(g.players, who);
    WithoutShifts(g.players, i, k);
    WithoutShifts(g.scores, i, k);
    WithoutShifts(g.ready, i, k);
    WithoutDistinct(g.players, i);
    DistinctIndex(Without(g.players, i), NewSeat(k, i));
  }

  /** The turn stays with the same client exactly when that client was not the one removed and did not
      sit in the last of three or more seats: the wrap to seat 0 is tested before the shift. */
  lemma TurnAfterRemoval<P>(g: GameState<P>, who: P)
    requires Inv(g) && who in g.players && |g.players| >= 2
    ensures var r := RemovePlayer(g, who);
            && 0 <= r.current < |r.players|
            && (r.players[r.current] == g.players[g.current]
                <==> g.players[g.current] != who && (g.current < |g.players| - 1 || |g.players| == 2))
            && (g.current == |g.players| - 1 ==> r.current == 0)
            && (g.players[g.current] == who && g.current < |g.players| - 1
                ==> r.players[r.current] == g.players[g.current + 1])
  {
    var i := IndexOf(g.players, who);
    IndexOfIs(g.players, who);
    assert g.players[i] == who;
  }

  /** The board is not touched: a half-finished turn is inherited by whoever moves next. */
  lemma RemovalKeepsBoard<P>(g: GameState<P>, who: P)
    requires Inv(g) && |g.players| >= 2
    ensures var r := RemovePlayer(g, who);
            && Inv(r)
            && r.cards == g.cards && r.phase == g.phase
            && r.flips == g.flips && r.first == g.first && r.second == g.second
  {
    RemoveKeeps(g, who);
  }

  // ---- winners ----

  /** The best score, starting from 0 as game_get_winners does. */
  function TopScore(scores: seq<int>): int {
    if scores == [] then 0 else Max(TopScore(scores[..|scores| - 1]), scores[|scores| - 1])
  }

  function PlayersWith<P>(players: seq<P>, scores: seq<int>, score: int): (w: seq<P>)
    requires |players| == |scores|
    ensures |w| <= |players|
  {
    if players == [] then []
    else
      var n := |players| - 1;
      PlayersWith(players[..n], scores[..n], score) + if scores[n] == score then [players[n]] else []
  }

  function Winners<P>(g: GameState<P>): seq<P>
    requires |g.players| == |g.scores|
  {
    if g.phase == Finished then PlayersWith(g.players, g.scores, TopScore(g.scores)) else []
  }

  lemma {:induction false} TopScoreIsTop(scores: seq<int>)
    ensures TopScore(scores) >= 0
    ensures forall i :: 0 <= i < |scores| ==> scores[i] <= TopScore(scores)
    ensures TopScore(scores) == 0 || TopScore(scores) in scores
  {
    if scores != [] {
      TopScoreIsTop(scores[..|scores| - 1]);
    }
  }

  lemma {:induction false} PlayersWithExactly<P>(players: seq<P>, scores: seq<int>, score: int)
    requires |players| == |scores| && Distinct(players)
    ensures var w := PlayersWith(players, scores, score);
            && (forall k :: 0 <= k < |players| ==> (players[k] in w <==> scores[k] == score))
            && (forall p :: p in w ==> p in players)
            && Distinct(w)
  {
    if players != [] {
      var n := |players| - 1;
      PlayersWithExactly(players[..n], scores[..n], score);
      var w := PlayersWith(players[..n], scores[..n], score);
      assert players[n] !in players[..n];
      forall k | 0 <= k < n ensures players[k] in w <==> scores[k] == score {
        assert players[..n][k] == players[k] && scores[..n][k] == scores[k];
      }
    }
  }

  /** A finished game has a winner, and the winners are exactly the players nobody has beaten, each once. */
  lemma WinnersAreTopScorers<P>(g: GameState<P>)
    requires Inv(g) && g.phase == Finished
    ensures Winners(g) != [] && Distinct(Winners(g))
    ensures forall k :: 0 <= k < |g.players| ==>
              (g.players[k] in Winners(g) <==> forall j :: 0 <= j < |g.scores| ==> g.scores[j] <= g.scores[k])
    ensures forall p :: p in Winners(g) ==> p in g.players
  {
    var top := TopScore(g.scores);
    TopScoreIsTop(g.scores);
    PlayersWithExactly(g.players, g.scores, top);
    assert top in g.scores by {
      if top == 0 {
        assert g.scores[0] == 0;
      }
    }
    var k :| 0 <= k < |g.scores| && g.scores[k] == top;
    assert g.players[k] in Winners(g);
  }
}
