/** The rules of the game in plain terms: what a flip, a READY and a deal do, card by card and seat by seat. */
module Rules {
  import opened SeqFacts
  import opened GameModel
  import opened GameInvariant

  /** Nothing but the cards in the set has changed on the board. */
  ghost predicate OnlyCards<P>(g: GameState<P>, r: GameState<P>, cards: set<int>) {
    && |r.cards| == |g.cards| && r.boardSize == g.boardSize && r.totalPairs == g.totalPairs
    && (forall i :: 0 <= i < |g.cards| ==> r.cards[i].value == g.cards[i].value)
    && forall i :: 0 <= i < |g.cards| && i !in cards ==> r.cards[i] == g.cards[i]
  }

  /** The first card of a turn is turned up and remembered; nothing else happens. */
  ghost predicate TurnedUp<P>(g: GameState<P>, r: GameState<P>, card: int)
    requires 0 <= card < |g.cards|
  {
    && OnlyCards(g, r, {card}) && r.cards[card].state == Revealed
    && r.flips == 1 && r.first == card && r.second == -1
    && r.players == g.players && r.scores == g.scores && r.ready == g.ready && r.current == g.current
    && r.matchedPairs == g.matchedPairs && r.phase == Playing
  }

  /** Two cards of one value stay up; their finder has one point more and goes on, unless no card is left. */
  ghost predicate FoundPair<P>(g: GameState<P>, r: GameState<P>, a: int, b: int)
    requires 0 <= a < |g.cards| && 0 <= b < |g.cards|
  {
    && OnlyCards(g, r, {a, b}) && r.cards[a].state == Matched && r.cards[b].state == Matched
    && r.flips == 0 && r.first == -1 && r.second == -1
    && r.players == g.players && r.ready == g.ready && r.current == g.current && r.matchedPairs == g.matchedPairs + 1
    && |r.scores| == |g.scores|
    && (forall i :: 0 <= i < |g.scores| ==> r.scores[i] == g.scores[i] + if i == g.current then 1 else 0)
    && r.phase == if forall i :: 0 <= i < |r.cards| ==> r.cards[i].state == Matched then Finished else Playing
  }

  /** Two cards of different values are turned down again, and it is the next one's turn. */
  ghost predicate MissedPair<P>(g: GameState<P>, r: GameState<P>, a: int, b: int)
    requires 0 <= a < |g.cards| && 0 <= b < |g.cards| && |g.players| > 0
  {
    && OnlyCards(g, r, {a, b}) && r.cards[a].state == Hidden && r.cards[b].state == Hidden
    && r.flips == 0 && r.first == -1 && r.second == -1
    && r.players == g.players && r.scores == g.scores && r.ready == g.ready && r.matchedPairs == g.matchedPairs
    && r.current == (g.current + 1) % |g.players| && r.phase == Playing
  }

  lemma FirstFlip<P>(g: GameState<P>, card: int)
    requires Inv(g) && g.phase == Playing && g.flips == 0 && 0 <= card < |g.cards| && g.cards[card].state == Hidden
    ensures Indexable(g) && TurnedUp(g, HandleFlip(g, g.players[g.current], card), card)
  {
    InvIndexable(g);
  }

  /** Two different cards are open then, and the turn is settled. */
  lemma SecondUp<P>(g: GameState<P>, card: int)
    requires Inv(g) && g.phase == Playing && g.flips == 1 && 0 <= card < |g.cards| && g.cards[card].state == Hidden
    ensures Indexable(g) && 0 <= g.first < |g.cards| && g.first != card && g.cards[g.first].state == Revealed
    ensures var f := FlipCard(g, g.players[g.current], card);
            && f == g.(cards := g.cards[card := Card(g.cards[card].value, Revealed)], flips := 2, second := card)
            && Indexable(f) && HandleFlip(g, g.players[g.current], card) == CheckMatch(f)
  {
    InvIndexable(g);
    assert g.first in InState(g.cards, Revealed);
  }

  lemma MatchSettles<P>(g: GameState<P>, card: int)
    requires Indexable(g) && g.phase == Playing && g.flips == 1 && 0 <= card < |g.cards| && g.first != card
    requires g.cards[card].value == g.cards[g.first].value
    ensures var f := g.(cards := g.cards[card := Card(g.cards[card].value, Revealed)], flips := 2, second := card);
            && Indexable(f)
            && var r := CheckMatch(f);
               (r.phase == Finished <==> forall i :: 0 <= i < |r.cards| ==> r.cards[i].state == Matched)
               ==> FoundPair(g, r, g.first, card)
  {
  }

  lemma MismatchSettles<P>(g: GameState<P>, card: int)
    requires Indexable(g) && g.phase == Playing && g.flips == 1 && 0 <= card < |g.cards| && g.first != card
    requires g.cards[card].value != g.cards[g.first].value
    ensures var f := g.(cards := g.cards[card := Card(g.cards[card].value, Revealed)], flips := 2, second := card);
            Indexable(f) && MissedPair(g, CheckMatch(f), g.first, card)
  {
  }

  lemma SecondFlip<P>(g: GameState<P>, card: int)
    requires Inv(g) && g.phase == Playing && g.flips == 1 && 0 <= card < |g.cards| && g.cards[card].state == Hidden
    ensures Indexable(g)
    ensures var r := HandleFlip(g, g.players[g.current], card);
            if g.cards[card].value == g.cards[g.first].value then FoundPair(g, r, g.first, card)
            else MissedPair(g, r, g.first, card)
  {
    InvIndexable(g);
    HandleFlipKeeps(g, g.players[g.current], card);
    FinishedIffAllMatched(HandleFlip(g, g.players[g.current], card));
    hide Inv, HandleFlip, FlipCard, CheckMatch, FoundPair, MissedPair;
    SecondUp(g, card);
    if g.cards[card].value == g.cards[g.first].value {
      MatchSettles(g, card);
    } else {
      MismatchSettles(g, card);
    }
  }

  /** A hidden card, flipped by the player whose turn it is, is turned up; the second one of a turn settles it. */
  lemma AcceptedFlip<P>(g: GameState<P>, card: int)
    requires Inv(g) && g.phase == Playing && g.flips <= 1 && 0 <= card < |g.cards| && g.cards[card].state == Hidden
    ensures Indexable(g)
    ensures var r := HandleFlip(g, g.players[g.current], card);
            if g.flips == 0 then TurnedUp(g, r, card)
            else if g.cards[card].value == g.cards[g.first].value then FoundPair(g, r, g.first, card)
            else MissedPair(g, r, g.first, card)
  {
    if g.flips == 0 {
      FirstFlip(g, card);
    } else {
      SecondFlip(g, card);
    }
  }

  /** Everything else leaves the game as it is. */
  lemma RejectedFlip<P>(g: GameState<P>, who: P, card: int)
    requires Inv(g)
    requires || g.phase != Playing || who != g.players[g.current]
             || !(0 <= card < |g.cards|) || g.cards[card].state != Hidden
    ensures Indexable(g) && HandleFlip(g, who, card) == g
  {
    InvIndexable(g);
  }

  /** A READY in time sets the player's own flag, and the last one begins the game with the first seat's turn. */
  lemma ReadyRule<P>(g: GameState<P>, who: P)
    requires Inv(g) && g.phase == Waiting && who in g.players
    ensures var r := HandleReady(g, who);
            && |r.ready| == |g.ready|
            && (forall i :: 0 <= i < |g.players| ==> (r.ready[i] <==> g.ready[i] || g.players[i] == who))
            && r.phase == (if forall i :: 0 <= i < |r.ready| ==> r.ready[i] then Playing else Waiting)
            && r.current == 0 && r.flips == 0 && r.players == g.players && r.scores == g.scores && r.cards == g.cards
            && r.boardSize == g.boardSize && r.totalPairs == g.totalPairs && r.matchedPairs == g.matchedPairs
  {
    IndexOfIs(g.players, who);
    forall i | 0 <= i < |g.players| && g.players[i] == who ensures i == IndexOf(g.players, who) {
      FirstIndexIs(g.players, who, i);
    }
  }

  lemma FirstIndexIs<P>(players: seq<P>, who: P, i: int)
    requires Distinct(players) && 0 <= i < |players| && players[i] == who
    ensures i == IndexOf(players, who)
  {
    assert IndexOf(players, who) <= i;
  }

  lemma LateReady<P>(g: GameState<P>, who: P)
    requires Inv(g) && (g.phase != Waiting || who !in g.players)
    ensures HandleReady(g, who) == g
  {
    IndexOfIs(g.players, who);
  }

  /** A new game: the deck face down, nobody ready, no points, the first seat's turn. */
  lemma DealRule<P>(boardSize: int, values: seq<int>, players: seq<P>)
    requires ValidDeal(boardSize, values, players)
    ensures var g := Dealt(boardSize, values, players);
            && g.boardSize == boardSize && 2 * g.totalPairs == boardSize * boardSize == |g.cards|
            && (forall i :: 0 <= i < |g.cards| ==> g.cards[i] == Card(values[i], Hidden))
            && g.players == players && |g.scores| == |g.ready| == |players|
            && (forall k :: 0 <= k < |players| ==> g.scores[k] == 0 && !g.ready[k])
            && g.phase == Waiting && g.current == 0 && g.flips == 0 && g.matchedPairs == 0
  {
    DealtOk(boardSize, values, players);
  }
}
