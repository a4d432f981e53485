/** The game object of server_src/game.c. Only the live prefix of the C arrays of four seats is stored:
    entries from player_count on are NULL there. */
module Games {
  import opened SeqFacts
  import opened Shuffle
  import opened GameModel
  import opened GameInvariant
  import opened Roster
  import opened Forfeit

  class Game<P(==)> {
    const boardSize: int
    const totalCards: int
    const totalPairs: int
    const cards: array<Card>
    var players: seq<P>
    var playerCount: int
    var playerScores: seq<int>
    var playerReady: seq<bool>
    var currentPlayerIndex: int
    var firstCardIndex: int
    var secondCardIndex: int
    var flipsThisTurn: int
    var matchedPairs: int
    var state: Phase

    ghost function View(): GameState<P>
      reads this, cards
    {
      GameState(boardSize, totalPairs, cards[..], players, playerScores, playerReady,
                currentPlayerIndex, firstCardIndex, secondCardIndex, flipsThisTurn, matchedPairs, state)
    }

    ghost predicate Valid()
      reads this, cards
    {
      playerCount == |players| && totalCards == cards.Length && Inv(View())
    }

    /** What the code needs in order to index its arrays: implied by Valid, and kept by every operation. */
    ghost predicate WellFormed()
      reads this, cards
    {
      playerCount == |players| && totalCards == cards.Length && Indexable(View())
    }

    lemma ValidWellFormed()
      requires Valid()
      ensures WellFormed()
    {
      InvIndexable(View());
    }

    /** The part of game_create that runs once its arguments are accepted. */
    constructor (boardSize: int, players: seq<P>, deck: seq<int>)
      requires 2 <= boardSize && |deck| == boardSize * boardSize
      ensures View() == Dealt(boardSize, deck, players)
      ensures playerCount == |players| && totalCards == cards.Length
      ensures fresh(cards)
    {
      this.boardSize := boardSize;
      totalCards := boardSize * boardSize;
      totalPairs := boardSize * boardSize / 2;
      this.players, playerCount := players, |players|;
      playerScores := seq(|players|, i => 0);
      playerReady := seq(|players|, i => false);
      currentPlayerIndex, firstCardIndex, secondCardIndex, flipsThisTurn := 0, -1, -1, 0;
      matchedPairs, state := 0, Waiting;
      var dealt := new Card[|deck|](i requires 0 <= i < |deck| => Card(deck[i], Hidden));
      cards := dealt;
      new;
      assert cards[..] == Dealt(boardSize, deck, players).cards;
    }

    /** game_create. The values come from malloc, so on an odd board the last one is whatever was there. */
    static method Create(boardSize: int, players: seq<P>, rand: nat -> nat) returns (game: Game?<P>)
      ensures game == null <==> !(4 <= boardSize <= 8 && 2 <= |players| <= 4)
      ensures game != null ==>
                && fresh(game) && fresh(game.cards)
                && game.playerCount == |players| && game.totalCards == game.cards.Length
                && exists spare: seq<int> ::
                  && |spare| == boardSize % 2
                  && 2 * (boardSize * boardSize / 2) + |spare| == boardSize * boardSize
                  && game.View() == Dealt(boardSize,
                                           Shuffled(Deck(boardSize * boardSize / 2) + spare,
                                                    Reduced(Draws(rand, boardSize * boardSize))),
                                           players)
      ensures game != null && boardSize % 2 == 0 && Distinct(players) ==> game.Valid()
    {
      if boardSize < MIN_BOARD_SIZE || boardSize > MAX_BOARD_SIZE {
        return null;
      }
      if |players| < 2 || |players| > MAX_PLAYERS {
        return null;
      }
      var values := new int[boardSize * boardSize];
      ghost var spare := FillDeck(values);
      var draws := Draws(rand, boardSize * boardSize);
      ShuffleArray(values, draws);
      game := new Game(boardSize, players, values[..]);
      SpareCards(boardSize);
      if boardSize % 2 == 0 && Distinct(players) {
        assert Deck(boardSize * boardSize / 2) + spare == Deck(boardSize * boardSize / 2);
        ShufflePermutes(Deck(boardSize * boardSize / 2), Reduced(draws));
        DealtOk(boardSize, values[..], players);
      }
    }

    method RemovePlayer(client: P) returns (ok: bool)
      requires WellFormed()
      modifies this`players, this`playerScores, this`playerReady, this`playerCount, this`currentPlayerIndex
      ensures ok <==> client in old(players)
      ensures View() == GameModel.RemovePlayer(old(View()), client)
      ensures playerCount == |players| && (old(playerCount) >= 2 ==> WellFormed())
    {
      var playerIndex := Find(client);
      if playerIndex == -1 {
        return false;
      }
      ShiftDown(playerIndex);
      if currentPlayerIndex >= playerCount {
        currentPlayerIndex := 0;
      } else if currentPlayerIndex > playerIndex {
        currentPlayerIndex := currentPlayerIndex - 1;
      }
      return true;
    }

    /** Moves the entries after a seat down by one and clears the last slot, which takes it out of the live prefix. */
    method ShiftDown(seat: int)
      requires playerCount == |players| == |playerScores| == |playerReady| && 0 <= seat < playerCount
      modifies this`players, this`playerScores, this`playerReady, this`playerCount
      ensures playerCount == old(playerCount) - 1
      ensures players == Without(old(players), seat)
      ensures playerScores == Without(old(playerScores), seat)
      ensures playerReady == Without(old(playerReady), seat)
    {
      ghost var p, s, r := players, playerScores, playerReady;
      var i := seat;
      while i < playerCount - 1
        invariant seat <= i <= playerCount - 1
        invariant playerCount == |p| == |s| == |r|
        invariant Shifted(p, players, seat, i)
        invariant Shifted(s, playerScores, seat, i)
        invariant Shifted(r, playerReady, seat, i)
      {
        players := players[i := players[i + 1]];
        playerScores := playerScores[i := playerScores[i + 1]];
        playerReady := playerReady[i := playerReady[i + 1]];
        i := i + 1;
      }
      players := players[..playerCount - 1];
      playerScores := playerScores[..playerCount - 1];
      playerReady := playerReady[..playerCount - 1];
      playerCount := playerCount - 1;
    }

    /** The scan for a player's seat that several functions start with; -1 when there is none. */
    method Find(client: P) returns (index: int)
      requires playerCount == |players|
      ensures index == if client in players then IndexOf(players, client) else -1
    {
      index := 0;
      while index < playerCount
        invariant 0 <= index <= playerCount
        invariant client !in players[..index]
      {
        if players[index] == client {
          FirstIndex(players, client, index);
          return;
        }
        index := index + 1;
      }
      index := -1;
    }

    method PlayerReady(client: P) returns (ok: bool)
      requires WellFormed()
      modifies this`playerReady
      ensures WellFormed() && View() == GameModel.PlayerReady(old(View()), client)
      ensures ok <==> old(state) == Waiting && client in players
    {
      if state != Waiting {
        return false;
      }
      var i := Find(client);
      if i == -1 {
        IndexOfIs(players, client);
        return false;
      }
      IndexOfIs(players, client);
      playerReady := playerReady[i := true];
      return true;
    }

    method AllPlayersReady() returns (all: bool)
      requires WellFormed()
      ensures all <==> AllReady(View())
    {
      for i := 0 to playerCount
        invariant forall k :: 0 <= k < i ==> playerReady[k]
      {
        if !playerReady[i] {
          return false;
        }
      }
      return true;
    }

    method Start() returns (ok: bool)
      requires WellFormed()
      modifies this`state, this`currentPlayerIndex
      ensures WellFormed() && View() == GameModel.Start(old(View()))
      ensures ok <==> old(state) == Waiting
    {
      if state != Waiting {
        return false;
      }
      state := Playing;
      currentPlayerIndex := 0;
      return true;
    }

    method FlipCard(client: P, cardIndex: int) returns (ok: bool)
      requires WellFormed()
      modifies this`flipsThisTurn, this`firstCardIndex, this`secondCardIndex, cards
      ensures WellFormed() && View() == GameModel.FlipCard(old(View()), client, cardIndex)
      ensures ok <==>
              && old(state) == Playing && old(players[currentPlayerIndex]) == client && old(flipsThisTurn) < 2
              && 0 <= cardIndex < totalCards && old(cards[cardIndex].state) == Hidden
      ensures ok <==> CanFlip(old(View()), client, cardIndex)
    {
      if state != Playing {
        return false;
      }
      if players[currentPlayerIndex] != client {
        return false;
      }
      if flipsThisTurn >= 2 {
        return false;
      }
      if cardIndex < 0 || cardIndex >= totalCards {
        return false;
      }
      if cards[cardIndex].state != Hidden {
        return false;
      }
      cards[cardIndex] := cards[cardIndex].(state := Revealed);
      flipsThisTurn := flipsThisTurn + 1;
      if flipsThisTurn == 1 {
        firstCardIndex := cardIndex;
      } else {
        secondCardIndex := cardIndex;
      }
      return true;
    }

    method CheckMatch() returns (isMatch: bool)
      requires WellFormed()
      modifies this`flipsThisTurn, this`firstCardIndex, this`secondCardIndex, cards
      modifies this`playerScores, this`matchedPairs, this`state, this`currentPlayerIndex
      ensures WellFormed()
      ensures View() == if old(flipsThisTurn) == 2 then GameModel.CheckMatch(old(View())) else old(View())
      ensures isMatch <==> old(flipsThisTurn) == 2 && IsMatch(old(View()))
    {
      if flipsThisTurn != 2 {
        return false;
      }
      var firstValue := cards[firstCardIndex].value;
      var secondValue := cards[secondCardIndex].value;
      if firstValue == secondValue {
        cards[firstCardIndex] := cards[firstCardIndex].(state := Matched);
        cards[secondCardIndex] := cards[secondCardIndex].(state := Matched);
        playerScores := playerScores[currentPlayerIndex := playerScores[currentPlayerIndex] + 1];
        matchedPairs := matchedPairs + 1;
        firstCardIndex := -1;
        secondCardIndex := -1;
        flipsThisTurn := 0;
        if matchedPairs == totalPairs {
          state := Finished;
        }
        return true;
      }
      cards[firstCardIndex] := cards[firstCardIndex].(state := Hidden);
      cards[secondCardIndex] := cards[secondCardIndex].(state := Hidden);
      currentPlayerIndex := (currentPlayerIndex + 1) % playerCount;
      firstCardIndex := -1;
      secondCardIndex := -1;
      flipsThisTurn := 0;
      return false;
    }

    method GetWinners() returns (winners: seq<P>)
      requires WellFormed()
      ensures winners == Winners(View())
    {
      if state != Finished {
        return [];
      }
      var maxScore := 0;
      for i := 0 to playerCount
        invariant maxScore == TopScore(playerScores[..i])
      {
        assert playerScores[..i + 1][..i] == playerScores[..i];
        if playerScores[i] > maxScore {
          maxScore := playerScores[i];
        }
      }
      assert playerScores[..playerCount] == playerScores && players[..playerCount] == players;
      winners := [];
      for i := 0 to playerCount
        invariant winners == PlayersWith(players[..i], playerScores[..i], maxScore)
      {
        assert playerScores[..i + 1][..i] == playerScores[..i] && players[..i + 1][..i] == players[..i];
        if playerScores[i] == maxScore {
          winners := winners + [players[i]];
        }
      }
    }

    /** The first loop of the forfeit split: the best score among the others and how many share it. */
    method BestOfOthers(client: P) returns (highestScore: int, winnerCount: nat)
      requires WellFormed()
      ensures highestScore == Best(playerScores, Stays(players, client))
      ensures winnerCount == Takers(playerScores, Stays(players, client), highestScore, |playerScores|)
    {
      highestScore, winnerCount := -1, 0;
      ghost var stays := Stays(players, client);
      for k := 0 to playerCount
        invariant highestScore == Best(playerScores[..k], stays[..k])
        invariant winnerCount == Takers(playerScores, stays, highestScore, k)
      {
        assert playerScores[..k + 1][..k] == playerScores[..k] && stays[..k + 1][..k] == stays[..k];
        if players[k] != client {
          if playerScores[k] > highestScore {
            NewBest(playerScores, stays, k);
            highestScore := playerScores[k];
            winnerCount := 1;
          } else if playerScores[k] == highestScore {
            winnerCount := winnerCount + 1;
          }
        }
      }
      assert playerScores[..playerCount] == playerScores && stays[..playerCount] == stays;
    }

    /** Sharing the unmatched pairs when a client leaves for good. */
    method SplitForfeit(client: P)
      requires WellFormed()
      modifies this`playerScores
      ensures playerScores == Split(old(playerScores), Stays(players, client), totalPairs - matchedPairs)
    {
      var remainingPairs := totalPairs - matchedPairs;
      ghost var before, stays := playerScores, Stays(players, client);
      var highestScore, winnerCount := BestOfOthers(client);
      if winnerCount > 0 && remainingPairs > 0 {
        var bonusPerWinner := remainingPairs / winnerCount;
        var extraPairs := remainingPairs % winnerCount;
        ghost var after, spare := Split(before, stays, remainingPairs), extraPairs;
        for k := 0 to playerCount
          invariant Paid(before, after, playerScores, k)
          invariant extraPairs == Max(0, spare - Takers(before, stays, highestScore, k))
        {
          PayNext(before, stays, remainingPairs, k, spare, bonusPerWinner, extraPairs);
          extraPairs := PayShare(client, k, highestScore, bonusPerWinner, extraPairs);
        }
      }
    }

    /** One turn of the second loop: a winner gets its share, and one of the spare pairs while there are any. */
    method PayShare(client: P, k: nat, highestScore: int, bonusPerWinner: int, extraPairs: int) returns (left: int)
      requires k < |players| == |playerScores|
      modifies this`playerScores
      ensures var wins := players[k] != client && old(playerScores)[k] == highestScore;
              && left == (if wins && extraPairs > 0 then extraPairs - 1 else extraPairs)
              && playerScores == old(playerScores)[k := old(playerScores)[k] +
                 if !wins then 0 else if extraPairs > 0 then bonusPerWinner + 1 else bonusPerWinner]
    {
      left := extraPairs;
      if players[k] != client && playerScores[k] == highestScore {
        playerScores := playerScores[k := playerScores[k] + bonusPerWinner];
        if left > 0 {
          playerScores := playerScores[k := playerScores[k] + 1];
          left := left - 1;
        }
      }
    }
  }

  /** The first k seats have their shares. */
  ghost predicate Paid(before: seq<int>, after: seq<int>, now: seq<int>, k: int) {
    |before| == |after| == |now| && forall j :: 0 <= j < |now| ==> now[j] == if j < k then after[j] else before[j]
  }

  /** What the loop pays seat k is its share of the split. */
  lemma PayNext(before: seq<int>, stays: seq<bool>, remaining: int, k: nat, spare: int, bonus: int, extra: int)
    requires |before| == |stays| && k < |before| && remaining > 0
    requires Takers(before, stays, Best(before, stays), |before|) > 0
    requires bonus == remaining / Takers(before, stays, Best(before, stays), |before|)
    requires spare == remaining % Takers(before, stays, Best(before, stays), |before|)
    requires extra == Max(0, spare - Takers(before, stays, Best(before, stays), k))
    ensures var wins := Takes(before, stays, Best(before, stays), k);
            && Split(before, stays, remaining)[k]
               == before[k] + (if !wins then 0 else if extra > 0 then bonus + 1 else bonus)
            && (if wins && extra > 0 then extra - 1 else extra)
               == Max(0, spare - Takers(before, stays, Best(before, stays), k + 1))
  {
    SplitSeat(before, stays, remaining, k);
  }

  lemma NewBest(scores: seq<int>, stays: seq<bool>, k: nat)
    requires |scores| == |stays| && k < |scores| && scores[k] > Best(scores[..k], stays[..k])
    ensures Takers(scores, stays, scores[k], k) == 0
  {
    BestIsBest(scores[..k], stays[..k]);
    forall j | 0 <= j < k && stays[j] ensures scores[j] < scores[k] {
      assert scores[..k][j] == scores[j] && stays[..k][j] == stays[j];
    }
    NoTakersAbove(scores, stays, scores[k], k);
  }

  /** Who is left when a client goes. */
  function Stays<P(==)>(players: seq<P>, leaver: P): (s: seq<bool>)
    ensures |s| == |players| && forall k :: 0 <= k < |s| ==> (s[k] <==> players[k] != leaver)
  {
    seq(|players|, k requires 0 <= k < |players| => players[k] != leaver)
  }

  /** Moving the entries after a seat down, done up to entry i. */
  ghost predicate Shifted<T>(from: seq<T>, now: seq<T>, seat: int, i: int) {
    && |now| == |from| && 0 <= seat <= i < |from|
    && (forall k :: 0 <= k < |from| && (k < seat || i <= k) ==> now[k] == from[k])
    && (forall k :: seat <= k < i ==> now[k] == from[k + 1])
  }

  lemma SpareCards(n: int)
    requires MIN_BOARD_SIZE <= n <= MAX_BOARD_SIZE
    ensures n * n - 2 * (n * n / 2) == n % 2
  {
    assert n == 4 || n == 5 || n == 6 || n == 7 || n == 8;
  }

  method FillDeck(values: array<int>) returns (ghost spare: seq<int>)
    modifies values
    ensures |spare| == values.Length % 2
    ensures values[..] == Deck(values.Length / 2) + spare
  {
    var pairs := values.Length / 2;
    for i := 0 to pairs
      invariant values[..2 * i] == Deck(i)
    {
      values[i * 2] := i + 1;
      values[i * 2 + 1] := i + 1;
      assert values[..2 * (i + 1)] == values[..2 * i] + [i + 1, i + 1];
    }
    spare := values[2 * pairs..];
  }
}
