/** GameController.java without its widgets: the fields that make up the client's copy of a game, and the handlers
    that change them, proved against the functions of modules Mirror and CatchUp. */
module Controller {
  import opened Text
  import opened Messages
  import opened Mirror
  import opened CatchUp
  import opened StateMessage

  class GameController {
    const nickname: string
    var boardSize: int
    var cardMatched: array?<bool>
    var cardValues: array?<int>
    var myTurn: bool
    var flippedThisTurn: int
    var flippedIndices: seq<int>
    var playerScores: map<string, int>
    var players: seq<string>
    var gameStarted: bool

    ghost predicate Valid()
      reads this, cardMatched, cardValues
    {
      (cardMatched == null <==> cardValues == null) && (cardMatched != null ==> cardMatched.Length == cardValues.Length)
    }

    ghost function View(): Copy
      reads this, cardMatched, cardValues
    {
      Copy(nickname, boardSize, cardMatched != null,
           if cardMatched == null then [] else cardMatched[..], if cardValues == null then [] else cardValues[..],
           myTurn, flippedIndices, flippedThisTurn, players, playerScores, gameStarted)
    }

    constructor (nickname: string)
      ensures Valid()
      ensures View() == Copy(nickname, 0, false, [], [], false, [], 0, [], map[], false)
    {
      this.nickname := nickname;
      boardSize, cardMatched, cardValues, myTurn := 0, null, null, false;
      flippedThisTurn, flippedIndices, playerScores, players, gameStarted := 0, [], map[], [], false;
    }

    method InitializeBoard(size: int)
      requires size >= 0
      modifies this
      ensures Valid() && View() == WithBoard(old(View()), size)
      ensures cardMatched != null && fresh(cardMatched) && fresh(cardValues)
    {
      boardSize := size;
      var matched := new bool[size * size](i => false);
      var values := new int[size * size](i => -1);
      cardMatched, cardValues := matched, values;
      assert cardMatched[..] == seq(size * size, i => false);
      assert cardValues[..] == seq(size * size, i => -1);
    }

    method HandleGameCreated(size: int)
      requires Valid()
      modifies this
      ensures Valid() && View() == OnGameCreated(old(View()), size)
    {
      if size < 2 || size > 10 {
        return;
      }
      boardSize := size;
    }

    /** The names are the words after the board size. */
    method HandleGameStart(size: int, names: seq<string>)
      requires Valid()
      modifies this
      ensures Valid() && View() == OnGameStart(old(View()), size, names)
    {
      if names == [] {
        return;
      }
      if size < 2 || size > 10 {
        return;
      }
      ReadPlayers(names);
      if players == [] {
        return;
      }
      InitializeBoard(size);
      gameStarted := true;
      UpdateTurn(players[0]);
    }

    /** The players are the words that are not blank, with no points. */
    method ReadPlayers(names: seq<string>)
      modifies this`players, this`playerScores
      ensures players == Named(names) && playerScores == map p | p in players :: 0
    {
      players, playerScores := [], map[];
      for i := 0 to |names|
        invariant players == Named(names[..i]) && playerScores == map p | p in players :: 0
      {
        assert names[..i + 1][..i] == names[..i];
        if !Blank(names[i]) {
          players := players + [names[i]];
          playerScores := playerScores[names[i] := 0];
        }
      }
      assert names[..|names|] == names;
    }

    method UpdateTurn(player: string)
      modifies this`myTurn
      ensures myTurn <==> player == nickname
    {
      if player == nickname {
        myTurn := true;
      } else {
        myTurn := false;
      }
    }

    /** CARD_REVEAL. The checks are those made before the card is shown. */
    method HandleReveal(index: int, value: int)
      requires Valid()
      modifies this, cardValues
      ensures Valid() && View() == OnReveal(old(View()), index, value)
    {
      if index < 0 || (cardValues != null && index >= cardValues.Length) {
        return;
      }
      if value <= 0 {
        return;
      }
      if cardValues == null {
        return;
      }
      cardValues[index] := value;
      flippedIndices := flippedIndices + [index];
      flippedThisTurn := flippedThisTurn + 1;
    }

    predicate OnThisBoard(index: int)
      reads this
    {
      cardMatched != null && 0 <= index < cardMatched.Length
    }

    /** The loop over the open cards; false when one of them is not on the board, which raises an exception. */
    method MarkOpenCards() returns (ok: bool)
      requires Valid()
      modifies cardMatched
      ensures ok <==> forall k :: 0 <= k < |flippedIndices| ==> OnThisBoard(flippedIndices[k])
      ensures cardMatched != null ==>
                Marked(old(cardMatched[..]), cardMatched[..], OnBoard(flippedIndices, cardMatched.Length))
    {
      ghost var matched := if cardMatched == null then [] else cardMatched[..];
      for i := 0 to |flippedIndices|
        invariant forall j :: 0 <= j < i ==> OnThisBoard(flippedIndices[j])
        invariant cardMatched != null ==> Marked(matched, cardMatched[..], flippedIndices[..i])
      {
        if cardMatched == null || flippedIndices[i] < 0 || flippedIndices[i] >= cardMatched.Length {
          assert !OnThisBoard(flippedIndices[i]);
          StopsThere(flippedIndices, |matched|, i);
          return false;
        }
        MarkOneMore(matched, cardMatched[..], flippedIndices, i);
        cardMatched[flippedIndices[i]] := true;
      }
      assert flippedIndices[..|flippedIndices|] == flippedIndices;
      ok := true;
    }

    /** MATCH. */
    method HandleMatch(player: string, score: int)
      requires Valid()
      modifies this, cardMatched
      ensures Valid() && View() == OnMatch(old(View()), player, score)
    {
      hide Marked, OnBoard, MarkMatched;
      if score < 0 {
        return;
      }
      ghost var before := View();
      var ok := MarkOpenCards();
      if cardMatched != null {
        MarkedIs(before.matched, cardMatched[..], OnBoard(flippedIndices, cardMatched.Length));
      } else {
        MarkedNothing(before.flipped);
      }
      if !ok {
        return;
      }
      playerScores := playerScores[player := score];
      flippedIndices := [];
      flippedThisTurn := 0;
    }

    method HandleMismatch(nextPlayer: string)
      requires Valid()
      modifies this
      ensures Valid() && View() == OnMismatch(old(View()), nextPlayer)
    {
      flippedIndices := [];
      flippedThisTurn := 0;
      if nextPlayer != "" {
        UpdateTurn(nextPlayer);
      } else {
        myTurn := false;
      }
    }

    /** The loop of handleGameState over names and scores, which stops where the card codes begin. */
    method ReadRoster(parts: seq<string>, cells: int) returns (ok: bool, index: nat, ghost roster: seq<(string, int)>)
      requires 3 <= |parts|
      modifies this`players, this`playerScores
      ensures index <= |parts|
      ensures RosterLoop(parts, cells, 3) == if ok then Some((roster, index)) else None
      ensures roster == RosterSoFar(parts, cells, 3)
      ensures players == RosterNames(roster) && playerScores == RosterScores(roster)
    {
      players, playerScores, roster := [], map[], [];
      index := 3;
      AfterNothing([], 3, RosterLoop(parts, cells, 3));
      while index < |parts| - cells
        invariant index <= |parts|
        invariant players == RosterNames(roster) && playerScores == RosterScores(roster)
        invariant RosterLoop(parts, cells, 3) == After(roster, RosterLoop(parts, cells, index))
        invariant RosterSoFar(parts, cells, 3) == roster + RosterSoFar(parts, cells, index)
        decreases |parts| - index
      {
        if index + 1 >= |parts| {
          break;
        }
        var playerName := parts[index];
        if Blank(playerName) {
          index := index + 1;
          continue;
        }
        var score := ParseInt(parts[index + 1]);
        if score == None {
          return false, index, roster;
        }
        index := index + 2;
        if score.value < 0 {
          continue;
        }
        ReadOneMore(roster, playerName, score.value, RosterLoop(parts, cells, index));
        players := players + [playerName];
        playerScores := playerScores[playerName := score.value];
        roster := roster + [(playerName, score.value)];
      }
      AfterNothing(roster, index, None);
      ok := true;
    }

    /** The copy while the codes are read: the first i of them are in it. */
    ghost predicate Restoring(c: Copy, codes: seq<int>, i: int)
      requires Valid()
      reads this, cardMatched, cardValues
    {
      && 0 <= i <= Reach(Cells(c), codes) && RestoredUpTo(c, codes, i, View().matched, View().values)
      && View() == c.(matched := View().matched, values := View().values,
                      flipped := OpenIn(codes[..i]), flippedThisTurn := |OpenIn(codes[..i])|)
    }

    /** One card code: a positive one is a matched card, a negative one an open card, and 0 says nothing. */
    method RestoreCell(i: int, cardValue: int, ghost c: Copy, ghost codes: seq<int>)
      requires Valid() && Restoring(c, codes, i) && i < Reach(Cells(c), codes) && cardValue == codes[i]
      requires cardValue != 0 ==> cardMatched != null && i < cardMatched.Length
      modifies this`flippedIndices, this`flippedThisTurn, cardMatched, cardValues
      ensures Valid() && Restoring(c, codes, i + 1)
    {
      hide Reach, Restored;
      assert codes[..i + 1][..i] == codes[..i];
      if cardValue > 0 {
        cardMatched[i] := true;
        cardValues[i] := cardValue;
      } else if cardValue < 0 {
        cardValues[i] := -cardValue;
        flippedIndices := flippedIndices + [i];
        flippedThisTurn := flippedThisTurn + 1;
      }
    }

    /** The loop of handleGameState over the card codes; false when it raises an exception. */
    method RestoreCards(words: seq<string>) returns (ok: bool)
      requires Valid() && flippedIndices == [] && flippedThisTurn == 0 && boardSize >= 0
      modifies this`flippedIndices, this`flippedThisTurn, cardMatched, cardValues
      ensures Valid()
      ensures var c, seen := old(View()), First(words, boardSize * boardSize);
              var codes := CodesSoFar(seen);
              View() == Restored(c, codes) && (ok <==> Reach(Cells(c), codes) == |seen|)
    {
      hide Reach, Restored, RestoredUpTo, Restoring, CodesSoFar, ParseInt;
      var cells := boardSize * boardSize;
      ghost var c, seen := View(), First(words, cells);
      ghost var codes := CodesSoFar(seen);
      NothingRestored(codes);
      var i := 0;
      while i < cells && i < |words|
        invariant 0 <= i <= |seen| && i <= |codes| && Valid() && Restoring(c, codes, i)
      {
        CodesSoFarAt(seen, i);
        RestoredSoFar(c, codes, i);
        var cardValue := ParseInt(words[i]);
        if cardValue == None {
          return false;
        }
        ReachAt(Cells(c), codes, i);
        if cardValue.value != 0 && (cardMatched == null || i >= cardMatched.Length) {
          return false;
        }
        RestoreCell(i, cardValue.value, c, codes);
        i := i + 1;
      }
      RestoredSoFar(c, codes, i);
      ok := true;
    }

    lemma NothingRestored(codes: seq<int>)
      requires Valid() && flippedIndices == [] && flippedThisTurn == 0
      ensures Restoring(View(), codes, 0)
    {
    }

    /** When the loop is over, for whatever reason, the copy is what Restored says. */
    lemma RestoredSoFar(c: Copy, codes: seq<int>, i: int)
      requires Valid() && Restoring(c, codes, i)
      ensures 0 <= i <= Reach(Cells(c), codes) && Cells(c) == if cardMatched == null then 0 else cardMatched.Length
      ensures i == Reach(Cells(c), codes) ==> View() == Restored(c, codes)
    {
      hide Reach;
      if i == Reach(Cells(c), codes) {
        RestoredIs(c, codes, View().matched, View().values);
      }
    }

    /** handleGameState: whatever the message is, the copy becomes what OnGameState says. */
    method HandleGameState(message: string)
      requires Valid()
      modifies this, cardMatched, cardValues
      ensures Valid() && View() == OnGameState(old(View()), message)
    {
      hide RosterLoop, RosterSoFar, OnBody;
      var parts := Split(message);
      if |parts| < 4 {
        return;
      }
      var size := ParseInt(parts[1]);
      if size == None || size.value < 2 || size.value > 10 {
        return;
      }
      if Blank(parts[2]) {
        return;
      }
      ReadState(parts, size.value);
    }

    method ReadState(parts: seq<string>, size: int)
      requires Valid() && |parts| >= 4 && 2 <= size <= 10
      modifies this, cardMatched, cardValues
      ensures Valid() && View() == OnBody(old(View()), parts, size)
    {
      hide RosterLoop, RosterSoFar, OnCodes, RosterNames, RosterScores;
      ghost var c := View();
      var ok, index, roster := ReadRoster(parts, size * size);
      if !ok {
        return;
      }
      if players == [] {
        return;
      }
      RestoreState(parts[2], size, parts[index..], Snapshot(size, parts[2], roster, []), c);
    }

    /** The part of handleGameState that follows the roster. */
    method RestoreState(turn: string, size: int, words: seq<string>, ghost s: Snapshot, ghost c: Copy)
      requires Valid() && 2 <= size <= 10 && s.boardSize == size
      requires View() == c.(players := RosterNames(s.roster), scores := RosterScores(s.roster))
      modifies this, cardMatched, cardValues
      ensures Valid() && Twin(c) && View() == OnCodes(Prepared(c, s), turn, First(words, size * size))
    {
      hide OnCodes;
      Prepare(size, s, c);
      FinishRestoring(turn, words);
    }

    method Prepare(size: int, ghost s: Snapshot, ghost c: Copy)
      requires Valid() && 2 <= size <= 10 && s.boardSize == size
      requires View() == c.(players := RosterNames(s.roster), scores := RosterScores(s.roster))
      modifies this
      ensures Valid() && View() == Prepared(c, s)
      ensures boardSize == size && flippedIndices == [] && flippedThisTurn == 0
      ensures (cardMatched == old(cardMatched) && cardValues == old(cardValues))
              || (fresh(cardMatched) && fresh(cardValues))
    {
      if boardSize != size {
        InitializeBoard(size);
      }
      flippedIndices := [];
      flippedThisTurn := 0;
    }

    method FinishRestoring(turn: string, words: seq<string>)
      requires Valid() && flippedIndices == [] && flippedThisTurn == 0 && boardSize >= 0
      modifies this, cardMatched, cardValues
      ensures Valid() && View() == OnCodes(old(View()), turn, First(words, old(boardSize) * old(boardSize)))
    {
      hide Restored, Reach, CodesSoFar;
      var ok := RestoreCards(words);
      if !ok {
        return;
      }
      UpdateTurn(turn);
      gameStarted := true;
    }

    method HandleYourTurn()
      requires Valid()
      modifies this
      ensures Valid() && View() == Receive(old(View()), YourTurn)
    {
      UpdateTurn(nickname);
    }
  }

  ghost predicate Marked(before: seq<bool>, now: seq<bool>, flipped: seq<int>) {
    |now| == |before| && forall k :: 0 <= k < |now| ==> (now[k] <==> before[k] || k in flipped)
  }

  lemma MarkedIs(before: seq<bool>, now: seq<bool>, flipped: seq<int>)
    requires Marked(before, now, flipped) && forall k :: 0 <= k < |flipped| ==> 0 <= flipped[k] < |before|
    ensures now == MarkMatched(before, flipped)
  {
  }

  lemma MarkedNothing(flipped: seq<int>)
    ensures OnBoard(flipped, 0) == [] && MarkMatched([], OnBoard(flipped, 0)) == []
  {
  }

  lemma MarkOneMore(before: seq<bool>, now: seq<bool>, flipped: seq<int>, i: nat)
    requires i < |flipped| && 0 <= flipped[i] < |now| && Marked(before, now, flipped[..i])
    ensures Marked(before, now[flipped[i] := true], flipped[..i + 1])
  {
    assert flipped[..i + 1] == flipped[..i] + [flipped[i]];
  }

  lemma {:induction false} StopsThere(flipped: seq<int>, size: nat, i: nat)
    requires i < |flipped| && OnBoard(flipped[..i], size) == flipped[..i] && !(0 <= flipped[i] < size)
    ensures OnBoard(flipped, size) == flipped[..i]
    decreases |flipped|
  {
    var n := |flipped| - 1;
    if i < n {
      assert flipped[..n][..i] == flipped[..i];
      StopsThere(flipped[..n], size, i);
    }
  }

  /** What the roster loop returns when it has read some entries and goes on. */
  function After(roster: seq<(string, int)>, rest: Option<(seq<(string, int)>, nat)>)
    : Option<(seq<(string, int)>, nat)>
  {
    if rest.None? then None else Some((roster + rest.value.0, rest.value.1))
  }

  lemma AfterNothing(roster: seq<(string, int)>, index: nat, rest: Option<(seq<(string, int)>, nat)>)
    ensures After([], rest) == rest
    ensures After(roster, Some(([], index))) == Some((roster, index))
  {
    if rest.Some? {
      assert [] + rest.value.0 == rest.value.0;
    }
    assert roster + [] == roster;
  }

  lemma ReadOneMore(roster: seq<(string, int)>, name: string, score: int, rest: Option<(seq<(string, int)>, nat)>)
    ensures After(roster, if rest.None? then rest else Some(([(name, score)] + rest.value.0, rest.value.1)))
            == After(roster + [(name, score)], rest)
    ensures RosterNames(roster + [(name, score)]) == RosterNames(roster) + [name]
    ensures RosterScores(roster + [(name, score)]) == RosterScores(roster)[name := score]
  {
    if rest.Some? {
      assert roster + ([(name, score)] + rest.value.0) == roster + [(name, score)] + rest.value.0;
    }
    assert (roster + [(name, score)])[..|roster|] == roster;
  }

  // ---- card codes ----

  /** The first i cells are restored and the others are as they were. */
  ghost predicate RestoredUpTo(c: Copy, codes: seq<int>, i: int, matched: seq<bool>, values: seq<int>) {
    && |matched| == |values| == |c.matched| == |c.values| && 0 <= i <= |codes|
    && (forall k :: 0 <= k < |matched| ==> (matched[k] <==> c.matched[k] || (k < i && codes[k] > 0)))
    && (forall k :: 0 <= k < |values| ==> values[k] ==
                                          if k >= i || codes[k] == 0 then c.values[k]
                                          else if codes[k] > 0 then codes[k] else -codes[k])
  }

  lemma {:induction false} CodesSoFarAt(words: seq<string>, i: int)
    requires 0 <= i <= |CodesSoFar(words)| && i < |words|
    ensures if ParseInt(words[i]).None? then |CodesSoFar(words)| == i
            else i < |CodesSoFar(words)| && CodesSoFar(words)[i] == ParseInt(words[i]).value
  {
    hide ParseInt;
    var n := |words| - 1;
    if i < n {
      CodesSoFarAt(words[..n], i);
    }
  }

  lemma ReachAt(cells: nat, codes: seq<int>, i: int)
    requires 0 <= i <= Reach(cells, codes) && i < |codes|
    ensures i < Reach(cells, codes) <==> i < cells || codes[i] == 0
  {
    hide Reach;
  }

  lemma RestoredIs(c: Copy, codes: seq<int>, matched: seq<bool>, values: seq<int>)
    requires Twin(c) && RestoredUpTo(c, codes, Reach(Cells(c), codes), matched, values)
    ensures Restored(c, codes).matched == matched && Restored(c, codes).values == values
  {
  }
}
