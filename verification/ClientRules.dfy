/** What each message changes in the client's copy, field by field, and which messages are ignored. */
module ClientRules {
  import opened Messages
  import opened Mirror
  import opened Text
  import opened StateMessage
  import opened CatchUp

  /** GAME_CREATED sets a size from 2 to 10 and nothing else; it makes no board. */
  lemma CreatedRule(c: Copy, size: int)
    ensures Receive(c, GameCreated(size)) == if size < 2 || size > 10 then c else c.(boardSize := size)
  {
  }

  /** The names that are not blank, in order. */
  lemma {:induction false} NamedIs(names: seq<string>, name: string)
    ensures name in Named(names) <==> name in names && exists i :: 0 <= i < |name| && name[i] > ' '
  {
    if names != [] {
      var n := |names| - 1;
      NamedIs(names[..n], name);
      assert names == names[..n] + [names[n]];
    }
  }

  /** GAME_START makes a board of that size on which nothing is known, with nobody's score above 0 and the turn with
      the first name; the cards of an earlier game stay open. */
  lemma StartRule(c: Copy, size: int, players: seq<string>)
    ensures var r, named := Receive(c, GameStart(size, players)), Named(players);
            if players == [] || size < 2 || size > 10 then r == c
            else if named == [] then r == c.(players := [], scores := map[])
            else
              && r.boardSize == size && r.hasBoard && |r.matched| == |r.values| == size * size
              && (forall i :: 0 <= i < size * size ==> !r.matched[i] && r.values[i] == -1)
              && r.players == named && (forall p :: p in r.scores <==> p in named)
              && (forall p :: p in r.scores ==> r.scores[p] == 0)
              && r.started && (r.myTurn <==> named[0] == c.nickname)
              && r.flipped == c.flipped && r.flippedThisTurn == c.flippedThisTurn && r.nickname == c.nickname
  {
  }

  /** CARD_REVEAL shows a value and remembers that the card is open, unless there is no such card or no such value. */
  lemma RevealRule(c: Copy, index: int, value: int, player: string)
    requires |c.matched| == |c.values|
    ensures var r := Receive(c, CardReveal(index, value, player));
            if !c.hasBoard || index < 0 || index >= |c.values| || value <= 0 then r == c
            else
              && |r.values| == |c.values|
              && (forall i :: 0 <= i < |c.values| ==> r.values[i] == if i == index then value else c.values[i])
              && |r.flipped| == |c.flipped| + 1 && r.flipped[..|c.flipped|] == c.flipped
              && r.flipped[|c.flipped|] == index && r.flippedThisTurn == c.flippedThisTurn + 1
              && r == c.(values := r.values, flipped := r.flipped, flippedThisTurn := r.flippedThisTurn)
  {
  }

  /** MATCH marks the open cards, closes them and notes the score, unless the score is negative. An open card that is
      not on the board stops it halfway. */
  lemma MatchRule(c: Copy, player: string, score: int)
    ensures var r := Receive(c, Match(player, score));
            if score < 0 then r == c
            else if exists k :: 0 <= k < |c.flipped| && !(0 <= c.flipped[k] < |c.matched|) then
              r == c.(matched := r.matched) && |r.matched| == |c.matched|
              && forall i :: 0 <= i < |c.matched| && r.matched[i] ==> c.matched[i] || i in c.flipped
            else
              && |r.matched| == |c.matched|
              && (forall i :: 0 <= i < |c.matched| ==> (r.matched[i] <==> c.matched[i] || i in c.flipped))
              && player in r.scores && r.scores[player] == score
              && (forall p :: p != player ==> (p in r.scores <==> p in c.scores))
              && (forall p :: p != player && p in c.scores ==> r.scores[p] == c.scores[p])
              && r.flipped == [] && r.flippedThisTurn == 0
              && r == c.(matched := r.matched, scores := r.scores, flipped := [], flippedThisTurn := 0)
  {
    if score >= 0 && !FlippedOnBoard(c) {
      OnBoardIsOpen(c.flipped, |c.matched|);
    }
  }

  lemma {:induction false} OnBoardIsOpen(flipped: seq<int>, size: nat)
    ensures forall i :: i in OnBoard(flipped, size) ==> i in flipped
  {
    if flipped != [] {
      OnBoardIsOpen(flipped[..|flipped| - 1], size);
    }
  }

  /** MISMATCH closes the open cards, and the turn is the client's exactly when its own name is in the message. */
  lemma MismatchRule(c: Copy, next: string)
    ensures var r := Receive(c, Mismatch(next));
            && r.flipped == [] && r.flippedThisTurn == 0
            && (r.myTurn <==> |next| > 0 && next == c.nickname)
            && r == c.(flipped := [], flippedThisTurn := 0, myTurn := r.myTurn)
  {
  }

  /** YOUR_TURN gives the turn; what is not about the game changes nothing. */
  lemma OtherRule(c: Copy, m: Message)
    requires !m.GameCreated? && !m.GameStart? && !m.CardReveal? && !m.Match? && !m.Mismatch?
    ensures Receive(c, m) == if m == YourTurn then c.(myTurn := true) else c
  {
  }

  /** A GAME_STATE with fewer than four words, without a size from 2 to 10 or with a blank turn holder is ignored. */
  lemma StateIgnored(c: Copy, text: string)
    requires Twin(c)
    ensures var parts := Split(text);
            || |parts| < 4 || ParseInt(parts[1]).None?
            || ParseInt(parts[1]).value < 2 || ParseInt(parts[1]).value > 10
            || (forall i :: 0 <= i < |parts[2]| ==> parts[2][i] <= ' ')
            ==> OnGameState(c, text) == c
  {
    hide Split, ParseInt, OnBody;
  }

  /** How many codes are taken in: all, or those before the first card that is not face down and has no cell. */
  ghost predicate TakenIn(cells: nat, codes: seq<int>, n: nat) {
    && n <= |codes| && (n < |codes| ==> n >= cells && codes[n] != 0)
    && forall i :: cells <= i < n ==> codes[i] == 0
  }

  lemma TakenInIs(cells: nat, codes: seq<int>, n: nat)
    requires TakenIn(cells, codes, n)
    ensures n == Reach(cells, codes)
  {
  }

  lemma {:induction false} OpenOnes(codes: seq<int>)
    ensures forall i :: i in OpenIn(codes) <==> 0 <= i < |codes| && codes[i] < 0
    ensures forall j, k :: 0 <= j < k < |OpenIn(codes)| ==> OpenIn(codes)[j] < OpenIn(codes)[k]
  {
    if codes != [] {
      var before := OpenIn(codes[..|codes| - 1]);
      OpenOnes(codes[..|codes| - 1]);
      forall j | 0 <= j < |before| ensures before[j] < |codes| - 1 {
        assert before[j] in before;
      }
    }
  }

  /** GAME_STATE, cell by cell. A board of another size is made anew, one of the same size is not. A positive code
      matches its card, a negative one opens it, and both show the value; a face-down card stays what it was. The turn
      is taken over only when all codes have found their cells. */
  lemma SnapshotRule(c: Copy, s: Snapshot, n: nat)
    requires Twin(c) && 2 <= s.boardSize <= 10 && s.roster != [] && exists i :: 0 <= i < |s.turn| && s.turn[i] > ' '
    requires TakenIn(if c.boardSize != s.boardSize then s.boardSize * s.boardSize
                     else if c.hasBoard then |c.matched| else 0, s.codes, n)
    ensures var r, anew := OnSnapshot(c, s), c.boardSize != s.boardSize;
            && r.boardSize == s.boardSize && r.hasBoard == (anew || c.hasBoard) && r.nickname == c.nickname
            && |r.matched| == |r.values| == (if anew then s.boardSize * s.boardSize else |c.matched|)
            && (forall i :: 0 <= i < |r.matched| ==>
                  && (r.matched[i] <==> (!anew && c.matched[i]) || (i < n && s.codes[i] > 0))
                  && r.values[i] == if i < n && s.codes[i] > 0 then s.codes[i]
                                    else if i < n && s.codes[i] < 0 then -s.codes[i]
                                    else if anew then -1 else c.values[i])
            && (forall i :: i in r.flipped <==> 0 <= i < n && s.codes[i] < 0)
            && (forall j, k :: 0 <= j < k < |r.flipped| ==> r.flipped[j] < r.flipped[k])
            && r.flippedThisTurn == |r.flipped|
            && |r.players| == |s.roster| && (forall k :: 0 <= k < |s.roster| ==> r.players[k] == s.roster[k].0)
            && (if n == |s.codes| then r.started && (r.myTurn <==> s.turn == c.nickname)
                else r.started == c.started && r.myTurn == c.myTurn)
  {
    hide RosterScores, OpenIn;
    var p := Prepared(c, s);
    TakenInIs(Cells(p), s.codes, n);
    OpenOnes(s.codes[..n]);
  }
}
