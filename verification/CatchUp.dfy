/** How one GAME_STATE message brings a client that has missed part of a game up to date. */
module CatchUp {
  import opened SeqFacts
  import opened GameModel
  import opened GameInvariant
  import opened GameRuns
  import opened Messages
  import opened Mirror

  /** What GAME_STATE says: 0 for a hidden card, its value for a matched one, minus its value for an open one. */
  datatype Snapshot = Snapshot(boardSize: int, turn: string, roster: seq<(string, int)>, codes: seq<int>)

  function Code(c: Card): int {
    match c.state
    case Matched => c.value
    case Revealed => -c.value
    case Hidden => 0
  }

  function Codes(cards: seq<Card>): (codes: seq<int>)
    ensures |codes| == |cards| && forall i :: 0 <= i < |cards| ==> codes[i] == Code(cards[i])
  {
    seq(|cards|, i requires 0 <= i < |cards| => Code(cards[i]))
  }

  function SnapshotOf(g: GameState<string>): Snapshot
    requires 0 <= g.current < |g.players| == |g.scores|
  {
    Snapshot(g.boardSize, g.players[g.current], Results(g.players, g.scores), Codes(g.cards))
  }

  function RosterNames(roster: seq<(string, int)>): (names: seq<string>)
    ensures |names| == |roster| && forall k :: 0 <= k < |roster| ==> names[k] == roster[k].0
  {
    seq(|roster|, k requires 0 <= k < |roster| => roster[k].0)
  }

  function RosterScores(roster: seq<(string, int)>): map<string, int> {
    if roster == [] then map[]
    else
      var n := |roster| - 1;
      RosterScores(roster[..n])[roster[n].0 := roster[n].1]
  }

  /** The indices of the open cards, in ascending order. */
  function OpenIn(codes: seq<int>): (r: seq<int>)
    ensures |r| <= |codes|
  {
    if codes == [] then []
    else
      var n := |codes| - 1;
      OpenIn(codes[..n]) + if codes[n] < 0 then [n] else []
  }

  /** The cells of a board; without one there are none. */
  function Cells(c: Copy): nat {
    if c.hasBoard then |c.matched| else 0
  }

  /** The two arrays are made together. */
  predicate Twin(c: Copy) {
    |c.matched| == |c.values|
  }

  /** How many codes the loop gets through: the first card that is not hidden and has no cell raises an exception,
      which ends the handler. */
  function Reach(cells: nat, codes: seq<int>): (n: nat)
    ensures n <= |codes| && (n < |codes| ==> n >= cells && codes[n] != 0)
    ensures forall i :: cells <= i < n ==> codes[i] == 0
  {
    if codes == [] then 0
    else
      var last := |codes| - 1;
      var before := Reach(cells, codes[..last]);
      if before < last || (last >= cells && codes[last] != 0) then before else |codes|
  }

  /** The loop over the card codes. Hidden cards are left as they are. */
  function Restored(c: Copy, codes: seq<int>): Copy
    requires Twin(c)
  {
    var seen := codes[..Reach(Cells(c), codes)];
    c.(
    matched := seq(|c.matched|, i requires 0 <= i < |c.matched| => c.matched[i] || (i < |seen| && seen[i] > 0)),
    values := seq(|c.values|, i requires 0 <= i < |c.values| =>
      if i < |seen| && seen[i] > 0 then seen[i] else if i < |seen| && seen[i] < 0 then -seen[i] else c.values[i]),
    flipped := OpenIn(seen), flippedThisTurn := |OpenIn(seen)|)
  }

  /** The arrays, once they exist, have a cell for each card of the size the client believes in. */
  predicate Consistent(c: Copy) {
    c.hasBoard ==> |c.matched| == |c.values| == c.boardSize * c.boardSize
  }

  /** handleGameState up to the card codes: a board that has the right size is not reset. */
  function Prepared(c: Copy, s: Snapshot): (r: Copy)
    requires s.boardSize >= 0
    ensures Twin(c) ==> Twin(r)
  {
    var c1 := c.(players := RosterNames(s.roster), scores := RosterScores(s.roster));
    (if c.boardSize != s.boardSize then WithBoard(c1, s.boardSize) else c1).(flipped := [], flippedThisTurn := 0)
  }

  /** The rest. The turn is only taken over when every code has found its cell. */
  function Finished(c: Copy, s: Snapshot): Copy
    requires Twin(c)
  {
    var r := Restored(c, s.codes);
    if Reach(Cells(c), s.codes) < |s.codes| then r else r.(myTurn := s.turn == c.nickname, started := true)
  }

  /** handleGameState on a message that parses. */
  function OnSnapshot(c: Copy, s: Snapshot): Copy
    requires Twin(c)
  {
    if !PlausibleSize(s.boardSize) || Blank(s.turn) then c
    else if s.roster == [] then c.(players := [], scores := map[])
    else Finished(Prepared(c, s), s)
  }

  // ---- what the message restores ----

  lemma {:induction false} ResultsAt(players: seq<string>, scores: seq<int>, k: int)
    requires |players| == |scores| && 0 <= k < |players|
    ensures Results(players, scores)[k] == (players[k], scores[k])
  {
    var n := |players| - 1;
    if k < n {
      ResultsAt(players[..n], scores[..n], k);
    }
  }

  lemma {:induction false} ScoresRestored(players: seq<string>, scores: seq<int>, k: int)
    requires |players| == |scores| && Distinct(players) && 0 <= k < |players|
    ensures players[k] in RosterScores(Results(players, scores))
    ensures RosterScores(Results(players, scores))[players[k]] == scores[k]
  {
    var n := |players| - 1;
    var before := Results(players[..n], scores[..n]);
    ResultsAt(players, scores, n);
    assert Results(players, scores)[..n] == before;
    if k < n {
      ScoresRestored(players[..n], scores[..n], k);
      assert players[k] != players[n];
    }
  }

  lemma {:induction false} OnlyRosterScored(roster: seq<(string, int)>)
    ensures forall p :: p in RosterScores(roster) ==> p in RosterNames(roster)
  {
    if roster != [] {
      var n := |roster| - 1;
      OnlyRosterScored(roster[..n]);
      assert RosterNames(roster) == RosterNames(roster[..n]) + [roster[n].0];
    }
  }

  lemma RosterRestored(players: seq<string>, scores: seq<int>)
    requires |players| == |scores| && Distinct(players)
    ensures RosterNames(Results(players, scores)) == players
    ensures var m := RosterScores(Results(players, scores));
            && (forall k :: 0 <= k < |players| ==> players[k] in m && m[players[k]] == scores[k])
            && (forall p :: p in m ==> p in players)
  {
    forall k | 0 <= k < |players|
      ensures Results(players, scores)[k] == (players[k], scores[k])
      ensures players[k] in RosterScores(Results(players, scores))
      ensures RosterScores(Results(players, scores))[players[k]] == scores[k]
    {
      ResultsAt(players, scores, k);
      ScoresRestored(players, scores, k);
    }
    OnlyRosterScored(Results(players, scores));
  }

  lemma {:induction false} OpenInNone(codes: seq<int>)
    requires forall i :: 0 <= i < |codes| ==> codes[i] >= 0
    ensures OpenIn(codes) == []
  {
    if codes != [] {
      OpenInNone(codes[..|codes| - 1]);
    }
  }

  lemma {:induction false} OpenInOne(codes: seq<int>, k: int)
    requires 0 <= k < |codes| && codes[k] < 0
    requires forall i :: 0 <= i < |codes| && i != k ==> codes[i] >= 0
    ensures OpenIn(codes) == [k]
  {
    var n := |codes| - 1;
    if k == n {
      OpenInNone(codes[..n]);
    } else {
      OpenInOne(codes[..n], k);
    }
  }

  lemma OpenRestored(g: GameState<string>)
    requires DeckOk(g) && OpenOk(g) && g.flips <= 1
    ensures OpenIn(Codes(g.cards)) == OpenCards(g)
  {
    var codes := Codes(g.cards);
    forall i | 0 <= i < |codes| ensures codes[i] < 0 <==> i in Stored(g) {
      assert i in InState(g.cards, Revealed) <==> i in Stored(g);
    }
    if g.flips == 0 {
      OpenInNone(codes);
    } else {
      assert g.first in InState(g.cards, Revealed);
      OpenInOne(codes, g.first);
    }
  }

  /** What the board must be before the message: of another size, so that it is made anew, or there, with nothing
      marked that the server has not matched. */
  ghost predicate Restorable(c: Copy, g: GameState<string>) {
    || c.boardSize != g.boardSize
    || (&& c.hasBoard && |c.matched| == |g.cards|
        && forall i :: 0 <= i < |c.matched| && c.matched[i] ==> g.cards[i].state == Matched)
  }

  /** With a cell for each code the loop gets through all of them. */
  lemma RestoredAll(c: Copy, codes: seq<int>)
    requires Twin(c) && c.hasBoard && |c.matched| == |codes|
    ensures Reach(Cells(c), codes) == |codes|
    ensures var r := Restored(c, codes);
            && |r.matched| == |r.values| == |codes| && r.hasBoard && r.boardSize == c.boardSize
            && (forall i :: 0 <= i < |codes| ==> (r.matched[i] <==> c.matched[i] || codes[i] > 0))
            && (forall i :: 0 <= i < |codes| && codes[i] > 0 ==> r.values[i] == codes[i])
            && (forall i :: 0 <= i < |codes| && codes[i] < 0 ==> r.values[i] == -codes[i])
            && r.flipped == OpenIn(codes) && r.flippedThisTurn == |OpenIn(codes)|
  {
    hide OpenIn;
    assert codes[..|codes|] == codes;
  }

  lemma RestoredBoard(c: Copy, g: GameState<string>)
    requires DeckOk(g) && OpenOk(g) && g.flips <= 1
    requires c.hasBoard && c.boardSize == g.boardSize && |c.matched| == |c.values| == |g.cards|
    ensures Reach(Cells(c), Codes(g.cards)) == |g.cards|
    ensures BoardMirrored(Restored(c, Codes(g.cards)), g)
            <==> forall i :: 0 <= i < |c.matched| && c.matched[i] ==> g.cards[i].state == Matched
  {
    hide Restored, Reach, OpenIn, InState, Paired;
    OpenRestored(g);
    RestoredAll(c, Codes(g.cards));
    var r := Restored(c, Codes(g.cards));
    forall i | 0 <= i < |g.cards|
      ensures r.matched[i] <==> c.matched[i] || g.cards[i].state == Matched
      ensures g.cards[i].state != Hidden ==> r.values[i] == g.cards[i].value
    {
      assert Codes(g.cards)[i] == Code(g.cards[i]);
    }
  }

  lemma RestoredShape(c: Copy, codes: seq<int>)
    requires Twin(c)
    ensures var r := Restored(c, codes);
            && r.hasBoard == c.hasBoard && r.boardSize == c.boardSize && |r.matched| == |c.matched|
            && r.players == c.players && r.scores == c.scores && r.nickname == c.nickname
  {
  }

  lemma FinishedMirrors(c: Copy, g: GameState<string>)
    requires Inv(g) && g.flips <= 1 && c.boardSize == g.boardSize && ScoresMirrored(c, g) && Twin(c)
    ensures Mirrors(Finished(c, SnapshotOf(g)), g)
            <==> c.hasBoard && |c.matched| == |g.cards|
                 && forall i :: 0 <= i < |c.matched| && c.matched[i] ==> g.cards[i].state == Matched
  {
    hide Restored, Codes, PairsTogether, Paired, InState, Sum;
    RestoredShape(c, SnapshotOf(g).codes);
    if c.hasBoard && |c.matched| == |g.cards| {
      RestoredBoard(c, g);
    }
  }

  /** One GAME_STATE makes a client an exact mirror exactly when its board is restorable: in particular a client
      that has heard GAME_CREATED but not GAME_START has no board of its own and does not get one. */
  lemma SnapshotMirrors(c: Copy, g: GameState<string>)
    requires Inv(g) && g.flips <= 1 && Twin(c)
    requires forall k :: 0 <= k < |g.players| ==> !Blank(g.players[k])
    ensures Mirrors(OnSnapshot(c, SnapshotOf(g)), g) <==> Restorable(c, g)
  {
    SnapshotTaken(c, g);
    PreparedForGame(c, g);
    PreparedRestorable(c, g);
    FinishedMirrors(Prepared(c, SnapshotOf(g)), g);
  }

  /** A message about a game is not one that is ignored. */
  lemma SnapshotTaken(c: Copy, g: GameState<string>)
    requires RosterOk(g) && DeckOk(g) && Twin(c) && !Blank(g.players[g.current])
    ensures OnSnapshot(c, SnapshotOf(g)) == Finished(Prepared(c, SnapshotOf(g)), SnapshotOf(g))
  {
    PreparedForGame(c, g);
  }

  lemma PreparedForGame(c: Copy, g: GameState<string>)
    requires RosterOk(g) && g.boardSize >= 0
    ensures SnapshotOf(g).roster != []
    ensures ScoresMirrored(Prepared(c, SnapshotOf(g)), g)
  {
    RosterRestored(g.players, g.scores);
  }

  lemma PreparedRestorable(c: Copy, g: GameState<string>)
    requires DeckOk(g) && Twin(c) && 0 <= g.current < |g.players| == |g.scores|
    ensures var p := Prepared(c, SnapshotOf(g));
            && p.boardSize == g.boardSize
            && (&& p.hasBoard && |p.matched| == |g.cards|
                && (forall i :: 0 <= i < |p.matched| && p.matched[i] ==> g.cards[i].state == Matched)
                <==> Restorable(c, g))
  {
  }

  /** The input that shows it: everybody's GAME_CREATED arrived, this client's GAME_START did not. */
  lemma LateJoinerNotRestored(me: string, g: GameState<string>)
    requires Inv(g) && g.flips <= 1 && !Blank(me)
    requires forall k :: 0 <= k < |g.players| ==> !Blank(g.players[k])
    ensures var newcomer := Copy(me, 0, false, [], [], false, [], 0, [], map[], false);
            var c := Receive(newcomer, GameCreated(g.boardSize));
            && Twin(c) && !Mirrors(OnSnapshot(c, SnapshotOf(g)), g)
            && Mirrors(OnSnapshot(newcomer, SnapshotOf(g)), g)
  {
    var newcomer := Copy(me, 0, false, [], [], false, [], 0, [], map[], false);
    SnapshotMirrors(newcomer, g);
    SnapshotMirrors(Receive(newcomer, GameCreated(g.boardSize)), g);
  }

  lemma StepTurns(g: GameState<string>, e: Event<string>)
    requires Indexable(g) && g.flips <= 1
    ensures Step(g, e).flips <= 1
    ensures forall p :: p in Step(g, e).players ==> p in g.players
  {
    match e
    case Ready(who) =>
    case Flip(who, card) => FlipTurns(g, who, card);
    case Remove(who) =>
  }

  lemma {:induction false} RunTurns(g: GameState<string>, es: seq<Event<string>>)
    requires Inv(g) && g.flips <= 1
    ensures Run(g, es).flips <= 1
    ensures forall p :: p in Run(g, es).players ==> p in g.players
    decreases |es|
  {
    if es != [] {
      RunTurns(g, es[..|es| - 1]);
      InvIndexable(Run(g, es[..|es| - 1]));
      StepTurns(Run(g, es[..|es| - 1]), es[|es| - 1]);
    }
  }

  predicate OfSize(m: Message, size: int) {
    (m.GameCreated? || m.GameStart?) ==> m.boardSize == size
  }

  /** A room's board size never changes, and whatever messages of one room a client gets, its board, once there is
      one, has the size it believes in. */
  lemma {:induction false} OneRoomConsistent(c: Copy, ms: seq<Message>, size: int)
    requires !c.hasBoard && forall k :: 0 <= k < |ms| ==> OfSize(ms[k], size)
    ensures Consistent(ReceiveAll(c, ms)) && (ReceiveAll(c, ms).hasBoard ==> ReceiveAll(c, ms).boardSize == size)
  {
    if ms != [] {
      OneRoomConsistent(c, ms[..|ms| - 1], size);
      assert OfSize(ms[|ms| - 1], size);
    }
  }

  /** Only the news of a game of another size does away with that. */
  lemma StaysConsistent(c: Copy, m: Message)
    requires Consistent(c)
    ensures Consistent(Receive(c, m)) <==>
            !(m.GameCreated? && c.hasBoard && PlausibleSize(m.boardSize)
              && m.boardSize * m.boardSize != c.boardSize * c.boardSize)
  {
  }

  lemma MirrorRestorable(c: Copy, g: GameState<string>, g': GameState<string>)
    requires DeckOk(g) && BoardMirrored(c, g) && StaysMatched(g, g')
    ensures Twin(c) && Restorable(c, g')
  {
  }

  /** A client that mirrored the server at some point, missed any run of messages after it, removals included,
      and then gets one GAME_STATE is an exact mirror again: no card it marked can have been unmatched. */
  lemma CaughtUp(c: Copy, g: GameState<string>, es: seq<Event<string>>)
    requires Inv(g) && g.flips <= 1 && Mirrors(c, g)
    requires forall k :: 0 <= k < |g.players| ==> !Blank(g.players[k])
    ensures Twin(c) && Mirrors(OnSnapshot(c, SnapshotOf(Run(g, es))), Run(g, es))
  {
    var g' := Run(g, es);
    RunStaysMatched(g, es);
    RunTurns(g, es);
    MirrorRestorable(c, g, g');
    forall k | 0 <= k < |g'.players| ensures !Blank(g'.players[k]) {
      assert g'.players[k] in g.players;
    }
    SnapshotMirrors(c, g');
  }
}
