/** The Java client's copy of a running game (GameController.java) and why it agrees with the server's. */
module Mirror {
  import opened GameModel
  import opened GameInvariant
  import opened GameRuns
  import opened Messages
  import opened Renaming

  /** The client's fields that do not belong to the user interface. hasBoard says that the arrays exist. */
  datatype Copy = Copy(
    nickname: string, boardSize: int, hasBoard: bool, matched: seq<bool>, values: seq<int>,
    myTurn: bool, flipped: seq<int>, flippedThisTurn: int,
    players: seq<string>, scores: map<string, int>, started: bool)

  /** What String.trim().isEmpty() accepts. */
  predicate Blank(s: string) {
    forall i :: 0 <= i < |s| ==> s[i] <= ' '
  }

  function Named(names: seq<string>): seq<string> {
    if names == [] then []
    else
      var n := |names| - 1;
      Named(names[..n]) + if Blank(names[n]) then [] else [names[n]]
  }

  predicate PlausibleSize(size: int) {
    2 <= size <= 10
  }

  function WithBoard(c: Copy, size: int): Copy
    requires size >= 0
  {
    c.(boardSize := size, hasBoard := true, matched := seq(size * size, i => false),
       values := seq(size * size, i => -1))
  }

  /** GAME_CREATED sets the size, but makes no board. */
  function OnGameCreated(c: Copy, size: int): Copy {
    if PlausibleSize(size) then c.(boardSize := size) else c
  }

  /** handleGameStart. The open cards of an earlier game are not forgotten here. */
  function OnGameStart(c: Copy, size: int, players: seq<string>): Copy {
    var named := Named(players);
    if players == [] || !PlausibleSize(size) then c
    else if named == [] then c.(players := [], scores := map[])
    else
      WithBoard(c, size).(
      players := named, scores := (map p | p in named :: 0),
      started := true, myTurn := named[0] == c.nickname)
  }

  predicate Plausible(c: Copy, index: int, value: int) {
    c.hasBoard && 0 <= index < |c.matched| == |c.values| && value > 0
  }

  function OnReveal(c: Copy, index: int, value: int): Copy {
    if !Plausible(c, index, value) then c
    else c.(values := c.values[index := value], flipped := c.flipped + [index],
            flippedThisTurn := c.flippedThisTurn + 1)
  }

  function MarkMatched(matched: seq<bool>, flipped: seq<int>): (r: seq<bool>)
    requires forall k :: 0 <= k < |flipped| ==> 0 <= flipped[k] < |matched|
    ensures |r| == |matched|
    ensures forall i :: 0 <= i < |r| ==> (r[i] <==> matched[i] || i in flipped)
  {
    seq(|matched|, i requires 0 <= i < |matched| => matched[i] || i in flipped)
  }

  predicate FlippedOnBoard(c: Copy) {
    forall k :: 0 <= k < |c.flipped| ==> 0 <= c.flipped[k] < |c.matched|
  }

  /** The open cards up to the first one that is not on the board, which raises an exception. */
  function OnBoard(flipped: seq<int>, size: nat): (r: seq<int>)
    ensures forall k :: 0 <= k < |r| ==> 0 <= r[k] < size
    ensures (forall k :: 0 <= k < |flipped| ==> 0 <= flipped[k] < size) ==> r == flipped
  {
    if flipped == [] then []
    else
      var n := |flipped| - 1;
      var before := OnBoard(flipped[..n], size);
      if |before| == n && 0 <= flipped[n] < size then before + [flipped[n]] else before
  }

  function OnMatch(c: Copy, player: string, score: int): Copy {
    if score < 0 then c
    else if !FlippedOnBoard(c) then c.(matched := MarkMatched(c.matched, OnBoard(c.flipped, |c.matched|)))
    else c.(matched := MarkMatched(c.matched, c.flipped), scores := c.scores[player := score], flipped := [],
            flippedThisTurn := 0)
  }

  function OnMismatch(c: Copy, next: string): Copy {
    c.(flipped := [], flippedThisTurn := 0, myTurn := next != "" && next == c.nickname)
  }

  /** The part of onMessageReceived that concerns the copy of a game between GAME_START and its end. */
  function Receive(c: Copy, m: Message): Copy {
    match m
    case GameCreated(size) => OnGameCreated(c, size)
    case GameStart(size, players) => OnGameStart(c, size, players)
    case CardReveal(index, value, player) => OnReveal(c, index, value)
    case Match(player, score) => OnMatch(c, player, score)
    case Mismatch(next) => OnMismatch(c, next)
    case YourTurn => c.(myTurn := true)
    case _ => c
  }

  function ReceiveAll(c: Copy, ms: seq<Message>): Copy {
    if ms == [] then c else Receive(ReceiveAll(c, ms[..|ms| - 1]), ms[|ms| - 1])
  }

  // ---- what the server sends ----

  function Results(players: seq<string>, scores: seq<int>): (r: seq<(string, int)>)
    requires |players| == |scores|
    ensures |r| == |players|
  {
    if players == [] then []
    else
      var n := |players| - 1;
      Results(players[..n], scores[..n]) + [(players[n], scores[n])]
  }

  function YourTurnIf(mine: bool): seq<Message> {
    if mine then [YourTurn] else []
  }

  /** GAME_END to everybody, or YOUR_TURN to the player who goes on. */
  function AfterMatch(r: GameState<string>, who: string, me: string): seq<Message>
    requires |r.players| == |r.scores|
  {
    if r.phase == Finished then [GameEnd(Results(r.players, r.scores))] else YourTurnIf(me == who)
  }

  /** What follows CARD_REVEAL when the second card settles the turn. */
  function Settlement(f: GameState<string>, me: string): seq<Message>
    requires Indexable(f) && f.flips == 2
  {
    var who, r := f.players[f.current], CheckMatch(f);
    if IsMatch(f) then [Match(who, r.scores[r.current])] + AfterMatch(r, who, me)
    else [Mismatch(r.players[r.current])] + YourTurnIf(me == r.players[r.current])
  }

  /** The messages handle_flip sends to the client with a nickname, in order. */
  function Broadcasts(g: GameState<string>, who: string, card: int, me: string): seq<Message>
    requires Indexable(g)
  {
    var f := FlipCard(g, who, card);
    if !CanFlip(g, who, card) then []
    else
      [CardReveal(card, g.cards[card].value, who)] + if f.flips == 2 then Settlement(f, me) else []
  }

  // ---- the agreement ----

  ghost function OpenCards(g: GameState<string>): seq<int> {
    if g.flips == 0 then [] else if g.flips == 1 then [g.first] else [g.first, g.second]
  }

  ghost predicate BoardMirrored(c: Copy, g: GameState<string>) {
    && c.hasBoard && c.boardSize == g.boardSize && |c.matched| == |c.values| == |g.cards|
    && (forall i :: 0 <= i < |g.cards| ==> (c.matched[i] <==> g.cards[i].state == Matched))
    && (forall i :: 0 <= i < |g.cards| && g.cards[i].state != Hidden ==> c.values[i] == g.cards[i].value)
    && c.flipped == OpenCards(g) && c.flippedThisTurn == g.flips
  }

  ghost predicate ScoresMirrored(c: Copy, g: GameState<string>) {
    && c.players == g.players && |g.scores| == |g.players|
    && (forall k :: 0 <= k < |g.players| ==> g.players[k] in c.scores && c.scores[g.players[k]] == g.scores[k])
    && (forall p :: p in c.scores ==> p in g.players)
  }

  ghost predicate Mirrors(c: Copy, g: GameState<string>) {
    && BoardMirrored(c, g) && ScoresMirrored(c, g)
    && 0 <= g.current < |g.players| && (c.myTurn <==> g.players[g.current] == c.nickname)
  }

  lemma RevealMirrored(c: Copy, g: GameState<string>, who: string, card: int)
    requires Inv(g) && Indexable(g) && Mirrors(c, g) && CanFlip(g, who, card)
    ensures var f := FlipCard(g, who, card);
            Mirrors(Receive(c, CardReveal(card, g.cards[card].value, who)), f)
  {
  }

  lemma MatchBoardMirrored(c: Copy, g: GameState<string>, player: string, score: int)
    requires OpenOk(g) && Indexable(g) && BoardMirrored(c, g) && g.flips == 2 && IsMatch(g) && score >= 0
    ensures BoardMirrored(OnMatch(c, player, score), CheckMatch(g))
  {
    OpenCardsNotMatched(g);
    assert c.flipped == [g.first, g.second];
    assert FlippedOnBoard(c);
  }

  lemma MatchScoresMirrored(c: Copy, g: GameState<string>)
    requires RosterOk(g) && Indexable(g) && ScoresMirrored(c, g) && g.flips == 2 && IsMatch(g) && FlippedOnBoard(c)
    ensures ScoresMirrored(OnMatch(c, g.players[g.current], g.scores[g.current] + 1), CheckMatch(g))
  {
    var who, r := g.players[g.current], CheckMatch(g);
    forall k | 0 <= k < |g.players|
      ensures c.scores[who := g.scores[g.current] + 1][g.players[k]] == r.scores[k]
    {
      assert k != g.current ==> g.players[k] != who;
    }
  }

  lemma MatchMirrored(c: Copy, g: GameState<string>)
    requires Inv(g) && Indexable(g) && Mirrors(c, g) && g.flips == 2 && IsMatch(g)
    ensures var r := CheckMatch(g);
            r.current == g.current && Mirrors(Receive(c, Match(g.players[g.current], r.scores[r.current])), r)
  {
    assert FlippedOnBoard(c);
    MatchBoardMirrored(c, g, g.players[g.current], g.scores[g.current] + 1);
    MatchScoresMirrored(c, g);
  }

  lemma MismatchMirrored(c: Copy, g: GameState<string>)
    requires Inv(g) && Indexable(g) && Mirrors(c, g) && g.flips == 2 && !IsMatch(g)
    requires forall k :: 0 <= k < |g.players| ==> g.players[k] != ""
    ensures var r := CheckMatch(g);
            0 <= r.current < |r.players| && Mirrors(Receive(c, Mismatch(r.players[r.current])), r)
  {
    OpenCardsNotMatched(g);
  }

  /** After the message that settles the turn at most one more follows, and it does not disturb the agreement. */
  lemma TailMirrored(c: Copy, m: Message, g: GameState<string>, tail: seq<Message>)
    requires Mirrors(Receive(c, m), g) && Receive(c, m).nickname == c.nickname
    requires tail == [] || tail == YourTurnIf(g.players[g.current] == c.nickname)
             || exists results :: tail == [GameEnd(results)]
    ensures Mirrors(ReceiveAll(c, [m] + tail), g)
  {
    var c1 := Receive(c, m);
    ReceiveOne(c, m);
    if tail == [] {
      assert [m] + tail == [m];
    } else {
      assert ([m] + tail)[..1] == [m];
      assert ReceiveAll(c, [m] + tail) == Receive(c1, tail[0]);
      QuietMirrored(c1, tail[0], g);
    }
  }

  lemma QuietMirrored(c: Copy, m: Message, g: GameState<string>)
    requires Mirrors(c, g) && (m.GameEnd? || (m.YourTurn? && g.players[g.current] == c.nickname))
    ensures Mirrors(Receive(c, m), g)
  {
  }

  lemma MatchSettled(c: Copy, f: GameState<string>)
    requires Inv(f) && Indexable(f) && f.flips == 2 && IsMatch(f) && Mirrors(c, f)
    ensures var who, r := f.players[f.current], CheckMatch(f);
            && r.current == f.current
            && Mirrors(ReceiveAll(c, [Match(who, r.scores[r.current])] + AfterMatch(r, who, c.nickname)), r)
  {
    var who, r := f.players[f.current], CheckMatch(f);
    MatchMirrored(c, f);
    TailMirrored(c, Match(who, r.scores[r.current]), r, AfterMatch(r, who, c.nickname));
  }

  lemma MismatchSettled(c: Copy, f: GameState<string>)
    requires Inv(f) && Indexable(f) && f.flips == 2 && !IsMatch(f) && Mirrors(c, f)
    requires forall k :: 0 <= k < |f.players| ==> f.players[k] != ""
    ensures var r := CheckMatch(f);
            && 0 <= r.current < |r.players|
            && Mirrors(ReceiveAll(c, [Mismatch(r.players[r.current])] + YourTurnIf(c.nickname == r.players[r.current])),
                       r)
  {
    var r := CheckMatch(f);
    MismatchMirrored(c, f);
    TailMirrored(c, Mismatch(r.players[r.current]), r, YourTurnIf(c.nickname == r.players[r.current]));
  }

  lemma SettlementMirrored(c: Copy, f: GameState<string>)
    requires Inv(f) && Indexable(f) && f.flips == 2 && Mirrors(c, f)
    requires forall k :: 0 <= k < |f.players| ==> f.players[k] != ""
    ensures Mirrors(ReceiveAll(c, Settlement(f, c.nickname)), CheckMatch(f))
  {
    if IsMatch(f) {
      MatchSettled(c, f);
    } else {
      MismatchSettled(c, f);
    }
  }

  /** One flip, as the server handles it and as a client hears of it. */
  lemma FlipMirrored(c: Copy, g: GameState<string>, who: string, card: int)
    requires Inv(g) && Indexable(g) && g.flips <= 1 && Mirrors(c, g)
    requires forall k :: 0 <= k < |g.players| ==> g.players[k] != ""
    ensures Mirrors(ReceiveAll(c, Broadcasts(g, who, card, c.nickname)), HandleFlip(g, who, card))
    ensures HandleFlip(g, who, card).flips <= 1
    ensures HandleFlip(g, who, card).players == g.players
  {
    if CanFlip(g, who, card) {
      var shown := CardReveal(card, g.cards[card].value, who);
      RevealMirrored(c, g, who, card);
      ReceiveOne(c, shown);
      FlipKeeps(g, who, card);
      var f := FlipCard(g, who, card);
      if f.flips == 2 {
        InvIndexable(f);
        ReceiveAllConcat(c, [shown], Settlement(f, c.nickname));
        SettlementMirrored(Receive(c, shown), f);
      }
    }
  }

  lemma ReceiveOne(c: Copy, m: Message)
    ensures ReceiveAll(c, [m]) == Receive(c, m)
  {
    assert [m][..0] == [];
    assert ReceiveAll(c, []) == c;
  }

  // ---- whole runs ----

  /** Everything a client is sent during a run of moves. */
  ghost function RunBroadcasts(g: GameState<string>, ms: seq<Move<string>>, me: string): seq<Message>
    requires Inv(g)
    decreases |ms|
  {
    if ms == [] then []
    else
      var before := Play(g, ms[..|ms| - 1]);
      InvIndexable(before);
      RunBroadcasts(g, ms[..|ms| - 1], me) + Broadcasts(before, ms[|ms| - 1].who, ms[|ms| - 1].card, me)
  }

  lemma {:induction false} ReceiveAllConcat(c: Copy, ms: seq<Message>, ns: seq<Message>)
    ensures ReceiveAll(c, ms + ns) == ReceiveAll(ReceiveAll(c, ms), ns)
    decreases |ns|
  {
    if ns == [] {
      assert ms + ns == ms;
    } else {
      assert (ms + ns)[..|ms + ns| - 1] == ms + ns[..|ns| - 1];
      ReceiveAllConcat(c, ms, ns[..|ns| - 1]);
    }
  }

  lemma {:induction false} ReceiveAllKeepsName(c: Copy, ms: seq<Message>)
    ensures ReceiveAll(c, ms).nickname == c.nickname
    decreases |ms|
  {
    if ms != [] {
      ReceiveAllKeepsName(c, ms[..|ms| - 1]);
    }
  }

  /** For every run of moves, legal or not, a client that applies what it is sent in order mirrors the server. */
  lemma {:induction false} RunMirrored(c: Copy, g: GameState<string>, ms: seq<Move<string>>)
    requires Inv(g) && g.flips <= 1 && Mirrors(c, g)
    requires forall k :: 0 <= k < |g.players| ==> g.players[k] != ""
    ensures Mirrors(ReceiveAll(c, RunBroadcasts(g, ms, c.nickname)), Play(g, ms))
    ensures Play(g, ms).flips <= 1 && Play(g, ms).players == g.players
    decreases |ms|
  {
    if ms != [] {
      var ms', m := ms[..|ms| - 1], ms[|ms| - 1];
      RunMirrored(c, g, ms');
      var before, c' := Play(g, ms'), ReceiveAll(c, RunBroadcasts(g, ms', c.nickname));
      InvIndexable(before);
      ReceiveAllKeepsName(c, RunBroadcasts(g, ms', c.nickname));
      FlipMirrored(c', before, m.who, m.card);
      ReceiveAllConcat(c, RunBroadcasts(g, ms', c.nickname), Broadcasts(before, m.who, m.card, c.nickname));
    }
  }

  lemma {:induction false} NamedAll(names: seq<string>)
    requires forall k :: 0 <= k < |names| ==> !Blank(names[k])
    ensures Named(names) == names
  {
    if names != [] {
      NamedAll(names[..|names| - 1]);
    }
  }

  /** GAME_START makes a client that has no open cards an exact mirror, and no other client. */
  lemma StartMirrored(c: Copy, boardSize: int, values: seq<int>, players: seq<string>)
    requires ValidDeal(boardSize, values, players)
    requires forall k :: 0 <= k < |players| ==> !Blank(players[k])
    ensures Mirrors(Receive(c, GameStart(boardSize, players)), Start(Dealt(boardSize, values, players)))
            <==> c.flipped == [] && c.flippedThisTurn == 0
  {
    DealtOk(boardSize, values, players);
    NamedAll(players);
  }

  /** From GAME_START on: every client of the room, whatever is played. The server's game is the one with client
      objects; names gives each of them its nickname. */
  lemma GameMirrored<P>(c: Copy, names: map<P, string>, boardSize: int, values: seq<int>, players: seq<P>,
                        ms: seq<Move<P>>)
    requires ValidDeal(boardSize, values, players) && Names(players, names) && OneToOne(names)
    requires forall k :: 0 <= k < |players| ==> !Blank(names[players[k]])
    requires forall k :: 0 <= k < |ms| ==> ms[k].who in names
    requires c.flipped == [] && c.flippedThisTurn == 0
    ensures var g := Start(Dealt(boardSize, values, players));
            && Inv(g) && Names(Play(g, ms).players, names)
            && Inv(Renamed(g, names))
            && Mirrors(ReceiveAll(Receive(c, GameStart(boardSize, RenamedPlayers(players, names))),
                                  RunBroadcasts(Renamed(g, names), NamedMoves(ms, names), c.nickname)),
                       Renamed(Play(g, ms), names))
  {
    StartedOk(boardSize, values, players);
    NamedGameStarts(c, names, boardSize, values, players);
    StartKeepsName(c, boardSize, RenamedPlayers(players, names));
    NamesAreWritten(players, names);
    PlayMirrored(Receive(c, GameStart(boardSize, RenamedPlayers(players, names))), names,
                 Start(Dealt(boardSize, values, players)), ms);
  }

  lemma StartedOk<P>(boardSize: int, values: seq<int>, players: seq<P>)
    requires ValidDeal(boardSize, values, players)
    ensures var g := Start(Dealt(boardSize, values, players)); Inv(g) && g.flips == 0 && g.players == players
  {
    DealtOk(boardSize, values, players);
  }

  lemma NamedGameStarts<P>(c: Copy, names: map<P, string>, boardSize: int, values: seq<int>, players: seq<P>)
    requires ValidDeal(boardSize, values, players) && Names(players, names) && OneToOne(names)
    requires forall k :: 0 <= k < |players| ==> !Blank(names[players[k]])
    requires c.flipped == [] && c.flippedThisTurn == 0
    ensures var g := Start(Dealt(boardSize, values, players));
            && Names(g.players, names) && Inv(Renamed(g, names))
            && Mirrors(Receive(c, GameStart(boardSize, RenamedPlayers(players, names))), Renamed(g, names))
  {
    StartedOk(boardSize, values, players);
    RenamedInv(Start(Dealt(boardSize, values, players)), names);
    RenamedDeal(names, boardSize, values, players);
    StartMirrored(c, boardSize, values, RenamedPlayers(players, names));
  }

  lemma StartKeepsName(c: Copy, boardSize: int, players: seq<string>)
    ensures Receive(c, GameStart(boardSize, players)).nickname == c.nickname
  {
  }

  lemma NamesAreWritten<P>(players: seq<P>, names: map<P, string>)
    requires Names(players, names) && forall k :: 0 <= k < |players| ==> !Blank(names[players[k]])
    ensures forall k :: 0 <= k < |players| ==> names[players[k]] != ""
  {
    forall k | 0 <= k < |players| ensures names[players[k]] != "" {
      assert !Blank(names[players[k]]);
    }
  }

  lemma PlayMirrored<P>(c: Copy, names: map<P, string>, g: GameState<P>, ms: seq<Move<P>>)
    requires Inv(g) && g.flips <= 1 && Names(g.players, names) && OneToOne(names)
    requires forall k :: 0 <= k < |g.players| ==> names[g.players[k]] != ""
    requires forall k :: 0 <= k < |ms| ==> ms[k].who in names
    requires Inv(Renamed(g, names)) && Mirrors(c, Renamed(g, names))
    ensures Names(Play(g, ms).players, names)
    ensures Mirrors(ReceiveAll(c, RunBroadcasts(Renamed(g, names), NamedMoves(ms, names), c.nickname)),
                    Renamed(Play(g, ms), names))
  {
    RenamedPlay(g, names, ms);
    RunMirrored(c, Renamed(g, names), NamedMoves(ms, names));
  }

  lemma RenamedDeal<P>(names: map<P, string>, boardSize: int, values: seq<int>, players: seq<P>)
    requires ValidDeal(boardSize, values, players) && Names(players, names) && OneToOne(names)
    ensures ValidDeal(boardSize, values, RenamedPlayers(players, names))
    ensures Start(Dealt(boardSize, values, RenamedPlayers(players, names)))
            == Renamed(Start(Dealt(boardSize, values, players)), names)
  {
    var ps := RenamedPlayers(players, names);
    forall i, j | 0 <= i < j < |ps| ensures ps[i] != ps[j] {
      assert players[i] != players[j];
    }
  }

  ghost function NamedMoves<P>(ms: seq<Move<P>>, names: map<P, string>): (r: seq<Move<string>>)
    requires forall k :: 0 <= k < |ms| ==> ms[k].who in names
    ensures |r| == |ms|
  {
    if ms == [] then []
    else NamedMoves(ms[..|ms| - 1], names) + [Move(names[ms[|ms| - 1].who], ms[|ms| - 1].card)]
  }

  lemma {:induction false} RenamedPlay<P>(g: GameState<P>, names: map<P, string>, ms: seq<Move<P>>)
    requires Inv(g) && Names(g.players, names) && OneToOne(names)
    requires forall k :: 0 <= k < |ms| ==> ms[k].who in names
    ensures Inv(Renamed(g, names)) && Names(Play(g, ms).players, names)
    ensures Play(Renamed(g, names), NamedMoves(ms, names)) == Renamed(Play(g, ms), names)
    decreases |ms|
  {
    RenamedInv(g, names);
    if ms != [] {
      var before, m := ms[..|ms| - 1], ms[|ms| - 1];
      RenamedPlay(g, names, before);
      InvIndexable(Play(g, before));
      RenamedFlip(Play(g, before), names, m.who, m.card);
      assert NamedMoves(ms, names)[..|ms| - 1] == NamedMoves(before, names);
    }
  }
}
