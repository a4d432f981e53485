/** handle_flip of server_src/client_handler.c, proved to do what Server.OnFlip says and to send what module Mirror
    expects to hear. */
module FlipHandler {
  import opened GameModel
  import opened Games
  import opened Structs
  import opened Messages
  import opened Membership
  import opened Rooms
  import opened Deliveries
  import opened Text
  import opened Worlds
  import CatchUp
  import GameInvariant
  import Mirror
  import Renaming
  import Server

  ghost predicate FlipHeard(listeners: set<Client>, sent: seq<Delivery>, g: GameState<Client>,
                            names: map<Client, string>, client: Client, card: int)
    requires Indexable(g) && CanFlip(g, client, card) && Renaming.Names(g.players, names)
  {
    forall c :: c in listeners ==> Inbox(sent, c) == Announced(g, names, client, card, c)
  }

  lemma ResultsNamed(players: seq<Client>, scores: seq<int>, results: seq<(string, int)>)
    requires |results| == |players| == |scores|
    requires results == Scoreboard(NamesOf(players), scores)
    ensures results == Mirror.Results(Renaming.RenamedPlayers(players, Nicknames(players)), scores)
  {
    var named := Renaming.RenamedPlayers(players, Nicknames(players));
    forall k | 0 <= k < |results| ensures results[k] == Mirror.Results(named, scores)[k] {
      CatchUp.ResultsAt(named, scores, k);
    }
  }

  /** The second card is open: match or mismatch, and who goes on. */
  method SettleTurn(table: RoomTable, room: Room, game: Game<Client>, client: Client) returns (sent: seq<Delivery>)
    requires game.WellFormed() && game.flipsThisTurn == 2 && game.players[game.currentPlayerIndex] == client
    requires SeatedOnce(room.players)
    modifies game`flipsThisTurn, game`firstCardIndex, game`secondCardIndex, game.cards
    modifies game`playerScores, game`matchedPairs, game`state, game`currentPlayerIndex
    ensures game.WellFormed() && game.View() == CheckMatch(old(game.View()))
    ensures forall c: Client :: c in room.players && c.Reachable()
              ==> Inbox(sent, c) == Turned(old(game.View()), Nicknames(game.players), client, c)
  {
    var isMatch := game.CheckMatch();
    var message, rest;
    if isMatch {
      message := Match(client.nickname, game.playerScores[game.currentPlayerIndex]);
      rest := AfterMatch(table, room, game, client);
    } else {
      var next := game.players[game.currentPlayerIndex];
      message := Mismatch(next.nickname);
      rest := Reply(next, YourTurn);
    }
    var first := Broadcast(room, message, null);
    sent := first + rest;
    forall c: Client | c in room.players && c.Reachable()
      ensures Inbox(sent, c) == Turned(old(game.View()), Nicknames(game.players), client, c)
    {
      ThenHears(room.players, message, rest, c);
      if !isMatch { ReplyInbox(game.players[game.currentPlayerIndex], YourTurn, c); }
    }
  }

  /** GAME_END with everybody's score, or YOUR_TURN to the player who goes on. */
  method AfterMatch(table: RoomTable, room: Room, game: Game<Client>, client: Client) returns (sent: seq<Delivery>)
    requires game.WellFormed() && SeatedOnce(room.players)
    ensures forall c: Client :: c in room.players && c.Reachable() ==> (Inbox(sent, c) ==
              if game.state == Finished
              then [GameEnd(Mirror.Results(Renaming.RenamedPlayers(game.players, Nicknames(game.players)),
                                           game.playerScores))]
              else Mirror.YourTurnIf(c == client))
  {
    if game.state == Finished {
      var results := table.Results(game);
      ResultsNamed(game.players, game.playerScores, results);
      sent := Broadcast(room, GameEnd(results), null);
      AllHear(room.players, GameEnd(results));
    } else {
      sent := Reply(client, YourTurn);
      forall c: Client | c in room.players && c.Reachable() ensures Inbox(sent, c) == Mirror.YourTurnIf(c == client) {
        ReplyInbox(client, YourTurn, c);
      }
    }
  }

  /** A flip the game accepts: the card is shown to everybody, and the second card settles the turn. */
  method PlayFlip(table: RoomTable, room: Room, game: Game<Client>, client: Client, card: int)
    returns (accepted: bool, sent: seq<Delivery>)
    requires game.WellFormed() && SeatedOnce(room.players)
    modifies game`flipsThisTurn, game`firstCardIndex, game`secondCardIndex, game.cards
    modifies game`playerScores, game`matchedPairs, game`state, game`currentPlayerIndex
    ensures accepted <==> CanFlip(old(game.View()), client, card)
    ensures game.WellFormed() && game.View() == GameModel.HandleFlip(old(game.View()), client, card)
    ensures !accepted ==> sent == []
    ensures accepted ==>
              FlipHeard(Listeners(room.players), sent, old(game.View()), Nicknames(old(game.players)), client, card)
  {
    sent := [];
    accepted := game.FlipCard(client, card);
    if !accepted {
      return;
    }
    sent := ShowCard(table, room, game, client, card, old(game.View()));
  }

  /** The card is on the table: everybody sees it, and the second one settles the turn. */
  method ShowCard(table: RoomTable, room: Room, game: Game<Client>, client: Client, card: int,
                  ghost before: GameState<Client>)
    returns (sent: seq<Delivery>)
    requires game.WellFormed() && SeatedOnce(room.players)
    requires Indexable(before) && CanFlip(before, client, card) && game.View() == FlipCard(before, client, card)
    modifies game`flipsThisTurn, game`firstCardIndex, game`secondCardIndex, game.cards
    modifies game`playerScores, game`matchedPairs, game`state, game`currentPlayerIndex
    ensures game.WellFormed() && game.View() == GameModel.HandleFlip(before, client, card)
    ensures FlipHeard(Listeners(room.players), sent, before, Nicknames(before.players), client, card)
  {
    hide Reached, Mirror.Results, Renaming.RenamedPlayers, IsMatch;
    assert game.players == before.players;
    var shown := CardReveal(card, game.cards[card].value, client.nickname);
    var first := Broadcast(room, shown, null);
    var rest := [];
    if game.flipsThisTurn == 2 {
      rest := SettleTurn(table, room, game, client);
    }
    sent := first + rest;
    forall c | c in Listeners(room.players)
      ensures Inbox(sent, c) == Announced(before, Nicknames(before.players), client, card, c)
    {
      ThenHears(room.players, shown, rest, c);
    }
  }

  predicate KeptOrReleased(before: Link, now: Link, member: bool) {
    now == before || (member && now == before.(room := null, state := InLobby))
  }

  /** The loop of handle_flip that sends the first player_count members back to the lobby. */
  method ReleaseCounted(table: RoomTable, room: Room)
    requires |room.players| == ROOM_SEATS && 0 <= room.playerCount <= ROOM_SEATS
    modifies (set c: Client | c in room.players)`room, (set c: Client | c in room.players)`state
    ensures table.View() == old(table.View()).(clients := table.View().clients)
    ensures table.View().clients.Keys == table.clients
    ensures forall c :: c in table.clients ==> KeptOrReleased(old(LinkOf(c)), LinkOf(c), c in room.players)
  {
    for i := 0 to room.playerCount
      invariant forall c :: c in table.clients ==> KeptOrReleased(old(LinkOf(c)), LinkOf(c), c in room.players)
    {
      if room.players[i] != null {
        room.players[i].room := null;
        room.players[i].state := InLobby;
      }
    }
    assert table.View().rooms == old(table.View()).rooms;
  }

  lemma ReleasedTwice(before: map<Client, Link>, now: map<Client, Link>, seats: seq<Client?>, leaver: Client)
    requires now.Keys == before.Keys
    requires forall c :: c in before ==> KeptOrReleased(before[c], now[c], c in seats)
    ensures Released(now, seats, leaver) == Released(before, seats, leaver)
  {
  }

  /** The end of a finished game: its room is gone and its members are back in the lobby. */
  method FinishGame(table: RoomTable, room: Room)
    requires room in table.live && |room.players| == ROOM_SEATS && 0 <= room.playerCount <= ROOM_SEATS
    requires room.owner in room.players
    modifies table`live, table.rooms, room`game, room`state
    modifies (set c: Client | c in room.players)`room, (set c: Client | c in room.players)`state
    ensures table.View() == Destroy(old(table.View()), room, room.players, room.owner)
    ensures table.live == old(table.live) - {room}
  {
    ghost var before := table.View();
    ClearGame(table, room);
    ReleaseCounted(table, room);
    ReleasedTwice(before.clients, table.View().clients, room.players, room.owner);
    table.Destroy(room, room.owner);
    assert table.live == table.View().rooms.Keys;
  }

  /** The other rooms' games are as they were. */
  method FinishOneGame(table: RoomTable, room: Room)
    requires Playable(table, room)
    modifies table`live, table.rooms, room`game, room`state
    modifies (set c: Client | c in room.players)`room, (set c: Client | c in room.players)`state
    ensures table.View() == Destroy(old(table.View()), room, room.players, room.owner)
    ensures GamesOf(table.live) == old(GamesOf(table.live)) - {room} && Apart(table.live)
  {
    hide Destroy, RoomTable.View, BoardsIn, GamesIn;
    ghost var games := GamesOf(table.live);
    FinishGame(table, room);
    forall r | r in table.live && r.game != null ensures r.game.View() == games[r] {
      assert r in old(table.live) && r.game == old(r.game);
    }
    GamesLeft(table.live, games);
  }

  method ClearGame(table: RoomTable, room: Room)
    requires room in table.live
    modifies room`game, room`state
    ensures room.game == null && room.state == RoomFinished
    ensures table.View() == old(table.View()).(rooms := table.View().rooms)
    ensures table.View().rooms - {room} == old(table.View()).rooms - {room}
  {
    room.game := null;
    room.state := RoomFinished;
    assert table.View().clients == old(table.View()).clients;
  }

  /** The order of handle_flip's checks. */
  ghost function FlipVerdict(client: Client, card: Option<int>): Option<Refusal>
    reads client`room, OwnRoom(client), OwnGame(client), OwnBoard(client)
  {
    if client.room == null then Some(NotInRoom)
    else if client.room.game == null then Some(GameNotStarted)
    else if card.None? then Some(InvalidSyntax)
    else if card.value < 0 || card.value >= client.room.game.totalCards then Some(InvalidMove)
    else if !CanFlip(client.room.game.View(), client, card.value) then Some(InvalidCard)
    else None
  }

  method FlipApart(table: RoomTable, room: Room, client: Client, card: int, ghost games: map<Room, GameState<Client>>)
    returns (accepted: bool, sent: seq<Delivery>)
    requires room in table.live && room.game != null && Apart(table.live)
    requires room.game.WellFormed() && SeatedOnce(room.players) && OthersAs(table.live, room, games)
    modifies room.game, room.game.cards
    ensures OthersAs(table.live, room, games) && Apart(table.live)
    ensures room.game.WellFormed() && room.game.View() == GameModel.HandleFlip(old(room.game.View()), client, card)
    ensures accepted <==> CanFlip(old(room.game.View()), client, card)
    ensures !accepted ==> sent == []
    ensures accepted ==> FlipHeard(old(Listeners(room.players)), sent, old(room.game.View()),
                                   old(Nicknames(room.game.players)), client, card)
  {
    accepted, sent := PlayFlip(table, room, room.game, client, card);
  }

  /** The flip changes one game and nothing else. */
  method FlipOneGame(table: RoomTable, room: Room, client: Client, card: int)
    returns (accepted: bool, sent: seq<Delivery>)
    requires room in table.live && room.game != null && Apart(table.live)
    requires room.game.WellFormed() && SeatedOnce(room.players)
    modifies room.game, room.game.cards
    ensures table.View() == old(table.View()) && Apart(table.live) && room.game.WellFormed()
    ensures accepted <==> CanFlip(old(room.game.View()), client, card)
    ensures room.game.View() == GameModel.HandleFlip(old(room.game.View()), client, card)
    ensures GamesOf(table.live)
         == old(GamesOf(table.live))[room := GameModel.HandleFlip(old(room.game.View()), client, card)]
    ensures !accepted ==> sent == []
    ensures accepted ==> FlipHeard(old(Listeners(room.players)), sent, old(room.game.View()),
                                   old(Nicknames(room.game.players)), client, card)
  {
    ghost var games := GamesOf(table.live);
    accepted, sent := FlipApart(table, room, client, card, games);
    OneGameChanged(table.live, room, games);
  }

  /** A flip the game rejects leaves the server as it was. */
  lemma RejectedFlip(w: Server.World, client: Client, card: int)
    requires Server.RoomsOk(w)
    requires !Server.HasGame(w, client) || !CanFlip(w.games[w.graph.clients[client].room], client, card)
    ensures Server.OnFlip(w, client, card) == w
  {
    if Server.Talks(w, client) && Server.HasGame(w, client) {
      Server.GameOk(w, client);
      var room := w.graph.clients[client].room as Room;
      assert Server.RoomOk(w, room);
      assert w.games[room := w.games[room]] == w.games;
    }
  }

  lemma FlipGoesOn(w: Server.World, room: Room, client: Client, card: int)
    requires room in w.graph.rooms && room in w.games && Indexable(w.games[room]) && w.games[room].phase != Finished
    requires GameModel.HandleFlip(w.games[room], client, card).phase != Finished
    ensures Server.Flips(w, room, client, card)
         == Server.World(w.graph, w.games[room := GameModel.HandleFlip(w.games[room], client, card)])
  {
    GameInvariant.FlipTurns(w.games[room], client, card);
  }

  lemma FlipEnds(w: Server.World, room: Room, client: Client, card: int, g: GameState<Client>)
    requires room in w.graph.rooms && room in w.games && Indexable(w.games[room])
    requires GameModel.HandleFlip(w.games[room], client, card).phase == Finished
    requires w.games.Keys <= w.graph.rooms.Keys
    ensures Server.Flips(w, room, client, card)
            == Server.World(Destroy(w.graph, room, w.graph.rooms[room].seats, w.graph.rooms[room].owner),
                            w.games[room := g] - {room})
  {
    assert w.games[room := g] - {room} == map r | r in w.games && r in w.graph.rooms - {room} :: w.games[r];
  }

  /** The rest of handle_flip, once there is a game and a card. */
  method FlipInRoom(table: RoomTable, room: Room, client: Client, card: int, ghost g: GameState<Client>)
    returns (sent: seq<Delivery>)
    requires Playable(table, room) && g == room.game.View() && g.phase != Finished
    modifies client`invalidMessageCount, table`live, table.rooms, room`game, room`state, room.game, room.game.cards
    modifies (set c: Client | c in room.players)`room, (set c: Client | c in room.players)`state
    ensures WorldOf(table) == Server.Flips(old(WorldOf(table)), room, client, card)
    ensures Apart(table.live)
    ensures !CanFlip(g, client, card) ==>
              && sent == old(Reply(client, Refused(InvalidCard)))
              && client.invalidMessageCount == old(client.invalidMessageCount) + 1
    ensures CanFlip(g, client, card) ==>
              && client.invalidMessageCount == old(client.invalidMessageCount)
              && FlipHeard(old(Listeners(room.players)), sent, g, old(Nicknames(g.players)), client, card)
  {
    ghost var w := WorldOf(table);
    assert w.games[room] == g && w.graph.rooms[room] == SeatingOf(room);
    var accepted;
    accepted, sent := FlipOneGame(table, room, client, card);
    ghost var r := GameModel.HandleFlip(g, client, card);
    assert WorldOf(table) == Server.World(w.graph, w.games[room := r]);
    if room.game.state == Finished {
      FlipEnds(w, room, client, card, r);
      FinishOneGame(table, room);
    } else {
      FlipGoesOn(w, room, client, card);
      if !accepted {
        sent := RefuseIn(table, client, InvalidCard);
      }
    }
  }

  lemma FlipStepOn(table: RoomTable, client: Client, card: int)
    requires Running(table) && client in table.clients && !client.isDisconnected
    ensures Server.RoomsOk(WorldOf(table))
    ensures var w := WorldOf(table);
            if client.room == null || client.room.game == null then Server.OnFlip(w, client, card) == w
            else && client.room in w.games && client.room in w.graph.rooms && Indexable(w.games[client.room])
                 && w.games[client.room] == client.room.game.View()
                 && Server.OnFlip(w, client, card) == Server.Flips(w, client.room, client, card)
  {
    RunningServes(table, client);
    if client.room == null || client.room.game == null {
      RejectedFlip(WorldOf(table), client, card);
    } else {
      Server.FlipStepIs(WorldOf(table), client.room, client, card);
    }
  }

  lemma OutOfRange(w: Server.World, room: Room, client: Client, card: int)
    requires room in w.games && room in w.graph.rooms && Indexable(w.games[room])
    requires !CanFlip(w.games[room], client, card)
    requires w.games[room].phase != Finished
    ensures Server.Flips(w, room, client, card) == w
  {
    assert w.games[room := w.games[room]] == w.games;
  }

  /** handle_flip. The card is None when the parameter is missing or not a number. */
  method HandleFlip(table: RoomTable, client: Client, card: Option<int>) returns (sent: seq<Delivery>)
    requires Running(table) && client in table.clients && !client.isDisconnected
    modifies client`invalidMessageCount, table`live, table.rooms, OwnRoom(client)`game, OwnRoom(client)`state
    modifies Mates(client)`room, Mates(client)`state, OwnGame(client), OwnBoard(client)
    ensures WorldOf(table) == if card.Some? then Server.OnFlip(old(WorldOf(table)), client, card.value)
                              else old(WorldOf(table))
    ensures Apart(table.live)
    ensures FlipAnswered(client, card, sent)
    ensures client.invalidMessageCount
         == old(client.invalidMessageCount) + if old(FlipVerdict(client, card)).Some? then 1 else 0
  {
    RunningServes(table, client);
    if card.Some? {
      FlipStepOn(table, client, card.value);
    }
    sent := FlipServed(table, client, card);
  }

  /** Each refusal, by what is the matter. */
  lemma FlipRefused(client: Client, card: Option<int>)
    requires client.room != null && client.room.game != null ==> client.room.game.WellFormed()
    ensures var v := FlipVerdict(client, card);
            && (v == Some(NotInRoom) <==> client.room == null)
            && (v == Some(GameNotStarted) <==> client.room != null && client.room.game == null)
            && (v == Some(InvalidSyntax) <==> client.room != null && client.room.game != null && card == None)
            && (v == Some(InvalidMove) <==>
                && client.room != null && client.room.game != null && card.Some?
                && (card.value < 0 || card.value >= client.room.game.cards.Length))
            && (v == Some(InvalidCard) <==>
                && client.room != null && client.room.game != null && card.Some?
                && 0 <= card.value < client.room.game.cards.Length
                && !(&& client.room.game.state == Playing
                     && client.room.game.players[client.room.game.currentPlayerIndex] == client
                     && client.room.game.flipsThisTurn < 2
                     && client.room.game.cards[card.value].state == Hidden))
            && (v.Some? ==> v.value in {NotInRoom, GameNotStarted, InvalidSyntax, InvalidMove, InvalidCard})
  {
  }

  /** A refusal goes to the client alone and is counted; an accepted flip is heard by every connected member. */
  twostate predicate FlipAnswered(client: Client, card: Option<int>, new sent: seq<Delivery>)
    reads client
  {
    if old(FlipVerdict(client, card)).Some? then
      && sent == old(Reply(client, Refused(FlipVerdict(client, card).value)))
      && client.invalidMessageCount == old(client.invalidMessageCount) + 1
    else
      && client.invalidMessageCount == old(client.invalidMessageCount)
      && Indexable(old(client.room.game.View()))
      && FlipHeard(old(Listeners(client.room.players)), sent, old(client.room.game.View()),
                   old(Nicknames(client.room.game.players)), client, card.value)
  }

  method FlipServed(table: RoomTable, client: Client, card: Option<int>) returns (sent: seq<Delivery>)
    requires Served(table, client)
    requires client.room != null && client.room.game != null ==>
               client.room in WorldOf(table).games && client.room in WorldOf(table).graph.rooms
               && WorldOf(table).games[client.room] == client.room.game.View()
    modifies client`invalidMessageCount, table`live, table.rooms, OwnRoom(client)`game, OwnRoom(client)`state
    modifies Mates(client)`room, Mates(client)`state, OwnGame(client), OwnBoard(client)
    ensures var w := old(WorldOf(table));
            WorldOf(table) == if old(client.room == null || client.room.game == null) || card.None? then w
                              else Server.Flips(w, old(client.room), client, card.value)
    ensures Apart(table.live)
    ensures FlipAnswered(client, card, sent)
  {
    if client.room == null || client.room.game == null {
      sent := RefuseIn(table, client, if client.room == null then NotInRoom else GameNotStarted);
      return;
    }
    if card == None {
      sent := RefuseIn(table, client, InvalidSyntax);
      return;
    }
    if card.value < 0 || card.value >= client.room.game.totalCards {
      OutOfRange(WorldOf(table), client.room, client, card.value);
      sent := RefuseIn(table, client, InvalidMove);
      return;
    }
    sent := FlipInRoom(table, client.room, client, card.value, client.room.game.View());
  }
}
