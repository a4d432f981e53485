/** handle_ready of server_src/client_handler.c, proved to do what Server.OnReady says. */
module ReadyHandler {
  import opened GameModel
  import opened Games
  import opened Structs
  import opened Messages
  import opened Membership
  import opened Rooms
  import opened Deliveries
  import opened Text
  import opened Worlds
  import Mirror
  import Renaming
  import Server

  /** The names of the players, as game_format_start_message lists them. */
  method PlayerNames(game: Game<Client>) returns (names: seq<string>)
    requires game.WellFormed()
    ensures names == Renaming.RenamedPlayers(game.players, Nicknames(game.players))
  {
    names := [];
    for i := 0 to game.playerCount
      invariant |names| == i
      invariant forall k :: 0 <= k < i ==> names[k] == game.players[k].nickname
    {
      names := names + [game.players[i].nickname];
    }
  }

  lemma BegunClients(g: Graph, room: Room, clients: map<Client, Link>)
    requires room in g.rooms && clients.Keys == g.clients.Keys
    requires forall c :: c in clients ==>
               clients[c] == if c in Counted(g.rooms[room]) then g.clients[c].(state := InGame) else g.clients[c]
    ensures Begun(g, room).clients == clients
  {
  }

  /** The room plays and its members are in the game. */
  method BeginPlaying(table: RoomTable, room: Room)
    requires room in table.live && |room.players| == ROOM_SEATS && 0 <= room.playerCount <= ROOM_SEATS
    modifies room`state, (set c: Client | c in room.players)`state
    ensures table.View() == Begun(old(table.View()), room)
  {
    room.state := RoomPlaying;
    for i := 0 to room.playerCount
      invariant room.state == RoomPlaying
      invariant forall c :: c in table.clients ==>
                  LinkOf(c) == if c in room.players[..i] then old(LinkOf(c)).(state := InGame) else old(LinkOf(c))
    {
      if room.players[i] != null {
        room.players[i].state := InGame;
      }
    }
    assert old(table.View()).rooms[room] == old(SeatingOf(room));
    assert Counted(old(SeatingOf(room))) == room.players[..room.playerCount];
    BegunClients(old(table.View()), room, table.View().clients);
    table.OneRoomChanged(room);
  }

  /** Marks the player ready and, when that was the last one, starts the game. */
  method ReadyGame(game: Game<Client>, client: Client) returns (ok: bool, started: bool)
    requires game.WellFormed()
    modifies game`playerReady, game`state, game`currentPlayerIndex
    ensures game.WellFormed() && game.View() == GameModel.HandleReady(old(game.View()), client)
    ensures ok <==> old(game.state) == Waiting && client in game.players
    ensures started <==> old(game.state) == Waiting && game.state == Playing
  {
    started := false;
    ok := game.PlayerReady(client);
    if ok {
      var all := game.AllPlayersReady();
      if all {
        started := game.Start();
      }
    }
  }

  ghost function ReadyVerdict(client: Client): Option<Refusal>
    reads client`room, OwnRoom(client), OwnGame(client)
  {
    if client.room == null then Some(NotInRoom)
    else if client.room.game == null then Some(GameNotStarted)
    else if client.room.game.state != Waiting || client !in client.room.game.players then Some(AlreadyReady)
    else None
  }

  /** Each refusal, by what is the matter. */
  lemma ReadyRefused(client: Client)
    ensures var v := ReadyVerdict(client);
            && (v == Some(NotInRoom) <==> client.room == null)
            && (v == Some(GameNotStarted) <==> client.room != null && client.room.game == null)
            && (v == Some(AlreadyReady) <==>
                && client.room != null && client.room.game != null
                && !(client.room.game.state == Waiting && client in client.room.game.players))
            && (v.Some? ==> v.value in {NotInRoom, GameNotStarted, AlreadyReady})
  {
  }

  /** What a member hears of a READY: and, when the game starts with it, of the start. */
  ghost function ReadyNews(names: map<Client, string>, r: GameState<Client>, client: Client, c: Client): seq<Message>
    requires Indexable(r) && Renaming.Names(r.players, names) && client in names
  {
    (if c == client then [ReadyOk] else []) + [PlayerReady(names[client])] +
    if r.phase == Playing
    then
      [GameStart(r.boardSize, Renaming.RenamedPlayers(r.players, names))]
      + Mirror.YourTurnIf(c == r.players[r.current])
    else []
  }

  ghost predicate ReadyHeard(listeners: set<Client>, sent: seq<Delivery>, names: map<Client, string>,
                             r: GameState<Client>,
                             client: Client)
  {
    Indexable(r) && Renaming.Names(r.players, names) && client in names &&
    forall c :: c in listeners ==> Inbox(sent, c) == ReadyNews(names, r, client, c)
  }

  lemma ThenTurn(seats: seq<Client?>, start: Message, first: Client, c: Client)
    requires SeatedOnce(seats) && c in seats && c.Reachable()
    ensures Inbox(Reached(seats, start, null) + Reply(first, YourTurn), c) == [start] + Mirror.YourTurnIf(c == first)
  {
    ThenHears(seats, start, Reply(first, YourTurn), c);
    ReplyInbox(first, YourTurn, c);
  }

  /** GAME_START to everybody and YOUR_TURN to the first player. */
  method AnnounceStart(room: Room, game: Game<Client>) returns (sent: seq<Delivery>)
    requires game.WellFormed() && SeatedOnce(room.players)
    ensures forall c :: c in Listeners(room.players) ==> (Inbox(sent, c)
              == [GameStart(game.boardSize, Renaming.RenamedPlayers(game.players, Nicknames(game.players)))]
              + Mirror.YourTurnIf(c == game.players[game.currentPlayerIndex]))
  {
    var names := PlayerNames(game);
    var start := Broadcast(room, GameStart(game.boardSize, names), null);
    var turn := Reply(game.players[game.currentPlayerIndex], YourTurn);
    sent := start + turn;
    forall c | c in Listeners(room.players)
      ensures Inbox(sent, c)
           == [GameStart(game.boardSize, names)] + Mirror.YourTurnIf(c == game.players[game.currentPlayerIndex])
    {
      ThenTurn(room.players, GameStart(game.boardSize, names), game.players[game.currentPlayerIndex], c);
    }
  }

  lemma ConfirmedHears(seats: seq<Client?>, client: Client, m: Message, rest: seq<Delivery>, c: Client)
    requires SeatedOnce(seats) && c in seats && c.Reachable()
    ensures Inbox(Reply(client, ReadyOk) + (Reached(seats, m, null) + rest), c)
            == (if c == client then [ReadyOk] else []) + ([m] + Inbox(rest, c))
  {
    ReplyInbox(client, ReadyOk, c);
    InboxConcat(Reply(client, ReadyOk), Reached(seats, m, null) + rest, c);
    ThenHears(seats, m, rest, c);
  }

  /** The answers and broadcasts of a READY that the game has accepted. */
  method AnnounceReady(room: Room, client: Client, started: bool) returns (sent: seq<Delivery>)
    requires room.game != null && room.game.WellFormed() && SeatedOnce(room.players) && client in room.game.players
    requires started <==> room.game.state == Playing
    ensures ReadyHeard(Listeners(room.players), sent, Nicknames(room.game.players), room.game.View(), client)
  {
    hide Reached;
    var confirmed := Reply(client, ReadyOk);
    var told := Broadcast(room, PlayerReady(client.nickname), null);
    var start := [];
    if started {
      start := AnnounceStart(room, room.game);
    }
    sent := confirmed + (told + start);
    forall c | c in Listeners(room.players)
      ensures Inbox(sent, c) == ReadyNews(Nicknames(room.game.players), room.game.View(), client, c)
    {
      ConfirmedHears(room.players, client, PlayerReady(client.nickname), start, c);
    }
  }

  /** READY in a room with a game. */
  method ReadyInRoom(room: Room, client: Client) returns (ok: bool, started: bool, sent: seq<Delivery>)
    requires room.game != null && room.game.WellFormed() && SeatedOnce(room.players)
    modifies room.game`playerReady, room.game`state, room.game`currentPlayerIndex
    ensures room.game.WellFormed() && room.game.View() == GameModel.HandleReady(old(room.game.View()), client)
    ensures ok <==> old(room.game.state) == Waiting && client in room.game.players
    ensures started <==> old(room.game.state) == Waiting && room.game.state == Playing
    ensures ok ==> ReadyHeard(Listeners(room.players), sent, Nicknames(room.game.players), room.game.View(), client)
    ensures !ok ==> sent == []
  {
    sent := [];
    ok, started := ReadyGame(room.game, client);
    if ok {
      sent := AnnounceReady(room, client, started);
    }
  }

  method ReadyApart(table: RoomTable, room: Room, client: Client, ghost games: map<Room, GameState<Client>>)
    returns (ok: bool, started: bool, sent: seq<Delivery>)
    requires room in table.live && room.game != null && Apart(table.live)
    requires room.game.WellFormed() && SeatedOnce(room.players) && OthersAs(table.live, room, games)
    modifies room.game`playerReady, room.game`state, room.game`currentPlayerIndex
    ensures OthersAs(table.live, room, games) && Apart(table.live) && room.game.WellFormed()
    ensures room.game.View() == GameModel.HandleReady(old(room.game.View()), client)
    ensures ok <==> old(room.game.state) == Waiting && client in room.game.players
    ensures started <==> old(room.game.state) == Waiting && room.game.state == Playing
    ensures ok ==> ReadyHeard(Listeners(room.players), sent, Nicknames(room.game.players), room.game.View(), client)
    ensures !ok ==> sent == []
  {
    ok, started, sent := ReadyInRoom(room, client);
  }

  /** The games do not notice. */
  method BeginOneRoom(table: RoomTable, room: Room)
    requires room in table.live && |room.players| == ROOM_SEATS && 0 <= room.playerCount <= ROOM_SEATS
    requires Apart(table.live)
    modifies room`state, (set c: Client | c in room.players)`state
    ensures table.View() == Begun(old(table.View()), room)
    ensures GamesOf(table.live) == old(GamesOf(table.live)) && Apart(table.live)
  {
    BeginPlaying(table, room);
  }

  method ReadyInTable(table: RoomTable, room: Room, client: Client, ghost w: Server.World, ghost g: GameState<Client>)
    returns (ok: bool, started: bool, sent: seq<Delivery>)
    requires Playable(table, room) && w == WorldOf(table) && g == room.game.View()
    modifies room.game`playerReady, room.game`state, room.game`currentPlayerIndex
    ensures Apart(table.live) && room in w.games && w.games[room] == g
    ensures table.View() == w.graph && GamesOf(table.live) == w.games[room := GameModel.HandleReady(g, client)]
    ensures ok <==> g.phase == Waiting && client in g.players
    ensures started <==> g.phase == Waiting && GameModel.HandleReady(g, client).phase == Playing
    ensures ok ==> ReadyHeard(old(Listeners(room.players)), sent, old(Nicknames(g.players)),
                              GameModel.HandleReady(g, client), client)
    ensures !ok ==> sent == []
  {
    hide GameModel.HandleReady, ReadyNews, Reached;
    ReadyKeepsPlayers(g, client);
    ok, started, sent := ReadyApart(table, room, client, w.games);
    OneGameChanged(table.live, room, w.games);
  }

  /** READY changes one game; the room and its members follow when the game starts. */
  method ReadyOneGame(table: RoomTable, room: Room, client: Client, ghost w: Server.World, ghost g: GameState<Client>)
    returns (ok: bool, sent: seq<Delivery>)
    requires Playable(table, room) && w == WorldOf(table) && g == room.game.View()
    modifies room.game`playerReady, room.game`state, room.game`currentPlayerIndex
    modifies room`state, (set c: Client | c in room.players)`state
    ensures room in w.graph.rooms && room in w.games && w.games[room] == g
    ensures WorldOf(table) == Server.Advanced(w, room, GameModel.HandleReady(g, client))
    ensures Apart(table.live)
    ensures ok <==> g.phase == Waiting && client in g.players
    ensures ok ==> ReadyHeard(old(Listeners(room.players)), sent, old(Nicknames(g.players)),
                              GameModel.HandleReady(g, client), client)
    ensures !ok ==> sent == []
  {
    var started;
    ok, started, sent := ReadyInTable(table, room, client, w, g);
    if started {
      BeginOneRoom(table, room);
    }
  }

  lemma ReadyKeepsPlayers(g: GameState<Client>, client: Client)
    requires Indexable(g)
    ensures GameModel.HandleReady(g, client).players == g.players && Indexable(GameModel.HandleReady(g, client))
  {
  }

  lemma ReadyStepOn(table: RoomTable, client: Client)
    requires Running(table) && client in table.clients && !client.isDisconnected
    ensures Server.RoomsOk(WorldOf(table))
    ensures var w := WorldOf(table);
            if client.room == null || client.room.game == null then Server.OnReady(w, client) == w
            else && client.room in w.games && client.room in w.graph.rooms
                 && Server.OnReady(w, client)
                    == Server.Advanced(w, client.room, GameModel.HandleReady(client.room.game.View(), client))
  {
    RunningServes(table, client);
    if client.room != null && client.room.game != null {
      Server.ReadyStepIs(WorldOf(table), client.room, client);
    }
  }

  /** A refusal goes to the client alone; a READY the game accepts is heard by every connected member. */
  twostate predicate ReadyAnswered(client: Client, new sent: seq<Delivery>) {
    if old(ReadyVerdict(client)).Some? then sent == old(Reply(client, Refused(ReadyVerdict(client).value)))
    else
      && old(Indexable(client.room.game.View()))
      && ReadyHeard(old(Listeners(client.room.players)), sent, old(Nicknames(client.room.game.players)),
                    old(GameModel.HandleReady(client.room.game.View(), client)), client)
  }

  /** handle_ready. Its refusals are not counted. */
  method HandleReady(table: RoomTable, client: Client) returns (sent: seq<Delivery>)
    requires Running(table) && client in table.clients && !client.isDisconnected
    modifies OwnRoom(client)`state, Mates(client)`state
    modifies OwnGame(client)`playerReady, OwnGame(client)`state, OwnGame(client)`currentPlayerIndex
    ensures WorldOf(table) == Server.OnReady(old(WorldOf(table)), client)
    ensures Apart(table.live)
    ensures ReadyAnswered(client, sent)
  {
    ghost var w := WorldOf(table);
    RunningServes(table, client);
    ReadyStepOn(table, client);
    if client.room == null {
      sent := Reply(client, Refused(NotInRoom));
      return;
    }
    if client.room.game == null {
      sent := Reply(client, Refused(GameNotStarted));
      return;
    }
    sent := ReadyServed(table, client, client.room, w, client.room.game.View());
  }

  method ReadyServed(table: RoomTable, client: Client, room: Room, ghost w: Server.World, ghost g: GameState<Client>)
    returns (sent: seq<Delivery>)
    requires Playable(table, room) && client.room == room && w == WorldOf(table) && g == room.game.View()
    modifies room.game`playerReady, room.game`state, room.game`currentPlayerIndex
    modifies room`state, (set c: Client | c in room.players)`state
    ensures room in w.graph.rooms && room in w.games
    ensures WorldOf(table) == Server.Advanced(w, room, GameModel.HandleReady(g, client))
    ensures Apart(table.live)
    ensures ReadyAnswered(client, sent)
  {
    var ok;
    ok, sent := ReadyOneGame(table, room, client, w, g);
    if !ok {
      sent := Reply(client, Refused(AlreadyReady));
    }
  }
}
