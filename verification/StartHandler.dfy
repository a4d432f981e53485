/** handle_start_game of server_src/client_handler.c, proved to do what Server.OnStartGame says. */
module StartHandler {
  import opened SeqFacts
  import opened GameModel
  import opened Games
  import opened Structs
  import opened Messages
  import opened Membership
  import opened Rooms
  import opened Deliveries
  import opened Text
  import opened Worlds
  import Server
  import Shuffle

  /** The first count seats hold different clients and no hole. */
  ghost predicate Dense(room: Room)
    reads room
  {
    && |room.players| == ROOM_SEATS && 2 <= room.playerCount <= ROOM_SEATS
    && (forall i :: 0 <= i < room.playerCount ==> room.players[i] != null)
    && (forall i, j :: 0 <= i < j < room.playerCount ==> room.players[i] != room.players[j])
  }

  lemma FullIsDense(table: RoomTable, room: Room)
    requires Running(table) && room in table.live && room.playerCount >= room.maxPlayers
    ensures Dense(room) && SeatedOnce(room.players) && room.boardSize in {4, 6, 8}
  {
    var w := WorldOf(table);
    assert room in w.graph.rooms && w.graph.rooms[room] == SeatingOf(room);
    assert SeatingOk(room, w.graph.rooms[room]);
    FullRoomIsDense(room.players, room.playerCount, room.maxPlayers);
  }

  /** game_create copies the first player_count pointers. */
  method CopyPlayers(room: Room) returns (players: seq<Client>)
    requires Dense(room)
    ensures players == Server.Members(Counted(SeatingOf(room))) && |players| == room.playerCount && Distinct(players)
  {
    players := [];
    for i := 0 to room.playerCount
      invariant players == Server.Members(room.players[..i])
      invariant |players| == i && forall k :: 0 <= k < i ==> players[k] == room.players[k]
    {
      assert room.players[..i + 1][..i] == room.players[..i];
      players := players + [room.players[i]];
    }
    assert Counted(SeatingOf(room)) == room.players[..room.playerCount];
  }

  lemma FairDeck(boardSize: int, spare: seq<int>, js: seq<int>)
    requires boardSize in {4, 6, 8} && |spare| == boardSize % 2 && Shuffle.Choices(js, boardSize * boardSize)
    requires 2 * (boardSize * boardSize / 2) + |spare| == boardSize * boardSize
    ensures |Shuffle.Deck(boardSize * boardSize / 2) + spare| == boardSize * boardSize
    ensures Server.FromDeck(Shuffle.Shuffled(Shuffle.Deck(boardSize * boardSize / 2) + spare, js), boardSize)
  {
    assert Shuffle.Deck(boardSize * boardSize / 2) + spare == Shuffle.Deck(boardSize * boardSize / 2);
    Shuffle.ShufflePermutes(Shuffle.Deck(boardSize * boardSize / 2), js);
  }

  method MakeGame(room: Room, rand: nat -> nat) returns (game: Game<Client>, ghost values: seq<int>)
    requires Dense(room) && room.boardSize in {4, 6, 8}
    ensures fresh(game) && fresh(game.cards) && game.playerCount == |game.players|
    ensures game.totalCards == game.cards.Length
    ensures game.View() == Dealt(room.boardSize, values, Server.Members(Counted(SeatingOf(room))))
    ensures Server.FromDeck(values, room.boardSize) && game.boardSize == room.boardSize
  {
    var players := CopyPlayers(room);
    var made := Game<Client>.Create(room.boardSize, players, rand);
    game := made;
    ghost var n := room.boardSize;
    ghost var js := Shuffle.Reduced(Shuffle.Draws(rand, n * n));
    ghost var spare :| |spare| == n % 2 && 2 * (n * n / 2) + |spare| == n * n
      && game.View() == Dealt(n, Shuffle.Shuffled(Shuffle.Deck(n * n / 2) + spare, js), players);
    FairDeck(n, spare, js);
    values := Shuffle.Shuffled(Shuffle.Deck(n * n / 2) + spare, js);
  }

  /** The room has a game of its own. */
  method Install(table: RoomTable, room: Room, game: Game<Client>)
    requires room in table.live && Apart(table.live) && room.game == null
    requires game.playerCount == |game.players| && game.totalCards == game.cards.Length
    requires forall r :: r in table.live && r.game != null ==> r.game != game && r.game.cards != game.cards
    modifies room`game
    ensures room.game == game
    ensures table.View() == WithGame(old(table.View()), room, game)
    ensures GamesOf(table.live) == old(GamesOf(table.live))[room := game.View()] && Apart(table.live)
  {
    ghost var games := GamesOf(table.live);
    room.game := game;
    OneGameChanged(table.live, room, games);
    table.OneRoomChanged(room);
  }

  /** The order of handle_start_game's checks. */
  ghost function StartVerdict(client: Client): Option<Refusal>
    reads client`room, OwnRoom(client)
  {
    if client.room == null then Some(NotInRoom)
    else if client.room.owner != client then Some(NotRoomOwner)
    else if client.room.game != null then Some(GameExists)
    else if client.room.playerCount < client.room.maxPlayers then Some(NeedMorePlayers)
    else None
  }

  /** Each refusal, by what is the matter. */
  lemma StartRefused(client: Client)
    ensures var v := StartVerdict(client);
            && (v == Some(NotInRoom) <==> client.room == null)
            && (v == Some(NotRoomOwner) <==> client.room != null && client.room.owner != client)
            && (v == Some(GameExists) <==>
                client.room != null && client.room.owner == client && client.room.game != null)
            && (v == Some(NeedMorePlayers) <==>
                && client.room != null && client.room.owner == client && client.room.game == null
                && client.room.playerCount < client.room.maxPlayers)
            && (v.Some? ==> v.value in {NotInRoom, NotRoomOwner, GameExists, NeedMorePlayers})
  {
  }

  ghost predicate AllHeard(listeners: set<Client>, sent: seq<Delivery>, m: Message) {
    forall c :: c in listeners ==> Inbox(sent, c) == [m]
  }

  /** Making a game does not touch the table. */
  method MakeGameBeside(table: RoomTable, room: Room, rand: nat -> nat, ghost w: Server.World)
    returns (game: Game<Client>, ghost values: seq<int>)
    requires room in table.live && Apart(table.live) && w == WorldOf(table)
    requires Dense(room) && room.boardSize in {4, 6, 8}
    ensures fresh(game) && fresh(game.cards) && game.playerCount == |game.players|
    ensures game.totalCards == game.cards.Length
    ensures forall r :: r in table.live && r.game != null ==> r.game != game && r.game.cards != game.cards
    ensures table.View() == w.graph && GamesOf(table.live) == w.games && Apart(table.live)
    ensures game.View() == Dealt(room.boardSize, values, Server.Members(Counted(SeatingOf(room))))
    ensures Server.FromDeck(values, room.boardSize) && game.boardSize == room.boardSize
  {
    game, values := MakeGame(room, rand);
  }

  method StartRoom(table: RoomTable, room: Room, rand: nat -> nat, ghost w: Server.World)
    returns (game: Game<Client>, ghost values: seq<int>)
    requires room in table.live && Apart(table.live) && room.game == null && w == WorldOf(table)
    requires Dense(room) && room.boardSize in {4, 6, 8}
    modifies room`game
    ensures room in w.graph.rooms && w.graph.rooms[room] == old(SeatingOf(room)) && room.game == game
    ensures fresh(game) && fresh(game.cards)
    ensures table.View() == WithGame(w.graph, room, game)
    ensures GamesOf(table.live)
         == w.games[room := Dealt(room.boardSize, values, Server.Members(Counted(w.graph.rooms[room])))]
    ensures Server.FromDeck(values, room.boardSize) && game.boardSize == room.boardSize && Apart(table.live)
  {
    game, values := MakeGameBeside(table, room, rand, w);
    Install(table, room, game);
  }

  /** The accepted case: the room gets a game and everybody hears of it. */
  method StartServed(table: RoomTable, room: Room, rand: nat -> nat, ghost w: Server.World)
    returns (sent: seq<Delivery>, ghost game: Game<Client>, ghost values: seq<int>)
    requires room in table.live && Apart(table.live) && room.game == null && w == WorldOf(table)
    requires Dense(room) && SeatedOnce(room.players) && room.boardSize in {4, 6, 8}
    modifies room`game
    ensures fresh(game) && fresh(game.cards)
    ensures room in w.graph.rooms && w.graph.rooms[room] == old(SeatingOf(room))
    ensures WorldOf(table) == Server.Starts(w, room, game, values)
    ensures Server.FromDeck(values, room.boardSize) && Apart(table.live)
    ensures AllHeard(old(Listeners(room.players)), sent, GameCreated(room.boardSize))
  {
    var made;
    made, values := StartRoom(table, room, rand, w);
    game := made;
    sent := Reached(room.players, GameCreated(made.boardSize), null);
    AllHear(room.players, GameCreated(made.boardSize));
  }

  lemma StartStepIs(w: Server.World, client: Client, room: Room, game: Game<Client>, values: seq<int>)
    requires Server.Talks(w, client) && w.graph.clients[client].room == room && room in w.graph.rooms
    requires w.graph.rooms[room].owner == client && w.graph.rooms[room].game == null
    requires w.graph.rooms[room].count >= room.maxPlayers && Server.FromDeck(values, room.boardSize)
    ensures Server.Startable(w, client, values)
    ensures Server.OnStartGame(w, client, game, values) == Server.Starts(w, room, game, values)
  {
  }

  /** handle_start_game. game_create cannot fail here: the room's board size and number of players are in range. */
  method HandleStartGame(table: RoomTable, client: Client, rand: nat -> nat)
    returns (sent: seq<Delivery>, ghost game: Game?<Client>, ghost values: seq<int>)
    requires Running(table) && client in table.clients && !client.isDisconnected
    modifies OwnRoom(client)`game
    ensures Apart(table.live)
    ensures old(StartVerdict(client)).Some? ==>
              sent == old(Reply(client, Refused(StartVerdict(client).value))) && WorldOf(table) == old(WorldOf(table))
    ensures old(StartVerdict(client)).None? ==> game != null && fresh(game) && fresh(game.cards)
    ensures old(StartVerdict(client)).None? ==> Server.Startable(old(WorldOf(table)), client, values)
    ensures old(StartVerdict(client)).None? ==>
              WorldOf(table) == Server.OnStartGame(old(WorldOf(table)), client, game, values)
    ensures old(StartVerdict(client)).None? ==>
              AllHeard(old(Listeners(client.room.players)), sent, GameCreated(client.room.boardSize))
  {
    ghost var w := WorldOf(table);
    RunningServes(table, client);
    game, values := null, [];
    if client.room == null {
      sent := Reply(client, Refused(NotInRoom));
    } else if client.room.owner != client {
      sent := Reply(client, Refused(NotRoomOwner));
    } else if client.room.game != null {
      sent := Reply(client, Refused(GameExists));
    } else if client.room.playerCount < client.room.maxPlayers {
      sent := Reply(client, Refused(NeedMorePlayers));
    } else {
      FullIsDense(table, client.room);
      assert w.graph.rooms[client.room] == SeatingOf(client.room);
      sent, game, values := StartServed(table, client.room, rand, w);
      StartStepIs(w, client, client.room, game, values);
    }
  }
}
