/** handle_create_room, handle_join_room and handle_leave_room of server_src/client_handler.c. */
module RoomHandlers {
  import opened SeqFacts
  import opened GameModel
  import opened Structs
  import opened Messages
  import opened Membership
  import opened Rooms
  import opened Deliveries
  import opened Text
  import opened Worlds
  import Server

  // ---- CREATE_ROOM ----

  /** The parameters, with the defaults filled in. */
  datatype NewRoom = NewRoom(name: string, maxPlayers: int, boardSize: int) {
    predicate InRange() {
      2 <= maxPlayers <= ROOM_SEATS && boardSize in {4, 6, 8}
    }
  }

  ghost function CreateVerdict(table: RoomTable, client: Client, params: Option<NewRoom>): Option<Refusal>
    reads client`state, client`room, table.rooms
  {
    if !client.state.AtLeastLobby() then Some(NotAuthenticated)
    else if client.room != null then Some(AlreadyInRoom)
    else if params.None? || !params.value.InRange() then Some(InvalidParams)
    else if null !in table.rooms[..] then Some(RoomLimit)
    else None
  }

  /** The new room has no game; the others keep theirs. */
  method AddRoom(table: RoomTable, client: Client, params: NewRoom, ghost w: Server.World) returns (room: Room?)
    requires client in table.clients && Apart(table.live) && w == WorldOf(table)
    modifies table`nextRoomId, table`live, table.rooms, client`room, client`state
    ensures room == null <==> !params.InRange() || null !in old(table.rooms[..])
    ensures room == null ==> WorldOf(table) == w
    ensures room != null ==>
              && fresh(room) && room.roomId == w.graph.nextId && room !in w.graph.rooms
              && room.maxPlayers == params.maxPlayers && room.boardSize == params.boardSize
              && room.name == params.name[..Min(|params.name|, MAX_ROOM_NAME_LENGTH - 1)]
              && WorldOf(table) == w.(graph := CreateRoom(w.graph, client, room))
    ensures Apart(table.live)
  {
    room := table.Create(params.name, params.maxPlayers, params.boardSize, client);
    SameGames(old(table.live), table.live, w.games);
  }

  lemma SameGames(before: set<Room>, live: set<Room>, games: map<Room, GameState<Client>>)
    requires before <= live
    requires forall r :: r in live - before ==> r.game == null
    requires forall r :: r in before ==> (r in games <==> r.game != null)
    requires forall r :: r in games ==> r in before && r.game.View() == games[r]
    ensures GamesOf(live) == games
  {
  }

  lemma CreateStepIs(w: Server.World, client: Client, room: Room)
    requires Server.Talks(w, client) && w.graph.clients[client].state.AtLeastLobby()
    requires w.graph.clients[client].room == null
    requires room !in w.graph.rooms && room.roomId == w.graph.nextId
    requires 2 <= room.maxPlayers <= ROOM_SEATS && room.boardSize in {4, 6, 8}
    ensures Server.OnCreate(w, client, room) == w.(graph := CreateRoom(w.graph, client, room))
  {
  }

  method HandleCreateRoom(table: RoomTable, client: Client, params: Option<NewRoom>)
    returns (sent: seq<Delivery>, room: Room?)
    requires Running(table) && client in table.clients && !client.isDisconnected
    modifies table`nextRoomId, table`live, table.rooms, client`room, client`state
    ensures Apart(table.live)
    ensures room == null <==> old(CreateVerdict(table, client, params)).Some?
    ensures room == null ==>
              && WorldOf(table) == old(WorldOf(table))
              && sent == Reply(client, Refused(old(CreateVerdict(table, client, params)).value))
    ensures room != null ==>
              && WorldOf(table) == Server.OnCreate(old(WorldOf(table)), client, room)
              && fresh(room) && Creatable(old(WorldOf(table)).graph, client, room)
              && room.name == params.value.name[..Min(|params.value.name|, MAX_ROOM_NAME_LENGTH - 1)]
              && client.room == room
              && room.maxPlayers == params.value.maxPlayers && room.boardSize == params.value.boardSize
              && sent == Reply(client, RoomCreated(room.roomId, room.name))
  {
    room := null;
    if !client.state.AtLeastLobby() {
      sent := Reply(client, Refused(NotAuthenticated));
    } else if client.room != null {
      sent := Reply(client, Refused(AlreadyInRoom));
    } else if params == None {
      sent := Reply(client, Refused(InvalidParams));
    } else if params.value.maxPlayers < 2 || params.value.maxPlayers > ROOM_SEATS {
      sent := Reply(client, Refused(InvalidParams));
    } else if params.value.boardSize < 4 || params.value.boardSize > 8 || params.value.boardSize % 2 != 0 {
      sent := Reply(client, Refused(InvalidParams));
    } else {
      ghost var w := WorldOf(table);
      RunningServes(table, client);
      room := AddRoom(table, client, params.value, w);
      if room == null {
        sent := Reply(client, Refused(RoomLimit));
      } else {
        CreateStepIs(w, client, room);
        sent := Reply(client, RoomCreated(room.roomId, room.name));
      }
    }
  }

  // ---- JOIN_ROOM ----

  ghost function Found(table: RoomTable, id: Option<int>): Room?
    reads table, table.rooms, table.live, table.clients`room, table.clients`state, table.clients`isDisconnected
  {
    if id.Some? then RoomById(table.View(), id.value) else null
  }

  /** The order of handle_join_room's checks. */
  ghost function JoinVerdict(client: Client, id: Option<int>, found: Room?): Option<Refusal>
    reads client`state, client`room, if found == null then {} else {found}
  {
    if !client.state.AtLeastLobby() then Some(NotAuthenticated)
    else if client.room != null then Some(AlreadyInRoom)
    else if id.None? || id.value <= 0 then Some(InvalidParams)
    else if found == null then Some(RoomNotFound)
    else if found.playerCount >= found.maxPlayers then Some(RoomFull)
    else None
  }

  /** Each refusal of JOIN_ROOM, by what is the matter. */
  lemma JoinRefused(client: Client, id: Option<int>, found: Room?)
    ensures var v, lobby := JoinVerdict(client, id, found), client.state in {InLobby, InRoom, InGame};
            && (v == Some(NotAuthenticated) <==> !lobby)
            && (v == Some(AlreadyInRoom) <==> lobby && client.room != null)
            && (v == Some(InvalidParams) <==>
                lobby && client.room == null && !(id.Some? && id.value > 0))
            && (v == Some(RoomNotFound) <==>
                lobby && client.room == null && id.Some? && id.value > 0 && found == null)
            && (v == Some(RoomFull) <==>
                && lobby && client.room == null && id.Some? && id.value > 0
                && found != null && found.playerCount >= found.maxPlayers)
            && (v.Some? ==> v.value in {NotAuthenticated, AlreadyInRoom, InvalidParams, RoomNotFound, RoomFull})
  {
  }

  /** Each refusal of CREATE_ROOM, by what is the matter. */
  lemma CreateRefused(table: RoomTable, client: Client, params: Option<NewRoom>)
    ensures var v, lobby := CreateVerdict(table, client, params), client.state in {InLobby, InRoom, InGame};
            var offered := params.Some? && params.value.maxPlayers in {2, 3, 4} && params.value.boardSize in {4, 6, 8};
            && (v == Some(NotAuthenticated) <==> !lobby)
            && (v == Some(AlreadyInRoom) <==> lobby && client.room != null)
            && (v == Some(InvalidParams) <==> lobby && client.room == null && !offered)
            && (v == Some(RoomLimit) <==>
                && lobby && client.room == null && offered
                && forall i :: 0 <= i < table.rooms.Length ==> table.rooms[i] != null)
            && (v.Some? ==> v.value in {NotAuthenticated, AlreadyInRoom, InvalidParams, RoomLimit})
  {
  }

  ghost predicate JoinHeard(listeners: set<Client>, sent: seq<Delivery>, client: Client, joined: Message,
                            told: Message) {
    forall c :: c in listeners ==> Inbox(sent, c) == (if c == client then [joined] else []) + [told]
  }

  lemma SeatedOnceMore(seats: seq<Client?>, i: int, c: Client)
    requires SeatedOnce(seats) && 0 <= i < |seats| && c !in seats
    ensures SeatedOnce(seats[i := c])
  {
  }

  /** room_add_player in a table whose games go on. */
  method Enter(table: RoomTable, room: Room, client: Client, ghost w: Server.World) returns (ok: bool)
    requires room in table.live && client in table.clients && |room.players| == ROOM_SEATS && Apart(table.live)
    requires w == WorldOf(table)
    modifies room`players, room`playerCount, client`room, client`state
    ensures room in w.graph.rooms && client in w.graph.clients
    ensures WorldOf(table) == w.(graph := AddPlayer(w.graph, room, client)) && Apart(table.live)
    ensures ok <==> CanJoin(w.graph, room, client)
    ensures ok ==> client.room == room && null in old(room.players) && client !in old(room.players)
    ensures ok ==> room.players == old(room.players)[IndexOf(old(room.players), null) := client]
  {
    hide SeatingOf, LinkOf, AddPlayer, CanJoin, IndexOf;
    ok := table.AddPlayer(room, client);
    SameGames(table.live, table.live, w.games);
  }

  /** The client is seated, or the room is full. */
  method JoinRoom(table: RoomTable, room: Room, client: Client, ghost w: Server.World)
    returns (ok: bool, sent: seq<Delivery>)
    requires room in table.live && client in table.clients && |room.players| == ROOM_SEATS && Apart(table.live)
    requires w == WorldOf(table) && SeatedOnce(room.players)
    modifies room`players, room`playerCount, client`room, client`state
    ensures room in w.graph.rooms && client in w.graph.clients
    ensures WorldOf(table) == w.(graph := AddPlayer(w.graph, room, client)) && Apart(table.live)
    ensures ok <==> CanJoin(w.graph, room, client)
    ensures ok ==> client.room == room
    ensures ok ==> JoinHeard(Listeners(room.players), sent, client, RoomJoined(room.roomId, room.name),
                             PlayerJoined(client.nickname))
    ensures !ok ==> sent == Reply(client, Refused(RoomFull))
  {
    ok := Enter(table, room, client, w);
    if ok {
      IndexOfIs(old(room.players), null);
      SeatedOnceMore(old(room.players), IndexOf(old(room.players), null), client);
      JoinedHeard(room, client);
      sent := Joined(room, client);
    } else {
      sent := Reply(client, Refused(RoomFull));
    }
  }

  /** ROOM_JOINED to the client and PLAYER_JOINED to everybody, the client included. */
  function Joined(room: Room, client: Client): seq<Delivery>
    reads client`nickname, client`isDisconnected, client`socketFd, room`players
    reads room.players`isDisconnected, room.players`socketFd
  {
    Reply(client, RoomJoined(room.roomId, room.name)) + Reached(room.players, PlayerJoined(client.nickname), null)
  }

  lemma JoinedHeard(room: Room, client: Client)
    requires SeatedOnce(room.players)
    ensures JoinHeard(Listeners(room.players), Joined(room, client), client,
                      RoomJoined(room.roomId, room.name), PlayerJoined(client.nickname))
  {
    forall c | c in Listeners(room.players)
      ensures Inbox(Joined(room, client), c)
           == (if c == client then [RoomJoined(room.roomId, room.name)] else []) + [PlayerJoined(client.nickname)]
    {
      InboxConcat(Reply(client, RoomJoined(room.roomId, room.name)),
                  Reached(room.players, PlayerJoined(client.nickname), null), c);
      ReplyInbox(client, RoomJoined(room.roomId, room.name), c);
      ReachedInbox(room.players, PlayerJoined(client.nickname), c);
    }
  }

  lemma FoundIs(g: Graph, id: int, room: Room?)
    requires IdsOk(g)
    requires room != null ==> room in g.rooms && room.roomId == id
    requires room == null ==> forall r :: r in g.rooms ==> r.roomId != id
    ensures RoomById(g, id) == room
  {
  }

  lemma NoRoomBelowOne(g: Graph, id: int)
    requires IdsOk(g) && id <= 0
    ensures RoomById(g, id) == null
  {
  }

  lemma JoinStepIs(w: Server.World, client: Client, id: int, room: Room)
    requires Membership.Inv(w.graph) && Server.Talks(w, client) && RoomById(w.graph, id) == room
    requires room in w.graph.rooms
    requires w.graph.clients[client].state.AtLeastLobby() && w.graph.clients[client].room == null
    ensures Server.OnJoin(w, client, id) == w.(graph := AddPlayer(w.graph, room, client))
    ensures CanJoin(w.graph, room, client) <==> w.graph.rooms[room].count < room.maxPlayers
  {
    Server.EnterIsJoin(w, client, room);
  }

  lemma NoJoin(w: Server.World, client: Client, id: int)
    requires client in w.graph.clients
    requires
      || !w.graph.clients[client].state.AtLeastLobby() || w.graph.clients[client].room != null
      || RoomById(w.graph, id) == null
    ensures Server.OnJoin(w, client, id) == w
  {
  }

  /** What the invariant says of the table that handle_join_room searches. */
  lemma TableOfRooms(table: RoomTable)
    requires Running(table)
    ensures Membership.Inv(table.View())
    ensures forall i :: 0 <= i < table.rooms.Length && table.rooms[i] != null ==> table.rooms[i] in table.live
    ensures forall r :: r in table.live ==> r in table.rooms[..]
  {
    assert SlotsOk(table.View());
    SlotsHoldRooms(table);
  }

  twostate predicate JoinAnswered(table: RoomTable, client: Client, id: Option<int>, new sent: seq<Delivery>)
    reads client, OwnRoom(client), Mates(client)
  {
    var found := old(Found(table, id));
    if old(JoinVerdict(client, id, found)).Some?
    then sent == Reply(client, Refused(old(JoinVerdict(client, id, found)).value))
    else
      && client.room == found
      && JoinHeard(Listeners(client.room.players), sent, client,
                   RoomJoined(client.room.roomId, client.room.name), PlayerJoined(client.nickname))
  }

  /** The search leaves everything as it is. */
  method Search(table: RoomTable, id: int, ghost w: Server.World) returns (room: Room?)
    requires Running(table) && w == WorldOf(table)
    ensures room == RoomById(w.graph, id) && WorldOf(table) == w && Apart(table.live)
    ensures room != null ==> room in table.live && SeatedOnce(room.players) && |room.players| == ROOM_SEATS
  {
    TableOfRooms(table);
    forall r | r in table.live ensures SeatedOnce(r.players) && |r.players| == ROOM_SEATS {
      RoomSeatedOnce(table, r);
    }
    room := GetByIdIn(table, id);
    FoundIs(w.graph, id, room);
  }

  method GetByIdIn(table: RoomTable, id: int) returns (room: Room?)
    requires forall i :: 0 <= i < table.rooms.Length && table.rooms[i] != null ==> table.rooms[i] in table.live
    requires forall r :: r in table.live ==> r in table.rooms[..]
    ensures room != null ==> room in table.live && room.roomId == id
    ensures room == null ==> forall r :: r in table.live ==> r.roomId != id
    ensures table.View() == old(table.View()) && GamesOf(table.live) == old(GamesOf(table.live))
    ensures old(Apart(table.live)) ==> Apart(table.live)
  {
    room := table.GetById(id);
  }

  /** handle_join_room. The id is None when the parameter is missing; atoi gives 0 for anything that is no number. */
  method HandleJoinRoom(table: RoomTable, client: Client, id: Option<int>) returns (sent: seq<Delivery>)
    requires Running(table) && client in table.clients && !client.isDisconnected
    modifies client`room, client`state, table.live`players, table.live`playerCount
    ensures WorldOf(table) == if id.Some? then Server.OnJoin(old(WorldOf(table)), client, id.value)
                              else old(WorldOf(table))
    ensures Apart(table.live)
    ensures JoinAnswered(table, client, id, sent)
  {
    ghost var w := WorldOf(table);
    RunningServes(table, client);
    if !client.state.AtLeastLobby() {
      if id.Some? { NoJoin(w, client, id.value); }
      sent := Reply(client, Refused(NotAuthenticated));
      return;
    }
    if client.room != null {
      if id.Some? { NoJoin(w, client, id.value); }
      sent := Reply(client, Refused(AlreadyInRoom));
      return;
    }
    if id == None {
      sent := Reply(client, Refused(InvalidParams));
      return;
    }
    if id.value <= 0 {
      NoRoomBelowOne(w.graph, id.value);
      NoJoin(w, client, id.value);
      sent := Reply(client, Refused(InvalidParams));
      return;
    }
    var found := Search(table, id.value, w);
    if found == null {
      NoJoin(w, client, id.value);
      sent := Reply(client, Refused(RoomNotFound));
      return;
    }
    JoinStepIs(w, client, id.value, found);
    var ok;
    ok, sent := JoinRoom(table, found, client, w);
  }

  // ---- LEAVE_ROOM ----

  /** What stays of the rooms when a client has left one of them. */
  lemma RoomsAfterLeaving(g: Graph, room: Room, c: Client)
    requires Seated(g, room) && c in g.clients && c in g.rooms[room].seats
    ensures var r := Membership.RemovePlayer(g, room, c);
            && r.rooms.Keys <= g.rooms.Keys
            && (forall q :: q in g.rooms && q != room ==> q in r.rooms && r.rooms[q] == g.rooms[q])
            && (room in r.rooms ==> r.rooms[room].game == g.rooms[room].game
                                    && (g.rooms[room].game != null ==> g.rooms[room].count - 1 >= 2))
  {
    IndexOfIs(g.rooms[room].seats, c);
    var i := IndexOf(g.rooms[room].seats, c);
    VacateSeated(g, room, c, i);
    AfterLeaveRooms(Vacate(g, room, c, i), room, c);
  }

  lemma AfterLeaveRooms(g: Graph, room: Room, c: Client)
    requires Seated(g, room)
    ensures var r := Membership.AfterLeave(g, room, c);
            && r.rooms.Keys <= g.rooms.Keys
            && (forall q :: q in g.rooms && q != room ==> q in r.rooms && r.rooms[q] == g.rooms[q])
            && (room in r.rooms ==> r.rooms[room].game == g.rooms[room].game
                                    && (g.rooms[room].game != null ==> g.rooms[room].count >= 2))
  {
  }

  lemma LiveAfterLeaving(table: RoomTable, g: Graph, room: Room, c: Client)
    requires Seated(g, room) && c in g.clients && c in g.rooms[room].seats
    requires table.View() == Membership.RemovePlayer(g, room, c)
    ensures table.live <= g.rooms.Keys
    ensures forall r :: r in table.live ==> r.game == g.rooms[r].game
    ensures room in table.live && room.game != null ==> g.rooms[room].count - 1 >= 2
  {
    RoomsAfterLeaving(g, room, c);
    assert table.live == table.View().rooms.Keys;
    forall r | r in table.live ensures r.game == g.rooms[r].game {
      assert SeatingOf(r) == table.View().rooms[r];
    }
  }

  /** The rooms that stay keep their games, and these are as they were. */
  method LeaveSeat(table: RoomTable, room: Room, client: Client, ghost g: Graph) returns (sent: seq<Delivery>)
    requires g == table.View() && Seated(g, room) && Apart(table.live)
    requires client in table.clients && client in room.players && |room.players| == ROOM_SEATS
    requires room.game != null ==> room.game.WellFormed()
    modifies table`live, table.rooms, room, Rooms.GameOf(room)`playerScores, client`room, client`state
    modifies (set c: Client | c in room.players)`room, (set c: Client | c in room.players)`state
    ensures table.View() == Membership.RemovePlayer(g, room, client)
    ensures table.live <= old(table.live) && forall r :: r in table.live ==> r.game == old(r.game)
    ensures forall r :: r in table.live && r.game != null ==> unchanged(r.game)
    ensures Apart(table.live)
    ensures sent == old(LeaveNews(room, client))
  {
    hide LeaveNews, Membership.RemovePlayer, LeaverForfeits;
    assert g.rooms[room] == SeatingOf(room);
    var ok;
    ok, sent := table.RemovePlayer(room, client);
    LiveAfterLeaving(table, g, room, client);
  }

  method LeaveApart(table: RoomTable, room: Room, client: Client, ghost g: Graph,
                    ghost games: map<Room, GameState<Client>>)
    returns (sent: seq<Delivery>)
    requires g == table.View() && Seated(g, room) && Apart(table.live) && GamesAs(table.live, games)
    requires client in table.clients && client in room.players && |room.players| == ROOM_SEATS
    requires room.game != null ==> room.game.WellFormed()
    modifies table`live, table.rooms, room, Rooms.GameOf(room)`playerScores, client`room, client`state
    modifies (set c: Client | c in room.players)`room, (set c: Client | c in room.players)`state
    ensures table.View() == Membership.RemovePlayer(g, room, client)
    ensures GamesAs(table.live, games) && Apart(table.live)
    ensures sent == old(LeaveNews(room, client))
  {
    hide LeaveNews, RoomTable.View, Membership.RemovePlayer;
    sent := LeaveSeat(table, room, client, g);
    forall r | r in table.live && r.game != null ensures r.game.View() == games[r] {
      assert unchanged(r.game) && unchanged(r.game.cards);
    }
  }

  /** room_remove_player in a table whose other games go on. */
  method LeaveTable(table: RoomTable, room: Room, client: Client, ghost w: Server.World) returns (sent: seq<Delivery>)
    requires w == WorldOf(table) && Apart(table.live) && Seated(w.graph, room)
    requires client in table.clients && client in room.players && |room.players| == ROOM_SEATS
    requires room.game != null ==> room.game.WellFormed()
    modifies table`live, table.rooms, room, Rooms.GameOf(room)`playerScores, client`room, client`state
    modifies (set c: Client | c in room.players)`room, (set c: Client | c in room.players)`state
    ensures WorldOf(table) == Server.WithGraph(w, Membership.RemovePlayer(w.graph, room, client))
    ensures Apart(table.live)
    ensures sent == old(LeaveNews(room, client))
  {
    hide LeaveNews;
    GamesAreThose(table, w);
    sent := LeaveApart(table, room, client, w.graph, w.games);
    WorldLeft(table, w, Membership.RemovePlayer(w.graph, room, client));
  }

  lemma GamesAreThose(table: RoomTable, w: Server.World)
    requires w == WorldOf(table)
    ensures GamesAs(table.live, w.games)
  {
  }

  lemma WorldLeft(table: RoomTable, w: Server.World, graph: Graph)
    requires table.View() == graph && GamesAs(table.live, w.games)
    ensures WorldOf(table) == Server.WithGraph(w, graph)
  {
    GamesLeft(table.live, w.games);
    assert table.live == graph.rooms.Keys;
  }

  lemma LeaveStepIs(w: Server.World, client: Client, room: Room)
    requires Membership.Inv(w.graph) && Server.Talks(w, client) && w.graph.clients[client].room == room
    ensures room in w.graph.rooms && Seated(w.graph, room) && client in w.graph.rooms[room].seats
    ensures Server.OnLeave(w, client) == Server.WithGraph(w, Membership.RemovePlayer(w.graph, room, client))
    ensures Membership.Inv(Membership.RemovePlayer(w.graph, room, client))
  {
    InvSeated(w.graph, room);
    RemoveKeeps(w.graph, room, client);
  }

  lemma NotSitting(w: Server.World, client: Client)
    requires Membership.Inv(w.graph) && (client in w.graph.clients ==> w.graph.clients[client].room == null)
    ensures Server.OnLeave(w, client) == w
  {
  }

  /** LEFT_ROOM to the client, and PLAYER_LEFT to those who are still there, if the room is. */
  ghost predicate LeaveHeard(sent: seq<Delivery>, client: Client, name: string, connected: bool,
                             listeners: set<Client>) {
    && (connected ==> LeftRoom in Inbox(sent, client))
    && forall c :: c in listeners ==> Inbox(sent, c) != [] && Inbox(sent, c)[|Inbox(sent, c)| - 1] == PlayerLeft(name)
  }

  lemma LeaveIsHeard(before: seq<Delivery>, client: Client, seats: seq<Client?>, name: string)
    requires SeatedOnce(seats)
    ensures LeaveHeard(before + (Reply(client, LeftRoom) + Reached(seats, PlayerLeft(name), null)), client, name,
                       client.Reachable(), Listeners(seats))
  {
    var told := Reached(seats, PlayerLeft(name), null);
    var sent := before + (Reply(client, LeftRoom) + told);
    InboxConcat(before, Reply(client, LeftRoom) + told, client);
    InboxConcat(Reply(client, LeftRoom), told, client);
    if client.Reachable() {
      ReplyInbox(client, LeftRoom, client);
    }
    forall c | c in Listeners(seats)
      ensures Inbox(sent, c) != [] && Inbox(sent, c)[|Inbox(sent, c)| - 1] == PlayerLeft(name)
    {
      InboxConcat(before, Reply(client, LeftRoom) + told, c);
      InboxConcat(Reply(client, LeftRoom), told, c);
      ReachedInbox(seats, PlayerLeft(name), c);
    }
  }

  lemma LeaveIsHeardAlone(before: seq<Delivery>, client: Client, name: string)
    ensures LeaveHeard(before + Reply(client, LeftRoom), client, name, client.Reachable(), {})
  {
    InboxConcat(before, Reply(client, LeftRoom), client);
    if client.Reachable() {
      ReplyInbox(client, LeftRoom, client);
    }
  }

  lemma SlotsHoldRooms(table: RoomTable)
    requires SlotsOk(table.View())
    ensures forall i :: 0 <= i < table.rooms.Length && table.rooms[i] != null ==> table.rooms[i] in table.live
    ensures forall r :: r in table.live ==> r in table.rooms[..]
  {
    var g := table.View();
    assert g.slots == table.rooms[..];
    forall i | 0 <= i < table.rooms.Length && table.rooms[i] != null ensures table.rooms[i] in table.live {
      assert g.slots[i] in g.rooms;
    }
  }

  lemma SurvivorSeats(table: RoomTable, room: Room)
    requires Membership.Inv(table.View()) && room in table.live
    ensures SeatedOnce(room.players)
  {
    assert room in table.View().rooms && table.View().rooms[room] == SeatingOf(room);
    assert SeatingOk(room, table.View().rooms[room]);
  }

  /** The end of handle_leave_room: LEFT_ROOM to the client, and PLAYER_LEFT to those still in the room. */
  ghost function Parting(client: Client, there: bool, seats: seq<Client?>): seq<Delivery>
    reads client`nickname, client`isDisconnected, client`socketFd
    reads seats`isDisconnected, seats`socketFd
  {
    Reply(client, LeftRoom) + if there then Reached(seats, PlayerLeft(client.nickname), null) else []
  }

  /** PLAYER_LEFT to those still in the room the client has left, which room_get_by_id finds if it is there. */
  method TellLeft(table: RoomTable, client: Client, room: Room, before: seq<Delivery>, ghost w: Server.World)
    returns (sent: seq<Delivery>)
    requires WorldOf(table) == w && Membership.Inv(w.graph) && Apart(table.live)
    requires forall r :: r in w.graph.rooms && r.roomId == room.roomId ==> r == room
    ensures WorldOf(table) == w && Apart(table.live)
    ensures sent == before + Parting(client, room in table.live, room.players)
    ensures LeaveHeard(sent, client, client.nickname, client.Reachable(),
                       if room in table.live then Listeners(room.players) else {})
  {
    hide Reached, Inbox, LeaveHeard, GamesIn, BoardsIn;
    assert table.View() == w.graph;
    SlotsHoldRooms(table);
    if room in table.live { SurvivorSeats(table, room); }
    assert forall r :: r in table.live && r.roomId == room.roomId ==> r in w.graph.rooms && r == room;
    var found := GetByIdIn(table, room.roomId);
    if found != null {
      sent := before + (Reply(client, LeftRoom) + Reached(found.players, PlayerLeft(client.nickname), null));
      LeaveIsHeard(before, client, room.players, client.nickname);
    } else {
      sent := before + Reply(client, LeftRoom);
      LeaveIsHeardAlone(before, client, client.nickname);
    }
  }

  lemma IdStaysWithRoom(g: Graph, g': Graph, room: Room)
    requires IdsOk(g) && room in g.rooms && g'.rooms.Keys <= g.rooms.Keys
    ensures forall r :: r in g'.rooms && r.roomId == room.roomId ==> r == room
  {
  }

  /** What handle_leave_room finds in the room of its client. */
  ghost predicate CanLeave(table: RoomTable, client: Client, room: Room, w: Server.World)
    reads table, table.live, room, GamesIn(table.live), BoardsIn(table.live)
  {
    && Apart(table.live) && Seated(w.graph, room) && IdsOk(w.graph)
    && client in table.clients && client in w.graph.clients && client in room.players && |room.players| == ROOM_SEATS
    && room in w.graph.rooms && client in w.graph.rooms[room].seats
    && room in table.live && (room.game != null ==> room.game.WellFormed())
  }

  lemma RunningLeaves(table: RoomTable, client: Client, room: Room)
    requires Running(table) && client in table.clients && !client.isDisconnected && client.room == room
    ensures CanLeave(table, client, room, WorldOf(table))
    ensures Membership.Inv(Membership.RemovePlayer(WorldOf(table).graph, room, client))
    ensures Server.OnLeave(WorldOf(table), client)
            == Server.WithGraph(WorldOf(table), Membership.RemovePlayer(WorldOf(table).graph, room, client))
  {
    RunningServes(table, client);
    LeaveStepIs(WorldOf(table), client, room);
    assert WorldOf(table).graph.rooms[room] == SeatingOf(room);
    RoomSeatedOnce(table, room);
  }

  method LeaveServed(table: RoomTable, client: Client, room: Room, ghost w: Server.World) returns (sent: seq<Delivery>)
    requires w == WorldOf(table) && CanLeave(table, client, room, w)
    requires Membership.Inv(Membership.RemovePlayer(w.graph, room, client))
    modifies table`live, table.rooms, room, Rooms.GameOf(room)`playerScores, client`room, client`state
    modifies (set c: Client | c in room.players)`room, (set c: Client | c in room.players)`state
    ensures WorldOf(table) == Server.WithGraph(w, Membership.RemovePlayer(w.graph, room, client))
    ensures Apart(table.live)
    ensures sent == old(LeaveNews(room, client)) + Parting(client, room in table.live, room.players)
    ensures LeaveHeard(sent, client, client.nickname, client.Reachable(),
                       if room in table.live then Listeners(room.players) else {})
  {
    hide LeaveNews, Parting, LeaveHeard;
    RoomsAfterLeaving(w.graph, room, client);
    IdStaysWithRoom(w.graph, Membership.RemovePlayer(w.graph, room, client), room);
    sent := LeaveTable(table, room, client, w);
    sent := TellLeft(table, client, room, sent, Server.WithGraph(w, Membership.RemovePlayer(w.graph, room, client)));
  }

  method HandleLeaveRoom(table: RoomTable, client: Client) returns (sent: seq<Delivery>)
    requires Running(table) && client in table.clients && !client.isDisconnected
    modifies table`live, table.rooms, OwnRoom(client), OwnGame(client)`playerScores, client`room, client`state
    modifies Mates(client)`room, Mates(client)`state
    ensures WorldOf(table) == Server.OnLeave(old(WorldOf(table)), client)
    ensures Apart(table.live)
    ensures if old(client.room) == null then sent == Reply(client, Refused(NotInRoom))
            else LeaveHeard(sent, client, client.nickname, client.Reachable(),
                            if old(client.room) in table.live then Listeners(old(client.room).players) else {})
    ensures old(client.room) != null ==>
              && (old(client.room.game) != null ==> old(client.room.game.WellFormed()))
              && sent == old(LeaveNews(client.room, client))
                         + Parting(client, old(client.room) in table.live, old(client.room).players)
  {
    hide LeaveNews, Parting, LeaveHeard;
    if client.room == null {
      NoSeatNoLeave(table, client);
      sent := Reply(client, Refused(NotInRoom));
      return;
    }
    RunningLeaves(table, client, client.room);
    sent := LeaveServed(table, client, client.room, WorldOf(table));
  }

  lemma NoSeatNoLeave(table: RoomTable, client: Client)
    requires Running(table) && client in table.clients && client.room == null
    ensures Server.OnLeave(WorldOf(table), client) == WorldOf(table) && Apart(table.live)
  {
    RunningServes(table, client);
    NotSitting(WorldOf(table), client);
  }
}
