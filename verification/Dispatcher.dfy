/** handle_message of server_src/client_handler.c: which handler gets a line, and what a running server is
    afterwards. */
module Dispatcher {
  import opened SeqFacts
  import opened Games
  import opened Structs
  import opened Text
  import opened Messages
  import opened Membership
  import opened Rooms
  import opened Deliveries
  import opened Worlds
  import opened ClientLists
  import opened Arrivals
  import opened RoomHandlers
  import opened StateMessage
  import FlipHandler
  import ReadyHandler
  import StartHandler
  import ReconnectHandler
  import Reconnects
  import ClientTable
  import Keepalive
  import Server

  /** A line, with what its handler reads out of the parameters. */
  datatype Command =
    | Hello(nickname: Option<string>)
    | Reconnect(oldId: int)
    | CreateRoom(params: Option<NewRoom>)
    | JoinRoom(id: Option<int>)
    | Flip(card: Option<int>)
    | ListRooms
    | LeaveRoom
    | Ready
    | StartGame
    | Pong
    | Unknown

  /** CREATE_ROOM is not refused. */
  ghost predicate MayFound(w: Server.World, client: Client, params: Option<NewRoom>)
    requires client in w.graph.clients
  {
    && w.graph.clients[client].state.AtLeastLobby() && w.graph.clients[client].room == null
    && params.Some? && params.value.InRange() && null in w.graph.slots
  }

  /** START_GAME is not refused. */
  ghost predicate MayStart(w: Server.World, client: Client)
    requires client in w.graph.clients
  {
    Server.Sits(w, client) &&
    var room := w.graph.clients[client].room as Room;
    var s := w.graph.rooms[room];
    s.owner == client && s.game == null && s.count >= room.maxPlayers
  }

  /** The deadlines of all clients. */
  ghost function TimersIn(clients: set<Client>): map<Client, Keepalive.Timers>
    reads clients
  {
    map c | c in clients :: Keepalive.TimersOf(c)
  }

  /** The record RECONNECT takes over: the one with the id, unless it is connected or its time is up. */
  ghost function Claimed(t: ClientTable.Table, timers: map<Client, Keepalive.Timers>, id: int, at: int): Client? {
    var o := ClientTable.Find(t.slots, id, 0);
    if id > 0 && o in timers && Keepalive.ReconnectAccepted(timers[o], at) then o else null
  }

  /** The game is none of those that are played. */
  ghost predicate NewGame(w: Server.World, game: Game<Client>) {
    forall r :: r in w.graph.rooms ==> w.graph.rooms[r].game != game
  }

  /** What a command is to the server machine; None when it is refused, or concerns neither rooms nor games. */
  ghost predicate Means(w: Server.World, t: ClientTable.Table, timers: map<Client, Keepalive.Timers>,
                        command: Command, client: Client, at: int, e: Option<Server.Event>)
    requires client in w.graph.clients
  {
    match command
    case Hello(name) => e == if name.Some? then Some(Server.Hello(client)) else None
    case Reconnect(id) =>
      var o := Claimed(t, timers, id, at);
      e == if o == null then None else Some(Server.Reconnect(o, client))
    case CreateRoom(params) =>
      if MayFound(w, client, params)
      then e.Some? && e.value.Create? && e.value.c == client && Asked(w, client, params.value, e.value.room)
      else e == None
    case JoinRoom(id) => e == if id.Some? then Some(Server.Join(client, id.value)) else None
    case Flip(card) => e == if card.Some? then Some(Server.Flip(client, card.value)) else None
    case LeaveRoom => e == Some(Server.Leave(client))
    case Ready => e == Some(Server.Ready(client))
    case StartGame =>
      if MayStart(w, client)
      then e.Some? && e.value.StartGame? && e.value.c == client
           && Server.Startable(w, client, e.value.values) && NewGame(w, e.value.game)
      else e == None
    case _ => e == None
  }

  /** Line by line, with the conditions in the records of client and room: HELLO with a name, JOIN_ROOM with an id,
      FLIP with a card, LEAVE_ROOM and READY come to what they say, whatever becomes of it; CREATE_ROOM, START_GAME and
      RECONNECT only when they are not refused; nothing else concerns rooms and games. */
  lemma LineMeans(w: Server.World, t: ClientTable.Table, timers: map<Client, Keepalive.Timers>,
                  command: Command, client: Client, at: int, e: Option<Server.Event>)
    requires client in w.graph.clients && !w.graph.clients[client].disconnected
    requires Means(w, t, timers, command, client, at, e)
    ensures command.Hello? ==> e == if command.nickname.Some? then Some(Server.Hello(client)) else None
    ensures command.JoinRoom? ==> e == if command.id.Some? then Some(Server.Join(client, command.id.value)) else None
    ensures command.Flip? ==> e == if command.card.Some? then Some(Server.Flip(client, command.card.value)) else None
    ensures command.LeaveRoom? ==> e == Some(Server.Leave(client))
    ensures command.Ready? ==> e == Some(Server.Ready(client))
    ensures command.ListRooms? || command.Pong? || command.Unknown? ==> e == None
    ensures command.CreateRoom? ==>
              var link, params := w.graph.clients[client], command.params;
              && (e.Some? <==> && link.state in {InLobby, InRoom, InGame} && link.room == null && params.Some?
                               && 2 <= params.value.maxPlayers <= 4 && params.value.boardSize in {4, 6, 8}
                               && null in w.graph.slots)
              && (e.Some? ==>
                    && e.value.Create? && e.value.c == client
                    && e.value.room.roomId == w.graph.nextId && e.value.room.maxPlayers == params.value.maxPlayers
                    && e.value.room.boardSize == params.value.boardSize && e.value.room.name <= params.value.name
                    && |e.value.room.name| == if |params.value.name| < 63 then |params.value.name| else 63)
    ensures command.StartGame? ==>
              var room := w.graph.clients[client].room;
              && (e.Some? <==> && room in w.graph.rooms && w.graph.rooms[room as Room].owner == client
                               && w.graph.rooms[room as Room].game == null
                               && w.graph.rooms[room as Room].count >= (room as Room).maxPlayers)
              && (e.Some? ==> e.value.StartGame? && e.value.c == client)
    ensures command.Reconnect? ==>
              var o := ClientTable.Find(t.slots, command.oldId, 0);
              && (e.Some? <==> && command.oldId > 0 && o in timers
                               && !(timers[o].open && !timers[o].disconnected)
                               && at - (if timers[o].disconnected then timers[o].disconnectTime
                                        else timers[o].lastActivity) <= 90)
              && (e.Some? ==> e.value == Server.Reconnect(o, client))
  {
    hide Server.Startable, ClientTable.Find;
  }

  /** The room that was asked for, with the next id, and not in the table yet. */
  ghost predicate Asked(w: Server.World, client: Client, params: NewRoom, room: Room) {
    && Creatable(w.graph, client, room)
    && room.maxPlayers == params.maxPlayers && room.boardSize == params.boardSize
    && room.name == params.name[..Min(|params.name|, MAX_ROOM_NAME_LENGTH - 1)]
  }

  /** Only the socket of a client that is marked has been closed, and nicknames fit their field. */
  ghost predicate Records(clients: set<Client>)
    reads clients`socketFd, clients`isDisconnected, clients`nickname
  {
    forall c :: c in clients ==> c.socketFd >= (if c.isDisconnected then -1 else 0) && |c.nickname| < MAX_NICK_LENGTH
  }

  ghost predicate Serving(table: RoomTable, list: ClientList)
    reads table, table.rooms, table.live, GamesIn(table.live), BoardsIn(table.live)
    reads table.clients`room, table.clients`state, table.clients`isDisconnected
    reads table.clients`socketFd, table.clients`nickname, list, list.clientArray
    reads list.clientArray[..]`clientId, list.clientArray[..]`isDisconnected
    reads list.clientArray[..]`socketFd
  {
    Running(table) && InStep(table, list) && Records(table.clients)
  }

  /** The client that has sent a line is connected. */
  ghost predicate Speaks(table: RoomTable, client: Client)
    reads table, client`isDisconnected
  {
    client in table.clients && !client.isDisconnected
  }

  ghost function After(w: Server.World, e: Option<Server.Event>): Server.World
    requires Server.Inv(w)
  {
    if e.Some? then Server.Step(w, e.value) else w
  }

  ghost predicate Safe(w: Server.World, e: Option<Server.Event>) {
    e.Some? ==> Server.Inv(w) && Server.Harmless(w, e.value)
  }

  // ---- what is sent ----

  twostate predicate GreetAnswered(client: Client, nickname: Option<string>, new sent: seq<Delivery>)
    reads client
  {
    sent == Reply(client, if old(client.state) != Connected then Refused(AlreadyAuthenticated)
                          else if nickname.None? then Refused(InvalidParams) else Welcome(client.clientId))
  }

  twostate predicate CreateAnswered(table: RoomTable, client: Client, params: Option<NewRoom>, new sent: seq<Delivery>)
    reads client
  {
    if old(CreateVerdict(table, client, params)).Some?
    then sent == Reply(client, Refused(old(CreateVerdict(table, client, params)).value))
    else client.room != null && sent == Reply(client, RoomCreated(client.room.roomId, client.room.name))
  }

  twostate predicate LeaveAnswered(table: RoomTable, client: Client, new sent: seq<Delivery>)
    reads *
  {
    if old(client.room) == null then sent == Reply(client, Refused(NotInRoom))
    else
      && (old(client.room.game) != null ==> old(client.room.game.WellFormed()))
      && sent == old(LeaveNews(client.room, client))
                 + Parting(client, old(client.room) in table.live, old(client.room).players)
  }

  twostate predicate StartAnswered(client: Client, new sent: seq<Delivery>)
    reads client
  {
    if old(StartHandler.StartVerdict(client)).Some?
    then sent == old(Reply(client, Refused(StartHandler.StartVerdict(client).value)))
    else
      client.room != null
      && StartHandler.AllHeard(old(Listeners(client.room.players)), sent, GameCreated(client.room.boardSize))
  }

  twostate predicate ReconnectAnswered(list: ClientList, client: Client, id: int, now: int, new sent: seq<Delivery>)
    reads *
  {
    if old(ReconnectHandler.ReconnectVerdict(list, id, now)).Some?
    then sent == Reply(client, Refused(old(ReconnectHandler.ReconnectVerdict(list, id, now)).value))
    else
      && (client.room != null && client.room.game != null ==> client.room.game.WellFormed())
      && sent == ReconnectHandler.ReturnNews(client)
  }

  /** What each line is answered with, and who else hears of it. LIST_ROOMS is answered by a text of its own. */
  twostate predicate Answered(table: RoomTable, list: ClientList, client: Client, command: Command, now: int,
                              new sent: seq<Delivery>)
    reads *
  {
    match command
    case Hello(name) => GreetAnswered(client, name, sent)
    case Reconnect(id) => ReconnectAnswered(list, client, id, now, sent)
    case CreateRoom(params) => CreateAnswered(table, client, params, sent)
    case JoinRoom(id) => JoinAnswered(table, client, id, sent)
    case Flip(card) => FlipHandler.FlipAnswered(client, card, sent)
    case LeaveRoom => LeaveAnswered(table, client, sent)
    case Ready => ReadyHandler.ReadyAnswered(client, sent)
    case StartGame => StartAnswered(client, sent)
    case Unknown => sent == Reply(client, Refused(InvalidCommand))
    case _ => sent == []
  }

  // ---- what becomes of the client's record ----

  /** An error is counted. */
  function Counted(s: Standing, refused: bool): (r: Standing)
    ensures r.errors == s.errors + if refused then 1 else 0
  {
    if refused then s.(errors := s.errors + 1) else s
  }

  /** The first HELLO gives the name, cut to 31 characters. */
  function Greeted(s: Standing, first: bool, nickname: Option<string>): (r: Standing)
    ensures first && nickname.Some? && |nickname.value| <= 31 ==> r.nickname == nickname.value
    ensures first && nickname.Some? && |nickname.value| > 31 ==> |r.nickname| == 31 && r.nickname < nickname.value
    ensures !first || nickname.None? ==> r == s
  {
    if first && nickname.Some? then s.(nickname := nickname.value[..Min(|nickname.value|, 31)]) else s
  }

  /** The connection is the same, and the name still fits. */
  predicate Same(s: Standing, r: Standing) {
    r.id == s.id && r.socket == s.socket && r.marked == s.marked && |r.nickname| < MAX_NICK_LENGTH
  }

  /** What a line does to the record of the client it comes from. */
  twostate predicate Noted(list: ClientList, client: Client, command: Command, now: int)
    reads client
  {
    var s := old(StandingOf(client));
    match command
    case Hello(name) => StandingOf(client) == Greeted(s, old(client.state) == Connected, name)
    case Reconnect(id) =>
      var o := old(ReconnectHandler.Accepted(list, id, now));
      StandingOf(client) == if o != null then Reconnects.Renewed(old(StandingOf(o)), s, now) else s
    case Flip(card) => StandingOf(client) == Counted(s, old(FlipHandler.FlipVerdict(client, card)).Some?)
    case Pong => StandingOf(client) == s.(waiting := false, lastPong := now, lastActivity := now)
    case Unknown => StandingOf(client) == Counted(s, true)
    case _ => StandingOf(client) == s
  }

  /** The record that has been taken over, as it was. */
  ghost function TakenOver(standing: map<Client, Standing>, e: Option<Server.Event>): Option<Standing> {
    if e.Some? && e.value.Reconnect? && e.value.o in standing then Some(standing[e.value.o]) else None
  }

  /** Field by field: only PONG, the first HELLO and an accepted RECONNECT make a difference to the timers, to the
      nickname or to the id. */
  predicate Remembered(s: Standing, r: Standing, first: bool, command: Command, o: Option<Standing>, now: int) {
    && (command.Pong? ==> !r.waiting && r.lastPong == now && r.lastActivity == now && r.lastPing == s.lastPing)
    && (o.Some? ==> !r.waiting && r.lastPong == now && r.lastActivity == now && r.lastPing == 0)
    && (!command.Pong? && o.None? ==>
          && r.waiting == s.waiting && r.lastPing == s.lastPing
          && r.lastPong == s.lastPong && r.lastActivity == s.lastActivity)
    && (command.Hello? && first && command.nickname.Some? ==>
          && r.nickname <= command.nickname.value
          && |r.nickname| == if |command.nickname.value| < 31 then |command.nickname.value| else 31)
    && (!(command.Hello? && first && command.nickname.Some?) && o.None? ==> r.nickname == s.nickname)
    && (if o.Some? then r.id == o.value.id && r.nickname == o.value.nickname else r.id == s.id)
    && r.socket == s.socket && !r.marked && (o.Some? ==> command.Reconnect?)
  }

  /** The record that has been taken over is freed. */
  ghost function Freed(e: Option<Server.Event>): set<Client> {
    if e.Some? && e.value.Reconnect? then {e.value.o} else {}
  }

  /** strncpy into the nickname's 32 bytes, and the client is in the lobby. */
  method TakeName(client: Client, nickname: string)
    modifies client`nickname, client`state
    ensures client.nickname == nickname[..Min(|nickname|, 31)] && client.state == InLobby
  {
    client.nickname := nickname[..Min(|nickname|, 31)];
    client.state := InLobby;
  }

  method HandleHello(table: RoomTable, client: Client, nickname: Option<string>) returns (sent: seq<Delivery>)
    requires Speaks(table, client) && Apart(table.live)
    modifies client`nickname, client`state
    ensures WorldOf(table) == if nickname.Some? then Server.OnHello(old(WorldOf(table)), client)
                              else old(WorldOf(table))
    ensures Apart(table.live)
    ensures sent == Reply(client, if old(client.state) != Connected then Refused(AlreadyAuthenticated)
                                  else if nickname.None? then Refused(InvalidParams) else Welcome(client.clientId))
    ensures client.nickname == if old(client.state) == Connected && nickname.Some?
                               then nickname.value[..Min(|nickname.value|, 31)] else old(client.nickname)
  {
    if client.state != Connected {
      return Reply(client, Refused(AlreadyAuthenticated));
    }
    if nickname.None? {
      return Reply(client, Refused(InvalidParams));
    }
    ghost var w := WorldOf(table);
    TakeName(client, nickname.value);
    table.OneClientChanged(client);
    assert table.View() == WithState(w.graph, client, InLobby);
    assert GamesOf(table.live) == w.games;
    return Reply(client, Welcome(client.clientId));
  }

  /** All that a running server needs besides the order of its rooms and games. */
  ghost predicate Steady(table: RoomTable, list: ClientList)
    reads table, table.live, GamesIn(table.live), BoardsIn(table.live), list, list.clientArray
    reads table.clients`socketFd, table.clients`isDisconnected, table.clients`nickname
    reads list.clientArray[..]`clientId, list.clientArray[..]`isDisconnected
    reads list.clientArray[..]`socketFd
  {
    Apart(table.live) && InStep(table, list) && Records(table.clients)
  }

  predicate Fitting(standing: map<Client, Standing>) {
    forall c :: c in standing ==> standing[c].socket >= (if standing[c].marked then -1 else 0)
                                  && |standing[c].nickname| < MAX_NICK_LENGTH
  }

  /** The list is in order, knows these clients, and holds of each what its record says. */
  ghost predicate Orderly(t: ClientTable.Table, cs: seq<Client?>, standing: map<Client, Standing>) {
    && ClientTable.Inv(t) && standing.Keys == ClientTable.Held(t.slots) && |cs| == |t.slots|
    && (forall i :: 0 <= i < |cs| && cs[i] == null ==> t.slots[i].Free?)
    && (forall i :: 0 <= i < |cs| && cs[i] != null ==>
          && cs[i] in standing
          && var r := standing[cs[i]]; t.slots[i] == ClientTable.Taken(cs[i], r.id, r.marked && r.socket == -1))
    && Fitting(standing)
  }

  lemma RecordsFit(clients: set<Client>, some: set<Client>)
    requires Records(clients) && some <= clients
    ensures Fitting(Standings(some))
  {
  }

  lemma ServingOrderly(table: RoomTable, list: ClientList)
    requires Serving(table, list)
    ensures Orderly(list.View(), list.clientArray[..], Standings(table.clients))
  {
    var s, cs := list.View().slots, list.clientArray[..];
    forall i | 0 <= i < |cs| ensures s[i] == EntryOf(cs[i]) && (cs[i] != null ==> cs[i] in table.clients) {
      assert cs[i] != null ==> s[i].client in ClientTable.Held(s);
    }
  }

  lemma StillSteady(table: RoomTable, list: ClientList, t: ClientTable.Table, standing: map<Client, Standing>)
    requires Orderly(t, list.clientArray[..], standing) && Apart(table.live)
    requires list.clientCount == t.count && list.nextClientId == t.nextId && Standings(table.clients) == standing
    ensures Steady(table, list)
  {
    hide ClientTable.Inv, ClientTable.Held, Apart;
    var cs := list.clientArray[..];
    forall i | 0 <= i < |cs| ensures list.View().slots[i] == t.slots[i] {
      assert list.View().slots[i] == EntryOf(cs[i]);
      assert cs[i] != null ==> cs[i] in table.clients;
    }
    assert list.View() == t;
    assert table.clients == standing.Keys;
    forall c | c in table.clients
      ensures c.socketFd >= (if c.isDisconnected then -1 else 0) && |c.nickname| < MAX_NICK_LENGTH
    {
      assert c in standing;
    }
  }

  lemma StaysSame(s: Standing, r: Standing, first: bool, command: Command, now: int)
    requires Remembered(s, r, first, command, None, now) && |s.nickname| < MAX_NICK_LENGTH && !s.marked
    ensures Same(s, r)
  {
  }

  /** A record that keeps its id, its socket and its mark leaves the list in order. */
  lemma StillOrderly(t: ClientTable.Table, cs: seq<Client?>, standing: map<Client, Standing>, c: Client, r: Standing)
    requires Orderly(t, cs, standing) && c in standing && Same(standing[c], r)
    ensures Orderly(t, cs, standing[c := r])
  {
    hide ClientTable.Inv, ClientTable.Held;
    assert standing[c := r].Keys == standing.Keys;
  }

  lemma RunningInOrder(table: RoomTable)
    requires Running(table)
    ensures Server.Inv(WorldOf(table)) && Apart(table.live)
  {
  }

  lemma Known(table: RoomTable, list: ClientList, client: Client)
    requires Serving(table, list) && Speaks(table, client)
    ensures Running(table) && Server.Inv(WorldOf(table)) && client in WorldOf(table).graph.clients
    ensures client in table.clients && !client.isDisconnected && |client.nickname| < MAX_NICK_LENGTH
    ensures client in Standings(table.clients) && Standings(table.clients)[client] == StandingOf(client)
    ensures |StandingOf(client).nickname| < MAX_NICK_LENGTH && !StandingOf(client).marked
  {
  }

  // ---- the handlers leave the list and what it knows as they are ----

  method Leave(table: RoomTable, client: Client) returns (sent: seq<Delivery>)
    requires Running(table) && client in table.clients && !client.isDisconnected
    modifies table`live, table.rooms, OwnRoom(client), OwnGame(client)`playerScores, client`room, client`state
    modifies Mates(client)`room, Mates(client)`state
    ensures Standings(table.clients) == old(Standings(table.clients))[client := StandingOf(client)]
    ensures StandingOf(client) == old(StandingOf(client)) && Apart(table.live)
    ensures WorldOf(table) == Server.OnLeave(old(WorldOf(table)), client)
    ensures LeaveAnswered(table, client, sent)
  {
    hide LeaveNews, Parting, LeaveHeard, Server.OnLeave, GamesIn, BoardsIn;
    hide Running, Server.Inv, WorldOf, Apart, Mates, OwnRoom, OwnGame, OwnBoard;
    ghost var standing := Standings(table.clients);
    sent := HandleLeaveRoom(table, client);
    assert Standings(table.clients) == standing[client := StandingOf(client)];
  }

  method Join(table: RoomTable, client: Client, id: Option<int>) returns (sent: seq<Delivery>)
    requires Running(table) && client in table.clients && !client.isDisconnected
    modifies client`room, client`state, table.live`players, table.live`playerCount
    ensures Standings(table.clients) == old(Standings(table.clients))[client := StandingOf(client)]
    ensures StandingOf(client) == old(StandingOf(client)) && Apart(table.live)
    ensures WorldOf(table) == if id.Some? then Server.OnJoin(old(WorldOf(table)), client, id.value)
                              else old(WorldOf(table))
    ensures JoinAnswered(table, client, id, sent)
  {
    hide JoinAnswered, Server.OnJoin;
    hide Running, Server.Inv, WorldOf, Apart, Mates, OwnRoom, OwnGame, OwnBoard;
    ghost var standing := Standings(table.clients);
    sent := HandleJoinRoom(table, client, id);
    assert Standings(table.clients) == standing[client := StandingOf(client)];
  }

  /** One record, and the others. */
  lemma WithOthers(clients: set<Client>, client: Client)
    requires client in clients
    ensures Standings(clients) == Standings(clients - {client})[client := StandingOf(client)]
  {
  }

  lemma WithoutOne(clients: set<Client>, o: Client?, standing: map<Client, Standing>)
    requires Standings(clients) == standing
    ensures Standings(clients - {o}) == standing - {o}
  {
  }

  /** The others' records are as they were. */
  method FlipApart(table: RoomTable, client: Client, card: Option<int>,
                   ghost others: set<Client>, ghost standing: map<Client, Standing>)
    returns (sent: seq<Delivery>)
    requires Running(table) && client in table.clients && !client.isDisconnected
    requires client !in others && Standings(others) == standing
    modifies client`invalidMessageCount, table`live, table.rooms, OwnRoom(client)`game, OwnRoom(client)`state
    modifies Mates(client)`room, Mates(client)`state, OwnGame(client), OwnBoard(client)
    ensures Standings(others) == standing && Apart(table.live)
    ensures client.invalidMessageCount
         == old(client.invalidMessageCount) + if old(FlipHandler.FlipVerdict(client, card)).Some? then 1 else 0
    ensures WorldOf(table) == if card.Some? then Server.OnFlip(old(WorldOf(table)), client, card.value)
                              else old(WorldOf(table))
    ensures FlipHandler.FlipAnswered(client, card, sent)
  {
    hide Server.OnFlip, FlipHandler.FlipAnswered, FlipHandler.FlipVerdict, GamesIn, BoardsIn, StandingOf;
    hide Running, Server.Inv, WorldOf, Apart, Mates, OwnRoom, OwnGame, OwnBoard;
    sent := FlipHandler.HandleFlip(table, client, card);
  }

  method TurnCard(table: RoomTable, client: Client, card: Option<int>) returns (sent: seq<Delivery>)
    requires Running(table) && client in table.clients && !client.isDisconnected
    modifies client`invalidMessageCount, table`live, table.rooms, OwnRoom(client)`game, OwnRoom(client)`state
    modifies Mates(client)`room, Mates(client)`state, OwnGame(client), OwnBoard(client)
    ensures Standings(table.clients) == old(Standings(table.clients))[client := StandingOf(client)]
    ensures StandingOf(client) == Counted(old(StandingOf(client)), old(FlipHandler.FlipVerdict(client, card)).Some?)
    ensures Apart(table.live)
    ensures WorldOf(table) == if card.Some? then Server.OnFlip(old(WorldOf(table)), client, card.value)
                              else old(WorldOf(table))
    ensures FlipHandler.FlipAnswered(client, card, sent)
  {
    hide Server.OnFlip, FlipHandler.FlipAnswered, FlipHandler.FlipVerdict, GamesIn, BoardsIn, Standings;
    hide Running, Server.Inv, WorldOf, Apart, Mates, OwnRoom, OwnGame, OwnBoard;
    ghost var others := table.clients - {client};
    WithOthers(table.clients, client);
    sent := FlipApart(table, client, card, others, Standings(others));
    WithOthers(table.clients, client);
  }

  method BeReady(table: RoomTable, client: Client) returns (sent: seq<Delivery>)
    requires Running(table) && client in table.clients && !client.isDisconnected
    modifies OwnRoom(client)`state, Mates(client)`state
    modifies OwnGame(client)`playerReady, OwnGame(client)`state, OwnGame(client)`currentPlayerIndex
    ensures Standings(table.clients) == old(Standings(table.clients))[client := StandingOf(client)]
    ensures StandingOf(client) == old(StandingOf(client)) && Apart(table.live)
    ensures WorldOf(table) == Server.OnReady(old(WorldOf(table)), client)
    ensures ReadyHandler.ReadyAnswered(client, sent)
  {
    hide ReadyHandler.ReadyAnswered, Server.OnReady, GamesIn, BoardsIn;
    hide Running, Server.Inv, WorldOf, Apart, Mates, OwnRoom, OwnGame, OwnBoard;
    ghost var standing := Standings(table.clients);
    sent := ReadyHandler.HandleReady(table, client);
    assert Standings(table.clients) == standing[client := StandingOf(client)];
  }

  lemma FoundVerdict(table: RoomTable, client: Client, params: Option<NewRoom>)
    requires Running(table) && client in table.clients
    ensures client in WorldOf(table).graph.clients
    ensures CreateVerdict(table, client, params).None? <==> MayFound(WorldOf(table), client, params)
  {
    RunningServes(table, client);
  }

  lemma StartVerdictIs(table: RoomTable, client: Client)
    requires Running(table) && client in table.clients
    ensures client in WorldOf(table).graph.clients
    ensures StartHandler.StartVerdict(client).None? <==> MayStart(WorldOf(table), client)
  {
    hide Server.Inv;
    RunningServes(table, client);
    if client.room != null {
      assert WorldOf(table).graph.rooms[client.room] == SeatingOf(client.room);
    }
  }

  method Create(table: RoomTable, client: Client, params: Option<NewRoom>)
    returns (sent: seq<Delivery>, room: Room?)
    requires Running(table) && client in table.clients && !client.isDisconnected
    modifies table`nextRoomId, table`live, table.rooms, client`room, client`state
    ensures Standings(table.clients) == old(Standings(table.clients))[client := StandingOf(client)]
    ensures StandingOf(client) == old(StandingOf(client)) && Apart(table.live)
    ensures room != null ==>
              && params.Some? && Asked(old(WorldOf(table)), client, params.value, room)
              && WorldOf(table) == Server.OnCreate(old(WorldOf(table)), client, room)
    ensures room == null ==> WorldOf(table) == old(WorldOf(table))
    ensures room != null <==> old(CreateVerdict(table, client, params)).None?
    ensures CreateAnswered(table, client, params, sent)
  {
    hide Server.OnCreate;
    hide Running, Server.Inv, WorldOf, Apart, Mates, OwnRoom, OwnGame, OwnBoard;
    ghost var standing := Standings(table.clients);
    sent, room := HandleCreateRoom(table, client, params);
    assert Standings(table.clients) == standing[client := StandingOf(client)];
  }

  lemma GamesKnown(table: RoomTable)
    ensures forall r :: r in WorldOf(table).graph.rooms ==>
              r in table.live && WorldOf(table).graph.rooms[r].game == r.game
  {
  }

  method Start(table: RoomTable, client: Client, rand: nat -> nat)
    returns (sent: seq<Delivery>, ghost game: Game?<Client>, ghost values: seq<int>)
    requires Running(table) && client in table.clients && !client.isDisconnected
    modifies OwnRoom(client)`game
    ensures Standings(table.clients) == old(Standings(table.clients))[client := StandingOf(client)]
    ensures StandingOf(client) == old(StandingOf(client)) && Apart(table.live)
    ensures old(StartHandler.StartVerdict(client)).Some? ==> WorldOf(table) == old(WorldOf(table))
    ensures old(StartHandler.StartVerdict(client)).None? ==>
              && game != null && NewGame(old(WorldOf(table)), game)
              && Server.Startable(old(WorldOf(table)), client, values)
              && WorldOf(table) == Server.OnStartGame(old(WorldOf(table)), client, game, values)
    ensures StartAnswered(client, sent)
  {
    hide Server.OnStartGame, Server.Startable, StartHandler.AllHeard;
    hide Running, Server.Inv, WorldOf, Apart, Mates, OwnRoom, OwnGame, OwnBoard;
    ghost var standing := Standings(table.clients);
    GamesKnown(table);
    sent, game, values := StartHandler.HandleStartGame(table, client, rand);
    assert Standings(table.clients) == standing[client := StandingOf(client)];
  }

  method PongIn(table: RoomTable, client: Client, now: int)
    requires client in table.clients
    modifies client`lastActivity, client`lastPongTime, client`waitingForPong
    ensures WorldOf(table) == old(WorldOf(table))
    ensures StandingOf(client)
         == old(StandingOf(client)).(waiting := false, lastPong := now, lastActivity := now)
  {
    Keepalive.HandlePong(client, now);
    assert table.View().clients == old(table.View()).clients;
  }

  /** Lines that concern neither rooms nor games. */
  method Other(table: RoomTable, client: Client, command: Command, now: int) returns (sent: seq<Delivery>)
    requires client in table.clients && Apart(table.live)
    modifies client`invalidMessageCount, client`lastActivity, client`lastPongTime, client`waitingForPong
    ensures Standings(table.clients) == old(Standings(table.clients))[client := StandingOf(client)]
    ensures StandingOf(client)
         == if command.Pong? then old(StandingOf(client)).(waiting := false, lastPong := now, lastActivity := now)
            else Counted(old(StandingOf(client)), command.Unknown?)
    ensures WorldOf(table) == old(WorldOf(table)) && Apart(table.live)
    ensures sent == if command.Unknown? then Reply(client, Refused(InvalidCommand)) else []
  {
    hide WorldOf;
    sent := [];
    ghost var standing := Standings(table.clients);
    if command.Pong? {
      PongIn(table, client, now);
    } else if command.Unknown? {
      sent := RefuseIn(table, client, InvalidCommand);
    }
    assert Standings(table.clients) == standing[client := StandingOf(client)];
  }

  method Greet(table: RoomTable, client: Client, nickname: Option<string>) returns (sent: seq<Delivery>)
    requires client in table.clients && !client.isDisconnected && Apart(table.live)
    modifies client`nickname, client`state
    ensures Standings(table.clients) == old(Standings(table.clients))[client := StandingOf(client)]
    ensures StandingOf(client) == Greeted(old(StandingOf(client)), old(client.state) == Connected, nickname)
    ensures Apart(table.live)
    ensures WorldOf(table) == if nickname.Some? then Server.OnHello(old(WorldOf(table)), client)
                              else old(WorldOf(table))
    ensures GreetAnswered(client, nickname, sent)
  {
    hide Server.OnHello, WorldOf;
    ghost var standing := Standings(table.clients);
    sent := HandleHello(table, client, nickname);
    assert Standings(table.clients) == standing[client := StandingOf(client)];
  }

  // ---- what the events do ----

  lemma AfterIs(w: Server.World, e: Server.Event)
    requires Server.Inv(w)
    ensures e.Hello? ==> After(w, Some(e)) == Server.OnHello(w, e.c)
    ensures e.Create? ==> After(w, Some(e)) == Server.OnCreate(w, e.c, e.room)
    ensures e.Join? ==> After(w, Some(e)) == Server.OnJoin(w, e.c, e.roomId)
    ensures e.Leave? ==> After(w, Some(e)) == Server.OnLeave(w, e.c)
    ensures e.StartGame? ==> After(w, Some(e)) == Server.OnStartGame(w, e.c, e.game, e.values)
    ensures e.Ready? ==> After(w, Some(e)) == Server.OnReady(w, e.c)
    ensures e.Flip? ==> After(w, Some(e)) == Server.OnFlip(w, e.c, e.card)
    ensures e.Reconnect? ==> After(w, Some(e)) == Server.OnReconnect(w, e.o, e.n)
  {
    hide Server.OnHello, Server.OnCreate, Server.OnJoin, Server.OnLeave, Server.OnStartGame, Server.OnReady;
    hide Server.OnFlip, Server.OnConnect, Server.OnExpire, Server.OnReconnect, Server.Drops, Membership.Inv;
  }

  // ---- RECONNECT ----

  lemma InSlot(table: RoomTable, list: ClientList, c: Client) returns (j: int)
    requires InStep(table, list) && c in table.clients
    ensures ReconnectHandler.Listed(list, c, j) && list.View().slots[j] == EntryOf(c)
  {
    var s, cs := list.View().slots, list.clientArray[..];
    j :| 0 <= j < |s| && s[j].Taken? && s[j].client == c;
    forall k | 0 <= k < |s| ensures s[k] == EntryOf(cs[k]) {
    }
    forall k, m | 0 <= k < m < |cs| && cs[k] != null && cs[m] != null ensures cs[k] != cs[m] {
      assert s[k].client == cs[k] && s[m].client == cs[m];
    }
  }

  lemma ListedAreKnown(table: RoomTable, list: ClientList)
    requires Serving(table, list)
    ensures forall i :: 0 <= i < list.clientArray.Length && list.clientArray[i] != null ==>
              list.clientArray[i] in table.clients && list.clientArray[i].socketFd >= -1
  {
    var s := list.View().slots;
    forall i | 0 <= i < list.clientArray.Length && list.clientArray[i] != null
      ensures list.clientArray[i] in table.clients && list.clientArray[i].socketFd >= -1
    {
      assert s[i] == EntryOf(list.clientArray[i]) && s[i].client in ClientTable.Held(s);
    }
  }

  lemma ExchangedInStep(t: ClientTable.Table, o: Client, n: Client, i: int, j: int)
    requires ClientTable.Inv(t) && 0 <= i < |t.slots| && 0 <= j < |t.slots| && o != n
    requires t.slots[i].Taken? && t.slots[i].client == o && t.slots[j].Taken? && t.slots[j].client == n
    requires !t.slots[j].zombie
    ensures var r := ReconnectHandler.Exchanged(t, j, o, n, t.slots[i].id);
            ClientTable.Inv(r) && ClientTable.Held(r.slots) == ClientTable.Held(t.slots) - {o}
  {
    ClientTable.ReplaceRestores(t, i, j);
    ClientTable.ReplaceHolds(t, i, j);
  }

  lemma AcceptedIsClaimed(table: RoomTable, list: ClientList, id: int, now: int)
    requires InStep(table, list)
    ensures ReconnectHandler.Accepted(list, id, now) == Claimed(list.View(), TimersIn(table.clients), id, now)
  {
    var o, s := ClientTable.Find(list.View().slots, id, 0), list.View().slots;
    forall i | 0 <= i < |s| ensures s[i] == EntryOf(list.clientArray[i]) {
    }
    if o != null {
      assert o in table.clients <==> o in list.clientArray[..];
    }
  }

  /** The record that is taken over stands in a slot of its own. */
  lemma AcceptedSlot(table: RoomTable, list: ClientList, client: Client, oldId: int, now: int) returns (i: int)
    requires Serving(table, list) && Speaks(table, client) && ReconnectHandler.Accepted(list, oldId, now) != null
    ensures var o, s := ReconnectHandler.Accepted(list, oldId, now), list.View().slots;
            && o in table.clients && o != client && o.isDisconnected
            && o in Standings(table.clients) && Standings(table.clients)[o] == StandingOf(o)
            && 0 <= i < |s| && s[i].Taken? && s[i].client == o && s[i].id == o.clientId
  {
    hide Running;
    var o := ReconnectHandler.Accepted(list, oldId, now);
    ListedAreKnown(table, list);
    i :| 0 <= i < list.clientArray.Length && list.clientArray[i] == o;
    assert list.View().slots[i] == EntryOf(list.clientArray[i]);
  }

  /** The others' records are as they were. */
  method ResumeApart(table: RoomTable, list: ClientList, client: Client, oldId: int, now: int, ghost o: Client?,
                     ghost others: set<Client>, ghost standing: map<Client, Standing>, ghost i: int, ghost j: int)
    returns (sent: seq<Delivery>)
    requires Running(table) && client in table.clients && !client.isDisconnected && client.socketFd >= 0
    requires InStep(table, list) && ReconnectHandler.Listed(list, client, j) && list.View().slots[j] == EntryOf(client)
    requires forall c :: c in table.clients ==> |c.nickname| < MAX_NICK_LENGTH
    requires forall i :: 0 <= i < list.clientArray.Length && list.clientArray[i] != null ==>
               list.clientArray[i] in table.clients && list.clientArray[i].socketFd >= -1
    requires o == ReconnectHandler.Accepted(list, oldId, now)
    requires o != null ==>
               && o != client && o.isDisconnected && 0 <= i < list.clientArray.Length
               && list.View().slots[i].Taken? && list.View().slots[i].client == o
               && list.View().slots[i].id == o.clientId
    requires client !in others && Standings(others) == standing
    modifies client, list`clientCount, list.clientArray, table`clients, table.live`players, GamesIn(table.live)`players
    ensures Standings(others) == standing && Apart(table.live) && InStep(table, list)
    ensures table.clients == old(table.clients) - {o}
    ensures StandingOf(client) == if o != null then Reconnects.Renewed(old(StandingOf(o)), old(StandingOf(client)), now)
                                  else old(StandingOf(client))
    ensures WorldOf(table) == if o != null then Server.OnReconnect(old(WorldOf(table)), o, client)
                              else old(WorldOf(table))
    ensures ReconnectAnswered(list, client, oldId, now, sent)
  {
    hide Running, WorldOf, Server.OnReconnect, Server.Reconnected, ReconnectHandler.Exchanged, Apart;
    hide ReconnectHandler.Accepted, ReconnectHandler.ReturnNews, ReconnectHandler.ReconnectVerdict;
    hide ClientTable.Inv, ClientTable.Held, StandingOf, Reconnects.Renewed;
    ghost var t := list.View();
    var accepted;
    accepted, sent := ReconnectHandler.HandleReconnect(table, list, client, oldId, now, j);
    if o != null {
      ExchangedInStep(t, o, client, i, j);
    }
  }

  /** Every record that is left is in order. */
  lemma StillRecords(clients: set<Client>, others: set<Client>, client: Client, standing: map<Client, Standing>)
    requires Standings(others) == standing && clients <= others + {client}
    requires Fitting(standing)
    requires client.socketFd >= 0 && |client.nickname| < MAX_NICK_LENGTH
    ensures Records(clients)
  {
    forall c | c in clients && c != client
      ensures c.socketFd >= (if c.isDisconnected then -1 else 0) && |c.nickname| < MAX_NICK_LENGTH
    {
      assert standing[c] == StandingOf(c);
    }
  }

  method Resume(table: RoomTable, list: ClientList, client: Client, oldId: int, now: int)
    returns (sent: seq<Delivery>, ghost o: Client?)
    requires Serving(table, list) && Speaks(table, client)
    modifies client, list`clientCount, list.clientArray, table`clients, table.live`players, GamesIn(table.live)`players
    ensures o == old(Claimed(list.View(), TimersIn(table.clients), oldId, now))
    ensures WorldOf(table) == if o != null then Server.OnReconnect(old(WorldOf(table)), o, client)
                              else old(WorldOf(table))
    ensures Answered(table, list, client, Reconnect(oldId), now, sent)
    ensures Noted(list, client, Reconnect(oldId), now)
    ensures o != null ==> o in old(Standings(table.clients))
    ensures Remembered(old(StandingOf(client)), StandingOf(client), old(client.state) == Connected, Reconnect(oldId),
                       if o != null then Some(old(Standings(table.clients))[o]) else None, now)
    ensures Standings(table.clients) == (old(Standings(table.clients)) - {o})[client := StandingOf(client)]
    ensures Steady(table, list)
  {
    hide Running, WorldOf, Server.OnReconnect, Apart, InStep, ReconnectAnswered;
    hide Claimed, TimersIn, ReconnectHandler.Accepted, ClientTable.Inv, ClientTable.Held, Standings;
    ghost var others := table.clients - {client};
    ghost var standing := Standings(others);
    ghost var j := InSlot(table, list, client);
    ghost var i := 0;
    o := ReconnectHandler.Accepted(list, oldId, now);
    ListedAreKnown(table, list);
    RecordsFit(table.clients, others);
    AcceptedIsClaimed(table, list, oldId, now);
    WithOthers(table.clients, client);
    if o != null {
      i := AcceptedSlot(table, list, client, oldId, now);
    }
    sent := ResumeApart(table, list, client, oldId, now, o, others, standing, i, j);
    WithoutOne(others, o, standing);
    WithOthers(table.clients, client);
    assert table.clients - {client} == others - {o};
    StillRecords(table.clients, others, client, standing);
  }

  // ---- the dispatcher ----

  /** What a client's lines can reach belongs to the server. */
  lemma Inside(table: RoomTable, client: Client)
    requires Running(table) && client in table.clients
    ensures OwnRoom(client) <= table.live && Mates(client) <= table.clients
    ensures OwnGame(client) <= GamesIn(table.live) && OwnBoard(client) <= BoardsIn(table.live)
  {
    hide GamesIn, BoardsIn, Apart;
    RunningServes(table, client);
    if client.room != null {
      MatesInside(table, client.room);
      GameInside(table.live, client.room);
    }
  }

  lemma MatesInside(table: RoomTable, room: Room)
    requires SeatsLinked(table.View()) && room in table.live
    ensures forall d: Client :: d in room.players ==> d in table.clients
  {
    var g := table.View();
    assert g.clients.Keys == table.clients;
    assert room in g.rooms && g.rooms[room] == SeatingOf(room);
    forall d: Client | d in room.players ensures d in table.clients {
      assert d in g.rooms[room].seats;
      assert d in g.clients && d in g.clients.Keys;
    }
  }

  lemma GameInside(live: set<Room>, room: Room)
    requires room in live
    ensures room.game != null ==> room.game in GamesIn(live) && room.game.cards in BoardsIn(live)
  {
  }

  lemma ServingAgain(table: RoomTable, list: ClientList, w: Server.World, e: Option<Server.Event>)
    requires Server.Inv(w) && WorldOf(table) == After(w, e) && Steady(table, list)
    ensures Serving(table, list) <==> Safe(w, e)
  {
    hide Apart, InStep, Server.Inv, Server.Step, WorldOf, Server.Harmless;
    if e.Some? {
      RunningAgain(table, w, e.value);
    }
  }

  /** The lines that are about a room leave every record as it is. */
  method HandleRoom(table: RoomTable, list: ClientList, client: Client, command: Command, now: int, rand: nat -> nat)
    returns (sent: seq<Delivery>, ghost e: Option<Server.Event>)
    requires Running(table) && client in table.clients && !client.isDisconnected
    requires command.CreateRoom? || command.JoinRoom? || command.LeaveRoom? || command.StartGame?
    requires client in WorldOf(table).graph.clients
    modifies table, table.rooms, table.live, table.clients, GamesIn(table.live), BoardsIn(table.live)
    ensures Means(old(WorldOf(table)), old(list.View()), old(TimersIn(table.clients)), command, client, now, e)
    ensures Answered(table, list, client, command, now, sent)
    ensures WorldOf(table) == After(old(WorldOf(table)), e)
    ensures StandingOf(client) == old(StandingOf(client)) && Apart(table.live)
    ensures Standings(table.clients) == old(Standings(table.clients))[client := StandingOf(client)]
  {
    hide Running, WorldOf, Server.Inv, Server.Step, Apart;
    hide OwnRoom, Mates, OwnGame, OwnBoard, GamesIn, BoardsIn, CreateVerdict, StartHandler.StartVerdict, MayFound;
    hide MayStart, Asked, NewGame, Server.Startable, Claimed, TimersIn, StandingOf, Standings;
    hide CreateAnswered, JoinAnswered, LeaveAnswered, StartAnswered;
    ghost var w := WorldOf(table);
    RunningInOrder(table);
    Inside(table, client);
    match command {
      case CreateRoom(params) =>
        var room;
        FoundVerdict(table, client, params);
        sent, room := Create(table, client, params);
        e := if room == null then None else Some(Server.Create(client, room));
      case JoinRoom(id) =>
        sent := Join(table, client, id);
        e := if id.Some? then Some(Server.Join(client, id.value)) else None;
      case LeaveRoom =>
        sent := Leave(table, client);
        e := Some(Server.Leave(client));
      case StartGame =>
        StartVerdictIs(table, client);
        ghost var started, game, values := StartHandler.StartVerdict(client).None?, null, [];
        sent, game, values := Start(table, client, rand);
        e := if started then Some(Server.StartGame(client, game, values)) else None;
    }
    if e.Some? {
      AfterIs(w, e.value);
    }
  }

  /** Every line but RECONNECT. */
  method Handle(table: RoomTable, list: ClientList, client: Client, command: Command, now: int, rand: nat -> nat)
    returns (sent: seq<Delivery>, ghost e: Option<Server.Event>)
    requires Running(table) && client in table.clients && !client.isDisconnected
    requires !command.Reconnect? && client in WorldOf(table).graph.clients
    requires |StandingOf(client).nickname| < MAX_NICK_LENGTH && !StandingOf(client).marked
    modifies table, table.rooms, table.live, table.clients, GamesIn(table.live), BoardsIn(table.live)
    ensures Means(old(WorldOf(table)), old(list.View()), old(TimersIn(table.clients)), command, client, now, e)
    ensures Answered(table, list, client, command, now, sent)
    ensures WorldOf(table) == After(old(WorldOf(table)), e)
    ensures Noted(list, client, command, now)
    ensures Remembered(old(StandingOf(client)), StandingOf(client), old(client.state) == Connected, command, None, now)
    ensures Standings(table.clients) == old(Standings(table.clients))[client := StandingOf(client)]
    ensures Apart(table.live)
  {
    hide Running, WorldOf, Server.Inv, Server.Step, Apart;
    hide OwnRoom, Mates, OwnGame, OwnBoard, GamesIn, BoardsIn, MayFound, MayStart, Asked, NewGame, Server.Startable;
    hide Claimed, TimersIn, GreetAnswered, ReconnectAnswered, CreateAnswered, StandingOf, Standings;
    hide Reconnects.Renewed, ReconnectHandler.Accepted, FlipHandler.FlipVerdict;
    hide JoinAnswered, FlipHandler.FlipAnswered, LeaveAnswered, ReadyHandler.ReadyAnswered, StartAnswered;
    ghost var w := WorldOf(table);
    RunningInOrder(table);
    Inside(table, client);
    e := None;
    match command {
      case Hello(name) =>
        sent := Greet(table, client, name);
        e := if name.Some? then Some(Server.Hello(client)) else None;
      case Flip(card) =>
        sent := TurnCard(table, client, card);
        e := if card.Some? then Some(Server.Flip(client, card.value)) else None;
      case Ready =>
        sent := BeReady(table, client);
        e := Some(Server.Ready(client));
      case CreateRoom(_) | JoinRoom(_) | LeaveRoom | StartGame =>
        sent, e := HandleRoom(table, list, client, command, now, rand);
        return;
      case ListRooms | Pong | Unknown =>
        sent := Other(table, client, command, now);
    }
    if e.Some? {
      AfterIs(w, e.value);
    }
  }

  /** One line: the handler does what the server machine does on the event the line means, and the server is in
      order afterwards exactly when that step is harmless. */
  method Dispatch(table: RoomTable, list: ClientList, client: Client, command: Command, now: int, rand: nat -> nat)
    returns (sent: seq<Delivery>, ghost e: Option<Server.Event>)
    requires Serving(table, list) && Speaks(table, client)
    modifies table, table.rooms, table.live, table.clients, GamesIn(table.live), BoardsIn(table.live)
    modifies list, list.clientArray
    ensures client in old(WorldOf(table)).graph.clients
    ensures Means(old(WorldOf(table)), old(list.View()), old(TimersIn(table.clients)), command, client, now, e)
    ensures Answered(table, list, client, command, now, sent)
    ensures Noted(list, client, command, now)
    ensures Remembered(old(StandingOf(client)), StandingOf(client), old(client.state) == Connected, command,
                       TakenOver(old(Standings(table.clients)), e), now)
    ensures Standings(table.clients) == (old(Standings(table.clients)) - Freed(e))[client := StandingOf(client)]
    ensures WorldOf(table) == After(old(WorldOf(table)), e)
    ensures Serving(table, list) <==> Safe(old(WorldOf(table)), e)
  {
    hide Running, WorldOf, Server.Inv, Server.Step, Steady, Safe, Serving, Speaks, Orderly, Standings, StandingOf;
    hide Noted, Answered, Remembered;
    hide OwnRoom, Mates, OwnGame, OwnBoard, GamesIn, BoardsIn, Claimed, TimersIn, ReconnectAnswered;
    ghost var w, t, standing := WorldOf(table), list.View(), Standings(table.clients);
    ghost var was := client.state;
    Known(table, list, client);
    ServingOrderly(table, list);
    if command.Reconnect? {
      ghost var o;
      sent, o := Resume(table, list, client, command.oldId, now);
      e := if o == null then None else Some(Server.Reconnect(o, client));
      assert standing - {o} == standing - Freed(e);
      if e.Some? {
        AfterIs(w, e.value);
      }
    } else {
      sent, e := Handle(table, list, client, command, now, rand);
      StaysSame(standing[client], StandingOf(client), was == Connected, command, now);
      StillOrderly(t, list.clientArray[..], standing, client, StandingOf(client));
      StillSteady(table, list, t, standing[client := StandingOf(client)]);
      assert standing - Freed(e) == standing;
    }
    ServingAgain(table, list, w, e);
  }
}
