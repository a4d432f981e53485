/** handle_reconnect in a server that runs: what the replacement of one client object by another does to all rooms,
    games and clients. */
module ReconnectHandler {
  import opened GameModel
  import opened Games
  import opened Structs
  import opened Membership
  import opened Rooms
  import opened Reconnecting
  import opened Reconnects
  import opened ClientLists
  import opened Worlds
  import opened Messages
  import opened Deliveries
  import opened Text
  import opened StateMessage
  import opened FormatState
  import opened Returning
  import ClientTable
  import Connections
  import Keepalive
  import Server

  /** The counters the loops over seats and players rely on. */
  ghost predicate Countable(o: Client)
    reads o, OwnRoom(o), OwnGame(o)
  {
    && (o.room != null ==> 0 <= o.room.playerCount <= |o.room.players|)
    && (o.room != null && o.room.game != null ==> o.room.game.playerCount == |o.room.game.players|)
  }

  ghost predicate Listed(list: ClientList, n: Client, j: int)
    reads list, list.clientArray
  {
    0 <= j < list.clientArray.Length && list.clientArray[j] == n && OnceOnly(list.clientArray[..])
  }

  /** What becomes of the list when the new client in slot j takes over the old one's id and place. */
  ghost function Exchanged(t: ClientTable.Table, j: int, o: Client, n: Client, id: int): ClientTable.Table
    requires 0 <= j < |t.slots| && t.slots[j].Taken?
  {
    ClientTable.Replace(ClientTable.Renumbered(t, j, id), o, n, ClientTable.Taken(n, id, false))
  }

  twostate predicate ExchangedIn(list: ClientList, o: Client, n: Client, j: int)
    reads list, list.clientArray, list.clientArray[..], o
  {
    && 0 <= j < |old(list.View()).slots| && old(list.View()).slots[j].Taken?
    && list.View() == Exchanged(old(list.View()), j, o, n, o.clientId)
  }

  /** The room, if any, has the new client in the old one's seat; the other rooms are as they were. */
  lemma SeatsMoved(g: Graph, o: Client, n: Client, rooms: map<Room, Seating>)
    requires o in g.clients && rooms.Keys == g.rooms.Keys
    requires forall r :: r in g.rooms && r != g.clients[o].room ==> rooms[r] == g.rooms[r]
    requires g.clients[o].room in g.rooms ==>
               var room := g.clients[o].room as Room;
               rooms[room] == g.rooms[room].(seats := Reseated(g.rooms[room].seats, g.rooms[room].count, o, n))
    ensures Reconnecting.Reconnected(g, o, n).rooms == rooms
  {
  }

  /** The game of a client's room can be printed. */
  ghost predicate Presentable(o: Client)
    reads o, OwnRoom(o), OwnGame(o), OwnBoard(o), if o.room == null then {} else PlayersIn(o.room)
  {
    (o.room != null && o.room.game != null ==> Printable(o.room.game)) && |o.nickname| < MAX_NICK_LENGTH
  }

  /** What Transfer leaves alone. */
  method MoveAlone(table: RoomTable, list: ClientList, o: Client, n: Client, now: int, ghost j: int)
    requires Listed(list, n, j) && o != n && n.socketFd >= 0 && Countable(o) && Presentable(o)
    requires o in table.clients && n in table.clients && Apart(table.live)
    requires o.room != null ==> o.room in table.live
    modifies n, list`clientCount, list.clientArray, OwnRoom(o)`players, OwnGame(o)`players
    ensures Moved(o, n, now) && Apart(table.live)
    ensures forall r :: r in table.live && r != o.room ==> SeatingOf(r) == old(SeatingOf(r))
    ensures o.room != null ==>
              SeatingOf(o.room)
              == old(SeatingOf(o.room)).(seats := Reseated(old(o.room.players), o.room.playerCount, o, n))
    ensures forall c :: c in table.clients && c != n ==> LinkOf(c) == old(LinkOf(c))
    ensures LinkOf(n) == Link(o.room, o.state, false)
    ensures ExchangedIn(list, o, n, j) && Presentable(n)
  {
    hide ClientTable.Replace, ClientTable.Renumbered, EntriesOf, Reseated, Substituted;
    Transfer(list, o, n, now, j);
  }

  method MoveClient(table: RoomTable, list: ClientList, o: Client, n: Client, now: int, ghost j: int,
                    ghost w: Server.World)
    requires Listed(list, n, j) && o != n && n.socketFd >= 0 && Countable(o) && Presentable(o)
    requires o in table.clients && n in table.clients && Apart(table.live) && w == WorldOf(table)
    requires o.room != null ==> o.room in table.live
    modifies n, list`clientCount, list.clientArray, OwnRoom(o)`players, OwnGame(o)`players
    ensures Moved(o, n, now) && Apart(table.live) && o in w.graph.clients
    ensures table.View() == w.graph.(rooms := Reconnecting.Reconnected(w.graph, o, n).rooms,
                                     clients := w.graph.clients[n := Link(w.graph.clients[o].room,
                                                                          w.graph.clients[o].state, false)])
    ensures OthersUnmoved(table.live, o.room, w.games)
    ensures ExchangedIn(list, o, n, j) && Presentable(n)
  {
    hide ExchangedIn, Apart, Reseated;
    var g := w.graph;
    assert g.clients[o] == Link(o.room, o.state, o.isDisconnected);
    hide SeatingOf, LinkOf, Reconnecting.Reconnected, Presentable, Countable, Game.View;
    assert OthersUnmoved(table.live, o.room, w.games);
    MoveApart(table, list, o, n, now, j, w.games);
    SeatsMoved(g, o, n, table.View().rooms);
    table.OneClientChanged(n);
  }

  ghost predicate OthersUnmoved(live: set<Room>, room: Room?, games: map<Room, GameState<Client>>)
    reads live, GamesIn(live), BoardsIn(live)
  {
    forall r :: r in live && r != room ==>
      (r in games <==> r.game != null) && (r.game != null ==> r.game.View() == games[r])
  }

  method MoveApart(table: RoomTable, list: ClientList, o: Client, n: Client, now: int, ghost j: int,
                   ghost games: map<Room, GameState<Client>>)
    requires Listed(list, n, j) && o != n && n.socketFd >= 0 && Countable(o) && Presentable(o)
    requires o in table.clients && n in table.clients && Apart(table.live) && OthersUnmoved(table.live, o.room, games)
    requires o.room != null ==> o.room in table.live
    modifies n, list`clientCount, list.clientArray, OwnRoom(o)`players, OwnGame(o)`players
    ensures Moved(o, n, now) && Apart(table.live)
    ensures forall r :: r in table.live && r != o.room ==> SeatingOf(r) == old(SeatingOf(r))
    ensures o.room != null ==>
              SeatingOf(o.room)
              == old(SeatingOf(o.room)).(seats := Reseated(old(o.room.players), o.room.playerCount, o, n))
    ensures forall c :: c in table.clients && c != n ==> LinkOf(c) == old(LinkOf(c))
    ensures LinkOf(n) == Link(o.room, o.state, false)
    ensures OthersUnmoved(table.live, o.room, games)
    ensures ExchangedIn(list, o, n, j) && Presentable(n)
  {
    hide ExchangedIn;
    MoveAlone(table, list, o, n, now, j);
  }

  lemma GamesMoved(table: RoomTable, o: Client, n: Client, w: Server.World)
    requires o in w.graph.clients && OthersUnmoved(table.live, w.graph.clients[o].room, w.games)
    requires forall r :: r in w.games ==> r in table.live
    requires w.graph.clients[o].room in table.live ==>
               var room := w.graph.clients[o].room as Room;
               (room in w.games <==> room.game != null) &&
               (room.game != null ==>
                  room.game.View() == w.games[room].(players := Substituted(w.games[room].players, o, n)))
    ensures GamesOf(table.live) == Server.Reconnected(w, o, n).games
  {
  }

  /** What a reconnect in a running server relies on. */
  lemma RunningMoves(table: RoomTable, o: Client, n: Client)
    requires Running(table) && o in table.clients && n in table.clients && o != n && !n.isDisconnected
    ensures Apart(table.live) && Countable(o)
    ensures o.room != null ==> o.room in table.live
    ensures o.room != null && o.room.game != null ==>
              o.room in WorldOf(table).games && WorldOf(table).games[o.room] == o.room.game.View()
    ensures o in WorldOf(table).graph.clients
    ensures o.isDisconnected ==> Server.OnReconnect(WorldOf(table), o, n) == Server.Reconnected(WorldOf(table), o, n)
  {
    RunningServes(table, o);
    RunningServes(table, n);
    if o.room != null {
      RoomSeatedOnce(table, o.room);
    }
  }

  /** The server between the replacement and the release of the old record. */
  ghost function BothThere(w: Server.World, o: Client, n: Client): Server.World
    requires o in w.graph.clients
  {
    var link := w.graph.clients[o];
    Server.World(w.graph.(rooms := Reconnecting.Reconnected(w.graph, o, n).rooms,
                          clients := w.graph.clients[n := Link(link.room, link.state, false)]),
                 Server.Reconnected(w, o, n).games)
  }

  lemma OldIsGone(w: Server.World, o: Client, n: Client)
    requires o in w.graph.clients && o != n
    ensures Server.Gone(BothThere(w, o, n), o) == Server.Reconnected(w, o, n)
  {
    var link := Link(w.graph.clients[o].room, w.graph.clients[o].state, false);
    assert w.graph.clients[n := link] - {o} == (w.graph.clients - {o})[n := link];
  }

  /** New for old in room, game and list. */
  method Rejoin(table: RoomTable, list: ClientList, o: Client, n: Client, now: int, ghost j: int, ghost w: Server.World)
    requires Listed(list, n, j) && o != n && n.socketFd >= 0 && Countable(o) && Presentable(o)
    requires o in table.clients && n in table.clients && Apart(table.live) && w == WorldOf(table)
    requires o.room != null ==> o.room in table.live
    modifies n, list`clientCount, list.clientArray, OwnRoom(o)`players, OwnGame(o)`players
    ensures Apart(table.live)
    ensures o in w.graph.clients && WorldOf(table) == BothThere(w, o, n)
    ensures ExchangedIn(list, o, n, j) && Presentable(n)
    ensures StandingOf(n) == Renewed(old(StandingOf(o)), old(StandingOf(n)), now)
  {
    hide ExchangedIn;
    assert w.graph.clients[o] == LinkOf(o);
    MoveClient(table, list, o, n, now, j, w);
    GamesMoved(table, o, n, w);
  }

  /** What handle_reconnect makes of the id: the record to take over, or null when the request is refused. */
  ghost function Accepted(list: ClientList, id: int, now: int): Client?
    reads list, list.clientArray, list.clientArray[..]
  {
    var o := ClientTable.Find(list.View().slots, id, 0);
    if id > 0 && o != null && o in list.clientArray[..] && Keepalive.ReconnectAccepted(Keepalive.TimersOf(o), now)
    then o else null
  }

  /** The order of handle_reconnect's checks. */
  ghost function ReconnectVerdict(list: ClientList, id: int, now: int): Option<Refusal>
    reads list, list.clientArray, list.clientArray[..]
  {
    var o := ClientTable.Find(list.View().slots, id, 0);
    if id <= 0 then Some(InvalidParams)
    else if o == null || o !in list.clientArray[..] then Some(SessionNotFound)
    else if !o.isDisconnected && o.socketFd >= 0 then Some(AlreadyConnected)
    else if now - (if o.isDisconnected then o.disconnectTime else o.lastActivity) > Keepalive.RECONNECT_TIMEOUT
    then Some(SessionExpired)
    else None
  }

  lemma RefusedOrAccepted(list: ClientList, id: int, now: int)
    requires forall i :: 0 <= i < list.clientArray.Length && list.clientArray[i] != null ==>
               list.clientArray[i].socketFd >= -1
    ensures ReconnectVerdict(list, id, now).None? <==> Accepted(list, id, now) != null
  {
  }

  /** Each refusal, by what is the matter with the record under the id. */
  lemma ReconnectRefused(list: ClientList, id: int, now: int)
    requires ClientTable.Inv(list.View())
    ensures var v, m := ReconnectVerdict(list, id, now), ClientTable.ById(list.View().slots);
            && (v == Some(InvalidParams) <==> id <= 0)
            && (v == Some(SessionNotFound) <==> id > 0 && id !in m)
            && (id > 0 && id in m ==>
                  var o := m[id];
                  && o in list.clientArray[..]
                  && (v == Some(AlreadyConnected) <==> !o.isDisconnected && o.socketFd >= 0)
                  && (v == Some(SessionExpired) <==>
                      || (o.isDisconnected && now - o.disconnectTime > 90)
                      || (!o.isDisconnected && o.socketFd < 0 && now - o.lastActivity > 90))
                  && (v == None <==>
                      || (o.isDisconnected && now - o.disconnectTime <= 90)
                      || (!o.isDisconnected && o.socketFd < 0 && now - o.lastActivity <= 90)))
            && (v.Some? ==> v.value in {InvalidParams, SessionNotFound, AlreadyConnected, SessionExpired})
  {
    var s := list.View().slots;
    ClientTable.FindIsLookup(list.View(), id);
    ClientTable.ByIdIs(s, id);
    forall i | 0 <= i < |s| ensures s[i] == EntryOf(list.clientArray[i]) {
    }
    if ClientTable.HasId(s, id) {
      var i :| 0 <= i < |s| && s[i].Taken? && s[i].id == id;
      assert list.clientArray[i] == s[i].client == ClientTable.ById(s)[id];
    }
  }

  /** WELCOME, and what there is to know about the room. */
  ghost function ReturnNews(n: Client): seq<Delivery>
    requires n.room != null && n.room.game != null ==> n.room.game.WellFormed()
    reads n, if n.room == null then {} else {n.room}, Mates(n), if n.room == null then {} else PlayersIn(n.room)
    reads if n.room == null || n.room.game == null then {} else {n.room.game}
    reads if n.room == null || n.room.game == null then {} else {n.room.game.cards}
  {
    Reply(n, WelcomeBack(n.clientId)) + if n.room == null then [] else RoomNews(n.room, n)
  }

  lemma PlayersKnown(w: Server.World, room: Room)
    requires SeatsLinked(w.graph) && room in w.graph.rooms && room in w.games && Server.RoomOk(w, room)
    ensures forall c :: c in w.games[room].players ==> c in w.graph.clients
  {
    forall c | c in w.games[room].players ensures c in w.graph.clients {
      Server.MembersIn(w.graph.rooms[room].seats, c);
    }
  }

  lemma ValidIn(table: RoomTable, o: Client)
    requires Running(table) && o in table.clients && o.room != null && o.room.game != null
    ensures o.room.game.Valid() && forall c :: c in o.room.game.players ==> c in table.clients
  {
    hide Membership.SlotsOk, IdsOk;
    var w := WorldOf(table);
    RunningServes(table, o);
    assert Server.RoomOk(w, o.room);
    PlayersKnown(w, o.room);
    assert table.clients == w.graph.clients.Keys;
  }

  lemma RunningPresents(table: RoomTable, o: Client)
    requires Running(table) && o in table.clients && forall c :: c in table.clients ==> |c.nickname| < MAX_NICK_LENGTH
    ensures Presentable(o)
  {
    hide Running, Inv;
    if o.room != null && o.room.game != null {
      ValidIn(table, o);
      o.room.game.ValidWellFormed();
      SmallView(o.room.game);
    }
  }

  /** handle_reconnect. The new client stands in slot j of the list, and all listed clients are known to the rooms. */
  method HandleReconnect(table: RoomTable, list: ClientList, n: Client, id: int, now: int, ghost j: int)
    returns (accepted: bool, sent: seq<Delivery>)
    requires Running(table) && n in table.clients && !n.isDisconnected && n.socketFd >= 0
    requires Listed(list, n, j) && forall c :: c in table.clients ==> |c.nickname| < MAX_NICK_LENGTH
    requires forall i :: 0 <= i < list.clientArray.Length && list.clientArray[i] != null ==>
               list.clientArray[i] in table.clients && list.clientArray[i].socketFd >= -1
    modifies n, list`clientCount, list.clientArray, table`clients, table.live`players, GamesIn(table.live)`players
    ensures accepted <==> old(Accepted(list, id, now)) != null
    ensures accepted <==> old(ReconnectVerdict(list, id, now)).None?
    ensures Apart(table.live)
    ensures !accepted ==> WorldOf(table) == old(WorldOf(table))
    ensures !accepted ==> sent == Reply(n, Refused(old(ReconnectVerdict(list, id, now)).value))
    ensures accepted ==>
              && old(Accepted(list, id, now) in WorldOf(table).graph.clients)
              && WorldOf(table) == Server.Reconnected(old(WorldOf(table)), old(Accepted(list, id, now)), n)
    ensures accepted && old(Accepted(list, id, now).isDisconnected) ==>
              WorldOf(table) == Server.OnReconnect(old(WorldOf(table)), old(Accepted(list, id, now)), n)
    ensures accepted ==>
              && (n.room != null && n.room.game != null ==> n.room.game.WellFormed())
              && sent == ReturnNews(n)
    ensures table.clients == old(table.clients) - if accepted then {old(Accepted(list, id, now))} else {}
    ensures accepted ==> ExchangedIn(list, old(Accepted(list, id, now)), n, j)
    ensures !accepted ==> list.View() == old(list.View())
    ensures StandingOf(n)
         == if accepted then Renewed(old(StandingOf(Accepted(list, id, now))), old(StandingOf(n)), now)
            else old(StandingOf(n))
  {
    hide ExchangedIn, ReturnNews;
    RunningServes(table, n);
    ghost var o := Accepted(list, id, now);
    RefusedOrAccepted(list, id, now);
    if o != null {
      RunningMoves(table, o, n);
      RunningPresents(table, o);
    }
    accepted, sent := ReconnectServed(table, list, n, id, now, j, WorldOf(table), o);
  }

  method ReconnectServed(table: RoomTable, list: ClientList, n: Client, id: int, now: int,
                         ghost j: int, ghost w: Server.World, ghost target: Client?)
    returns (accepted: bool, sent: seq<Delivery>)
    requires Listed(list, n, j) && n in table.clients && !n.isDisconnected && n.socketFd >= 0
    requires w == WorldOf(table) && Apart(table.live) && target == Accepted(list, id, now)
    requires forall i :: 0 <= i < list.clientArray.Length && list.clientArray[i] != null ==>
               list.clientArray[i].socketFd >= -1
    requires target != null ==>
               && target in table.clients && Countable(target) && Presentable(target)
               && (target.room != null ==> target.room in table.live)
    modifies n, list`clientCount, list.clientArray, table`clients, table.live`players, GamesIn(table.live)`players
    ensures accepted <==> target != null
    ensures Apart(table.live)
    ensures target != null ==> target in w.graph.clients
    ensures WorldOf(table) == if target != null then Server.Reconnected(w, target, n) else w
    ensures if target != null then ExchangedIn(list, target, n, j) else list.View() == old(list.View())
    ensures table.clients == old(table.clients) - if target != null then {target} else {}
    ensures StandingOf(n) == if target != null then Renewed(old(StandingOf(target)), old(StandingOf(n)), now)
                             else old(StandingOf(n))
    ensures !accepted ==>
              && old(ReconnectVerdict(list, id, now)).Some?
              && sent == Reply(n, Refused(old(ReconnectVerdict(list, id, now)).value))
    ensures accepted ==> (n.room != null && n.room.game != null ==> n.room.game.WellFormed()) && sent == ReturnNews(n)
  {
    hide ExchangedIn, ReturnNews, Presentable;
    if id <= 0 {
      return false, Reply(n, Refused(InvalidParams));
    }
    var i := 0;
    while i < list.clientArray.Length && !(list.clientArray[i] != null && list.clientArray[i].clientId == id)
      invariant 0 <= i <= list.clientArray.Length
      invariant ClientTable.Find(list.View().slots, id, 0) == ClientTable.Find(list.View().slots, id, i)
    {
      i := i + 1;
    }
    if i == list.clientArray.Length {
      return false, Reply(n, Refused(SessionNotFound));
    }
    var o := list.clientArray[i];
    assert o in list.clientArray[..];
    if !o.isDisconnected && o.socketFd >= 0 {
      return false, Reply(n, Refused(AlreadyConnected));
    }
    var duration := now - if o.isDisconnected then o.disconnectTime else o.lastActivity;
    if duration > Keepalive.RECONNECT_TIMEOUT {
      return false, Reply(n, Refused(SessionExpired));
    }
    sent := TakePlace(table, list, o, n, now, j, w);
    accepted := true;
  }

  /** The part of handle_reconnect that runs once the old client is accepted. */
  method TakePlace(table: RoomTable, list: ClientList, o: Client, n: Client, now: int, ghost j: int,
                   ghost w: Server.World)
    returns (sent: seq<Delivery>)
    requires Listed(list, n, j) && o != n && n.socketFd >= 0 && Countable(o) && Presentable(o)
    requires o in table.clients && n in table.clients && Apart(table.live) && w == WorldOf(table)
    requires o.room != null ==> o.room in table.live
    modifies n, list`clientCount, list.clientArray, OwnRoom(o)`players, OwnGame(o)`players, table`clients
    ensures Apart(table.live) && o in w.graph.clients && WorldOf(table) == Server.Reconnected(w, o, n)
    ensures ExchangedIn(list, o, n, j) && table.clients == old(table.clients) - {o}
    ensures StandingOf(n) == Renewed(old(StandingOf(o)), old(StandingOf(n)), now)
    ensures (n.room != null && n.room.game != null ==> n.room.game.WellFormed()) && sent == ReturnNews(n)
  {
    hide ExchangedIn, ReturnNews, Countable, WorldOf, Apart;
    Rejoin(table, list, o, n, now, j, w);
    OldIsGone(w, o, n);
    Connections.Forget(table, o, BothThere(w, o, n));
    sent := Tell(table, list, n, Server.Reconnected(w, o, n), list.View());
  }

  /** Sending changes nothing. */
  method Tell(table: RoomTable, list: ClientList, n: Client, ghost w: Server.World, ghost t: ClientTable.Table)
    returns (sent: seq<Delivery>)
    requires w == WorldOf(table) && t == list.View() && Apart(table.live)
    requires Presentable(n)
    ensures WorldOf(table) == w && list.View() == t && Apart(table.live)
    ensures Presentable(n)
    ensures sent == ReturnNews(n)
  {
    sent := Reply(n, WelcomeBack(n.clientId));
    if n.room != null {
      var rest := TellRoom(n.room, n);
      sent := sent + rest;
    }
  }
}
