/** The end of a connection: the last part of client_handler_thread in server_src/client_handler.c, and the eviction
    in timeout_checker_thread_func of server_src/server.c. */
module Connections {
  import opened SeqFacts
  import opened GameModel
  import opened Games
  import opened Structs
  import opened Messages
  import opened Membership
  import opened Rooms
  import opened Deliveries
  import opened Worlds
  import opened RoomHandlers
  import opened Text
  import Keepalive
  import Server

  /** client_list_remove and free, as far as the rooms are concerned. */
  method Forget(table: RoomTable, client: Client, ghost w: Server.World)
    requires w == WorldOf(table) && Apart(table.live)
    modifies table`clients
    ensures WorldOf(table) == Server.Gone(w, client) && Apart(table.live)
    ensures table.clients == old(table.clients) - {client}
  {
    table.clients := table.clients - {client};
    assert table.View().clients == w.graph.clients - {client};
    assert table.View() == w.graph.(clients := w.graph.clients - {client});
  }

  /** What is left of socket_fd when the socket has been shut down. */
  function Closed(fd: int): (r: int)
    ensures r < 0
  {
    if fd >= 0 then -1 else fd
  }

  /** A record that is marked: its socket is closed, and all else is as it was. */
  function Lost(s: Standing, now: int): (r: Standing)
    ensures r.marked && r.markedAt == now && r.socket < 0 && (s.socket < 0 ==> r.socket == s.socket)
    ensures r.id == s.id && r.nickname == s.nickname && r.errors == s.errors
    ensures r.waiting == s.waiting && r.lastPing == s.lastPing
    ensures r.lastPong == s.lastPong && r.lastActivity == s.lastActivity
  {
    s.(marked := true, markedAt := now, socket := Closed(s.socket))
  }

  method MarkRecord(client: Client, now: int)
    modifies client`isDisconnected, client`disconnectTime, client`socketFd
    ensures StandingOf(client) == Lost(old(StandingOf(client)), now)
  {
    client.isDisconnected := true;
    client.disconnectTime := now;
    if client.socketFd >= 0 {
      client.socketFd := -1;
    }
  }

  method Mark(table: RoomTable, client: Client, now: int)
    requires client in table.clients
    modifies client`isDisconnected, client`disconnectTime, client`socketFd
    ensures StandingOf(client) == Lost(old(StandingOf(client)), now)
    ensures table.View().clients == old(table.View()).clients[client := old(LinkOf(client)).(disconnected := true)]
    ensures table.View() == old(table.View()).(clients := table.View().clients)
    ensures GamesOf(table.live) == old(GamesOf(table.live))
  {
    MarkRecord(client, now);
    table.OneClientChanged(client);
  }

  /** The client is kept, marked, until it comes back or its time is up. */
  method WaitFor(table: RoomTable, client: Client, now: int, ghost w: Server.World)
    requires w == WorldOf(table) && Apart(table.live) && client in table.clients
    modifies client`isDisconnected, client`disconnectTime, client`socketFd
    ensures client in w.graph.clients && WorldOf(table) == Server.Marked(w, client) && Apart(table.live)
    ensures StandingOf(client) == Lost(old(StandingOf(client)), now)
  {
    Mark(table, client, now);
  }

  /** Who is told that it is its turn: the player the turn passes to when it was the client's. */
  function Heir(g: GameState<Client>, client: Client): Client?
    requires Indexable(g) && |g.players| >= 2
  {
    var r := GameModel.RemovePlayer(g, client);
    if g.players[g.current] == client then r.players[r.current] else null
  }

  /** game_remove_player for a player of one room's game. */
  method TakeOut(table: RoomTable, room: Room, client: Client, ghost games: map<Room, GameState<Client>>)
    returns (next: Client?)
    requires room in table.live && room.game != null && Apart(table.live) && OthersAs(table.live, room, games)
    requires room.game.WellFormed() && |room.game.players| >= 2
    modifies room.game`players, room.game`playerScores, room.game`playerReady, room.game`playerCount
    modifies room.game`currentPlayerIndex
    ensures OthersAs(table.live, room, games) && Apart(table.live) && room.game.WellFormed()
    ensures room.game.View() == GameModel.RemovePlayer(old(room.game.View()), client)
    ensures next == Heir(old(room.game.View()), client)
  {
    var wasHisTurn := room.game.players[room.game.currentPlayerIndex] == client;
    var ok := room.game.RemovePlayer(client);
    next := if wasHisTurn then room.game.players[room.game.currentPlayerIndex] else null;
  }

  method TakeOutOfGame(table: RoomTable, room: Room, client: Client, ghost w: Server.World) returns (next: Client?)
    requires Playable(table, room) && |room.game.players| >= 2 && w == WorldOf(table)
    modifies room.game`players, room.game`playerScores, room.game`playerReady, room.game`playerCount
    modifies room.game`currentPlayerIndex
    ensures room in w.games && w.games[room] == old(room.game.View()) && Indexable(w.games[room])
    ensures |w.games[room].players| >= 2
    ensures WorldOf(table) == Server.Played(w, room, client)
    ensures Apart(table.live) && room.game.WellFormed()
    ensures next == Heir(w.games[room], client)
  {
    hide SeatingOf, LinkOf, Heir;
    next := TakeOut(table, room, client, w.games);
    OneGameChanged(table.live, room, w.games);
  }

  /** YOUR_TURN, if somebody gets it. */
  function TurnNews(next: Client?): seq<Delivery>
    reads {next}`isDisconnected, {next}`socketFd
  {
    if next == null then [] else Reply(next, YourTurn)
  }

  /** The client itself does not get the turn. */
  lemma HeirStays(g: GameState<Client>, client: Client)
    requires Indexable(g) && |g.players| >= 2 && Distinct(g.players)
    ensures Heir(g, client) != client
  {
    IndexOfIs(g.players, client);
  }

  /** What the others hear of a player that is taken out of a game that goes on. */
  ghost function RemovalNews(room: Room, client: Client): seq<Delivery>
    requires client in room.players
    reads room, client`nickname, room.players`nickname
    reads room.players`isDisconnected, room.players`socketFd
  {
    IndexOfIs(room.players, client);
    var stay := room.players[IndexOf(room.players, client) := null];
    Reached(room.players, PlayerRemoved(client.nickname), client)
    + if room.owner == client then ToEach(Hearers(stay), OwnerNews(stay)) else []
  }

  /** While enough stay for the game to go on, only a new owner is news. */
  lemma QuietLeaveNews(room: Room, client: Client)
    requires client in room.players && room.playerCount >= 3
    requires room.game != null ==> |room.game.players| == |room.game.playerScores|
    ensures Reached(room.players, PlayerRemoved(client.nickname), client) + LeaveNews(room, client)
         == RemovalNews(room, client)
  {
  }

  /** Two or more stay: the client is out of the game and of the room. */
  method PlayOn(table: RoomTable, room: Room, client: Client, ghost w: Server.World)
    returns (sent: seq<Delivery>, next: Client?)
    requires w == WorldOf(table) && CanLeave(table, client, room, w) && Playable(table, room)
    requires |room.game.players| >= 2
    requires room.playerCount >= 3
    modifies table`live, table.rooms, room, room.game, client`room, client`state
    modifies (set c: Client | c in room.players)`room, (set c: Client | c in room.players)`state
    ensures room in w.games && Indexable(w.games[room]) && |w.games[room].players| >= 2
    ensures WorldOf(table)
         == Server.WithGraph(Server.Played(w, room, client), Membership.RemovePlayer(w.graph, room, client))
    ensures Apart(table.live)
    ensures next == Heir(w.games[room], client)
    ensures sent == old(RemovalNews(room, client)) + old(TurnNews(Heir(w.games[room], client)))
  {
    hide LeaveNews, Reached, RemovalNews, Heir, Membership.RemovePlayer, GameModel.RemovePlayer, Server.WithGraph;
    sent := Reached(room.players, PlayerRemoved(client.nickname), client);
    GameIsKnown(table, room, w);
    ghost var news, turn := RemovalNews(room, client), TurnNews(Heir(w.games[room], client));
    next := TakeOutOfGame(table, room, client, w);
    QuietLeaveNews(room, client);
    assert TurnNews(next) == turn;
    sent := LeaveWith(table, room, client, Server.Played(w, room, client), sent, news, next);
    sent := sent + TurnNews(next);
  }

  /** room_remove_player, after something has been sent already. */
  method LeaveWith(table: RoomTable, room: Room, client: Client, ghost w: Server.World,
                   told: seq<Delivery>, ghost news: seq<Delivery>, ghost next: Client?) returns (sent: seq<Delivery>)
    requires w == WorldOf(table) && Apart(table.live) && Seated(w.graph, room)
    requires client in table.clients && client in room.players && |room.players| == ROOM_SEATS
    requires room.game != null ==> room.game.WellFormed()
    requires told + LeaveNews(room, client) == news
    modifies table`live, table.rooms, room, Rooms.GameOf(room)`playerScores, client`room, client`state
    modifies (set c: Client | c in room.players)`room, (set c: Client | c in room.players)`state
    ensures WorldOf(table) == Server.WithGraph(w, Membership.RemovePlayer(w.graph, room, client))
    ensures Apart(table.live) && sent == news && TurnNews(next) == old(TurnNews(next))
  {
    hide LeaveNews, Membership.RemovePlayer, Server.WithGraph;
    var left := LeaveTable(table, room, client, w);
    sent := told + left;
  }

  ghost predicate InItsGame(client: Client)
    reads client`state, client`room, OwnRoom(client)
  {
    client.state == InGame && client.room != null && client.room.game != null
  }

  /** Who gets the turn when the client is taken out of its game. */
  ghost function HeirOf(client: Client): Client?
    reads client`state, client`room, OwnRoom(client), OwnGame(client), OwnBoard(client)
  {
    if InItsGame(client) && Indexable(client.room.game.View()) && |client.room.game.players| >= 2
    then Heir(client.room.game.View(), client) else null
  }

  /** What the others hear when a connection ends: of a player that is removed or waited for, or of one who has left a
      room whose game, if any, has not begun. */
  twostate predicate PartingTold(client: Client, turn: seq<Delivery>, freed: bool, new sent: seq<Delivery>) {
    if old(InItsGame(client)) then
      if freed
      then old(client in client.room.players) && sent == old(RemovalNews(client.room, client)) + turn
      else sent == old(Reached(client.room.players, PlayerWaitedFor(client.nickname), client))
    else if old(client.room) == null then sent == []
    else
      && old(client.room.game != null ==> client.room.game.WellFormed())
      && sent == old(LeaveNews(client.room, client))
  }

  /** What the server machine makes of a lost connection, case by case. */
  ghost function Dropped(w: Server.World, client: Client, room: Room?, inGame: bool, remaining: int,
                         marked: bool): Server.World
    requires client in w.graph.clients
    requires room != null ==> Seated(w.graph, room)
    requires inGame ==> room in w.games && Indexable(w.games[room])
  {
    if inGame then
      if remaining >= 2
      then
        var out := Server.WithGraph(Server.Played(w, room, client), Membership.RemovePlayer(w.graph, room, client));
        Server.Gone(out, client)
      else Server.Marked(w, client)
    else
      var out := if room != null then Server.WithGraph(w, Membership.RemovePlayer(w.graph, room, client)) else w;
      if marked then out else Server.Gone(out, client)
  }

  lemma DropStepOn(table: RoomTable, client: Client)
    requires Running(table) && client in table.clients && !client.isDisconnected
    ensures client in WorldOf(table).graph.clients && Apart(table.live)
    ensures client.room != null ==>
              Seated(WorldOf(table).graph, client.room) && CanLeave(table, client, client.room, WorldOf(table))
    ensures client.room != null ==> 0 <= client.room.playerCount <= |client.room.players|
    ensures InItsGame(client) ==>
              && client.room in WorldOf(table).games && Indexable(WorldOf(table).games[client.room])
              && Playable(table, client.room)
    ensures client.room != null ==> 0 <= client.room.playerCount <= |client.room.players|
    ensures InItsGame(client) && Server.Remaining(client.room.players, client.room.playerCount, client) >= 2 ==>
              |client.room.game.players| >= 2 && client.room.playerCount >= 3
  {
    var w := WorldOf(table);
    RunningServes(table, client);
    if client.room != null {
      RunningLeaves(table, client, client.room);
      RoomSeatedOnce(table, client.room);
      if InItsGame(client) && Server.Remaining(client.room.players, client.room.playerCount, client) >= 2 {
        assert w.graph.rooms[client.room] == SeatingOf(client.room);
        Server.EnoughPlayers(w, client);
        assert SeatingOk(client.room, w.graph.rooms[client.room]) && client in w.graph.rooms[client.room].seats;
        Server.RemainingCounted(client.room.players, client.room.playerCount, client.room.maxPlayers,
                                client.room.playerCount, client);
      }
    }
  }

  lemma HeirKnown(table: RoomTable, client: Client)
    requires Running(table) && client in table.clients
    ensures HeirOf(client) != client
    ensures InItsGame(client) ==>
              client.room in WorldOf(table).games && WorldOf(table).games[client.room] == client.room.game.View()
  {
    RunningServes(table, client);
    if InItsGame(client) {
      assert Server.RoomOk(WorldOf(table), client.room);
      if HeirOf(client) != null {
        HeirStays(client.room.game.View(), client);
      }
    }
  }

  lemma DropsIs(w: Server.World, client: Client, room: Room?, inGame: bool)
    requires Server.Inv(w) && Server.Talks(w, client) && w.graph.clients[client].room == room
    requires inGame <==> w.graph.clients[client].state == InGame && room in w.games
    requires room != null ==>
               Seated(w.graph, room) && 0 <= w.graph.rooms[room].count <= |w.graph.rooms[room].seats|
    requires inGame ==> Indexable(w.games[room])
    ensures Server.Drops(w, client, false)
         == Dropped(w, client, room, inGame,
                    if room == null then 0
                    else Server.Remaining(w.graph.rooms[room].seats, w.graph.rooms[room].count, client),
                    false)
  {
    hide Membership.RemovePlayer, Server.WithGraph, Server.Gone;
    if room != null {
      LeaveStepIs(w, client, room);
    }
  }

  lemma DroppedIs(table: RoomTable, client: Client)
    requires Running(table) && client in table.clients && !client.isDisconnected
    ensures client in WorldOf(table).graph.clients
    ensures client.room != null ==>
              Seated(WorldOf(table).graph, client.room) && 0 <= client.room.playerCount <= |client.room.players|
    ensures InItsGame(client) ==> client.room in WorldOf(table).games && Indexable(WorldOf(table).games[client.room])
    ensures Server.Talks(WorldOf(table), client)
    ensures Server.Drops(WorldOf(table), client, false)
         == Dropped(WorldOf(table), client, client.room, InItsGame(client),
                    if client.room == null then 0
                    else Server.Remaining(client.room.players, client.room.playerCount, client),
                    false)
  {
    hide Server.Drops, Dropped, Server.Inv, Membership.RemovePlayer, Server.WithGraph;
    var w := WorldOf(table);
    DropStepOn(table, client);
    RunningServes(table, client);
    if client.room != null {
      assert w.graph.rooms[client.room] == SeatingOf(client.room);
    }
    DropsIs(w, client, client.room, InItsGame(client));
  }

  /** The cleanup of client_handler_thread for a connection that the client has closed. The client is freed, and taken
      out of the client list, unless it is waited for. */
  method Disconnect(table: RoomTable, client: Client, now: int) returns (freed: bool, sent: seq<Delivery>)
    requires Running(table) && client in table.clients && !client.isDisconnected
    modifies table`live, table.rooms, table`clients, OwnRoom(client), OwnGame(client), client
    modifies Mates(client)`room, Mates(client)`state
    ensures Server.Talks(old(WorldOf(table)), client)
    ensures WorldOf(table) == Server.Drops(old(WorldOf(table)), client, false)
    ensures Apart(table.live)
    ensures freed <==> client !in table.clients
    ensures table.clients == old(table.clients) - if freed then {client} else {}
    ensures StandingOf(client) == if freed then old(StandingOf(client)) else Lost(old(StandingOf(client)), now)
    ensures PartingTold(client, old(TurnNews(HeirOf(client))), freed, sent)
  {
    hide RemovalNews, Reached, Heir, LeaveNews;
    ghost var w := WorldOf(table);
    DropStepOn(table, client);
    HeirKnown(table, client);
    DroppedIs(table, client);
    freed, sent := DropServed(table, client, now, w);
  }

  /** A client that plays no game leaves its room, if it has one, and is freed unless it is marked. */
  method DropIdle(table: RoomTable, client: Client, ghost w: Server.World) returns (freed: bool, sent: seq<Delivery>)
    requires w == WorldOf(table) && Apart(table.live) && client in table.clients && client in w.graph.clients
    requires client.room != null ==> CanLeave(table, client, client.room, w)
    modifies table`live, table.rooms, table`clients, OwnRoom(client), OwnGame(client)`playerScores
    modifies client`room, client`state, Mates(client)`room, Mates(client)`state
    ensures WorldOf(table) == old(Dropped(w, client, client.room, false, 0, client.isDisconnected))
    ensures Apart(table.live)
    ensures freed <==> !client.isDisconnected
    ensures table.clients == old(table.clients) - if freed then {client} else {}
    ensures if old(client.room) == null then sent == [] else sent == old(LeaveNews(client.room, client))
  {
    hide LeaveNews, Membership.RemovePlayer, Server.WithGraph, SeatingOf, LinkOf;
    sent := [];
    if client.room != null {
      sent := LeaveTable(table, client.room, client, w);
    }
    if client.isDisconnected {
      return false, sent;
    }
    Forget(table, client, WorldOf(table));
    freed := true;
  }

  method DropServed(table: RoomTable, client: Client, now: int, ghost w: Server.World)
    returns (freed: bool, sent: seq<Delivery>)
    requires w == WorldOf(table) && Apart(table.live) && client in table.clients && client in w.graph.clients
    requires client.room != null ==>
               && CanLeave(table, client, client.room, w) && 0 <= client.room.playerCount <= |client.room.players|
    requires InItsGame(client) ==>
              client.room in w.games && Indexable(w.games[client.room]) && Playable(table, client.room)
    requires InItsGame(client) && Server.Remaining(client.room.players, client.room.playerCount, client) >= 2 ==>
               |client.room.game.players| >= 2 && client.room.playerCount >= 3
    modifies table`live, table.rooms, table`clients, OwnRoom(client), OwnGame(client), client
    modifies Mates(client)`room, Mates(client)`state
    ensures WorldOf(table)
         == old(Dropped(w, client, client.room, InItsGame(client),
                        if client.room == null then 0
                        else Server.Remaining(client.room.players, client.room.playerCount, client),
                        client.isDisconnected))
    ensures Apart(table.live)
    ensures !freed ==> old(client.isDisconnected) || old(InItsGame(client))
    ensures StandingOf(client)
         == if !freed && old(InItsGame(client)) then Lost(old(StandingOf(client)), now) else old(StandingOf(client))
    ensures freed <==> client !in table.clients
    ensures table.clients == old(table.clients) - if freed then {client} else {}
    ensures old(InItsGame(client)) && freed ==>
              && |w.games[old(client.room)].players| >= 2 && old(client in client.room.players)
              && sent == old(RemovalNews(client.room, client)) + old(TurnNews(Heir(w.games[client.room], client)))
    ensures old(InItsGame(client)) && !freed ==>
              sent == old(Reached(client.room.players, PlayerWaitedFor(client.nickname), client))
    ensures !old(InItsGame(client)) && old(client.room) == null ==> sent == []
    ensures !old(InItsGame(client)) && old(client.room) != null ==> sent == old(LeaveNews(client.room, client))
  {
    hide RemovalNews, Reached, Heir, LeaveNews, Membership.RemovePlayer, Server.WithGraph;
    hide Server.Played, Server.Gone, Server.Marked, Lost, WorldOf, Apart, Playable;
    sent := [];
    if client.state == InGame && client.room != null && client.room.game != null {
      freed, sent := DropPlayer(table, client, client.room, now, w);
      return;
    }
    freed, sent := DropIdle(table, client, w);
  }

  // ---- a client that has fallen silent ----

  lemma {:induction false} FirstConnectedOthers(g: Graph, g': Graph, seats: seq<Client?>, i: nat, c: Client)
    requires i <= |seats| && c !in seats
    requires forall k :: 0 <= k < |seats| && seats[k] != null ==> seats[k] in g.clients
    requires g'.clients.Keys == g.clients.Keys && forall d :: d in g.clients && d != c ==> g'.clients[d] == g.clients[d]
    ensures FirstConnected(g', seats, i) == FirstConnected(g, seats, i)
    decreases |seats| - i
  {
    if i < |seats| {
      assert seats[i] in seats;
      FirstConnectedOthers(g, g', seats, i + 1, c);
    }
  }

  ghost function WithMark(g: Graph, c: Client): Graph
    requires c in g.clients
  {
    g.(clients := g.clients[c := g.clients[c].(disconnected := true)])
  }

  /** Whether the leaver itself is marked makes no difference to the others. */
  lemma MarkedVacates(g: Graph, room: Room, c: Client, seat: int)
    requires room in g.rooms && c in g.clients && 0 <= seat < |g.rooms[room].seats|
    ensures Vacate(WithMark(g, c), room, c, seat) == WithMark(Vacate(g, room, c, seat), c)
  {
  }

  lemma MarkedAfterLeave(g: Graph, room: Room, c: Client)
    requires Seated(g, room) && c in g.clients && c !in g.rooms[room].seats
    ensures Seated(WithMark(g, c), room) && c in Membership.AfterLeave(g, room, c).clients
    ensures Membership.AfterLeave(WithMark(g, c), room, c) == WithMark(Membership.AfterLeave(g, room, c), c)
  {
    var seats := g.rooms[room].seats;
    FirstConnectedOthers(g, WithMark(g, c), seats, 0, c);
    assert Released(WithMark(g, c).clients, seats, c)
        == Released(g.clients, seats, c)[c := Released(g.clients, seats, c)[c].(disconnected := true)];
  }

  lemma MarkedLeaves(g: Graph, room: Room, c: Client)
    requires Seated(g, room) && c in g.clients && SeatedOnce(g.rooms[room].seats) && c in g.rooms[room].seats
    ensures Seated(WithMark(g, c), room) && c in Membership.RemovePlayer(g, room, c).clients
    ensures Membership.RemovePlayer(WithMark(g, c), room, c) == WithMark(Membership.RemovePlayer(g, room, c), c)
  {
    IndexOfIs(g.rooms[room].seats, c);
    var seat := IndexOf(g.rooms[room].seats, c);
    MarkedVacates(g, room, c, seat);
    VacateSeated(g, room, c, seat);
    MarkedAfterLeave(Vacate(g, room, c, seat), room, c);
  }

  /** A player in a game: the game goes on without it when two others remain, and waits for it otherwise. */
  method DropPlayer(table: RoomTable, client: Client, room: Room, now: int, ghost w: Server.World)
    returns (freed: bool, sent: seq<Delivery>)
    requires w == WorldOf(table) && CanLeave(table, client, room, w) && Playable(table, room)
    requires Server.Remaining(room.players, room.playerCount, client) >= 2 ==>
              |room.game.players| >= 2 && room.playerCount >= 3
    modifies table`live, table.rooms, table`clients, room, room.game, client
    modifies (set c: Client | c in room.players)`room, (set c: Client | c in room.players)`state
    ensures room in w.games && Indexable(w.games[room])
    ensures freed <==> old(Server.Remaining(room.players, room.playerCount, client)) >= 2
    ensures table.clients == old(table.clients) - if freed then {client} else {}
    ensures WorldOf(table) == if freed
              then Server.Gone(Server.WithGraph(Server.Played(w, room, client),
                                                Membership.RemovePlayer(w.graph, room, client)), client)
              else Server.Marked(w, client)
    ensures Apart(table.live)
    ensures StandingOf(client) == if freed then old(StandingOf(client)) else Lost(old(StandingOf(client)), now)
    ensures freed ==>
              && |w.games[room].players| >= 2
              && sent == old(RemovalNews(room, client)) + old(TurnNews(Heir(w.games[room], client)))
    ensures !freed ==> sent == old(Reached(room.players, PlayerWaitedFor(client.nickname), client))
  {
    hide RemovalNews, Reached, Heir;
    var remaining := 0;
    for i := 0 to room.playerCount
      invariant remaining == Server.Remaining(room.players, i, client)
    {
      if room.players[i] != null && room.players[i] != client {
        remaining := remaining + 1;
      }
    }
    freed := remaining >= 2;
    sent := DropCounted(table, client, room, now, freed, w);
  }

  method WaitAndTell(table: RoomTable, room: Room, client: Client, now: int, ghost w: Server.World)
    returns (sent: seq<Delivery>)
    requires w == WorldOf(table) && Apart(table.live) && client in table.clients
    modifies client`isDisconnected, client`disconnectTime, client`socketFd
    ensures client in w.graph.clients && WorldOf(table) == Server.Marked(w, client) && Apart(table.live)
    ensures StandingOf(client) == Lost(old(StandingOf(client)), now)
    ensures sent == old(Reached(room.players, PlayerWaitedFor(client.nickname), client))
  {
    WaitFor(table, client, now, w);
    sent := [];
    for i := 0 to |room.players|
      invariant sent == old(Reached(room.players[..i], PlayerWaitedFor(client.nickname), client))
    {
      assert room.players[..i + 1][..i] == room.players[..i];
      if room.players[i] != null && room.players[i] != client && room.players[i].Reachable() {
        sent := sent + [Delivery(room.players[i], PlayerWaitedFor(client.nickname))];
      }
    }
    assert room.players[..|room.players|] == room.players;
  }

  lemma GameIsKnown(table: RoomTable, room: Room, w: Server.World)
    requires w == WorldOf(table) && Playable(table, room)
    ensures room in w.games && Indexable(w.games[room])
  {
  }

  method DropCounted(table: RoomTable, client: Client, room: Room, now: int, playsOn: bool, ghost w: Server.World)
    returns (sent: seq<Delivery>)
    requires w == WorldOf(table) && CanLeave(table, client, room, w) && Playable(table, room)
    requires playsOn ==> |room.game.players| >= 2 && room.playerCount >= 3
    modifies table`live, table.rooms, table`clients, room, room.game, client
    modifies (set c: Client | c in room.players)`room, (set c: Client | c in room.players)`state
    ensures table.clients == old(table.clients) - if playsOn then {client} else {}
    ensures room in w.games && Indexable(w.games[room])
    ensures WorldOf(table) == if playsOn
              then Server.Gone(Server.WithGraph(Server.Played(w, room, client),
                                                Membership.RemovePlayer(w.graph, room, client)), client)
              else Server.Marked(w, client)
    ensures Apart(table.live)
    ensures StandingOf(client) == if playsOn then old(StandingOf(client)) else Lost(old(StandingOf(client)), now)
    ensures playsOn ==>
              && |w.games[room].players| >= 2
              && sent == old(RemovalNews(room, client)) + old(TurnNews(Heir(w.games[room], client)))
    ensures !playsOn ==> sent == old(Reached(room.players, PlayerWaitedFor(client.nickname), client))
  {
    hide RemovalNews, Reached, Heir, Server.Played, Server.WithGraph, Membership.RemovePlayer, WorldOf;
    hide Apart;
    GameIsKnown(table, room, w);
    if playsOn {
      var next;
      sent, next := PlayOn(table, room, client, w);
      Forget(table, client,
             Server.WithGraph(Server.Played(w, room, client), Membership.RemovePlayer(w.graph, room, client)));
    } else {
      sent := WaitAndTell(table, room, client, now, w);
    }
  }

  lemma GoneUnmarked(w: Server.World, g: Graph, c: Client)
    requires c in g.clients
    ensures Server.Gone(Server.WithGraph(w, WithMark(g, c)), c) == Server.Gone(Server.WithGraph(w, g), c)
  {
  }

  /** The cleanup of a client that is marked comes to what the server machine says of its silence. */
  lemma SilenceIs(w: Server.World, client: Client, room: Room?, inGame: bool, remaining: int)
    requires client in w.graph.clients
    requires room != null ==>
              Seated(w.graph, room) && client in w.graph.rooms[room].seats && SeatedOnce(w.graph.rooms[room].seats)
    requires inGame ==> room in w.games && Indexable(w.games[room])
    ensures room != null ==> Seated(Server.Marked(w, client).graph, room)
    ensures Dropped(Server.Marked(w, client), client, room, inGame, remaining, true)
         == if inGame then Dropped(w, client, room, inGame, remaining, false)
            else if room != null
            then Server.Marked(Server.WithGraph(w, Membership.RemovePlayer(w.graph, room, client)), client)
            else Server.Marked(w, client)
  {
    var m := Server.Marked(w, client);
    if room != null {
      MarkedLeaves(w.graph, room, client);
      if inGame && remaining >= 2 {
        GoneUnmarked(Server.Played(w, room, client), Membership.RemovePlayer(w.graph, room, client), client);
      }
    }
  }

  lemma SilentDrops(w: Server.World, c: Client)
    requires Server.Inv(w) && Server.Talks(w, c)
    ensures var link := w.graph.clients[c];
            if link.state == InGame && link.room in w.games then Server.Drops(w, c, true) == Server.Drops(w, c, false)
            else if link.room == null then Server.Drops(w, c, true) == Server.Marked(w, c)
            else
              && c in Server.Leaves(w, c).graph.clients
              && Server.Drops(w, c, true) == Server.Marked(Server.Leaves(w, c), c)
  {
    if w.graph.clients[c].room != null {
      LeftKeeps(w.graph, c);
    }
  }

  lemma SilencedIs(table: RoomTable, client: Client)
    requires Running(table) && client in table.clients && !client.isDisconnected
    ensures client in WorldOf(table).graph.clients && Server.Talks(WorldOf(table), client)
    ensures client.room != null ==>
              && Seated(WorldOf(table).graph, client.room) && 0 <= client.room.playerCount <= |client.room.players|
              && Seated(Server.Marked(WorldOf(table), client).graph, client.room)
    ensures InItsGame(client) ==> client.room in WorldOf(table).games && Indexable(WorldOf(table).games[client.room])
    ensures Server.Drops(WorldOf(table), client, true)
         == Dropped(Server.Marked(WorldOf(table), client), client, client.room, InItsGame(client),
                    if client.room == null then 0
                    else Server.Remaining(client.room.players, client.room.playerCount, client),
                    true)
  {
    hide Membership.RemovePlayer, Server.WithGraph, Server.Played, Server.Gone, Server.Drops, Dropped, Server.Inv;
    var w := WorldOf(table);
    DropStepOn(table, client);
    DroppedIs(table, client);
    SilentDrops(w, client);
    RunningServes(table, client);
    if client.room != null {
      RoomSeatedOnce(table, client.room);
      RunningLeaves(table, client, client.room);
    }
    SilenceIs(w, client, client.room, InItsGame(client),
              if client.room == null then 0
              else Server.Remaining(client.room.players, client.room.playerCount, client));
  }

  lemma MarkedCanLeave(table: RoomTable, client: Client, room: Room, w: Server.World)
    requires CanLeave(table, client, room, w)
    ensures CanLeave(table, client, room, Server.Marked(w, client))
  {
  }

  /** Whoever is excepted might as well not sit there. */
  lemma {:induction false} SkippedSeat(seats: seq<Client?>, others: seq<Client?>, message: Message, client: Client)
    requires |others| == |seats|
    requires forall k :: 0 <= k < |seats| ==> others[k] == if seats[k] == client then null else seats[k]
    ensures Reached(seats, message, client) == Reached(others, message, null)
  {
    if seats != [] {
      SkippedSeat(seats[..|seats| - 1], others[..|seats| - 1], message, client);
    }
  }

  lemma OtherSeats(seats: seq<Client?>, client: Client)
    requires SeatedOnce(seats) && client in seats
    ensures IndexOf(seats, client) < |seats| && client !in seats[IndexOf(seats, client) := null]
    ensures var others := seats[IndexOf(seats, client) := null];
            && (forall k :: 0 <= k < |seats| ==> others[k] == if seats[k] == client then null else seats[k])
            && forall d: Client :: d in others ==> d in seats && d != client
  {
    IndexOfIs(seats, client);
    forall d: Client | d in seats[IndexOf(seats, client) := null] ensures d in seats && d != client {
      SeatCleared(seats, IndexOf(seats, client), d);
    }
  }

  /** Everybody but the client: what they hear, when it goes or is waited for. */
  ghost predicate Heard(room: Room, client: Client, leave: seq<Delivery>, removal: seq<Delivery>,
                        waiting: seq<Delivery>)
    requires client in room.players && (room.game != null ==> |room.game.players| == |room.game.playerScores|)
    reads room, if room.game == null then {} else {room.game}, PlayersIn(room)`nickname
    reads client`nickname, room.players`nickname
    reads room.players`isDisconnected, room.players`socketFd
  {
    && LeaveNews(room, client) == leave && RemovalNews(room, client) == removal
    && Reached(room.players, PlayerWaitedFor(client.nickname), client) == waiting
  }

  /** The mark on the client itself makes no difference to that. */
  method MarkUnheard(table: RoomTable, client: Client, ghost room: Room, now: int, ghost w: Server.World,
                     ghost leave: seq<Delivery>, ghost removal: seq<Delivery>, ghost waiting: seq<Delivery>,
                     ghost heir: Client?)
    requires heir != client
    requires w == WorldOf(table) && Apart(table.live) && client in table.clients
    requires SeatedOnce(room.players) && client in room.players
    requires room.game != null ==> |room.game.players| == |room.game.playerScores|
    requires Heard(room, client, leave, removal, waiting)
    modifies client`isDisconnected, client`disconnectTime, client`socketFd
    ensures client in w.graph.clients && WorldOf(table) == Server.Marked(w, client) && Apart(table.live)
    ensures StandingOf(client) == Lost(old(StandingOf(client)), now)
    ensures Heard(room, client, leave, removal, waiting) && TurnNews(heir) == old(TurnNews(heir))
  {
    hide Reached, Hearers, ToEach, Scoreboard, WorldOf, Apart, StandingOf, Lost, Server.Marked;
    ghost var others := room.players[IndexOf(room.players, client) := null];
    OtherSeats(room.players, client);
    SkippedSeat(room.players, others, PlayerWaitedFor(client.nickname), client);
    SkippedSeat(room.players, others, PlayerRemoved(client.nickname), client);
    WaitFor(table, client, now, w);
    HearersUnmoved(others);
    NextOwnerUnmoved(others);
    assert OwnerNews(others) == old(OwnerNews(others));
    SkippedSeat(room.players, others, PlayerWaitedFor(client.nickname), client);
    SkippedSeat(room.players, others, PlayerRemoved(client.nickname), client);
    assert room.game != null ==> NamesOf(room.game.players) == old(NamesOf(room.game.players));
  }

  /** A client whose PONG is overdue: the timeout checker marks it and closes its socket, and that wakes
      up its thread. */
  method FallSilent(table: RoomTable, client: Client, now: int, wake: int) returns (freed: bool, sent: seq<Delivery>)
    requires Running(table) && client in table.clients && !client.isDisconnected
    modifies table`live, table.rooms, table`clients, OwnRoom(client), OwnGame(client), client
    modifies Mates(client)`room, Mates(client)`state
    ensures Server.Talks(old(WorldOf(table)), client)
    ensures WorldOf(table) == Server.Drops(old(WorldOf(table)), client, true)
    ensures Apart(table.live)
    ensures freed <==> client !in table.clients
    ensures table.clients == old(table.clients) - if freed then {client} else {}
    ensures StandingOf(client) == Lost(old(StandingOf(client)), if !freed && old(InItsGame(client)) then wake else now)
    ensures PartingTold(client, old(TurnNews(HeirOf(client))), freed, sent)
  {
    hide RemovalNews, Reached, Heir, LeaveNews, Membership.RemovePlayer, Server.WithGraph;
    hide Server.Played;
    hide Dropped, Server.Drops, Running;
    ghost var w := WorldOf(table);
    DropStepOn(table, client);
    HeirKnown(table, client);
    SilencedIs(table, client);
    if client.room != null {
      RoomSeatedOnce(table, client.room);
      ghost var room, waiting := client.room, Reached(client.room.players, PlayerWaitedFor(client.nickname), client);
      MarkUnheard(table, client, room, now, w, LeaveNews(room, client), RemovalNews(room, client), waiting,
                  HeirOf(client));
      MarkedCanLeave(table, client, client.room, w);
    } else {
      WaitFor(table, client, now, w);
    }
    freed, sent := DropServed(table, client, wake, Server.Marked(w, client));
  }

  // ---- the deadlines afterwards ----

  /** The record that Disconnect leaves is the one whose deadlines Keepalive follows. */
  lemma DisconnectIsWake(s: Standing, authenticated: bool, now: int, inGame: bool, freed: bool)
    requires s.socket >= -1 && !s.marked && (!freed ==> inGame)
    ensures Keepalive.OnWake(Keepalive.TimersFrom(s, authenticated), now, inGame, freed)
         == if freed then None else Some(Keepalive.TimersFrom(Lost(s, now), authenticated))
  {
  }

  /** And so is the one that FallSilent leaves, which has been marked and closed before its thread wakes up. */
  lemma SilenceIsWake(s: Standing, authenticated: bool, now: int, wake: int, inGame: bool, freed: bool)
    requires s.socket >= -1 && !s.marked && (freed ==> inGame)
    ensures Keepalive.OnWake(Keepalive.TimersFrom(Lost(s, now), authenticated), wake, inGame, freed)
         == if freed then None
            else Some(Keepalive.TimersFrom(Lost(s, if inGame then wake else now), authenticated))
  {
  }

  // ---- giving up on a client ----

  /** What the members are told: the scores with the shares of the forfeit in them. */
  ghost function EvictionNews(room: Room, client: Client): seq<Delivery>
    requires room.game != null && |room.game.players| == |room.game.playerScores|
    reads room, room.game, PlayersIn(room)`nickname
    reads room.players`isDisconnected, room.players`socketFd
  {
    ToEach(Hearers(room.players), GameEndForfeit(ForfeitScores(room.game, client)))
  }

  twostate predicate EvictionTold(client: Client, new sent: seq<Delivery>) {
    if old(client.room) == null then sent == []
    else
      && old(client.room.game != null && client.room.game.WellFormed())
      && sent == old(EvictionNews(client.room, client))
  }

  /** The forfeited game and its room go; the others are as they were. */
  method ForfeitRoom(table: RoomTable, room: Room, game: Game<Client>, client: Client) returns (sent: seq<Delivery>)
    requires Playable(table, room) && game == room.game && client in table.clients && client in room.players
    modifies table`live, table.rooms, room, game`playerScores
    modifies (set c: Client | c in room.players)`room, (set c: Client | c in room.players)`state
    ensures table.View() == Destroy(old(table.View()), room, old(room.players), client)
    ensures table.live == old(table.live) - {room} && Apart(table.live)
    ensures forall r :: r in table.live ==> r.game == old(r.game)
    ensures forall r :: r in table.live && r.game != null ==> unchanged(r.game)
    ensures ForfeitPaid(game, client)
    ensures ForfeitTold(game, old(NamesOf(game.players)), old(Hearers(room.players)), sent)
    ensures sent == old(EvictionNews(room, client))
  {
    hide ForfeitScores, ToEach, Scoreboard, ForfeitTold, ForfeitPaid, SeatingOf, LinkOf;
    sent := table.Forfeit(room, game, client, NamesOf(game.players), Hearers(room.players));
    assert table.live == table.View().rooms.Keys;
  }

  lemma WorldIs(table: RoomTable, w: Server.World)
    requires w == WorldOf(table)
    ensures table.View() == w.graph
  {
  }

  method ForfeitApart(table: RoomTable, room: Room, client: Client, ghost w: Server.World) returns (sent: seq<Delivery>)
    requires Playable(table, room) && client in table.clients && client in room.players && w == WorldOf(table)
    modifies table`live, table.rooms, room, room.game`playerScores
    modifies (set c: Client | c in room.players)`room, (set c: Client | c in room.players)`state
    ensures table.View() == Destroy(w.graph, room, old(room.players), client)
    ensures GamesAs(table.live, w.games) && Apart(table.live)
    ensures ForfeitPaid(old(room.game), client)
    ensures sent == old(EvictionNews(room, client))
  {
    hide EvictionNews, ForfeitPaid, WorldOf, Destroy, RoomTable.View;
    GamesAreThose(table, w);
    WorldIs(table, w);
    sent := ForfeitRoom(table, room, room.game, client);
    forall r | r in table.live && r.game != null ensures r.game.View() == w.games[r] {
      assert r in old(table.live) && unchanged(r.game);
    }
  }

  lemma ExpireStepOn(table: RoomTable, client: Client)
    requires Running(table) && client in table.clients && client.isDisconnected
    ensures Apart(table.live) && Server.RoomsOk(WorldOf(table))
    ensures client.room != null ==>
              client.room in table.live && client.room.game != null && Playable(table, client.room)
    ensures client.room != null ==> client in client.room.players && client.room in WorldOf(table).graph.rooms
    ensures var w := WorldOf(table);
            Server.OnExpire(w, client)
            == if client.room != null
               then Server.Gone(Server.WithGraph(w, Destroy(w.graph, client.room, client.room.players, client)), client)
               else Server.Gone(w, client)
  {
    var w := WorldOf(table);
    RunningServes(table, client);
    if client.room != null {
      assert Server.StateOk(w.graph.clients[client], Server.PlayingIn(w, client.room));
      assert client in w.graph.rooms[client.room].seats && w.graph.rooms[client.room] == SeatingOf(client.room);
    }
  }

  /** The end of reconnecting: the game is forfeited, everybody else goes back to the lobby and the client is freed. */
  method Evict(table: RoomTable, client: Client) returns (sent: seq<Delivery>)
    requires Running(table) && client in table.clients && client.isDisconnected
    modifies table`live, table.rooms, table`clients, OwnRoom(client), OwnGame(client)`playerScores
    modifies Mates(client)`room, Mates(client)`state
    ensures WorldOf(table) == Server.OnExpire(old(WorldOf(table)), client)
    ensures Apart(table.live) && table.clients == old(table.clients) - {client}
    ensures old(client.room) != null ==> ForfeitPaid(old(client.room.game), client)
    ensures EvictionTold(client, sent)
  {
    hide EvictionNews;
    ExpireStepOn(table, client);
    sent := EvictServed(table, client, WorldOf(table));
  }

  method EvictServed(table: RoomTable, client: Client, ghost w: Server.World) returns (sent: seq<Delivery>)
    requires w == WorldOf(table) && Apart(table.live) && client in table.clients
    requires client.room != null ==>
               && client.room.game != null && Playable(table, client.room) && client in client.room.players
    modifies table`live, table.rooms, table`clients, OwnRoom(client), OwnGame(client)`playerScores
    modifies Mates(client)`room, Mates(client)`state
    ensures WorldOf(table) == old(
              if client.room != null
              then Server.Gone(Server.WithGraph(w, Destroy(w.graph, client.room, client.room.players, client)), client)
              else Server.Gone(w, client))
    ensures Apart(table.live) && table.clients == old(table.clients) - {client}
    ensures old(client.room) != null ==> ForfeitPaid(old(client.room.game), client)
    ensures old(client.room) == null ==> sent == []
    ensures old(client.room) != null ==> sent == old(EvictionNews(client.room, client))
  {
    hide EvictionNews;
    sent := [];
    if client.room != null {
      ghost var graph := Destroy(w.graph, client.room, client.room.players, client);
      sent := ForfeitApart(table, client.room, client, w);
      WorldLeft(table, w, graph);
      Forget(table, client, Server.WithGraph(w, graph));
    } else {
      Forget(table, client, w);
    }
  }
}
