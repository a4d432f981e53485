/** The room table and its games on the heap, seen as the state of module Server, and what the handlers rely on. */
module Worlds {
  import opened GameModel
  import opened Games
  import opened Structs
  import opened Messages
  import opened Membership
  import opened Rooms
  import opened Deliveries
  import Server
  import GameInvariant

  ghost function GamesIn(live: set<Room>): set<Game<Client>>
    reads live
  {
    set r | r in live && r.game != null :: r.game
  }

  ghost function BoardsIn(live: set<Room>): set<array<Card>>
    reads live
  {
    set r | r in live && r.game != null :: r.game.cards
  }

  ghost function GamesOf(live: set<Room>): map<Room, GameState<Client>>
    reads live, GamesIn(live), BoardsIn(live)
  {
    map r | r in live && r.game != null :: r.game.View()
  }

  ghost function WorldOf(table: RoomTable): Server.World
    reads table, table.rooms, table.live, GamesIn(table.live), BoardsIn(table.live)
    reads table.clients`room, table.clients`state, table.clients`isDisconnected
  {
    Server.World(table.View(), GamesOf(table.live))
  }

  /** No two rooms share a game or a board, and the redundant counters agree. */
  ghost predicate Apart(live: set<Room>)
    reads live, GamesIn(live), BoardsIn(live)
  {
    && (forall r :: r in live && r.game != null ==>
          r.game.playerCount == |r.game.players| && r.game.totalCards == r.game.cards.Length)
    && (forall r, s :: r in live && s in live && r != s && r.game != null && s.game != null
                       ==> r.game != s.game && r.game.cards != s.game.cards)
  }

  ghost predicate Running(table: RoomTable)
    reads table, table.rooms, table.live, GamesIn(table.live), BoardsIn(table.live)
    reads table.clients`room, table.clients`state, table.clients`isDisconnected
  {
    Server.Inv(WorldOf(table)) && Apart(table.live)
  }

  /** The games of the other rooms are not the one that changes. */
  ghost predicate OthersAs(live: set<Room>, room: Room, games: map<Room, GameState<Client>>)
    reads live, GamesIn(live), BoardsIn(live)
  {
    forall r :: r in live && r.game != null && r != room ==> r in games && r.game.View() == games[r]
  }

  ghost predicate GamesAs(live: set<Room>, games: map<Room, GameState<Client>>)
    reads live, GamesIn(live), BoardsIn(live)
  {
    forall r :: r in live ==> (r in games <==> r.game != null) && (r.game != null ==> r.game.View() == games[r])
  }

  lemma GamesLeft(live: set<Room>, games: map<Room, GameState<Client>>)
    requires GamesAs(live, games)
    ensures GamesOf(live) == map r | r in games && r in live :: games[r]
  {
  }

  /** When only the game of one room has changed, so have the games. */
  lemma OneGameChanged(live: set<Room>, room: Room, before: map<Room, GameState<Client>>)
    requires room in live && room.game != null
    requires forall r :: r in before ==> r in live && r.game != null
    requires OthersAs(live, room, before)
    ensures GamesOf(live) == before[room := room.game.View()]
  {
  }

  /** What a handler may rely on when its client sits in a room. */
  lemma RoomOfClient(table: RoomTable, client: Client)
    requires Running(table) && client in table.clients && client.room != null
    ensures client.room in table.live && |client.room.players| == ROOM_SEATS
    ensures client.room.game != null ==> client.room.game.WellFormed() && client.room in WorldOf(table).games
    ensures client.room.game == null ==> client.room !in WorldOf(table).games
  {
    var w := WorldOf(table);
    assert w.graph.clients[client] == LinkOf(client);
    assert client.room in w.graph.rooms && w.graph.rooms[client.room] == SeatingOf(client.room);
    assert Server.RoomOk(w, client.room) && SeatingOk(client.room, w.graph.rooms[client.room]);
    if client.room.game != null {
      assert w.games[client.room] == client.room.game.View();
      GameInvariant.InvIndexable(w.games[client.room]);
    }
  }

  lemma RoomSeatedOnce(table: RoomTable, room: Room)
    requires Running(table) && room in table.live
    ensures SeatedOnce(room.players) && |room.players| == ROOM_SEATS && 0 <= room.playerCount <= ROOM_SEATS
    ensures room.owner in room.players
  {
    var w := WorldOf(table);
    assert room in w.graph.rooms && w.graph.rooms[room] == SeatingOf(room);
    assert SeatingOk(room, w.graph.rooms[room]);
    Server.MembersCount(room.players);
  }

  /** What a room with a game needs for the handlers to work on it. */
  ghost predicate Playable(table: RoomTable, room: Room)
    reads table, table.live, room, GamesIn(table.live), BoardsIn(table.live)
  {
    && room in table.live && room.game != null && Apart(table.live) && room.game.WellFormed()
    && SeatedOnce(room.players) && |room.players| == ROOM_SEATS && 0 <= room.playerCount <= ROOM_SEATS
    && room.owner in room.players
  }

  lemma RunningPlayable(table: RoomTable, room: Room)
    requires Running(table) && room in table.live && room.game != null
    ensures Playable(table, room) && room.game.state != Finished
  {
    RoomSeatedOnce(table, room);
    var w := WorldOf(table);
    assert Server.RoomOk(w, room) && w.games[room] == room.game.View();
    GameInvariant.InvIndexable(w.games[room]);
  }

  /** What a handler relies on: the client's room, if any, is in the table, and its game, if any, can be played. */
  ghost predicate Served(table: RoomTable, client: Client)
    reads table, table.live, client`room, OwnRoom(client), GamesIn(table.live), BoardsIn(table.live)
  {
    && Apart(table.live)
    && (client.room != null ==> client.room in table.live)
    && (client.room != null && client.room.game != null ==>
          Playable(table, client.room) && client.room.game.state != Finished)
  }

  lemma RunningServes(table: RoomTable, client: Client)
    requires Running(table) && client in table.clients
    ensures Served(table, client) && Server.RoomsOk(WorldOf(table))
    ensures WorldOf(table).graph.clients[client] == LinkOf(client)
    ensures client.room != null && client.room.game != null ==>
              client.room in WorldOf(table).games && client.room in WorldOf(table).graph.rooms
              && WorldOf(table).games[client.room] == client.room.game.View()
    ensures client.room == null || client.room.game == null ==> !Server.HasGame(WorldOf(table), client)
  {
    if client.room != null {
      RoomOfClient(table, client);
      if client.room.game != null {
        RunningPlayable(table, client.room);
      }
    }
  }

  /** The members a message reaches. */
  ghost function Listeners(seats: seq<Client?>): set<Client>
    reads seats`isDisconnected, seats`socketFd
  {
    set c: Client | c in seats && c.Reachable()
  }

  lemma AllHear(seats: seq<Client?>, m: Message)
    requires SeatedOnce(seats)
    ensures forall c: Client :: c in seats && c.Reachable() ==> Inbox(Reached(seats, m, null), c) == [m]
  {
    forall c: Client | c in seats && c.Reachable() ensures Inbox(Reached(seats, m, null), c) == [m] {
      ReachedInbox(seats, m, c);
    }
  }

  /** A broadcast and what is sent after it, to one member. */
  lemma ThenHears(seats: seq<Client?>, m: Message, rest: seq<Delivery>, c: Client)
    requires SeatedOnce(seats) && c in seats && c.Reachable()
    ensures Inbox(Reached(seats, m, null) + rest, c) == [m] + Inbox(rest, c)
  {
    ReachedInbox(seats, m, c);
    InboxConcat(Reached(seats, m, null), rest, c);
  }

  /** send_error_and_count */
  method Refuse(client: Client, reason: Refusal) returns (sent: seq<Delivery>)
    modifies client`invalidMessageCount
    ensures client.invalidMessageCount == old(client.invalidMessageCount) + 1
    ensures sent == Reply(client, Refused(reason))
  {
    sent := Reply(client, Refused(reason));
    client.invalidMessageCount := client.invalidMessageCount + 1;
  }

  method RefuseIn(table: RoomTable, client: Client, reason: Refusal) returns (sent: seq<Delivery>)
    modifies client`invalidMessageCount
    ensures client.invalidMessageCount == old(client.invalidMessageCount) + 1
    ensures sent == Reply(client, Refused(reason)) && WorldOf(table) == old(WorldOf(table))
  {
    sent := Refuse(client, reason);
    assert table.View().clients == old(table.View()).clients;
  }

  /** What every handler comes down to: when the table and its games have become what a step of the server machine
      says, they are in order again exactly when the step is harmless. */
  lemma RunningAgain(table: RoomTable, w: Server.World, e: Server.Event)
    requires Server.Inv(w) && WorldOf(table) == Server.Step(w, e) && Apart(table.live)
    ensures Running(table) <==> Server.Harmless(w, e)
  {
    Server.StepKeepsExactlyWhen(w, e);
  }
}
