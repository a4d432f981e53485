/** The room table of server_src/room.c. Its methods are proved against the steps of module Membership. */
module Rooms {
  import opened SeqFacts
  import opened Games
  import opened Forfeit
  import opened Structs
  import opened Messages
  import opened Membership

  ghost function SeatingOf(r: Room): Seating
    reads r
  {
    Seating(r.players, r.playerCount, r.state, r.owner, r.game)
  }

  ghost function LinkOf(c: Client): Link
    reads c`room, c`state, c`isDisconnected
  {
    Link(c.room, c.state, c.isDisconnected)
  }

  /** Those a broadcast to these seats reaches, in seat order. */
  function Reached(seats: seq<Client?>, message: Message, except: Client?): (ds: seq<Delivery>)
    reads seats`isDisconnected, seats`socketFd
  {
    if seats == [] then []
    else
      var n := |seats| - 1;
      Reached(seats[..n], message, except)
      + if seats[n] != null && seats[n] != except && seats[n].Reachable() then [Delivery(seats[n], message)] else []
  }

  /** room_broadcast_except */
  method Broadcast(room: Room, message: Message, except: Client?) returns (sent: seq<Delivery>)
    ensures sent == Reached(room.players, message, except)
  {
    sent := [];
    for i := 0 to |room.players|
      invariant sent == Reached(room.players[..i], message, except)
    {
      assert room.players[..i + 1][..i] == room.players[..i];
      if room.players[i] != null && room.players[i] != except && room.players[i].Reachable() {
        sent := sent + [Delivery(room.players[i], message)];
      }
    }
    assert room.players[..|room.players|] == room.players;
  }

  /** The members a broadcast reaches, in seat order. */
  function Hearers(seats: seq<Client?>): (cs: seq<Client>)
    reads seats`isDisconnected, seats`socketFd
  {
    if seats == [] then []
    else
      var n := |seats| - 1;
      Hearers(seats[..n]) + if seats[n] != null && seats[n].Reachable() then [seats[n]] else []
  }

  twostate lemma {:induction false} HearersUnmoved(seats: seq<Client?>)
    requires forall c: Client :: c in seats ==> c.Reachable() == old(c.Reachable())
    ensures Hearers(seats) == old(Hearers(seats))
  {
    if seats != [] {
      HearersUnmoved(seats[..|seats| - 1]);
    }
  }

  /** Who hears of it when a client has left its seat. */
  ghost function Stayers(seats: seq<Client?>, client: Client): seq<Client>
    reads seats`isDisconnected, seats`socketFd
  {
    if client in seats then Hearers(seats[IndexOf(seats, client) := null]) else Hearers(seats)
  }

  function ToEach(cs: seq<Client>, message: Message): (ds: seq<Delivery>)
    ensures |ds| == |cs|
  {
    seq(|cs|, i requires 0 <= i < |cs| => Delivery(cs[i], message))
  }

  lemma {:induction false} ReachedIsHeard(seats: seq<Client?>, message: Message)
    ensures Reached(seats, message, null) == ToEach(Hearers(seats), message)
  {
    if seats != [] {
      ReachedIsHeard(seats[..|seats| - 1], message);
    }
  }

  ghost function NamesOf(players: seq<Client>): (r: seq<string>)
    reads players`nickname
    ensures |r| == |players| && forall k :: 0 <= k < |r| ==> r[k] == players[k].nickname
  {
    if players == [] then [] else NamesOf(players[..|players| - 1]) + [players[|players| - 1].nickname]
  }

  /** Names and scores in seat order, as GAME_END and GAME_END_FORFEIT list them. */
  ghost function Scoreboard(names: seq<string>, scores: seq<int>): (r: seq<(string, int)>)
    requires |names| == |scores|
    ensures |r| == |names| && forall k :: 0 <= k < |r| ==> r[k] == (names[k], scores[k])
  {
    seq(|names|, k requires 0 <= k < |names| => (names[k], scores[k]))
  }

  ghost function GameOf(r: Room): set<Game<Client>>
    reads r
  {
    if r.game == null then {} else {r.game}
  }

  /** A client that goes when its room does: it sits there, or has just left its seat. */
  ghost predicate Leaving(room: Room, leaver: Client)
    reads room`players, leaver`room, leaver`state
  {
    leaver in room.players || (leaver.room == null && leaver.state == InLobby)
  }

  /** The pairs the game had left are in the scores of the best of those who stay. */
  twostate predicate ForfeitPaid(game: Game<Client>, leaver: Client)
    reads game
  {
    |game.players| == |old(game.playerScores)| &&
    game.playerScores == Split(old(game.playerScores), Stays(game.players, leaver), game.totalPairs - game.matchedPairs)
  }

  /** Those who hear it are told the scores with the shares of the forfeit in them. */
  ghost predicate ForfeitTold(game: Game<Client>, names: seq<string>, hearers: seq<Client>, sent: seq<Delivery>)
    reads game
  {
    |names| == |game.playerScores| && sent == ToEach(hearers, GameEndForfeit(Scoreboard(names, game.playerScores)))
  }

  /** When too few are left, the leaver forfeits: the pairs are shared out and the others are told. */
  twostate predicate LeaverForfeits(room: Room, game: Game?<Client>, client: Client, new sent: seq<Delivery>)
    reads if game == null then {} else {game}
  {
    game != null && old(room.playerCount) - 1 < 2 ==>
      && ForfeitPaid(game, client)
      && ForfeitTold(game, old(NamesOf(game.players)), old(Stayers(room.players, client)), sent)
  }

  ghost function PlayersIn(r: Room): set<Client>
    reads r, GameOf(r)
  {
    if r.game == null then {} else set c | c in r.game.players
  }

  /** Who becomes the owner: the first member that is not waiting to reconnect. */
  ghost function NextOwner(seats: seq<Client?>): (o: Client?)
    reads seats`isDisconnected
    ensures o != null ==> o in seats
  {
    if seats == [] then null
    else if seats[0] != null && !seats[0].isDisconnected then seats[0]
    else NextOwner(seats[1..])
  }

  ghost function OwnerNews(seats: seq<Client?>): Message
    reads seats`isDisconnected, seats`nickname
  {
    if NextOwner(seats) == null then RoomClosed else OwnerChanged(NextOwner(seats).nickname)
  }

  /** Names and scores when the pairs that are left have gone to the best of those who stay. */
  ghost function ForfeitScores(game: Game<Client>, leaver: Client): seq<(string, int)>
    requires |game.players| == |game.playerScores|
    reads game, game.players`nickname
  {
    Scoreboard(NamesOf(game.players),
               Split(game.playerScores, Stays(game.players, leaver), game.totalPairs - game.matchedPairs))
  }

  /** What those in the seats are told when so many are left and the client has gone. */
  ghost function NewsFor(room: Room, seats: seq<Client?>, count: int, client: Client): seq<Delivery>
    requires room.game != null ==> |room.game.players| == |room.game.playerScores|
    reads room, if room.game == null then {} else {room.game}, PlayersIn(room)`nickname
    reads seats`isDisconnected, seats`socketFd
    reads seats`nickname
  {
    if room.game != null && count < 2 then ToEach(Hearers(seats), GameEndForfeit(ForfeitScores(room.game, client)))
    else if room.owner == client && count > 0 then ToEach(Hearers(seats), OwnerNews(seats))
    else []
  }

  /** What room_remove_player tells those who stay. */
  ghost function LeaveNews(room: Room, client: Client): seq<Delivery>
    requires room.game != null ==> |room.game.players| == |room.game.playerScores|
    reads room, if room.game == null then {} else {room.game}, PlayersIn(room)`nickname
    reads room.players`isDisconnected, room.players`socketFd
    reads room.players`nickname
  {
    if client !in room.players then []
    else
      IndexOfIs(room.players, client);
      NewsFor(room, room.players[IndexOf(room.players, client) := null], room.playerCount - 1, client)
  }

  twostate lemma {:induction false} NextOwnerUnmoved(seats: seq<Client?>)
    requires forall c: Client :: c in seats ==> c.isDisconnected == old(c.isDisconnected)
    ensures NextOwner(seats) == old(NextOwner(seats))
  {
    if seats != [] {
      NextOwnerUnmoved(seats[1..]);
    }
  }

  class RoomTable {
    const rooms: array<Room?>
    var nextRoomId: int
    /** The rooms in the table. */
    ghost var live: set<Room>
    /** The clients the server has accepted. */
    ghost var clients: set<Client>

    ghost function View(): Graph
      reads this, rooms, live, clients`room, clients`state, clients`isDisconnected
    {
      Graph(rooms[..], nextRoomId, map r | r in live :: SeatingOf(r), map c | c in clients :: LinkOf(c))
    }

    /** When only one room has changed, or come, the view of the rooms has changed in that room only. */
    twostate lemma OneRoomChanged(new room: Room)
      requires live == old(live) + {room}
      requires forall r :: r in old(live) && r != room ==> unchanged(r)
      ensures View().rooms == old(View()).rooms[room := SeatingOf(room)]
    {
    }

    twostate lemma OneClientChanged(client: Client)
      requires client in clients && clients == old(clients)
      requires forall c :: c in clients && c != client ==> LinkOf(c) == old(LinkOf(c))
      ensures View().clients == old(View()).clients[client := LinkOf(client)]
    {
    }

    constructor (maxRooms: nat)
      ensures View() == Empty(maxRooms)
      ensures fresh(rooms)
    {
      var slots := new Room?[maxRooms](i => null);
      rooms := slots;
      nextRoomId, live, clients := 1, {}, {};
    }

    method FreeSlot() returns (slot: int)
      ensures slot == (if IndexOf(rooms[..], null) == rooms.Length then -1 else IndexOf(rooms[..], null))
    {
      slot := 0;
      while slot < rooms.Length
        invariant 0 <= slot <= rooms.Length
        invariant forall k :: 0 <= k < slot ==> rooms[k] != null
      {
        if rooms[slot] == null {
          return;
        }
        slot := slot + 1;
      }
      slot := -1;
    }

    method Create(name: string, maxPlayers: int, boardSize: int, owner: Client) returns (room: Room?)
      requires owner in clients
      modifies this`nextRoomId, this`live, rooms, owner`room, owner`state
      ensures room == null <==>
              !(2 <= maxPlayers <= 4 && boardSize in {4, 6, 8}) || null !in old(rooms[..])
      ensures room == null ==> View() == old(View())
      ensures room != null ==>
                && fresh(room) && room.roomId == old(nextRoomId)
                && room.maxPlayers == maxPlayers && room.boardSize == boardSize
                && room.name == name[..Min(|name|, 63)]
                && View() == CreateRoom(old(View()), owner, room)
      ensures live == if room == null then old(live) else old(live) + {room}
      ensures room != null ==> room.game == null
    {
      if maxPlayers < 2 || maxPlayers > ROOM_SEATS {
        return null;
      }
      if boardSize < 4 || boardSize > 8 || boardSize % 2 != 0 {
        return null;
      }
      var slot := FreeSlot();
      IndexOfIs(rooms[..], null);
      if slot == -1 {
        return null;
      }
      room := new Room(nextRoomId, name[..Min(|name|, MAX_ROOM_NAME_LENGTH - 1)], maxPlayers, boardSize, owner);
      nextRoomId := nextRoomId + 1;
      owner.room := room;
      owner.state := InRoom;
      rooms[slot] := room;
      live := live + {room};
      OneRoomChanged(room);
      OneClientChanged(owner);
    }

    /** room_get_by_id; 0 is never an id. */
    method GetById(id: int) returns (room: Room?)
      requires forall i :: 0 <= i < rooms.Length && rooms[i] != null ==> rooms[i] in live
      requires forall r :: r in live ==> r in rooms[..]
      ensures room != null ==> room in live && room.roomId == id
      ensures room == null ==> forall r :: r in live ==> r.roomId != id
    {
      for i := 0 to rooms.Length
        invariant forall k :: 0 <= k < i && rooms[k] != null ==> rooms[k].roomId != id
      {
        if rooms[i] != null && rooms[i].roomId == id {
          return rooms[i];
        }
      }
      return null;
    }

    /** The scans over a room's four seats: the seat that holds a client, or the first free one for null. */
    method FindSeat(room: Room, who: Client?) returns (seat: int)
      requires |room.players| == ROOM_SEATS
      ensures seat == if who in room.players then IndexOf(room.players, who) else -1
    {
      seat := 0;
      while seat < ROOM_SEATS
        invariant 0 <= seat <= ROOM_SEATS
        invariant forall k :: 0 <= k < seat ==> room.players[k] != who
      {
        if room.players[seat] == who {
          return;
        }
        seat := seat + 1;
      }
      seat := -1;
    }

    method AddPlayer(room: Room, client: Client) returns (ok: bool)
      requires room in live && client in clients && |room.players| == ROOM_SEATS
      modifies room`players, room`playerCount, client`room, client`state
      ensures View() == Membership.AddPlayer(old(View()), room, client)
      ensures ok <==> CanJoin(old(View()), room, client)
      ensures ok ==> client.room == room && null in old(room.players) && client !in old(room.players)
      ensures ok ==> room.players == old(room.players)[IndexOf(old(room.players), null) := client]
    {
      if room.playerCount >= room.maxPlayers {
        return false;
      }
      var seat := FindSeat(room, client);
      if seat != -1 {
        IndexOfIs(room.players, client);
        return false;
      }
      IndexOfIs(room.players, client);
      IndexOfIs(room.players, null);
      seat := FindSeat(room, null);
      if seat == -1 {
        return false;
      }
      TakeSeat(room, client, seat);
      return true;
    }

    method TakeSeat(room: Room, client: Client, seat: int)
      requires room in live && client in clients && 0 <= seat < |room.players|
      modifies room`players, room`playerCount, client`room, client`state
      ensures room.players == old(room.players)[seat := client] && client.room == room
      ensures View() == old(View()).(
              rooms := old(View()).rooms[room := old(SeatingOf(room)).(
              seats := old(room.players)[seat := client], count := old(room.playerCount) + 1)],
              clients := old(View()).clients[client := old(LinkOf(client)).(room := room, state := InRoom)])
    {
      room.players := room.players[seat := client];
      room.playerCount := room.playerCount + 1;
      client.room := room;
      client.state := InRoom;
      OneRoomChanged(room);
      OneClientChanged(client);
    }

    method Results(game: Game<Client>) returns (results: seq<(string, int)>)
      requires game.WellFormed()
      ensures results == Scoreboard(NamesOf(game.players), game.playerScores)
    {
      results := [];
      for k := 0 to game.playerCount
        invariant |results| == k
        invariant forall j :: 0 <= j < k ==> results[j] == (game.players[j].nickname, game.playerScores[j])
      {
        results := results + [(game.players[k].nickname, game.playerScores[k])];
      }
    }

    /** Everybody who is still seated goes back to the lobby; one who has left is there already. */
    method Release(room: Room, ghost leaver: Client)
      requires |room.players| == ROOM_SEATS && Leaving(room, leaver)
      modifies (set c: Client | c in room.players)`room, (set c: Client | c in room.players)`state
      ensures View() == old(View()).(clients := Released(old(View()).clients, room.players, leaver))
      ensures leaver.room == null && leaver.state == InLobby
    {
      hide SeatingOf;
      for i := 0 to ROOM_SEATS
        invariant leaver !in room.players ==> leaver.room == null && leaver.state == InLobby
        invariant leaver in room.players[..i] ==> leaver.room == null && leaver.state == InLobby
        invariant forall c :: c in clients ==>
                    LinkOf(c) == if c in room.players[..i] then old(LinkOf(c)).(room := null, state := InLobby)
                                 else old(LinkOf(c))
      {
        if room.players[i] != null {
          room.players[i].room := null;
          room.players[i].state := InLobby;
        }
      }
      assert room.players[..ROOM_SEATS] == room.players;
      assert View().clients == Released(old(View()).clients, room.players, leaver);
      assert View().rooms == old(View()).rooms;
    }

    /** The room gives up its slot. */
    method FreeSlotOf(room: Room)
      modifies rooms
      ensures rooms[..] == ClearSlot(old(rooms[..]), room)
    {
      var i := 0;
      while i < rooms.Length
        invariant 0 <= i <= rooms.Length
        invariant rooms[..] == old(rooms[..])
        invariant forall k :: 0 <= k < i ==> rooms[k] != room
      {
        if rooms[i] == room {
          rooms[i] := null;
          return;
        }
        i := i + 1;
      }
    }

    /** room_destroy */
    method Destroy(room: Room, ghost leaver: Client)
      requires room in live && |room.players| == ROOM_SEATS && Leaving(room, leaver)
      modifies this`live, rooms, (set c: Client | c in room.players)`room, (set c: Client | c in room.players)`state
      ensures View() == Membership.Destroy(old(View()), room, room.players, leaver)
    {
      Release(room, leaver);
      FreeSlotOf(room);
      live := live - {room};
      assert View().rooms == old(View()).rooms - {room};
    }

    /** The first step of room_remove_player: the seat is cleared and the client is back in the lobby. */
    method ClearSeat(room: Room, client: Client, seat: int)
      requires room in live && client in clients && 0 <= seat < |room.players|
      modifies room`players, room`playerCount, client`room, client`state
      ensures room.players == old(room.players)[seat := null] && room.playerCount == old(room.playerCount) - 1
      ensures View() == Vacate(old(View()), room, client, seat)
    {
      room.players := room.players[seat := null];
      room.playerCount := room.playerCount - 1;
      client.room := null;
      client.state := InLobby;
      OneRoomChanged(room);
      OneClientChanged(client);
    }

    /** The forfeit branch, first half: the unmatched pairs are shared out and everybody is told the result. */
    method SettleForfeit(room: Room, game: Game<Client>, client: Client) returns (sent: seq<Delivery>)
      requires game.WellFormed()
      modifies game`playerScores
      ensures ForfeitPaid(game, client)
      ensures sent
           == ToEach(Hearers(room.players), GameEndForfeit(Scoreboard(NamesOf(game.players), game.playerScores)))
      ensures sent == old(ToEach(Hearers(room.players), GameEndForfeit(ForfeitScores(game, client))))
    {
      hide Hearers, Reached, ToEach, Scoreboard, Split, Stays;
      ghost var names, hearers := NamesOf(game.players), Hearers(room.players);
      game.SplitForfeit(client);
      assert game.WellFormed();
      assert NamesOf(game.players) == names && Hearers(room.players) == hearers;
      hide NamesOf;
      var results := Results(game);
      sent := Broadcast(room, GameEndForfeit(results), null);
      ReachedIsHeard(room.players, GameEndForfeit(results));
    }

    /** The forfeit branch, second half: the game is gone, everybody is released and the room is destroyed. */
    method CloseRoom(room: Room, client: Client)
      requires room in live && |room.players| == ROOM_SEATS && client in clients && Leaving(room, client)
      modifies this`live, rooms, room
      modifies (set c: Client | c in room.players)`room, (set c: Client | c in room.players)`state
      ensures View() == Membership.Destroy(old(View()), room, old(room.players), client)
      ensures room.game == null
    {
      Release(room, client);
      Unseat(room);
      ReleasedAgain(old(View()).clients, old(room.players), client);
      Destroy(room, client);
    }

    method Unseat(room: Room)
      requires room in live
      modifies room
      ensures room.players == [null, null, null, null] && room.game == null
      ensures View().rooms - {room} == old(View()).rooms - {room}
      ensures View() == old(View()).(rooms := View().rooms)
    {
      room.game := null;
      room.state := RoomWaiting;
      room.players := [null, null, null, null];
      room.playerCount := 0;
      OneRoomChanged(room);
    }

    /** Ownership passes to the first member that is connected, if there is one. */
    method PassOwnership(room: Room) returns (found: bool)
      requires |room.players| == ROOM_SEATS && room in live
      requires forall k :: 0 <= k < |room.players| && room.players[k] != null ==> room.players[k] in clients
      modifies room`owner
      ensures found <==> FirstConnected(old(View()), room.players, 0) != null
      ensures NextOwner(room.players) == if found then room.owner else null
      ensures found ==>
                && room.owner == FirstConnected(old(View()), room.players, 0)
                && View().rooms == old(View()).rooms[room := old(SeatingOf(room)).(owner := room.owner)]
                && View() == old(View()).(rooms := View().rooms)
      ensures !found ==> View() == old(View())
    {
      var j := 0;
      while j < ROOM_SEATS
        invariant 0 <= j <= ROOM_SEATS
        invariant FirstConnected(old(View()), room.players, 0) == FirstConnected(old(View()), room.players, j)
        invariant NextOwner(room.players) == NextOwner(room.players[j..])
        invariant View() == old(View())
      {
        if room.players[j] != null && !room.players[j].isDisconnected {
          room.owner := room.players[j];
          OneRoomChanged(room);
          return true;
        }
        j := j + 1;
      }
      return false;
    }

    /** The room and the game of a client that has forfeited it are gone, and the others know the scores. */
    method Forfeit(room: Room, game: Game<Client>, client: Client, ghost names: seq<string>, ghost hearers: seq<Client>)
      returns (sent: seq<Delivery>)
      requires room in live && |room.players| == ROOM_SEATS && client in clients && Leaving(room, client)
      requires game.WellFormed() && names == NamesOf(game.players) && hearers == Hearers(room.players)
      modifies this`live, rooms, room, game`playerScores
      modifies (set c: Client | c in room.players)`room, (set c: Client | c in room.players)`state
      ensures View() == Membership.Destroy(old(View()), room, old(room.players), client)
      ensures ForfeitPaid(game, client) && ForfeitTold(game, names, hearers, sent)
      ensures sent == old(ToEach(Hearers(room.players), GameEndForfeit(ForfeitScores(game, client))))
    {
      hide ForfeitScores, ToEach, Scoreboard, Hearers, NamesOf;
      sent := SettleForfeit(room, game, client);
      assert View() == old(View());
      CloseRoom(room, client);
    }

    method RemovePlayer(room: Room, client: Client) returns (ok: bool, sent: seq<Delivery>)
      requires Seated(View(), room) && client in clients && |room.players| == ROOM_SEATS
      requires room.game != null ==> room.game.WellFormed()
      modifies this`live, rooms, room, GameOf(room)`playerScores, client`room, client`state
      modifies (set c: Client | c in room.players)`room, (set c: Client | c in room.players)`state
      ensures View() == Membership.RemovePlayer(old(View()), room, client)
      ensures ok <==> client in old(room.players)
      ensures ok ==> LeaverForfeits(room, old(room.game), client, sent)
      ensures sent == old(LeaveNews(room, client))
      ensures old(room.game) != null && old(room.playerCount) - 1 >= 2 ==> unchanged(old(room.game))
    {
      hide Seated, Membership.RemovePlayer, Split, ForfeitScores, Hearers, ToEach, Scoreboard, NextOwner;
      ghost var before := View();
      ghost var names := if room.game != null then NamesOf(room.game.players) else [];
      ghost var hearers := Stayers(room.players, client);
      ghost var news := LeaveNews(room, client);
      if client !in room.players {
        NotSeated(room, client);
      }
      var seat := FindSeat(room, client);
      assert View() == before;
      if seat == -1 {
        return false, [];
      }
      sent := GiveUpSeat(room, client, seat, names, hearers, news);
      return true, sent;
    }

    lemma NotSeated(room: Room, client: Client)
      requires Seated(View(), room) && client in clients && client !in room.players
      requires room.game != null ==> room.game.WellFormed()
      ensures Membership.RemovePlayer(View(), room, client) == View() && LeaveNews(room, client) == []
    {
      IndexOfIs(room.players, client);
    }

    /** room_remove_player once it has found the seat. */
    method GiveUpSeat(room: Room, client: Client, seat: int, ghost names: seq<string>, ghost hearers: seq<Client>,
                      ghost news: seq<Delivery>)
      returns (sent: seq<Delivery>)
      requires Seated(View(), room) && client in clients && |room.players| == ROOM_SEATS
      requires room.game != null ==> room.game.WellFormed()
      requires client in room.players && seat == IndexOf(room.players, client)
      requires room.game != null ==> names == NamesOf(room.game.players)
      requires hearers == Stayers(room.players, client) && news == LeaveNews(room, client)
      modifies this`live, rooms, room, GameOf(room)`playerScores, client`room, client`state
      modifies (set c: Client | c in room.players)`room, (set c: Client | c in room.players)`state
      ensures View() == Membership.RemovePlayer(old(View()), room, client)
      ensures old(room.game) != null && old(room.playerCount) - 1 < 2 ==>
                ForfeitPaid(old(room.game), client) && ForfeitTold(old(room.game), names, hearers, sent)
      ensures sent == news
      ensures old(room.game) != null && old(room.playerCount) - 1 >= 2 ==> unchanged(old(room.game))
    {
      hide NewsFor, Membership.AfterLeave, ForfeitScores, Hearers, ToEach, Split;
      IndexOfIs(room.players, client);
      VacateSeated(View(), room, client, seat);
      StandUp(room, client, seat, names, hearers, news);
      sent := AfterLeave(room, client, names, hearers);
    }

    method StandUp(room: Room, client: Client, seat: int, ghost names: seq<string>, ghost hearers: seq<Client>,
                   ghost news: seq<Delivery>)
      requires room in live && client in clients && 0 <= seat < |room.players|
      requires room.game != null ==> names == NamesOf(room.game.players)
      requires room.game != null ==> |room.game.players| == |room.game.playerScores|
      requires hearers == Hearers(room.players[seat := null])
      requires news == NewsFor(room, room.players[seat := null], room.playerCount - 1, client)
      modifies room`players, room`playerCount, client`room, client`state
      ensures room.players == old(room.players)[seat := null] && room.playerCount == old(room.playerCount) - 1
      ensures View() == Vacate(old(View()), room, client, seat)
      ensures room.game != null ==> names == NamesOf(room.game.players)
      ensures hearers == Hearers(room.players)
      ensures NewsFor(room, room.players, room.playerCount, client) == news
    {
      hide Vacate, RoomTable.View, Seated, Hearers, ToEach, Split, Scoreboard;
      ClearSeat(room, client, seat);
      HearersUnmoved(room.players);
      NextOwnerUnmoved(room.players);
      assert OwnerNews(room.players) == old(OwnerNews(room.players[seat := null]));
      assert room.game != null ==> NamesOf(room.game.players) == old(NamesOf(room.game.players));
    }

    /** What is left of room_remove_player once the client has left its seat. */
    method AfterLeave(room: Room, client: Client, ghost names: seq<string>, ghost hearers: seq<Client>)
      returns (sent: seq<Delivery>)
      requires Seated(View(), room) && |room.players| == ROOM_SEATS
      requires client in clients && client.room == null && client.state == InLobby
      requires room.game != null ==> room.game.WellFormed() && names == NamesOf(room.game.players)
      requires hearers == Hearers(room.players)
      modifies this`live, rooms, room, GameOf(room)`playerScores
      modifies (set c: Client | c in room.players)`room, (set c: Client | c in room.players)`state
      ensures View() == Membership.AfterLeave(old(View()), room, client)
      ensures old(room.game) != null && old(room.playerCount) < 2 ==>
                ForfeitPaid(old(room.game), client) && ForfeitTold(old(room.game), names, hearers, sent)
      ensures old(room.game) != null && old(room.playerCount) >= 2 ==> unchanged(old(room.game))
      ensures sent == old(NewsFor(room, room.players, room.playerCount, client))
    {
      sent := [];
      if room.game != null && room.playerCount < 2 {
        sent := Forfeit(room, room.game, client, names, hearers);
        return;
      }
      if room.owner == client && room.playerCount > 0 {
        sent := OwnerLeft(room, client);
      } else if room.playerCount == 0 {
        Destroy(room, client);
      }
    }

    /** The owner has left members behind: one of them takes over, or, when none is connected, the room goes. */
    method OwnerLeft(room: Room, client: Client) returns (sent: seq<Delivery>)
      requires Seated(View(), room) && |room.players| == ROOM_SEATS
      requires client in clients && client.room == null && client.state == InLobby
      modifies this`live, rooms, room`owner
      modifies (set c: Client | c in room.players)`room, (set c: Client | c in room.players)`state
      ensures var successor := FirstConnected(old(View()), old(room.players), 0);
              View() == if successor == null then Membership.Destroy(old(View()), room, old(room.players), client)
                        else old(View()).(rooms := old(View()).rooms[room := old(SeatingOf(room)).(owner := successor)])
      ensures sent == old(ToEach(Hearers(room.players), OwnerNews(room.players)))
    {
      hide ToEach, Reached, Hearers, NextOwner, Membership.Destroy, SeatingOk;
      ghost var news := ToEach(Hearers(room.players), OwnerNews(room.players));
      var found := PassOwnership(room);
      ReachedIsHeard(room.players, OwnerNews(room.players));
      assert ToEach(Hearers(room.players), OwnerNews(room.players)) == news;
      if found {
        sent := Broadcast(room, OwnerChanged(room.owner.nickname), null);
      } else {
        sent := Broadcast(room, RoomClosed, null);
        assert sent == news;
        Destroy(room, client);
      }
    }
  }
}
