/** Who sits in which room, as a value: the room table, the seats and the clients' back pointers together,
    and what room.c and the handlers do to them. */
module Membership {
  import opened SeqFacts
  import opened Games
  import opened Structs

  /** The part of a room that changes. */
  datatype Seating = Seating(seats: seq<Client?>, count: int, state: RoomState, owner: Client, game: Game?<Client>)

  /** A client's back pointer and state. */
  datatype Link = Link(room: Room?, state: ClientState, disconnected: bool)

  datatype Graph = Graph(slots: seq<Room?>, nextId: int, rooms: map<Room, Seating>, clients: map<Client, Link>)

  // ---- what every step keeps ----

  ghost predicate SlotsOk(g: Graph) {
    && (forall i :: 0 <= i < |g.slots| && g.slots[i] != null ==> g.slots[i] in g.rooms)
    && (forall r :: r in g.rooms ==> r in g.slots)
    && (forall i, j :: 0 <= i < j < |g.slots| && g.slots[i] != null ==> g.slots[i] != g.slots[j])
  }

  ghost predicate IdsOk(g: Graph) {
    && g.nextId > 0
    && (forall r :: r in g.rooms ==> 0 < r.roomId < g.nextId)
    && (forall r, s :: r in g.rooms && s in g.rooms && r.roomId == s.roomId ==> r == s)
  }

  /** A room's own data, whatever its members think. */
  ghost predicate SeatingOk(r: Room, s: Seating) {
    && SeatsOk(s.seats, s.count, r.maxPlayers)
    && s.owner in s.seats
    && r.boardSize in {4, 6, 8}
    && s.state != RoomFinished
  }

  ghost predicate SeatsLinked(g: Graph) {
    forall r, c: Client :: r in g.rooms && c in g.rooms[r].seats ==> c in g.clients && g.clients[c].room == r
  }

  ghost predicate LinksSeated(g: Graph) {
    forall c :: c in g.clients && g.clients[c].room != null
      ==> g.clients[c].room in g.rooms && c in g.rooms[g.clients[c].room].seats
  }

  ghost predicate Inv(g: Graph) {
    && SlotsOk(g) && IdsOk(g) && SeatsLinked(g) && LinksSeated(g)
    && forall r :: r in g.rooms ==> SeatingOk(r, g.rooms[r])
  }

  // ---- the steps ----

  /** room_create, once its arguments and its caller are checked. */
  function CreateRoom(g: Graph, owner: Client, room: Room): Graph
    requires owner in g.clients
  {
    var i := IndexOf(g.slots, null);
    if i == |g.slots| then g
    else g.(
         slots := g.slots[i := room],
         nextId := g.nextId + 1,
         rooms := g.rooms[room := Seating([owner, null, null, null], 1, RoomWaiting, owner, null)],
         clients := g.clients[owner := g.clients[owner].(room := room, state := InRoom)])
  }

  predicate CanJoin(g: Graph, room: Room, c: Client)
    requires room in g.rooms
  {
    g.rooms[room].count < room.maxPlayers && c !in g.rooms[room].seats && null in g.rooms[room].seats
  }

  /** room_add_player */
  function AddPlayer(g: Graph, room: Room, c: Client): Graph
    requires room in g.rooms && c in g.clients
  {
    if !CanJoin(g, room, c) then g
    else
      var s := g.rooms[room];
      g.(rooms := g.rooms[room := s.(seats := s.seats[IndexOf(s.seats, null) := c], count := s.count + 1)],
      clients := g.clients[c := g.clients[c].(room := room, state := InRoom)])
  }

  /** The members, and one more client, are back in the lobby. */
  function Released(clients: map<Client, Link>, seats: seq<Client?>, leaver: Client): map<Client, Link> {
    map c | c in clients ::
      if c == leaver || c in seats then clients[c].(room := null, state := InLobby) else clients[c]
  }

  function ClearSlot(slots: seq<Room?>, room: Room): seq<Room?> {
    var i := IndexOf(slots, room);
    if i == |slots| then slots else slots[i := null]
  }

  /** The room goes, and everybody in it is released. */
  function Destroy(g: Graph, room: Room, seats: seq<Client?>, leaver: Client): Graph {
    g.(slots := ClearSlot(g.slots, room), rooms := g.rooms - {room}, clients := Released(g.clients, seats, leaver))
  }

  /** The first member, from a seat on, that is not waiting to reconnect. */
  function FirstConnected(g: Graph, seats: seq<Client?>, i: nat): (o: Client?)
    requires i <= |seats|
    requires forall k :: 0 <= k < |seats| && seats[k] != null ==> seats[k] in g.clients
    ensures o != null ==> o in seats
    decreases |seats| - i
  {
    if i == |seats| then null
    else if seats[i] != null && !g.clients[seats[i]].disconnected then seats[i]
    else FirstConnected(g, seats, i + 1)
  }

  ghost predicate Seated(g: Graph, room: Room) {
    room in g.rooms && forall k :: 0 <= k < |g.rooms[room].seats| && g.rooms[room].seats[k] != null
                                   ==> g.rooms[room].seats[k] in g.clients
  }

  /** The seat is cleared and the client is back in the lobby. */
  function Vacate(g: Graph, room: Room, c: Client, seat: int): Graph
    requires room in g.rooms && c in g.clients && 0 <= seat < |g.rooms[room].seats|
  {
    var s := g.rooms[room];
    g.(rooms := g.rooms[room := s.(seats := s.seats[seat := null], count := s.count - 1)],
    clients := g.clients[c := g.clients[c].(room := null, state := InLobby)])
  }

  /** What room_remove_player does next: a forfeit, a change of owner or an empty room may end the room. */
  function AfterLeave(g: Graph, room: Room, c: Client): Graph
    requires Seated(g, room)
  {
    var s := g.rooms[room];
    var successor := FirstConnected(g, s.seats, 0);
    if s.game != null && s.count < 2 then Destroy(g, room, s.seats, c)
    else if s.owner == c && s.count > 0 then
      if successor == null then Destroy(g, room, s.seats, c)
      else g.(rooms := g.rooms[room := s.(owner := successor)])
    else if s.count == 0 then Destroy(g, room, s.seats, c)
    else g
  }

  lemma VacateSeated(g: Graph, room: Room, c: Client, seat: int)
    requires Seated(g, room) && c in g.clients && 0 <= seat < |g.rooms[room].seats|
    ensures Seated(Vacate(g, room, c, seat), room)
  {
  }

  /** room_remove_player */
  function RemovePlayer(g: Graph, room: Room, c: Client): Graph
    requires Seated(g, room) && c in g.clients
  {
    var seat := IndexOf(g.rooms[room].seats, c);
    if seat == |g.rooms[room].seats| then g
    else VacateSeated(g, room, c, seat); AfterLeave(Vacate(g, room, c, seat), room, c)
  }

  lemma ReleasedAgain(clients: map<Client, Link>, seats: seq<Client?>, c: Client)
    ensures Released(Released(clients, seats, c), [null, null, null, null], c) == Released(clients, seats, c)
  {
  }

  // ---- creating and joining ----

  ghost predicate Creatable(g: Graph, owner: Client, room: Room) {
    && owner in g.clients && g.clients[owner].room == null
    && room !in g.rooms && room.roomId == g.nextId
    && 2 <= room.maxPlayers <= ROOM_SEATS && room.boardSize in {4, 6, 8}
  }

  lemma CreateSlots(g: Graph, owner: Client, room: Room)
    requires SlotsOk(g) && IdsOk(g) && Creatable(g, owner, room)
    ensures SlotsOk(CreateRoom(g, owner, room)) && IdsOk(CreateRoom(g, owner, room))
  {
    var g' := CreateRoom(g, owner, room);
    var i := IndexOf(g.slots, null);
    if i < |g.slots| {
      assert g'.slots[i] == room;
      forall r | r in g'.rooms ensures r in g'.slots {
        if r != room {
          assert r in g.slots;
          var k :| 0 <= k < |g.slots| && g.slots[k] == r;
          assert g'.slots[k] == r;
        }
      }
    }
  }

  lemma CreateKeeps(g: Graph, owner: Client, room: Room)
    requires Inv(g) && Creatable(g, owner, room)
    ensures Inv(CreateRoom(g, owner, room))
  {
    CreateSlots(g, owner, room);
    var g' := CreateRoom(g, owner, room);
    if room in g'.rooms {
      OwnerAlone(room, g'.rooms[room].seats, owner);
      OthersLinked(g, g', owner, room);
    }
  }

  lemma OwnerAlone(room: Room, seats: seq<Client?>, owner: Client)
    requires seats == [owner, null, null, null] && 2 <= room.maxPlayers <= ROOM_SEATS
    ensures SeatsOk(seats, 1, room.maxPlayers)
    ensures forall d: Client :: d in seats <==> d == owner
  {
    assert Occupied(seats) == {0};
    assert seats[0] == owner;
  }

  /** A change to one room and to one client that was in no other room does not concern the other rooms and clients. */
  lemma OthersLinked(g: Graph, g': Graph, c: Client, room: Room)
    requires SeatsLinked(g) && LinksSeated(g) && c in g.clients
    requires g.clients[c].room == null || g.clients[c].room == room
    requires g'.clients.Keys == g.clients.Keys
    requires forall d :: d in g.clients && d != c ==> g'.clients[d].room == g.clients[d].room
    requires g'.rooms.Keys == g.rooms.Keys + {room}
    requires forall r :: r in g.rooms && r != room ==> g'.rooms[r].seats == g.rooms[r].seats
    requires forall d: Client :: d != c ==> (d in g'.rooms[room].seats <==> room in g.rooms && d in g.rooms[room].seats)
    requires g'.clients[c].room == if c in g'.rooms[room].seats then room else null
    ensures SeatsLinked(g') && LinksSeated(g')
  {
  }

  lemma AddKeeps(g: Graph, room: Room, c: Client)
    requires Inv(g) && room in g.rooms && c in g.clients && g.clients[c].room == null
    ensures Inv(AddPlayer(g, room, c))
  {
    if CanJoin(g, room, c) {
      var s, g' := g.rooms[room], AddPlayer(g, room, c);
      var i := IndexOf(s.seats, null);
      IndexOfIs(s.seats, null);
      JoinKeepsSeats(s.seats, s.count, room.maxPlayers, i, c);
      forall d: Client ensures d in s.seats[i := c] <==> d == c || d in s.seats {
        SeatTaken(s.seats, i, c, d);
      }
      OthersLinked(g, g', c, room);
      SlotsIdsStay(g, g');
    }
  }

  lemma SlotsIdsStay(g: Graph, g': Graph)
    requires SlotsOk(g) && IdsOk(g)
    requires g'.slots == g.slots && g'.nextId == g.nextId && g'.rooms.Keys == g.rooms.Keys
    ensures SlotsOk(g') && IdsOk(g')
  {
  }

  // ---- leaving, forfeiting and destroying ----

  lemma DestroySlots(g: Graph, room: Room, seats: seq<Client?>, leaver: Client)
    requires SlotsOk(g) && IdsOk(g) && room in g.rooms
    ensures SlotsOk(Destroy(g, room, seats, leaver)) && IdsOk(Destroy(g, room, seats, leaver))
  {
    var g' := Destroy(g, room, seats, leaver);
    var i := IndexOf(g.slots, room);
    IndexOfIs(g.slots, room);
    forall r | r in g'.rooms ensures r in g'.slots {
      assert r in g.slots;
      var k :| 0 <= k < |g.slots| && g.slots[k] == r;
      assert g'.slots[k] == r;
    }
  }

  /** Destroying a room keeps the invariant when everybody who is released sat in it, and everybody who sat in it is. */
  lemma DestroyKeeps(g: Graph, room: Room, seats: seq<Client?>, leaver: Client)
    requires Inv(g) && room in g.rooms
    requires forall c: Client :: c in g.rooms[room].seats <==> c == leaver || c in seats
    ensures Inv(Destroy(g, room, seats, leaver))
  {
    DestroySlots(g, room, seats, leaver);
    DestroyLinks(g, room, seats, leaver);
  }

  lemma DestroyLinks(g: Graph, room: Room, seats: seq<Client?>, leaver: Client)
    requires SeatsLinked(g) && LinksSeated(g) && room in g.rooms
    requires forall c: Client :: c in g.rooms[room].seats <==> c == leaver || c in seats
    ensures SeatsLinked(Destroy(g, room, seats, leaver)) && LinksSeated(Destroy(g, room, seats, leaver))
  {
  }

  lemma {:induction false} FirstConnectedIs(g: Graph, seats: seq<Client?>, i: nat)
    requires i <= |seats|
    requires forall k :: 0 <= k < |seats| && seats[k] != null ==> seats[k] in g.clients
    ensures var o := FirstConnected(g, seats, i);
            if o == null then forall k :: i <= k < |seats| && seats[k] != null ==> g.clients[seats[k]].disconnected
            else o in g.clients && !g.clients[o].disconnected
                 && exists k :: i <= k < |seats| && seats[k] == o
                                && forall j :: i <= j < k && seats[j] != null ==> g.clients[seats[j]].disconnected
    decreases |seats| - i
  {
    if i < |seats| {
      if !(seats[i] != null && !g.clients[seats[i]].disconnected) {
        FirstConnectedIs(g, seats, i + 1);
      } else {
        assert seats[i] == FirstConnected(g, seats, i);
      }
    }
  }

  lemma InvSeated(g: Graph, room: Room)
    requires SeatsLinked(g) && room in g.rooms
    ensures Seated(g, room)
  {
    var seats := g.rooms[room].seats;
    forall k | 0 <= k < |seats| && seats[k] != null ensures seats[k] in g.clients {
      assert seats[k] in seats;
    }
  }

  /** Either the room goes, or nothing but its owner changes. */
  lemma AfterLeaveCases(g: Graph, room: Room, c: Client)
    requires Seated(g, room)
    ensures var r, s := AfterLeave(g, room, c), g.rooms[room];
            if room in r.rooms then
              && r == g.(rooms := g.rooms[room := s.(owner := r.rooms[room].owner)])
              && s.count != 0
              && (s.owner == c && s.count > 0 ==> r.rooms[room].owner in s.seats)
              && (s.owner != c ==> r.rooms[room].owner == s.owner)
            else r == Destroy(g, room, s.seats, c)
  {
  }

  /** What can become of a room when the client in seat i leaves it: it goes, or a member owns what is left. */
  ghost predicate RemovalOutcome(g: Graph, room: Room, c: Client, i: int, r: Graph)
    requires room in g.rooms && c in g.clients && 0 <= i < |g.rooms[room].seats|
  {
    var v, seats := Vacate(g, room, c, i), g.rooms[room].seats[i := null];
    if room in r.rooms then
      && r == v.(rooms := v.rooms[room := v.rooms[room].(owner := r.rooms[room].owner)])
      && g.rooms[room].count - 1 != 0
      && (g.rooms[room].owner == c && g.rooms[room].count - 1 > 0 ==> r.rooms[room].owner in seats)
      && (g.rooms[room].owner != c ==> r.rooms[room].owner == g.rooms[room].owner)
    else r == Destroy(g, room, seats, c)
  }

  lemma RemoveOutcome(g: Graph, room: Room, c: Client)
    requires Seated(g, room) && c in g.clients && c in g.rooms[room].seats
    ensures IndexOf(g.rooms[room].seats, c) < |g.rooms[room].seats|
    ensures RemovalOutcome(g, room, c, IndexOf(g.rooms[room].seats, c), RemovePlayer(g, room, c))
  {
    var i := IndexOf(g.rooms[room].seats, c);
    IndexOfIs(g.rooms[room].seats, c);
    VacateSeated(g, room, c, i);
    AfterLeaveCases(Vacate(g, room, c, i), room, c);
    VacatedDestroyed(g, room, c, i);
  }

  lemma OwnerStaysMember(g: Graph, room: Room, c: Client, i: int, r: Graph)
    requires room in g.rooms && c in g.clients && SeatingOk(room, g.rooms[room])
    requires 0 <= i < |g.rooms[room].seats| && g.rooms[room].seats[i] == c
    requires RemovalOutcome(g, room, c, i, r) && room in r.rooms
    ensures r.rooms[room].owner in g.rooms[room].seats && r.rooms[room].owner != c
  {
    var s := g.rooms[room];
    assert i in Occupied(s.seats);
    SeatCleared(s.seats, i, r.rooms[room].owner);
  }

  lemma OutcomeKeeps(g: Graph, room: Room, c: Client, i: int, r: Graph)
    requires Inv(g) && room in g.rooms && c in g.clients
    requires 0 <= i < |g.rooms[room].seats| && g.rooms[room].seats[i] == c
    requires RemovalOutcome(g, room, c, i, r)
    ensures Inv(r)
  {
    var seats := g.rooms[room].seats;
    assert SeatingOk(room, g.rooms[room]);
    forall d: Client ensures d in seats[i := null] <==> d in seats && d != c {
      SeatCleared(seats, i, d);
    }
    if room in r.rooms {
      OwnerStaysMember(g, room, c, i, r);
      RemainingRoomKeeps(g, room, c, i, r.rooms[room].owner);
    } else {
      DestroyKeeps(g, room, seats[i := null], c);
    }
  }

  lemma RemoveKeeps(g: Graph, room: Room, c: Client)
    requires Inv(g) && room in g.rooms && c in g.clients
    ensures Seated(g, room) && Inv(RemovePlayer(g, room, c))
  {
    InvSeated(g, room);
    if c in g.rooms[room].seats {
      RemoveOutcome(g, room, c);
      OutcomeKeeps(g, room, c, IndexOf(g.rooms[room].seats, c), RemovePlayer(g, room, c));
    } else {
      IndexOfIs(g.rooms[room].seats, c);
    }
  }

  lemma VacatedDestroyed(g: Graph, room: Room, c: Client, i: int)
    requires room in g.rooms && c in g.clients && 0 <= i < |g.rooms[room].seats|
    ensures Destroy(Vacate(g, room, c, i), room, g.rooms[room].seats[i := null], c)
            == Destroy(g, room, g.rooms[room].seats[i := null], c)
  {
    var seats := g.rooms[room].seats[i := null];
    assert Released(Vacate(g, room, c, i).clients, seats, c) == Released(g.clients, seats, c);
    assert Vacate(g, room, c, i).rooms - {room} == g.rooms - {room};
  }

  /** What a leaver leaves behind when the room survives with an owner among the others. */
  lemma RemainingRoomKeeps(g: Graph, room: Room, c: Client, i: int, owner: Client)
    requires Inv(g) && room in g.rooms && c in g.clients
    requires 0 <= i < |g.rooms[room].seats| && g.rooms[room].seats[i] == c
    requires forall d: Client :: d in g.rooms[room].seats[i := null] <==> d in g.rooms[room].seats && d != c
    requires owner in g.rooms[room].seats && owner != c
    ensures var v := Vacate(g, room, c, i);
            Inv(v.(rooms := v.rooms[room := v.rooms[room].(owner := owner)]))
  {
    var s, v := g.rooms[room], Vacate(g, room, c, i);
    var g' := v.(rooms := v.rooms[room := v.rooms[room].(owner := owner)]);
    LeaveKeepsSeats(s.seats, s.count, room.maxPlayers, i);
    OthersLinked(g, g', c, room);
    SlotsIdsStay(g, g');
  }

  // ---- whole runs ----

  function Empty(maxRooms: nat): Graph {
    Graph(seq(maxRooms, i => null), 1, map[], map[])
  }

  datatype Event =
    | Connect(c: Client)
    | Hello(c: Client)
    | Create(c: Client, room: Room)
    | Join(c: Client, roomId: int)
    | Leave(c: Client)
    | StartGame(c: Client, game: Game<Client>)
    | Begin(room: Room)
    | FinishGame(room: Room)
    | MarkDisconnected(c: Client)
    | Quit(c: Client)

  /** room_get_by_id */
  ghost function RoomById(g: Graph, id: int): (r: Room?)
    ensures r != null ==> r in g.rooms && r.roomId == id
    ensures r == null ==> forall s :: s in g.rooms ==> s.roomId != id
  {
    if s :| s in g.rooms && s.roomId == id then s else null
  }

  function WithState(g: Graph, c: Client, s: ClientState): Graph
    requires c in g.clients
  {
    g.(clients := g.clients[c := g.clients[c].(state := s)])
  }

  /** handle_start_game, once the game exists. */
  function WithGame(g: Graph, room: Room, game: Game<Client>): Graph
    requires room in g.rooms
  {
    g.(rooms := g.rooms[room := g.rooms[room].(game := game)])
  }

  /** The seats the loops up to player_count visit. */
  function Counted(s: Seating): seq<Client?> {
    s.seats[..Max(0, Min(s.count, |s.seats|))]
  }

  /** The end of handle_ready, when everybody is ready. */
  function Begun(g: Graph, room: Room): Graph
    requires room in g.rooms
  {
    var s := g.rooms[room];
    g.(rooms := g.rooms[room := s.(state := RoomPlaying)],
    clients := (map c | c in g.clients :: if c in Counted(s) then g.clients[c].(state := InGame) else g.clients[c]))
  }

  /** handle_create_room */
  ghost function Founded(g: Graph, c: Client, room: Room): Graph {
    if Creatable(g, c, room) && g.clients[c].state.AtLeastLobby() then CreateRoom(g, c, room) else g
  }

  /** handle_join_room, for the room with the id, if there is one. */
  ghost function Entered(g: Graph, c: Client, room: Room?): Graph {
    if c in g.clients && g.clients[c].state.AtLeastLobby() && g.clients[c].room == null && room in g.rooms
    then AddPlayer(g, room, c) else g
  }

  /** The end of handle_flip, when the game is finished. */
  function Ended(g: Graph, room: Room): Graph {
    if room in g.rooms && g.rooms[room].game != null then Destroy(g, room, g.rooms[room].seats, g.rooms[room].owner)
    else g
  }

  /** What the handlers do to rooms and seats; a request whose guard fails changes nothing. */
  ghost function Step(g: Graph, e: Event): Graph
    requires Inv(g)
  {
    match e
    case Connect(c) =>
      if c in g.clients then g else g.(clients := g.clients[c := Link(null, Connected, false)])
    case Hello(c) =>
      if c in g.clients && g.clients[c].state == Connected then WithState(g, c, InLobby) else g
    case Create(c, room) =>
      Founded(g, c, room)
    case Join(c, id) =>
      Entered(g, c, RoomById(g, id))
    case Leave(c) =>
      if c in g.clients && g.clients[c].room != null then Left(g, c) else g
    case StartGame(c, game) =>
      if c in g.clients && g.clients[c].room in g.rooms then
        var room := g.clients[c].room as Room;
        var s := g.rooms[room];
        if s.owner == c && s.game == null && s.count >= room.maxPlayers then WithGame(g, room, game) else g
      else g
    case Begin(room) =>
      if room in g.rooms && g.rooms[room].game != null then Begun(g, room) else g
    case FinishGame(room) =>
      Ended(g, room)
    case MarkDisconnected(c) =>
      if c in g.clients then g.(clients := g.clients[c := g.clients[c].(disconnected := true)]) else g
    case Quit(c) =>
      if c in g.clients then
        var left := if g.clients[c].room != null then Left(g, c) else g;
        left.(clients := left.clients - {c})
      else g
  }

  ghost function Left(g: Graph, c: Client): Graph
    requires Inv(g) && c in g.clients && g.clients[c].room != null
  {
    InvSeated(g, g.clients[c].room);
    RemovePlayer(g, g.clients[c].room, c)
  }

  lemma LeftKeeps(g: Graph, c: Client)
    requires Inv(g) && c in g.clients && g.clients[c].room != null
    ensures Inv(Left(g, c)) && c in Left(g, c).clients && Left(g, c).clients[c].room == null
  {
    RemoveKeeps(g, g.clients[c].room, c);
    IndexOfIs(g.rooms[g.clients[c].room].seats, c);
  }

  lemma GoneLinks(g: Graph, c: Client)
    requires SeatsLinked(g) && LinksSeated(g) && c in g.clients && g.clients[c].room == null
    ensures SeatsLinked(g.(clients := g.clients - {c})) && LinksSeated(g.(clients := g.clients - {c}))
  {
  }

  lemma GoneKeeps(g: Graph, c: Client)
    requires Inv(g) && c in g.clients && g.clients[c].room == null
    ensures Inv(g.(clients := g.clients - {c}))
  {
    GoneLinks(g, c);
    SlotsIdsStay(g, g.(clients := g.clients - {c}));
  }

  lemma SameLinks(g: Graph, g': Graph)
    requires SeatsLinked(g) && LinksSeated(g)
    requires g'.rooms.Keys == g.rooms.Keys && g'.clients.Keys >= g.clients.Keys
    requires forall r :: r in g.rooms ==> g'.rooms[r].seats == g.rooms[r].seats
    requires forall c :: c in g'.clients ==> g'.clients[c].room == if c in g.clients then g.clients[c].room else null
    ensures SeatsLinked(g') && LinksSeated(g')
  {
  }

  /** Changes that touch neither seats nor back pointers. */
  lemma SeatsUntouched(g: Graph, g': Graph)
    requires Inv(g)
    requires g'.slots == g.slots && g'.nextId == g.nextId
    requires g'.rooms.Keys == g.rooms.Keys && g'.clients.Keys >= g.clients.Keys
    requires forall r :: r in g.rooms ==> g'.rooms[r].seats == g.rooms[r].seats && SeatingOk(r, g'.rooms[r])
    requires forall c :: c in g'.clients ==> g'.clients[c].room == if c in g.clients then g.clients[c].room else null
    ensures Inv(g')
  {
    SlotsIdsStay(g, g');
    SameLinks(g, g');
  }

  lemma EndedKeeps(g: Graph, room: Room)
    requires Inv(g)
    ensures Inv(Ended(g, room))
  {
    if room in g.rooms {
      DestroyKeeps(g, room, g.rooms[room].seats, g.rooms[room].owner);
    }
  }

  lemma StepKeeps(g: Graph, e: Event)
    requires Inv(g)
    ensures Inv(Step(g, e))
  {
    hide Inv, CreateRoom, AddPlayer, Destroy, RemovePlayer, WithGame, Begun, Ended;
    match e
    case Create(c, room) => if Creatable(g, c, room) { CreateKeeps(g, c, room); }
    case Join(c, id) =>
      var room := RoomById(g, id);
      if c in g.clients && g.clients[c].room == null && room != null { AddKeeps(g, room, c); }
    case Leave(c) => if c in g.clients && g.clients[c].room != null { LeftKeeps(g, c); }
    case FinishGame(room) => EndedKeeps(g, room);
    case Quit(c) =>
      if c in g.clients {
        if g.clients[c].room != null { LeftKeeps(g, c); GoneKeeps(Left(g, c), c); } else { GoneKeeps(g, c); }
      }
    case StartGame(c, game) =>
      if c in g.clients && g.clients[c].room in g.rooms { WithGameKeeps(g, g.clients[c].room, game); }
    case Begin(room) => if room in g.rooms { BegunKeeps(g, room); }
    case _ => OtherStepKeeps(g, e);
  }

  lemma WithGameKeeps(g: Graph, room: Room, game: Game<Client>)
    requires Inv(g) && room in g.rooms
    ensures Inv(WithGame(g, room, game))
  {
    SeatsUntouched(g, WithGame(g, room, game));
  }

  lemma BegunKeeps(g: Graph, room: Room)
    requires Inv(g) && room in g.rooms
    ensures Inv(Begun(g, room))
  {
    SeatsUntouched(g, Begun(g, room));
  }

  lemma OtherStepKeeps(g: Graph, e: Event)
    requires Inv(g)
    requires e.Connect? || e.Hello? || e.MarkDisconnected?
    ensures Inv(Step(g, e))
  {
    var g' := Step(g, e);
    assert g'.rooms.Keys == g.rooms.Keys;
    SeatsUntouched(g, g');
  }

  ghost function Run(maxRooms: nat, es: seq<Event>): (g: Graph)
    ensures Inv(g)
    decreases |es|
  {
    if es == [] then Empty(maxRooms)
    else
      var before := Run(maxRooms, es[..|es| - 1]);
      StepKeeps(before, es[|es| - 1]);
      Step(before, es[|es| - 1])
  }

  /** After any run: a client's room is r exactly when it sits in r, nobody sits twice, ids are unique and used
      once, the owner is a member, and the occupied seats are those the count says, below the limit. */
  lemma ReachableMembership(maxRooms: nat, es: seq<Event>, r: Room, s: Room, c: Client)
    requires r in Run(maxRooms, es).rooms && s in Run(maxRooms, es).rooms && c in Run(maxRooms, es).clients
    ensures var g := Run(maxRooms, es);
            && (g.clients[c].room == r <==> c in g.rooms[r].seats)
            && (c in g.rooms[r].seats && c in g.rooms[s].seats ==> r == s)
            && (r.roomId == s.roomId ==> r == s) && 0 < r.roomId < g.nextId
            && g.rooms[r].owner in g.rooms[r].seats
            && g.rooms[r].count == |Occupied(g.rooms[r].seats)|
            && forall i :: 0 <= i < ROOM_SEATS && g.rooms[r].seats[i] != null ==> i < r.maxPlayers
  {
    var g := Run(maxRooms, es);
    assert SeatingOk(r, g.rooms[r]);
    forall i | 0 <= i < ROOM_SEATS && g.rooms[r].seats[i] != null ensures i < r.maxPlayers {
      assert i in Occupied(g.rooms[r].seats);
    }
  }

  /** Whatever step ends a room, all its members are back in the lobby with no room. */
  lemma DestroyedRoomReleases(g: Graph, e: Event, r: Room, c: Client)
    requires Inv(g) && r in g.rooms && r !in Step(g, e).rooms && c in g.rooms[r].seats
    ensures c in Step(g, e).clients ==> Step(g, e).clients[c].room == null && Step(g, e).clients[c].state == InLobby
  {
    hide SlotsOk, IdsOk, LinksSeated, SeatingOk, Left, Ended, Founded, Entered;
    MemberIsKnown(g, r, c);
    match e
    case Leave(d) =>
      if d in g.clients && g.clients[d].room != null {
        LeaveReleases(g, d, r, c);
      }
    case Quit(d) =>
      if d in g.clients && g.clients[d].room != null {
        LeaveReleases(g, d, r, c);
      }
    case FinishGame(room) => EndReleases(g, room, r, c);
    case Create(d, room) => FoundedKeepsRooms(g, d, room);
    case Join(d, id) => EnteredKeepsRooms(g, d, RoomById(g, id));
    case _ =>
  }

  lemma MemberIsKnown(g: Graph, r: Room, c: Client)
    requires SeatsLinked(g) && r in g.rooms && c in g.rooms[r].seats
    ensures c in g.clients
  {
  }

  lemma FoundedKeepsRooms(g: Graph, c: Client, room: Room)
    ensures g.rooms.Keys <= Founded(g, c, room).rooms.Keys
  {
  }

  lemma EnteredKeepsRooms(g: Graph, c: Client, room: Room?)
    ensures g.rooms.Keys == Entered(g, c, room).rooms.Keys
  {
  }

  lemma EndReleases(g: Graph, room: Room, r: Room, c: Client)
    requires r in g.rooms && c in g.rooms[r].seats && c in g.clients
    ensures var g' := Ended(g, room);
            r !in g'.rooms ==> c in g'.clients && g'.clients[c].room == null && g'.clients[c].state == InLobby
  {
  }

  lemma LeaveReleases(g: Graph, d: Client, r: Room, c: Client)
    requires Inv(g) && d in g.clients && g.clients[d].room != null
    requires r in g.rooms && r !in Left(g, d).rooms && c in g.rooms[r].seats
    ensures c in Left(g, d).clients && Left(g, d).clients[c].room == null && Left(g, d).clients[c].state == InLobby
  {
    var room := g.clients[d].room;
    InvSeated(g, room);
    assert d in g.rooms[room].seats && SeatingOk(room, g.rooms[room]);
    RemoveOutcome(g, room, d);
    OutcomeReleases(g, room, d, IndexOf(g.rooms[room].seats, d), Left(g, d), r, c);
  }

  lemma OutcomeReleases(g: Graph, room: Room, d: Client, i: int, g': Graph, r: Room, c: Client)
    requires SeatsLinked(g) && room in g.rooms && d in g.clients && SeatedOnce(g.rooms[room].seats)
    requires 0 <= i < |g.rooms[room].seats| && g.rooms[room].seats[i] == d
    requires RemovalOutcome(g, room, d, i, g')
    requires r in g.rooms && r !in g'.rooms && c in g.rooms[r].seats
    ensures c in g'.clients && g'.clients[c].room == null && g'.clients[c].state == InLobby
  {
    SeatCleared(g.rooms[room].seats, i, c);
    assert c in g.clients;
  }

  /** When START_GAME is accepted, the first player_count seats hold different clients and no hole. */
  lemma StartCopiesNoHole(maxRooms: nat, es: seq<Event>, r: Room)
    requires r in Run(maxRooms, es).rooms
    requires Run(maxRooms, es).rooms[r].count >= r.maxPlayers
    ensures var s := Run(maxRooms, es).rooms[r];
            && 2 <= s.count <= |s.seats|
            && (forall i :: 0 <= i < s.count ==> s.seats[i] != null)
            && (forall i, j :: 0 <= i < j < s.count ==> s.seats[i] != s.seats[j])
            && (forall i :: s.count <= i < |s.seats| ==> s.seats[i] == null)
  {
    var s := Run(maxRooms, es).rooms[r];
    assert SeatingOk(r, s);
    FullRoomIsDense(s.seats, s.count, r.maxPlayers);
  }

  /** The owner is always somebody who can be reached, if anybody in the room can: ownership passes to the first
      connected member, and a room without one does not outlive its owner. */
  lemma SuccessorIsConnected(g: Graph, c: Client, room: Room)
    requires Inv(g) && c in g.clients && g.clients[c].room == room && g.rooms[room].owner == c
    requires room in Left(g, c).rooms
    ensures var g' := Left(g, c);
            && g'.rooms[room].owner in g'.rooms[room].seats
            && g'.rooms[room].owner in g'.clients && !g'.clients[g'.rooms[room].owner].disconnected
  {
    InvSeated(g, room);
    var s := g.rooms[room];
    IndexOfIs(s.seats, c);
    var i := IndexOf(s.seats, c);
    LeaveKeepsSeats(s.seats, s.count, room.maxPlayers, i);
    VacateSeated(g, room, c, i);
    FirstConnectedIs(Vacate(g, room, c, i), s.seats[i := null], 0);
  }
}
