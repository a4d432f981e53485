/** What each step of the server does, in terms of seats, states and records: who is where afterwards, and that
    nothing else has changed. */
module Effects {
  import opened SeqFacts
  import opened GameModel
  import opened Games
  import opened Structs
  import opened Membership
  import opened Server

  /** Nothing has changed but these rooms and clients. */
  ghost predicate OnlyThese(w: World, r: World, rooms: set<Room>, clients: set<Client>) {
    && (forall x :: x in (w.graph.rooms.Keys + r.graph.rooms.Keys) - rooms ==>
          x in w.graph.rooms && x in r.graph.rooms && r.graph.rooms[x] == w.graph.rooms[x])
    && (forall x :: x in (w.games.Keys + r.games.Keys) - rooms ==>
          x in w.games && x in r.games && r.games[x] == w.games[x])
    && (forall c :: c in (w.graph.clients.Keys + r.graph.clients.Keys) - clients ==>
          c in w.graph.clients && c in r.graph.clients && r.graph.clients[c] == w.graph.clients[c])
  }

  /** The rooms stand in the same slots of the table. */
  ghost predicate SameTable(w: World, r: World) {
    r.graph.slots == w.graph.slots && r.graph.nextId == w.graph.nextId
  }

  /** Every game is that of a room. */
  ghost predicate Housed(w: World) {
    forall x :: x in w.games ==> x in w.graph.rooms
  }

  ghost predicate InTheLobby(before: Link, after: Link) {
    after.room == null && after.state == InLobby && after.disconnected == before.disconnected
  }

  // ---- a room that loses a member ----

  /** Nobody is left, or too few for a game, or nobody who could own the room in the leaver's place. */
  ghost predicate RoomEnds(g: Graph, room: Room, c: Client)
    requires room in g.rooms
  {
    var s := g.rooms[room];
    || s.count <= 1
    || (s.game != null && s.count <= 2)
    || (s.owner == c && forall d: Client :: d in s.seats && d != c && d in g.clients ==> g.clients[d].disconnected)
  }

  /** The member in the lowest seat that is connected. */
  ghost predicate Lowest(g: Graph, seats: seq<Client?>, o: Client) {
    exists k :: 0 <= k < |seats| && seats[k] == o && o in g.clients && !g.clients[o].disconnected
                && forall j :: 0 <= j < k && seats[j] != null && seats[j] in g.clients ==>
                                 g.clients[seats[j]].disconnected
  }

  ghost predicate SeatLeft(w: World, r: World, room: Room, c: Client)
    requires room in w.graph.rooms && room in r.graph.rooms
  {
    var s, t := w.graph.rooms[room], r.graph.rooms[room];
    && t.count == s.count - 1 && t.state == s.state && t.game == s.game && |t.seats| == |s.seats|
    && (forall k :: 0 <= k < |s.seats| ==> t.seats[k] == if s.seats[k] == c then null else s.seats[k])
    && if s.owner == c then Lowest(r.graph, t.seats, t.owner) else t.owner == s.owner
  }

  /** The room has gone from the table, and everybody who sat there is in the lobby, but for one who has gone, too. */
  ghost predicate RoomGone(w: World, r: World, room: Room, leaver: Client?)
    requires room in w.graph.rooms
  {
    && room !in r.graph.rooms && room !in r.games
    && r.graph.nextId == w.graph.nextId && |r.graph.slots| == |w.graph.slots|
    && (forall k :: 0 <= k < |w.graph.slots| ==>
          r.graph.slots[k] == if w.graph.slots[k] == room then null else w.graph.slots[k])
    && forall d: Client :: d in w.graph.rooms[room].seats && d != leaver ==>
         d in w.graph.clients && d in r.graph.clients && InTheLobby(w.graph.clients[d], r.graph.clients[d])
  }

  ghost function SeatedIn(w: World, room: Room): set<Client>
    requires room in w.graph.rooms
  {
    set d: Client | d in w.graph.rooms[room].seats
  }

  lemma LeftRoom(g: Graph, room: Room, c: Client, i: int)
    requires Seated(g, room) && c in g.clients && SeatingOk(room, g.rooms[room])
    requires 0 <= i < |g.rooms[room].seats| && g.rooms[room].seats[i] == c
    ensures Membership.RemovePlayer(g, room, c) == AfterLeave(Vacate(g, room, c, i), room, c)
    ensures forall k :: 0 <= k < |g.rooms[room].seats| && k != i ==> g.rooms[room].seats[k] != c
    ensures Seated(Vacate(g, room, c, i), room)
  {
    IndexOfIs(g.rooms[room].seats, c);
    VacateSeated(g, room, c, i);
  }

  lemma SlotCleared(g: Graph, room: Room)
    requires SlotsOk(g)
    ensures |ClearSlot(g.slots, room)| == |g.slots|
    ensures forall k :: 0 <= k < |g.slots| ==>
              ClearSlot(g.slots, room)[k] == if g.slots[k] == room then null else g.slots[k]
  {
    IndexOfIs(g.slots, room);
  }

  /** The room goes. */
  lemma EndEffect(w: World, room: Room, seats: seq<Client?>, c: Client)
    requires SlotsOk(w.graph) && Housed(w) && room in w.graph.rooms && c in w.graph.clients
    requires c in w.graph.rooms[room].seats && Seated(w.graph, room)
    requires forall d: Client :: d in w.graph.rooms[room].seats && d != c ==> d in seats
    requires forall d: Client :: d in seats ==> d in w.graph.rooms[room].seats
    ensures var r := WithGraph(w, Destroy(w.graph, room, seats, c));
            && c in r.graph.clients && InTheLobby(w.graph.clients[c], r.graph.clients[c])
            && RoomGone(w, r, room, null) && RoomGone(w, r, room, c)
            && OnlyThese(w, r, {room}, SeatedIn(w, room))
  {
    hide SlotsOk, ClearSlot;
    SlotCleared(w.graph, room);
  }

  /** The room goes on without the member. */
  lemma SeatEffect(w: World, room: Room, i: int, c: Client, owner: Client)
    requires Housed(w) && room in w.graph.rooms && c in w.graph.clients
    requires var s := w.graph.rooms[room];
             && 0 <= i < |s.seats| && s.seats[i] == c && (forall k :: 0 <= k < |s.seats| && k != i ==> s.seats[k] != c)
             && if s.owner == c then Lowest(Vacate(w.graph, room, c, i), s.seats[i := null], owner)
                else owner == s.owner
    ensures var v := Vacate(w.graph, room, c, i);
            var r := WithGraph(w, v.(rooms := v.rooms[room := v.rooms[room].(owner := owner)]));
            && c in r.graph.clients && InTheLobby(w.graph.clients[c], r.graph.clients[c])
            && room in r.graph.rooms && SeatLeft(w, r, room, c) && SameTable(w, r) && OnlyThese(w, r, {room}, {c})
            && (room in w.games ==> room in r.games && r.games[room] == w.games[room])
  {
    var v := Vacate(w.graph, room, c, i);
    var seats := w.graph.rooms[room].seats[i := null];
    if w.graph.rooms[room].owner == c {
      var k :| 0 <= k < |seats| && seats[k] == owner && owner in v.clients && !v.clients[owner].disconnected
               && forall j :: 0 <= j < k && seats[j] != null && seats[j] in v.clients ==>
                                v.clients[seats[j]].disconnected;
    }
  }

  /** room_remove_player: the leaver is in the lobby; the room keeps everybody else in place, owned by the lowest
      connected member if its owner has left, or it is gone and they are in the lobby, too. */
  lemma LeaveEffect(w: World, c: Client, room: Room)
    requires Membership.Inv(w.graph) && Housed(w) && c in w.graph.clients && w.graph.clients[c].room == room
    ensures room in w.graph.rooms && c in w.graph.rooms[room].seats
    ensures var r := Leaves(w, c);
            && c in r.graph.clients && InTheLobby(w.graph.clients[c], r.graph.clients[c])
            && (if RoomEnds(w.graph, room, c)
                then RoomGone(w, r, room, c) && OnlyThese(w, r, {room}, SeatedIn(w, room))
                else room in r.graph.rooms && SeatLeft(w, r, room, c) && SameTable(w, r) && OnlyThese(w, r, {room}, {c})
                     && (room in w.games ==> room in r.games && r.games[room] == w.games[room]))
  {
    hide IdsOk, Destroy, Released, SeatLeft, RoomGone, OnlyThese, Occupied;
    var g, s := w.graph, w.graph.rooms[room];
    InvSeated(g, room);
    var i :| 0 <= i < |s.seats| && s.seats[i] == c;
    LeftRoom(g, room, c, i);
    Outcome(g, room, c, i);
    LeaveKeepsSeats(s.seats, s.count, room.maxPlayers, i);
    var seats := s.seats[i := null];
    forall d: Client ensures d in seats <==> d in s.seats && d != c {
      SeatCleared(s.seats, i, d);
    }
    if RoomEnds(w.graph, room, c) {
      EndEffect(w, room, seats, c);
    } else {
      SeatEffect(w, room, i, c, Left(g, c).rooms[room].owner);
    }
  }

  /** The room ends exactly as RoomEnds says, and otherwise its owner is as SeatLeft says. */
  lemma Outcome(g: Graph, room: Room, c: Client, i: int)
    requires Seated(g, room) && c in g.clients && SeatingOk(room, g.rooms[room])
    requires 0 <= i < |g.rooms[room].seats| && g.rooms[room].seats[i] == c
    ensures var r, v, s := Membership.RemovePlayer(g, room, c), Vacate(g, room, c, i), g.rooms[room];
            if RoomEnds(g, room, c) then r == Destroy(g, room, s.seats[i := null], c)
            else
              && room in r.rooms && r == v.(rooms := v.rooms[room := v.rooms[room].(owner := r.rooms[room].owner)])
              && if s.owner == c then Lowest(v, s.seats[i := null], r.rooms[room].owner)
                 else r.rooms[room].owner == s.owner
  {
    LeftRoom(g, room, c, i);
    var v, s := Vacate(g, room, c, i), g.rooms[room];
    var seats := s.seats[i := null];
    FirstConnectedIs(v, seats, 0);
    VacatedDestroyed(g, room, c, i);
    LeaveKeepsSeats(s.seats, s.count, room.maxPlayers, i);
    forall d: Client ensures d in seats <==> d in s.seats && d != c {
      SeatCleared(s.seats, i, d);
    }
  }

  // ---- a connection, its name, a room ----

  /** A new client is connected and nowhere; a marked one may have given way to it, and leaves its seat as it is. */
  lemma ConnectEffect(w: World, c: Client, z: Client?)
    requires c !in w.graph.clients && (z != null ==> z in w.graph.clients && w.graph.clients[z].disconnected)
    ensures var r := OnConnect(w, c, z);
            && c in r.graph.clients && r.graph.clients[c] == Link(null, Connected, false)
            && (z != null ==> z !in r.graph.clients)
            && SameTable(w, r) && OnlyThese(w, r, {}, if z == null then {c} else {c, z})
  {
  }

  /** Only the first HELLO leads into the lobby. */
  lemma HelloEffect(w: World, c: Client)
    requires Talks(w, c)
    ensures var r, link := OnHello(w, c), w.graph.clients[c];
            && c in r.graph.clients
            && r.graph.clients[c] == Link(link.room, if link.state == Connected then InLobby else link.state, false)
            && SameTable(w, r) && OnlyThese(w, r, {}, {c})
  {
  }

  ghost predicate FreeSlot(slots: seq<Room?>, k: int) {
    0 <= k < |slots| && slots[k] == null && forall j :: 0 <= j < k ==> slots[j] != null
  }

  /** In the lowest free slot there is a room with its owner in the first seat. */
  lemma CreateEffect(w: World, c: Client, room: Room)
    requires Talks(w, c) && room !in w.graph.rooms && room !in w.games && room.roomId == w.graph.nextId
    requires 2 <= room.maxPlayers <= 4 && room.boardSize in {4, 6, 8}
    ensures var r, link := OnCreate(w, c, room), w.graph.clients[c];
            if link.state in {InLobby, InRoom, InGame} && link.room == null && null in w.graph.slots then
              && room in r.graph.rooms && c in r.graph.clients && r.graph.clients[c] == Link(room, InRoom, false)
              && r.graph.rooms[room] == Seating([c, null, null, null], 1, RoomWaiting, c, null) && room !in r.games
              && r.graph.nextId == w.graph.nextId + 1
              && (exists k :: FreeSlot(w.graph.slots, k) && r.graph.slots == w.graph.slots[k := room])
              && OnlyThese(w, r, {room}, {c})
            else r == w
  {
    IndexOfIs(w.graph.slots, null);
    if null in w.graph.slots {
      assert FreeSlot(w.graph.slots, IndexOf(w.graph.slots, null));
    }
  }

  /** Who asks from the lobby for a room with a seat left gets the lowest one. */
  lemma JoinEffect(w: World, c: Client, room: Room)
    requires Membership.Inv(w.graph) && Talks(w, c) && room in w.graph.rooms
    ensures var r, link, s := OnJoin(w, c, room.roomId), w.graph.clients[c], w.graph.rooms[room];
            if link.state in {InLobby, InRoom, InGame} && link.room == null && s.count < room.maxPlayers then
              && room in r.graph.rooms && c in r.graph.clients && r.graph.clients[c] == Link(room, InRoom, false)
              && (exists k :: FirstFree(s.seats, k)
                              && r.graph.rooms[room] == s.(seats := s.seats[k := c], count := s.count + 1))
              && r.games == w.games && SameTable(w, r) && OnlyThese(w, r, {room}, {c})
            else r == w
  {
    hide Membership.Inv, RoomById, SeatsOk;
    JoinFacts(w.graph, c, room);
  }

  lemma JoinFacts(g: Graph, c: Client, room: Room)
    requires Membership.Inv(g) && c in g.clients && room in g.rooms
    ensures RoomById(g, room.roomId) == room && (g.clients[c].room == null ==> c !in g.rooms[room].seats)
    ensures var s := g.rooms[room];
            s.count < room.maxPlayers ==> null in s.seats && FirstFree(s.seats, IndexOf(s.seats, null))
  {
    var s := g.rooms[room];
    assert SeatingOk(room, s);
    IndexOfIs(s.seats, null);
    if s.count < room.maxPlayers {
      var k := EmptySeatBelow(s.seats, s.count, room.maxPlayers);
    }
  }

  /** An id that no room has leads nowhere. */
  lemma JoinNowhere(w: World, c: Client, id: int)
    requires forall room :: room in w.graph.rooms ==> room.roomId != id
    ensures OnJoin(w, c, id) == w
  {
  }

  // ---- the game of a room ----

  /** The room has its game, whose players are those who sit there, in seat order, and whose cards lie face down. */
  lemma StartEffect(w: World, c: Client, game: Game<Client>, values: seq<int>, room: Room)
    requires Membership.Inv(w.graph) && Startable(w, c, values) && w.graph.clients[c].room == room
    ensures room in w.graph.rooms
    ensures var r, s := OnStartGame(w, c, game, values), w.graph.rooms[room];
            && room in r.graph.rooms && r.graph.rooms[room] == s.(game := game) && room in r.games
            && var g := r.games[room];
            && |g.players| == s.count == room.maxPlayers
            && (forall k :: 0 <= k < s.count ==> g.players[k] == s.seats[k])
            && g.phase == Waiting && g.boardSize == room.boardSize
            && (forall k :: 0 <= k < s.count ==> g.scores[k] == 0 && !g.ready[k])
            && |g.cards| == |values| && (forall k :: 0 <= k < |values| ==> g.cards[k] == Card(values[k], Hidden))
            && SameTable(w, r) && OnlyThese(w, r, {room}, {})
  {
    hide FromDeck, SlotsOk, IdsOk, SeatsLinked, LinksSeated, SeatsOk, Members, Membership.Counted;
    FullRoster(room, w.graph.rooms[room]);
  }

  lemma FullRoster(room: Room, s: Seating)
    requires SeatsOk(s.seats, s.count, room.maxPlayers) && s.count >= room.maxPlayers
    ensures |Members(Membership.Counted(s))| == s.count == room.maxPlayers <= |s.seats|
    ensures forall k :: 0 <= k < s.count ==> Members(Membership.Counted(s))[k] == s.seats[k]
  {
    FullRoomIsDense(s.seats, s.count, room.maxPlayers);
    assert Membership.Counted(s) == s.seats[..s.count];
    MembersInOrder(s.seats[..s.count]);
  }

  lemma {:induction false} MembersInOrder(seats: seq<Client?>)
    requires forall k :: 0 <= k < |seats| ==> seats[k] != null
    ensures |Members(seats)| == |seats| && forall k :: 0 <= k < |seats| ==> Members(seats)[k] == seats[k]
  {
    if seats != [] {
      MembersInOrder(seats[..|seats| - 1]);
    }
  }

  /** A room's game has moved on; when it has begun, the room plays, and so does everybody in it. */
  ghost predicate MovedOn(w: World, r: World, room: Room, g: GameState<Client>)
    requires room in w.graph.rooms && room in w.games
  {
    var s := w.graph.rooms[room];
    && room in r.games && r.games[room] == g && room in r.graph.rooms && SameTable(w, r)
    && if w.games[room].phase == Waiting && g.phase == Playing then
         && r.graph.rooms[room] == s.(state := RoomPlaying) && OnlyThese(w, r, {room}, SeatedIn(w, room))
         && forall d: Client :: d in s.seats ==>
              d in w.graph.clients && d in r.graph.clients
              && r.graph.clients[d] == w.graph.clients[d].(state := InGame)
       else r.graph.rooms[room] == s && OnlyThese(w, r, {room}, {})
  }

  lemma AdvancedEffect(w: World, room: Room, g: GameState<Client>)
    requires room in w.graph.rooms && room in w.games && Seated(w.graph, room)
    requires w.games[room].phase == Waiting && g.phase == Playing ==>
               forall d: Client :: d in Membership.Counted(w.graph.rooms[room]) <==> d in w.graph.rooms[room].seats
    ensures MovedOn(w, Advanced(w, room, g), room, g)
  {
    hide Membership.Counted;
  }

  lemma WaitingRoomCounts(w: World, room: Room)
    requires Server.Inv(w) && room in w.games && w.games[room].phase == Waiting
    ensures room in w.graph.rooms
    ensures forall d: Client :: d in Membership.Counted(w.graph.rooms[room]) <==> d in w.graph.rooms[room].seats
  {
    var s := w.graph.rooms[room];
    assert RoomOk(w, room) && SeatingOk(room, s);
    FullRoomIsDense(s.seats, s.count, room.maxPlayers);
  }

  /** READY concerns the client's own game and nothing else. */
  lemma ReadyEffect(w: World, c: Client, room: Room)
    requires Server.Inv(w) && Talks(w, c) && w.graph.clients[c].room == room && room in w.games
    ensures room in w.graph.rooms && Indexable(w.games[room])
    ensures MovedOn(w, OnReady(w, c), room, HandleReady(w.games[room], c))
  {
    hide HandleReady, StatesOk, RoomOk, MovedOn, Advanced;
    GameOk(w, c);
    InvSeated(w.graph, room);
    if w.games[room].phase == Waiting {
      WaitingRoomCounts(w, room);
    }
    AdvancedEffect(w, room, HandleReady(w.games[room], c));
    ReadyStepIs(w, room, c);
  }

  /** FLIP concerns the client's own game; when that is finished its room goes, and everybody is in the lobby. */
  lemma FlipEffect(w: World, c: Client, card: int, room: Room)
    requires Server.Inv(w) && Talks(w, c) && w.graph.clients[c].room == room && room in w.games
    ensures room in w.graph.rooms && Indexable(w.games[room])
    ensures var r, g := OnFlip(w, c, card), HandleFlip(w.games[room], c, card);
            if g.phase == Finished then RoomGone(w, r, room, null) && OnlyThese(w, r, {room}, SeatedIn(w, room))
            else MovedOn(w, r, room, g)
  {
    hide HandleFlip, StatesOk, RoomOk, MovedOn, Advanced, RoomGone, OnlyThese, Destroy;
    GameOk(w, c);
    InvSeated(w.graph, room);
    var s, g := w.graph.rooms[room], HandleFlip(w.games[room], c, card);
    assert SeatingOk(room, s);
    FlipStepIs(w, room, c, card);
    FlipPhase(w.games[room], c, card);
    if g.phase == Finished {
      EndEffect(w, room, s.seats, s.owner);
    } else {
      AdvancedEffect(w, room, g);
    }
  }

  lemma FlipPhase(g: GameState<Client>, c: Client, card: int)
    requires Indexable(g)
    ensures HandleFlip(g, c, card).phase == g.phase || HandleFlip(g, c, card).phase == Finished
  {
  }

  // ---- a connection that ends ----

  /** Among the seats the loop visits, two are taken by others. */
  ghost predicate TwoOthers(s: Seating, c: Client) {
    exists j, k :: 0 <= j < k < s.count && k < |s.seats| && s.seats[j] != null && s.seats[j] != c
                   && s.seats[k] != null && s.seats[k] != c
  }

  lemma {:induction false} OneRemains(seats: seq<Client?>, k: nat, c: Client)
    requires k <= |seats|
    ensures Remaining(seats, k, c) >= 1 <==> exists j :: 0 <= j < k && seats[j] != null && seats[j] != c
  {
    if k > 0 {
      OneRemains(seats, k - 1, c);
    }
  }

  lemma {:induction false} TwoRemain(seats: seq<Client?>, n: nat, c: Client)
    requires n <= |seats|
    ensures Remaining(seats, n, c) >= 2
            <==> exists j, k :: 0 <= j < k < n && seats[j] != null && seats[j] != c && seats[k] != null && seats[k] != c
  {
    if n > 0 {
      TwoRemain(seats, n - 1, c);
      OneRemains(seats, n - 1, c);
      if seats[n - 1] != null && seats[n - 1] != c && Remaining(seats, n - 1, c) >= 1 {
        var j :| 0 <= j < n - 1 && seats[j] != null && seats[j] != c;
        assert 0 <= j < n - 1 < n;
      }
    }
  }

  ghost predicate InItsGame(w: World, c: Client)
    requires c in w.graph.clients
  {
    w.graph.clients[c].state == InGame && w.graph.clients[c].room in w.games
  }

  /** A player whose game cannot go on without it is waited for: only its mark changes. */
  lemma WaitEffect(w: World, c: Client, marked: bool)
    requires Server.Inv(w) && Talks(w, c) && InItsGame(w, c)
    requires !TwoOthers(w.graph.rooms[w.graph.clients[c].room as Room], c)
    ensures var r := Drops(w, c, marked);
            && c in r.graph.clients && r.graph.clients[c] == w.graph.clients[c].(disconnected := true)
            && SameTable(w, r) && OnlyThese(w, r, {}, {c})
  {
    var room := w.graph.clients[c].room as Room;
    var s := w.graph.rooms[room];
    assert SeatingOk(room, s);
    TwoRemain(s.seats, Max(0, Min(s.count, |s.seats|)), c);
  }

  ghost predicate Sized(g: GameState<Client>) {
    |g.players| == |g.scores| == |g.ready|
  }

  /** The leaver's room afterwards: gone, or without it; a game that goes on has lost the player. */
  ghost predicate RoomLeft(w: World, r: World, room: Room, c: Client, plays: bool)
    requires room in w.graph.rooms && (room in w.games ==> Sized(w.games[room]))
  {
    if RoomEnds(w.graph, room, c) then RoomGone(w, r, room, c) && OnlyThese(w, r, {room}, SeatedIn(w, room))
    else
      && room in r.graph.rooms && SeatLeft(w, r, room, c) && SameTable(w, r) && OnlyThese(w, r, {room}, {c})
      && (room in w.games ==>
            && room in r.games
            && r.games[room] == if plays then GameModel.RemovePlayer(w.games[room], c) else w.games[room])
  }

  lemma LowestStays(g: Graph, g': Graph, seats: seq<Client?>, o: Client, c: Client)
    requires Lowest(g, seats, o) && c !in seats
    requires forall d: Client :: d in seats && d in g.clients ==> d in g'.clients && g'.clients[d] == g.clients[d]
    requires forall d: Client :: d in seats && d in g'.clients ==> d in g.clients
    ensures Lowest(g', seats, o)
  {
    var k :| 0 <= k < |seats| && seats[k] == o && o in g.clients && !g.clients[o].disconnected
             && forall j :: 0 <= j < k && seats[j] != null && seats[j] in g.clients ==>
                              g.clients[seats[j]].disconnected;
  }

  /** Forgetting or marking the leaver afterwards concerns nobody else. */
  lemma AfterLeaving(w: World, r: World, q: World, room: Room, c: Client, plays: bool)
    requires room in w.graph.rooms && (room in w.games ==> Sized(w.games[room])) && RoomLeft(w, r, room, c, plays)
    requires c in w.graph.rooms[room].seats && c in r.graph.clients && r.graph.clients[c].room == null
    requires c in w.graph.clients && InTheLobby(w.graph.clients[c], r.graph.clients[c])
    requires q == r || q == Gone(r, c) || q == Marked(r, c)
    ensures RoomLeft(w, q, room, c, plays)
  {
    if !RoomEnds(w.graph, room, c) && w.graph.rooms[room].owner == c {
      var t := r.graph.rooms[room];
      LowestStays(r.graph, q.graph, t.seats, t.owner, c);
    }
  }

  lemma LeavesRoom(w: World, c: Client, room: Room)
    requires Membership.Inv(w.graph) && Housed(w) && c in w.graph.clients && w.graph.clients[c].room == room
    requires room in w.games ==> Sized(w.games[room])
    ensures room in w.graph.rooms && c in w.graph.rooms[room].seats
    ensures var r := Leaves(w, c);
            && RoomLeft(w, r, room, c, false)
            && c in r.graph.clients && InTheLobby(w.graph.clients[c], r.graph.clients[c])
  {
    LeaveEffect(w, c, room);
  }

  /** The game has lost the player before the room does. */
  lemma PlayerLeaves(w: World, c: Client, room: Room)
    requires Membership.Inv(w.graph) && Housed(w) && c in w.graph.clients && w.graph.clients[c].room == room
    requires room in w.games && Sized(w.games[room])
    ensures room in w.graph.rooms && c in w.graph.rooms[room].seats
    ensures var r := Leaves(w.(games := w.games[room := GameModel.RemovePlayer(w.games[room], c)]), c);
            && RoomLeft(w, r, room, c, true)
            && c in r.graph.clients && InTheLobby(w.graph.clients[c], r.graph.clients[c])
  {
    hide Leaves, Membership.Inv;
    var g := GameModel.RemovePlayer(w.games[room], c);
    assert Sized(g);
    hide GameModel.RemovePlayer;
    var out := w.(games := w.games[room := g]);
    assert out.games.Keys == w.games.Keys + {room};
    LeavesRoom(out, c, room);
    LeftOtherwise(w, out, Leaves(out, c), room, c);
  }

  lemma LeftOtherwise(w: World, out: World, r: World, room: Room, c: Client)
    requires room in w.graph.rooms && room in w.games && Sized(w.games[room]) && room in out.games
    requires out == w.(games := w.games[room := GameModel.RemovePlayer(w.games[room], c)])
    requires Sized(out.games[room]) && RoomLeft(out, r, room, c, false)
    ensures RoomLeft(w, r, room, c, true)
  {
    hide RoomEnds;
  }

  lemma PlaysOnIs(w: World, c: Client)
    requires Server.Inv(w) && HasGame(w, c)
    ensures w.graph.clients[c].room in w.graph.rooms
    ensures PlaysOnWithout(w, c) <==> TwoOthers(w.graph.rooms[w.graph.clients[c].room as Room], c)
  {
    var room := w.graph.clients[c].room as Room;
    var s := w.graph.rooms[room];
    assert SeatingOk(room, s);
    MembersCount(s.seats);
    TwoRemain(s.seats, Max(0, s.count), c);
  }

  /** A player whose game goes on without it is forgotten, and its room and its game have lost it. */
  lemma RemovalEffect(w: World, c: Client, marked: bool, room: Room)
    requires Server.Inv(w) && Talks(w, c) && InItsGame(w, c) && w.graph.clients[c].room == room
    requires TwoOthers(w.graph.rooms[room], c)
    ensures Sized(w.games[room])
    ensures var r := Drops(w, c, marked);
            c !in r.graph.clients && RoomLeft(w, r, room, c, true)
  {
    hide RoomLeft, Leaves, StatesOk, RoomOk, RoomEnds;
    GameOk(w, c);
    PlaysOnIs(w, c);
    PlayerLeaves(w, c, room);
    var out := Leaves(w.(games := w.games[room := GameModel.RemovePlayer(w.games[room], c)]), c);
    AfterLeaving(w, out, Gone(out, c), room, c, true);
  }

  lemma RoomlessEffect(w: World, c: Client)
    requires c in w.graph.clients
    ensures SameTable(w, Gone(w, c)) && OnlyThese(w, Gone(w, c), {}, {c})
    ensures SameTable(w, Marked(w, c)) && OnlyThese(w, Marked(w, c), {}, {c})
  {
  }

  /** Somebody who plays no game leaves its room, if any, and is forgotten, or kept with a mark when it has been given
      up on. */
  lemma DropEffect(w: World, c: Client, marked: bool)
    requires Server.Inv(w) && Talks(w, c) && !InItsGame(w, c)
    ensures var r, link := Drops(w, c, marked), w.graph.clients[c];
            && (if marked
                then c in r.graph.clients
                     && r.graph.clients[c] == Link(null, if link.room == null then link.state else InLobby, true)
                else c !in r.graph.clients)
            && (link.room == null ==> SameTable(w, r) && OnlyThese(w, r, {}, {c}))
            && (link.room != null ==>
                  && link.room in w.graph.rooms && (link.room in w.games ==> Sized(w.games[link.room as Room]))
                  && RoomLeft(w, r, link.room, c, false))
  {
    hide RoomLeft, Leaves, StatesOk, RoomOk, RoomEnds, OnlyThese, Membership.Inv;
    var link := w.graph.clients[c];
    if link.room == null {
      RoomlessEffect(w, c);
    } else {
      var room := link.room as Room;
      if room in w.games {
        GameOk(w, c);
      }
      LeavesRoom(w, c, room);
      var out := Leaves(w, c);
      AfterLeaving(w, out, if marked then Marked(out, c) else Gone(out, c), room, c, false);
    }
  }

  /** Whoever is given up on is forgotten, and a room with a game goes with it. */
  lemma ExpireEffect(w: World, c: Client)
    requires Server.Inv(w) && c in w.graph.clients && w.graph.clients[c].disconnected
    ensures var r, room := OnExpire(w, c), w.graph.clients[c].room;
            && c !in r.graph.clients
            && if room in w.games
               then room in w.graph.rooms && RoomGone(w, r, room, c) && OnlyThese(w, r, {room}, SeatedIn(w, room))
               else SameTable(w, r) && OnlyThese(w, r, {}, {c})
  {
    var room := w.graph.clients[c].room;
    if room in w.games {
      InvSeated(w.graph, room);
      ExpiresInGame(w, c, room);
    } else {
      RoomlessEffect(w, c);
    }
  }

  lemma ExpiresInGame(w: World, c: Client, room: Room)
    requires SlotsOk(w.graph) && Housed(w) && c in w.graph.clients && w.graph.clients[c].room == room && room in w.games
    requires room in w.graph.rooms && c in w.graph.rooms[room].seats && Seated(w.graph, room)
    ensures var r := Expires(w, c);
            && c !in r.graph.clients && RoomGone(w, r, room, c) && OnlyThese(w, r, {room}, SeatedIn(w, room))
  {
    hide SlotsOk, Destroy, RoomGone, OnlyThese;
    EndEffect(w, room, w.graph.rooms[room].seats, c);
    Forgets(w, WithGraph(w, Destroy(w.graph, room, w.graph.rooms[room].seats, c)), room, c);
  }

  lemma Forgets(w: World, r: World, room: Room, c: Client)
    requires room in w.graph.rooms && c in w.graph.rooms[room].seats
    requires RoomGone(w, r, room, c) && OnlyThese(w, r, {room}, SeatedIn(w, room))
    ensures RoomGone(w, Gone(r, c), room, c) && OnlyThese(w, Gone(r, c), {room}, SeatedIn(w, room))
  {
  }

  /** The new client is what the old one was and sits where it sat, among the seats that are visited, in the room and
      in the game; the old one is forgotten. */
  lemma ReconnectEffect(w: World, o: Client, n: Client)
    requires Server.Inv(w) && Server.Reconnects(w, o, n)
    ensures var r, link := OnReconnect(w, o, n), w.graph.clients[o];
            && o !in r.graph.clients && n in r.graph.clients
            && r.graph.clients[n] == Link(link.room, link.state, false) && SameTable(w, r)
            && OnlyThese(w, r, if link.room == null then {} else {link.room}, {o, n})
            && (link.room != null ==>
                  && link.room in w.graph.rooms && link.room in r.graph.rooms
                  && Reseats(w.graph.rooms[link.room as Room], r.graph.rooms[link.room as Room], o, n)
                  && (link.room in w.games <==> link.room in r.games))
            && (link.room in w.games ==> Replays(w.games[link.room as Room], r.games[link.room as Room], o, n))
  {
    ReconnectedIs(w, o, n);
  }

  lemma ReconnectedIs(w: World, o: Client, n: Client)
    requires o in w.graph.clients && n in w.graph.clients && o != n
    requires w.graph.clients[o].room != null ==> w.graph.clients[o].room in w.graph.rooms
    ensures var r, link := Server.Reconnected(w, o, n), w.graph.clients[o];
            && o !in r.graph.clients && n in r.graph.clients
            && r.graph.clients[n] == Link(link.room, link.state, false) && SameTable(w, r)
            && OnlyThese(w, r, if link.room == null then {} else {link.room}, {o, n})
            && (link.room != null ==>
                  && link.room in r.graph.rooms
                  && Reseats(w.graph.rooms[link.room as Room], r.graph.rooms[link.room as Room], o, n)
                  && (link.room in w.games <==> link.room in r.games))
            && (link.room in w.games ==> Replays(w.games[link.room as Room], r.games[link.room as Room], o, n))
  {
  }

  ghost predicate Reseats(s: Seating, t: Seating, o: Client, n: Client) {
    && t.count == s.count && t.state == s.state && t.owner == s.owner && t.game == s.game && |t.seats| == |s.seats|
    && forall k :: 0 <= k < |s.seats| ==> t.seats[k] == if k < s.count && s.seats[k] == o then n else s.seats[k]
  }

  ghost predicate Replays(g: GameState<Client>, h: GameState<Client>, o: Client, n: Client) {
    && |h.players| == |g.players|
    && (forall k :: 0 <= k < |g.players| ==> h.players[k] == if g.players[k] == o then n else g.players[k])
    && h == g.(players := h.players)
  }
}
