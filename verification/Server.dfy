/** The whole server as one state machine: who sits in which room, the games that are played there, and every
    message, lost connection and deadline as one step. */
module Server {
  import opened SeqFacts
  import opened GameModel
  import opened Games
  import opened Structs
  import opened Membership
  import opened Reconnecting
  import GameInvariant

  /** The games are those of the rooms that have one. */
  datatype World = World(graph: Graph, games: map<Room, GameState<Client>>)

  /** The clients in the seats, in seat order. */
  function Members(seats: seq<Client?>): (ms: seq<Client>)
    ensures |ms| <= |seats|
  {
    if seats == [] then []
    else
      var n := |seats| - 1;
      Members(seats[..n]) + if seats[n] == null then [] else [seats[n]]
  }

  // ---- what every step keeps ----

  /** A room's game is under way or about to be, and its players are the room's members in seat order. */
  ghost predicate Plays(r: Room, s: Seating, g: GameState<Client>) {
    && GameInvariant.Inv(g) && g.phase != Finished && g.flips <= 1
    && g.players == Members(s.seats)
    && (s.state == RoomPlaying <==> g.phase == Playing)
    && (g.phase == Waiting ==> s.count >= r.maxPlayers)
  }

  ghost predicate RoomOk(w: World, r: Room)
    requires r in w.graph.rooms
  {
    && (r in w.games <==> w.graph.rooms[r].game != null)
    && (r in w.games ==> Plays(r, w.graph.rooms[r], w.games[r]))
    && (r !in w.games ==> w.graph.rooms[r].state == RoomWaiting)
  }

  ghost predicate PlayingIn(w: World, r: Room?) {
    r in w.games && w.games[r].phase == Playing
  }

  /** Members of a room that plays are in the game, the others are in the room; only a player is waited for. */
  ghost predicate StateOk(l: Link, playing: bool) {
    l.room != null ==> l.state == (if playing then InGame else InRoom) && (l.disconnected ==> playing)
  }

  ghost predicate StatesOk(w: World) {
    forall c :: c in w.graph.clients ==> StateOk(w.graph.clients[c], PlayingIn(w, w.graph.clients[c].room))
  }

  ghost predicate RoomsOk(w: World) {
    && (forall r :: r in w.games ==> r in w.graph.rooms)
    && (forall r :: r in w.graph.rooms ==> RoomOk(w, r))
  }

  ghost predicate Inv(w: World) {
    Membership.Inv(w.graph) && RoomsOk(w) && StatesOk(w)
  }

  // ---- the steps ----

  datatype Event =
    | Connect(c: Client, evicted: Client?)
    | Hello(c: Client)
    | Create(c: Client, room: Room)
    | Join(c: Client, roomId: int)
    | Leave(c: Client)
    | StartGame(c: Client, game: Game<Client>, values: seq<int>)
    | Ready(c: Client)
    | Flip(c: Client, card: int)
    | Drop(c: Client)
    | Silence(c: Client)
    | Expire(c: Client)
    | Reconnect(o: Client, n: Client)

  /** A message comes from a client whose connection is up. */
  ghost predicate Talks(w: World, c: Client) {
    c in w.graph.clients && !w.graph.clients[c].disconnected
  }

  ghost predicate Sits(w: World, c: Client) {
    c in w.graph.clients && w.graph.clients[c].room in w.graph.rooms
  }

  ghost predicate HasGame(w: World, c: Client) {
    c in w.graph.clients && w.graph.clients[c].room in w.games
  }

  /** A room that goes takes its game with it. */
  ghost function WithGraph(w: World, graph: Graph): World {
    World(graph, map r | r in w.games && r in graph.rooms :: w.games[r])
  }

  ghost function Leaves(w: World, c: Client): World
    requires Membership.Inv(w.graph) && c in w.graph.clients && w.graph.clients[c].room != null
  {
    WithGraph(w, Left(w.graph, c))
  }

  ghost function Gone(w: World, c: Client): World {
    w.(graph := w.graph.(clients := w.graph.clients - {c}))
  }

  ghost predicate Startable(w: World, c: Client, values: seq<int>) {
    Talks(w, c) && Sits(w, c) &&
    var room := w.graph.clients[c].room as Room;
    var s := w.graph.rooms[room];
    s.owner == c && s.game == null && s.count >= room.maxPlayers && FromDeck(values, room.boardSize)
  }

  ghost predicate FromDeck(values: seq<int>, boardSize: int) {
    multiset(values) == multiset(Shuffle.Deck(Max(0, boardSize * boardSize / 2)))
  }

  /** handle_start_game; the values come out of the shuffled deck. */
  function Starts(w: World, room: Room, game: Game<Client>, values: seq<int>): World
    requires room in w.graph.rooms
  {
    World(WithGame(w.graph, room, game),
          w.games[room := Dealt(room.boardSize, values, Members(Counted(w.graph.rooms[room])))])
  }

  /** A room's game has moved on: when it has started, the members are in it. */
  function Advanced(w: World, room: Room, g: GameState<Client>): World
    requires room in w.graph.rooms && room in w.games
  {
    World(if w.games[room].phase == Waiting && g.phase == Playing then Begun(w.graph, room) else w.graph,
          w.games[room := g])
  }

  ghost function Readies(w: World, room: Room, c: Client): World
    requires room in w.graph.rooms && room in w.games && GameInvariant.Inv(w.games[room])
  {
    Advanced(w, room, HandleReady(w.games[room], c))
  }

  ghost function Flips(w: World, room: Room, c: Client, card: int): World
    requires room in w.graph.rooms && room in w.games && Indexable(w.games[room])
  {
    var g := HandleFlip(w.games[room], c, card);
    if g.phase == Finished
    then WithGraph(w, Destroy(w.graph, room, w.graph.rooms[room].seats, w.graph.rooms[room].owner))
    else Advanced(w, room, g)
  }

  lemma GameOk(w: World, c: Client)
    requires RoomsOk(w) && HasGame(w, c)
    ensures w.graph.clients[c].room in w.graph.rooms
    ensures GameInvariant.Inv(w.games[w.graph.clients[c].room]) && Indexable(w.games[w.graph.clients[c].room])
  {
    assert RoomOk(w, w.graph.clients[c].room);
    GameInvariant.InvIndexable(w.games[w.graph.clients[c].room]);
  }

  /** The players, among the first k seats, that are left when one goes. */
  function Remaining(seats: seq<Client?>, k: nat, c: Client): nat
    requires k <= |seats|
  {
    if k == 0 then 0
    else Remaining(seats, k - 1, c) + if seats[k - 1] != null && seats[k - 1] != c then 1 else 0
  }

  ghost predicate PlaysOnWithout(w: World, c: Client)
    requires Inv(w) && HasGame(w, c)
  {
    var s := w.graph.rooms[w.graph.clients[c].room];
    s.count <= |s.seats| && Remaining(s.seats, Max(0, s.count), c) >= 2
  }

  ghost function Marked(w: World, c: Client): World
    requires c in w.graph.clients
  {
    w.(graph := w.graph.(clients := w.graph.clients[c := w.graph.clients[c].(disconnected := true)]))
  }

  /** What client_handler_thread does when the connection ends. A player in a game is taken out of it when two others
      remain, and waited for otherwise; somebody else leaves the room, and is forgotten unless already marked. */
  ghost function Drops(w: World, c: Client, marked: bool): World
    requires Inv(w) && Talks(w, c)
  {
    var link := w.graph.clients[c];
    if link.state == InGame && link.room in w.games then
      if PlaysOnWithout(w, c)
      then Gone(Leaves(w.(games := w.games[link.room as Room := GameModel.RemovePlayer(w.games[link.room], c)]), c), c)
      else Marked(w, c)
    else
      var out := if link.room != null then Leaves(w, c) else w;
      if marked then (if c in out.graph.clients then Marked(out, c) else out) else Gone(out, c)
  }

  /** The timeout checker gives up on a client: its game is forfeited and its room is gone. */
  ghost function Expires(w: World, c: Client): World
    requires c in w.graph.clients
  {
    var room := w.graph.clients[c].room;
    if room in w.graph.rooms && room in w.games
    then Gone(WithGraph(w, Destroy(w.graph, room, w.graph.rooms[room].seats, c)), c)
    else Gone(w, c)
  }

  /** Only a client that is waited for can be taken over. */
  ghost predicate Reconnects(w: World, o: Client, n: Client) {
    o in w.graph.clients && w.graph.clients[o].disconnected && Talks(w, n) && o != n
  }

  ghost function Reconnected(w: World, o: Client, n: Client): World
    requires o in w.graph.clients
  {
    var room := w.graph.clients[o].room;
    World(Reconnecting.Reconnected(w.graph, o, n),
          if room in w.games
          then w.games[room as Room := w.games[room].(players := Substituted(w.games[room].players, o, n))]
          else w.games)
  }

  /** The list is full, and frees the record of a client that is waited for. */
  ghost predicate Evicts(w: World, c: Client, evicted: Client?) {
    c !in w.graph.clients && evicted in w.graph.clients && w.graph.clients[evicted].disconnected
  }

  ghost function Welcomed(w: World, c: Client): World {
    if c in w.graph.clients then w
    else w.(graph := w.graph.(clients := w.graph.clients[c := Link(null, Connected, false)]))
  }

  /** A new connection, which may cost somebody that is waited for its place in the list. The room of that client is
      not told. */
  ghost function OnConnect(w: World, c: Client, evicted: Client?): World {
    if Evicts(w, c, evicted) then Welcomed(Gone(w, evicted), c) else if evicted == null then Welcomed(w, c) else w
  }

  /** A client that has connected gives its name. */
  ghost function OnHello(w: World, c: Client): World {
    if Talks(w, c) && w.graph.clients[c].state == Connected then w.(graph := WithState(w.graph, c, InLobby)) else w
  }

  ghost function OnJoin(w: World, c: Client, id: int): World {
    if Talks(w, c) then w.(graph := Entered(w.graph, c, RoomById(w.graph, id))) else w
  }

  ghost function OnCreate(w: World, c: Client, room: Room): World {
    if Talks(w, c) then w.(graph := Founded(w.graph, c, room)) else w
  }

  ghost function OnLeave(w: World, c: Client): World
    requires Membership.Inv(w.graph)
  {
    if Talks(w, c) && Sits(w, c) then Leaves(w, c) else w
  }

  ghost function OnStartGame(w: World, c: Client, game: Game<Client>, values: seq<int>): World {
    if Startable(w, c, values) then Starts(w, w.graph.clients[c].room, game, values) else w
  }

  ghost function OnReady(w: World, c: Client): World
    requires RoomsOk(w)
  {
    if Talks(w, c) && HasGame(w, c) then GameOk(w, c); Readies(w, w.graph.clients[c].room, c) else w
  }

  ghost function OnFlip(w: World, c: Client, card: int): World
    requires RoomsOk(w)
  {
    if Talks(w, c) && HasGame(w, c) then GameOk(w, c); Flips(w, w.graph.clients[c].room, c, card) else w
  }

  ghost function OnReconnect(w: World, o: Client, n: Client): World {
    if Reconnects(w, o, n) then Reconnected(w, o, n) else w
  }

  ghost function OnExpire(w: World, c: Client): World {
    if c in w.graph.clients && w.graph.clients[c].disconnected then Expires(w, c) else w
  }

  /** A request whose guard fails changes nothing. */
  ghost function Step(w: World, e: Event): World
    requires Inv(w)
  {
    match e
    case Connect(c, evicted) => OnConnect(w, c, evicted)
    case Hello(c) => OnHello(w, c)
    case Create(c, room) => OnCreate(w, c, room)
    case Join(c, id) => OnJoin(w, c, id)
    case Leave(c) => OnLeave(w, c)
    case StartGame(c, game, values) => OnStartGame(w, c, game, values)
    case Ready(c) => OnReady(w, c)
    case Flip(c, card) => OnFlip(w, c, card)
    case Drop(c) => if Talks(w, c) then Drops(w, c, false) else w
    case Silence(c) => if Talks(w, c) then Drops(w, c, true) else w
    case Expire(c) => OnExpire(w, c)
    case Reconnect(o, n) => OnReconnect(w, o, n)
  }

  lemma FlipStepIs(w: World, room: Room, client: Client, card: int)
    requires RoomsOk(w) && Talks(w, client) && w.graph.clients[client].room == room && room in w.games
    requires room in w.graph.rooms && Indexable(w.games[room])
    ensures OnFlip(w, client, card) == Flips(w, room, client, card)
  {
  }

  lemma ReadyStepIs(w: World, room: Room, client: Client)
    requires RoomsOk(w) && Talks(w, client) && w.graph.clients[client].room == room && room in w.games
    requires room in w.graph.rooms
    ensures OnReady(w, client) == Advanced(w, room, HandleReady(w.games[room], client))
  {
  }

  // ---- members in seat order ----

  lemma {:induction false} MembersConcat(a: seq<Client?>, b: seq<Client?>)
    ensures Members(a + b) == Members(a) + Members(b)
    decreases |b|
  {
    if b == [] {
      assert a + b == a;
    } else {
      assert (a + b)[..|a + b| - 1] == a + b[..|b| - 1];
      MembersConcat(a, b[..|b| - 1]);
    }
  }

  lemma {:induction false} MembersIn(seats: seq<Client?>, c: Client)
    ensures c in Members(seats) <==> c in seats
  {
    if seats != [] {
      MembersIn(seats[..|seats| - 1], c);
    }
  }

  lemma {:induction false} MembersDistinct(seats: seq<Client?>)
    requires SeatedOnce(seats)
    ensures Distinct(Members(seats))
  {
    if seats != [] {
      var n := |seats| - 1;
      MembersDistinct(seats[..n]);
      if seats[n] != null {
        MembersIn(seats[..n], seats[n]);
      }
    }
  }

  lemma {:induction false} MembersCount(seats: seq<Client?>)
    ensures |Members(seats)| == |Occupied(seats)|
  {
    if seats != [] {
      var n := |seats| - 1;
      MembersCount(seats[..n]);
      assert Occupied(seats) == Occupied(seats[..n]) + if seats[n] == null then {} else {n};
    }
  }

  lemma {:induction false} MembersNone(seats: seq<Client?>)
    requires forall k :: 0 <= k < |seats| ==> seats[k] == null
    ensures Members(seats) == []
  {
    if seats != [] {
      MembersNone(seats[..|seats| - 1]);
    }
  }

  lemma MembersOfDense(seats: seq<Client?>, count: int)
    requires 0 <= count <= |seats| && forall k :: count <= k < |seats| ==> seats[k] == null
    ensures Members(seats[..count]) == Members(seats)
  {
    assert seats == seats[..count] + seats[count..];
    MembersConcat(seats[..count], seats[count..]);
    MembersNone(seats[count..]);
  }

  lemma MembersOfOne(x: Client?)
    ensures Members([x]) == if x == null then [] else [x]
  {
    assert [x][..0] == [];
  }

  lemma MembersAround(a: seq<Client?>, one: seq<Client?>, b: seq<Client?>)
    ensures Members(a + (one + b)) == Members(a) + (Members(one) + Members(b))
  {
    MembersConcat(a, one + b);
    MembersConcat(one, b);
  }

  lemma WithoutMiddle(a: seq<Client>, c: Client, b: seq<Client>)
    requires c !in a
    ensures IndexOf(a + ([c] + b), c) == |a|
    ensures Without(a + ([c] + b), |a|) == a + b
  {
    var s := a + ([c] + b);
    assert s[..|a|] == a && s[|a| + 1..] == b;
    FirstIndex(s, c, |a|);
  }

  lemma MembersSplit(seats: seq<Client?>, i: int, x: Client?)
    requires 0 <= i < |seats|
    ensures Members(seats[i := x]) == Members(seats[..i]) + ((if x == null then [] else [x]) + Members(seats[i + 1..]))
  {
    assert seats[i := x] == seats[..i] + ([x] + seats[i + 1..]);
    MembersAround(seats[..i], [x], seats[i + 1..]);
    MembersOfOne(x);
  }

  /** Clearing a seat takes the member out of the roster as game_remove_player does. */
  lemma MembersVacated(seats: seq<Client?>, i: int, c: Client)
    requires SeatedOnce(seats) && 0 <= i < |seats| && seats[i] == c
    ensures IndexOf(Members(seats), c) < |Members(seats)|
    ensures Members(seats[i := null]) == Without(Members(seats), IndexOf(Members(seats), c))
  {
    assert seats[i := c] == seats;
    MembersSplit(seats, i, c);
    MembersSplit(seats, i, null);
    assert c !in seats[..i];
    MembersIn(seats[..i], c);
    WithoutMiddle(Members(seats[..i]), c, Members(seats[i + 1..]));
  }

  lemma {:induction false} MembersSubstituted(seats: seq<Client?>, r: seq<Client?>, o: Client, n: Client)
    requires |r| == |seats| && forall i :: 0 <= i < |seats| ==> r[i] == if seats[i] == o then n else seats[i]
    ensures Members(r) == Substituted(Members(seats), o, n)
  {
    if seats != [] {
      MembersSubstituted(seats[..|seats| - 1], r[..|r| - 1], o, n);
    }
  }

  lemma {:induction false} RemainingBound(seats: seq<Client?>, k: nat, c: Client)
    requires k <= |seats|
    ensures Remaining(seats, k, c) <= |Members(seats[..k])| <= |Members(seats)|
  {
    if k > 0 {
      RemainingBound(seats, k - 1, c);
      assert seats[..k][..k - 1] == seats[..k - 1];
    }
    assert seats == seats[..k] + seats[k..];
    MembersConcat(seats[..k], seats[k..]);
  }

  lemma {:induction false} RemainingAndOne(seats: seq<Client?>, k: nat, c: Client)
    requires k <= |seats|
    ensures Remaining(seats, k, c) + (if c in seats[..k] then 1 else 0) <= |Members(seats[..k])|
  {
    if k > 0 {
      RemainingAndOne(seats, k - 1, c);
      assert seats[..k][..k - 1] == seats[..k - 1];
      assert seats[..k] == seats[..k - 1] + [seats[k - 1]];
    }
    if k > 0 && seats[k - 1] == c {
      MembersIn(seats[..k - 1], c);
    }
  }

  /** Those that remain and the one that goes are counted. */
  lemma RemainingCounted(seats: seq<Client?>, count: int, limit: int, k: nat, c: Client)
    requires SeatsOk(seats, count, limit) && k <= |seats| && c in seats
    ensures Remaining(seats, k, c) + 1 <= count
  {
    RemainingAndOne(seats, k, c);
    assert seats == seats[..k] + seats[k..];
    MembersConcat(seats[..k], seats[k..]);
    MembersCount(seats);
    MembersIn(seats[k..], c);
  }

  // ---- leaving a room ----

  /** What Left changes: one room, which goes or loses one member, and the clients of a room that goes. */
  ghost predicate LeftShape(g: Graph, c: Client, room: Room, i: int, r: Graph)
    requires room in g.rooms && 0 <= i < |g.rooms[room].seats|
  {
    && r.rooms.Keys + {room} == g.rooms.Keys
    && (forall q :: q in g.rooms && q != room ==> q in r.rooms && r.rooms[q] == g.rooms[q])
    && (room in r.rooms ==>
          var s := g.rooms[room];
          r.rooms[room] == s.(seats := s.seats[i := null], count := s.count - 1, owner := r.rooms[room].owner))
    && r.clients.Keys == g.clients.Keys && c in g.clients && r.clients[c].room == null
    && (forall d :: d in g.clients ==> r.clients[d].room == null || r.clients[d] == g.clients[d])
    && (forall d :: d in g.clients ==> r.clients[d].disconnected == g.clients[d].disconnected)
  }

  lemma LeftHasShape(g: Graph, c: Client, room: Room)
    requires Membership.Inv(g) && c in g.clients && g.clients[c].room == room
    ensures room in g.rooms && IndexOf(g.rooms[room].seats, c) < |g.rooms[room].seats|
    ensures LeftShape(g, c, room, IndexOf(g.rooms[room].seats, c), Left(g, c))
  {
    InvSeated(g, room);
    RemoveOutcome(g, room, c);
    LeftKeeps(g, c);
    var i, r := IndexOf(g.rooms[room].seats, c), Left(g, c);
    OutcomeShape(g, c, room, i, r);
  }

  lemma OutcomeShape(g: Graph, c: Client, room: Room, i: int, r: Graph)
    requires room in g.rooms && c in g.clients && 0 <= i < |g.rooms[room].seats|
    requires RemovalOutcome(g, room, c, i, r)
    ensures LeftShape(g, c, room, i, r)
  {
  }

  /** Enough members stay behind, and when it is the owner that leaves one of them is connected. */
  ghost predicate Outlives(w: World, c: Client)
    requires Sits(w, c)
  {
    var s := w.graph.rooms[w.graph.clients[c].room];
    && s.count > (if s.game != null then 2 else 1)
    && (s.owner == c ==> exists k :: 0 <= k < |s.seats| && ConnectedOther(w.graph, s.seats[k], c))
  }

  ghost predicate ConnectedOther(g: Graph, d: Client?, c: Client) {
    d != null && d != c && d in g.clients && !g.clients[d].disconnected
  }

  lemma SuccessorExists(g: Graph, c: Client, room: Room, i: int)
    requires Seated(g, room) && c in g.clients && 0 <= i < |g.rooms[room].seats| && g.rooms[room].seats[i] == c
    requires SeatedOnce(g.rooms[room].seats)
    ensures Seated(Vacate(g, room, c, i), room)
    ensures FirstConnected(Vacate(g, room, c, i), g.rooms[room].seats[i := null], 0) != null
            <==> exists k :: 0 <= k < |g.rooms[room].seats| && ConnectedOther(g, g.rooms[room].seats[k], c)
  {
    var v, seats := Vacate(g, room, c, i), g.rooms[room].seats[i := null];
    VacateSeated(g, room, c, i);
    FirstConnectedIs(v, seats, 0);
    var o := FirstConnected(v, seats, 0);
    if o != null {
      var k :| 0 <= k < |seats| && seats[k] == o;
      assert ConnectedOther(g, g.rooms[room].seats[k], c);
    } else {
      forall k | 0 <= k < |seats| && g.rooms[room].seats[k] != null && g.rooms[room].seats[k] != c
        ensures !ConnectedOther(g, g.rooms[room].seats[k], c)
      {
        assert seats[k] == g.rooms[room].seats[k];
        assert v.clients[seats[k]].disconnected;
      }
    }
  }

  lemma AfterLeaveSurvives(g: Graph, room: Room, c: Client)
    requires Seated(g, room) && g.rooms[room].count >= 0
    ensures room in AfterLeave(g, room, c).rooms
            <==> && g.rooms[room].count > (if g.rooms[room].game != null then 1 else 0)
                 && (g.rooms[room].owner == c ==> FirstConnected(g, g.rooms[room].seats, 0) != null)
  {
  }

  lemma OutlivesIs(w: World, c: Client)
    requires Membership.Inv(w.graph) && Sits(w, c)
    ensures Outlives(w, c) <==> w.graph.clients[c].room in Left(w.graph, c).rooms
  {
    var room := w.graph.clients[c].room as Room;
    InvSeated(w.graph, room);
    assert SeatingOk(room, w.graph.rooms[room]) && c in w.graph.rooms[room].seats;
    OutlivesVacating(w, c, room);
  }

  lemma OutlivesVacating(w: World, c: Client, room: Room)
    requires Seated(w.graph, room) && c in w.graph.clients && w.graph.clients[c].room == room
    requires SeatsOk(w.graph.rooms[room].seats, w.graph.rooms[room].count, room.maxPlayers)
    requires c in w.graph.rooms[room].seats
    ensures Outlives(w, c) <==> room in Membership.RemovePlayer(w.graph, room, c).rooms
  {
    var g, s := w.graph, w.graph.rooms[room];
    IndexOfIs(s.seats, c);
    var i := IndexOf(s.seats, c);
    SuccessorExists(g, c, room, i);
    LeaveKeepsSeats(s.seats, s.count, room.maxPlayers, i);
    AfterLeaveSurvives(Vacate(g, room, c, i), room, c);
  }

  /** The rooms after a member has left, whatever became of its own game: the others are as before. */
  lemma ShapeRooms(w: World, games: map<Room, GameState<Client>>, c: Client, room: Room, i: int, g: Graph)
    requires RoomsOk(w) && room in w.graph.rooms && 0 <= i < |w.graph.rooms[room].seats|
    requires LeftShape(w.graph, c, room, i, g)
    requires games.Keys == w.games.Keys && forall r :: r in games && r != room ==> games[r] == w.games[r]
    ensures RoomsOk(WithGraph(World(w.graph, games), g))
            <==> (room in g.rooms ==> RoomOk(WithGraph(World(w.graph, games), g), room))
  {
    var w' := WithGraph(World(w.graph, games), g);
    forall r | r in g.rooms && r != room ensures RoomOk(w', r) {
      assert RoomOk(w, r);
    }
  }

  lemma ShapeRoom(w: World, c: Client, room: Room, i: int, g: Graph)
    requires room in w.graph.rooms && RoomOk(w, room) && 0 <= i < |w.graph.rooms[room].seats|
    requires SeatedOnce(w.graph.rooms[room].seats) && w.graph.rooms[room].seats[i] == c
    requires LeftShape(w.graph, c, room, i, g) && room in g.rooms
    ensures RoomOk(WithGraph(w, g), room) <==> room !in w.games
  {
    MembersVacated(w.graph.rooms[room].seats, i, c);
  }

  lemma LeavesRooms(w: World, c: Client)
    requires Inv(w) && Sits(w, c)
    ensures RoomsOk(Leaves(w, c)) <==> !(HasGame(w, c) && Outlives(w, c))
  {
    var room := w.graph.clients[c].room;
    LeftHasShape(w.graph, c, room);
    OutlivesIs(w, c);
    var i, g := IndexOf(w.graph.rooms[room].seats, c), Left(w.graph, c);
    ShapeRooms(w, w.games, c, room, i, g);
    if room in g.rooms {
      assert SeatingOk(room, w.graph.rooms[room]);
      ShapeRoom(w, c, room, i, g);
    }
  }

  lemma ShapeStates(w: World, c: Client, room: Room, i: int, g: Graph)
    requires StatesOk(w) && room in w.graph.rooms && 0 <= i < |w.graph.rooms[room].seats|
    requires LeftShape(w.graph, c, room, i, g) && LinksSeated(g)
    ensures StatesOk(WithGraph(w, g))
  {
    var w' := WithGraph(w, g);
    forall d | d in g.clients ensures StateOk(g.clients[d], PlayingIn(w', g.clients[d].room)) {
      assert StateOk(w.graph.clients[d], PlayingIn(w, w.graph.clients[d].room));
    }
  }

  lemma LeavesStates(w: World, c: Client)
    requires Inv(w) && Sits(w, c)
    ensures StatesOk(Leaves(w, c))
  {
    var room := w.graph.clients[c].room;
    LeftHasShape(w.graph, c, room);
    LeftKeeps(w.graph, c);
    ShapeStates(w, c, room, IndexOf(w.graph.rooms[room].seats, c), Left(w.graph, c));
  }

  lemma LeavesKeeps(w: World, c: Client)
    requires Inv(w) && Sits(w, c)
    ensures Inv(Leaves(w, c)) <==> !(HasGame(w, c) && Outlives(w, c))
    ensures c in Leaves(w, c).graph.clients && Leaves(w, c).graph.clients[c].room == null
  {
    LeavesRooms(w, c);
    LeavesStates(w, c);
    LeftKeeps(w.graph, c);
  }

  /** A client in no room can be forgotten, or marked, without a trace. */
  lemma GoneKeepsWorld(w: World, c: Client)
    requires c in w.graph.clients && w.graph.clients[c].room == null
    requires Membership.Inv(w.graph) && StatesOk(w)
    ensures Inv(Gone(w, c)) <==> RoomsOk(w)
    ensures Inv(Marked(w, c)) <==> RoomsOk(w)
  {
    hide RoomsOk, Membership.Inv;
    GoneKeeps(w.graph, c);
    SeatsUntouched(w.graph, Marked(w, c).graph);
    assert RoomsOk(Gone(w, c)) <==> RoomsOk(w) by { SameRooms(w, Gone(w, c)); }
    assert RoomsOk(Marked(w, c)) <==> RoomsOk(w) by { SameRooms(w, Marked(w, c)); }
    assert StatesOk(Gone(w, c));
    assert StatesOk(Marked(w, c));
  }

  lemma SameRooms(w: World, w': World)
    requires w'.graph.rooms == w.graph.rooms && w'.games == w.games
    ensures RoomsOk(w') <==> RoomsOk(w)
  {
    if RoomsOk(w) {
      forall r | r in w'.graph.rooms ensures RoomOk(w', r) { assert RoomOk(w, r); }
    }
    if RoomsOk(w') {
      forall r | r in w.graph.rooms ensures RoomOk(w, r) { assert RoomOk(w', r); }
    }
  }

  // ---- the end of a connection ----

  lemma RemovedPlays(r: Room, s: Seating, s': Seating, g: GameState<Client>, c: Client, i: int)
    requires Plays(r, s, g) && g.phase == Playing && |g.players| >= 2
    requires SeatedOnce(s.seats) && 0 <= i < |s.seats| && s.seats[i] == c
    requires s'.seats == s.seats[i := null] && s'.state == s.state
    ensures Plays(r, s', GameModel.RemovePlayer(g, c))
  {
    MembersVacated(s.seats, i, c);
    GameInvariant.RemoveKeeps(g, c);
  }

  /** The game of those who stay, when one of its players is taken out. */
  ghost function Played(w: World, room: Room, c: Client): World
    requires room in w.games && |w.games[room].players| == |w.games[room].scores| == |w.games[room].ready|
  {
    w.(games := w.games[room := GameModel.RemovePlayer(w.games[room], c)])
  }

  lemma PlayedRoom(w: World, room: Room, c: Client, i: int, g: Graph)
    requires room in w.games && room in w.graph.rooms && RoomOk(w, room) && SeatedOnce(w.graph.rooms[room].seats)
    requires w.games[room].phase == Playing && |w.games[room].players| >= 2
    requires 0 <= i < |w.graph.rooms[room].seats| && w.graph.rooms[room].seats[i] == c
    requires LeftShape(w.graph, c, room, i, g) && room in g.rooms
    ensures RoomOk(WithGraph(Played(w, room, c), g), room)
  {
    RemovedPlays(room, w.graph.rooms[room], g.rooms[room], w.games[room], c, i);
  }

  lemma PlayedRooms(w: World, room: Room, c: Client, i: int, g: Graph)
    requires RoomsOk(w) && room in w.games && room in w.graph.rooms && SeatedOnce(w.graph.rooms[room].seats)
    requires GameInvariant.Inv(w.games[room]) && w.games[room].phase == Playing && |w.games[room].players| >= 2
    requires 0 <= i < |w.graph.rooms[room].seats| && w.graph.rooms[room].seats[i] == c
    requires LeftShape(w.graph, c, room, i, g)
    ensures RoomsOk(WithGraph(Played(w, room, c), g))
  {
    var games := Played(w, room, c).games;
    assert games.Keys == w.games.Keys;
    ShapeRooms(w, games, c, room, i, g);
    if room in g.rooms {
      PlayedRoom(w, room, c, i, g);
    }
  }

  lemma PlayedOn(w: World, room: Room, c: Client)
    requires Inv(w) && c in w.graph.clients && w.graph.clients[c].room == room && room in w.games
    requires w.games[room].phase == Playing && |w.games[room].players| >= 2
    ensures GameInvariant.Inv(w.games[room])
    ensures Inv(Leaves(Played(w, room, c), c))
    ensures c in Leaves(Played(w, room, c), c).graph.clients
    ensures Leaves(Played(w, room, c), c).graph.clients[c].room == null
  {
    LeftHasShape(w.graph, c, room);
    LeftKeeps(w.graph, c);
    assert RoomOk(w, room) && SeatingOk(room, w.graph.rooms[room]);
    var i := IndexOf(w.graph.rooms[room].seats, c);
    PlayedRooms(w, room, c, i, Left(w.graph, c));
    PlayedStates(w, room, c);
    ShapeStates(Played(w, room, c), c, room, i, Left(w.graph, c));
  }

  lemma PlayedStates(w: World, room: Room, c: Client)
    requires StatesOk(w) && room in w.games && GameInvariant.Inv(w.games[room])
    ensures StatesOk(Played(w, room, c))
  {
    var w' := Played(w, room, c);
    forall d | d in w.graph.clients ensures StateOk(w.graph.clients[d], PlayingIn(w', w.graph.clients[d].room)) {
      assert PlayingIn(w', w.graph.clients[d].room) == PlayingIn(w, w.graph.clients[d].room);
    }
  }

  lemma WaitedFor(w: World, c: Client)
    requires Inv(w) && c in w.graph.clients && PlayingIn(w, w.graph.clients[c].room)
    ensures Inv(Marked(w, c))
  {
    SeatsUntouched(w.graph, Marked(w, c).graph);
    SameRooms(w, Marked(w, c));
    assert StatesOk(Marked(w, c));
  }

  lemma InGamePlays(w: World, c: Client)
    requires StatesOk(w) && c in w.graph.clients && w.graph.clients[c].room != null
    ensures w.graph.clients[c].state == InGame <==> PlayingIn(w, w.graph.clients[c].room)
  {
    assert StateOk(w.graph.clients[c], PlayingIn(w, w.graph.clients[c].room));
  }

  lemma EnoughPlayers(w: World, c: Client)
    requires Inv(w) && HasGame(w, c) && PlaysOnWithout(w, c)
    ensures |w.games[w.graph.clients[c].room].players| >= 2
  {
    var room := w.graph.clients[c].room;
    var s := w.graph.rooms[room];
    assert RoomOk(w, room);
    RemainingBound(s.seats, Max(0, s.count), c);
  }

  lemma DropsKeeps(w: World, c: Client, marked: bool)
    requires Inv(w) && Talks(w, c)
    ensures Inv(Drops(w, c, marked)) <==> !(HasGame(w, c) && w.graph.clients[c].state != InGame && Outlives(w, c))
  {
    var link := w.graph.clients[c];
    if link.state == InGame && link.room in w.games {
      InGamePlays(w, c);
      if PlaysOnWithout(w, c) {
        EnoughPlayers(w, c);
        PlayedOn(w, link.room, c);
        GoneKeepsWorld(Leaves(Played(w, link.room, c), c), c);
      } else {
        WaitedFor(w, c);
      }
    } else {
      OutKeeps(w, c, marked);
    }
  }

  lemma OutKeeps(w: World, c: Client, marked: bool)
    requires Inv(w) && Talks(w, c) && !(w.graph.clients[c].state == InGame && w.graph.clients[c].room in w.games)
    ensures Inv(Drops(w, c, marked)) <==> !(HasGame(w, c) && Outlives(w, c))
  {
    var link := w.graph.clients[c];
    if link.room != null {
      LeavesRooms(w, c);
      LeavesStates(w, c);
      LeftKeeps(w.graph, c);
      GoneKeepsWorld(Leaves(w, c), c);
    } else {
      GoneKeepsWorld(w, c);
    }
  }

  // ---- steps that concern one room ----

  lemma OneRoomStep(w: World, w': World, room: Room)
    requires RoomsOk(w) && room in w'.graph.rooms && RoomOk(w', room)
    requires w'.graph.rooms.Keys == w.graph.rooms.Keys + {room}
    requires forall r :: r in w.graph.rooms && r != room ==> w'.graph.rooms[r] == w.graph.rooms[r]
    requires forall r :: r != room ==> (r in w'.games <==> r in w.games)
    requires forall r :: r in w.games && r != room ==> w'.games[r] == w.games[r]
    ensures RoomsOk(w')
  {
    forall r | r in w'.graph.rooms && r != room ensures RoomOk(w', r) {
      assert RoomOk(w, r);
    }
  }

  lemma CreateKeepsWorld(w: World, c: Client, room: Room)
    requires Inv(w) && Creatable(w.graph, c, room) && Talks(w, c)
    ensures Inv(w.(graph := CreateRoom(w.graph, c, room)))
  {
    CreateKeeps(w.graph, c, room);
    if IndexOf(w.graph.slots, null) < |w.graph.slots| {
      OneRoomStep(w, w.(graph := CreateRoom(w.graph, c, room)), room);
      CreateStates(w, c, room);
    }
  }

  lemma CreateStates(w: World, c: Client, room: Room)
    requires StatesOk(w) && Talks(w, c) && room !in w.games
    ensures StatesOk(w.(graph := CreateRoom(w.graph, c, room)))
  {
  }

  ghost predicate CanEnter(w: World, c: Client, room: Room?) {
    && Talks(w, c) && w.graph.clients[c].state.AtLeastLobby() && w.graph.clients[c].room == null
    && room in w.graph.rooms && w.graph.rooms[room].count < room.maxPlayers
  }

  lemma EnterIsJoin(w: World, c: Client, room: Room)
    requires Membership.Inv(w.graph) && room in w.graph.rooms && c in w.graph.clients && w.graph.clients[c].room == null
    ensures CanJoin(w.graph, room, c) <==> w.graph.rooms[room].count < room.maxPlayers
  {
    var s := w.graph.rooms[room];
    assert SeatingOk(room, s);
    if s.count < room.maxPlayers {
      var i := EmptySeatBelow(s.seats, s.count, room.maxPlayers);
      assert s.seats[i] in s.seats;
    }
  }

  lemma SeatTakenGrows(seats: seq<Client?>, i: int, c: Client)
    requires 0 <= i < |seats| && seats[i] == null
    ensures |Members(seats[i := c])| == |Members(seats)| + 1
  {
    assert seats[i := null] == seats;
    MembersSplit(seats, i, null);
    MembersSplit(seats, i, c);
  }

  lemma JoinRooms(w: World, c: Client, room: Room)
    requires RoomsOk(w) && room in w.graph.rooms && c in w.graph.clients && CanJoin(w.graph, room, c)
    ensures RoomsOk(w.(graph := AddPlayer(w.graph, room, c))) <==> room !in w.games
  {
    var s, w' := w.graph.rooms[room], w.(graph := AddPlayer(w.graph, room, c));
    IndexOfIs(s.seats, null);
    SeatTakenGrows(s.seats, IndexOf(s.seats, null), c);
    assert RoomOk(w, room);
    if room in w.games {
      assert !RoomOk(w', room);
    } else {
      OneRoomStep(w, w', room);
    }
  }

  lemma JoinStates(w: World, c: Client, room: Room)
    requires StatesOk(w) && room in w.graph.rooms && Talks(w, c) && CanJoin(w.graph, room, c) && room !in w.games
    ensures StatesOk(w.(graph := AddPlayer(w.graph, room, c)))
  {
  }

  lemma JoinKeepsWorld(w: World, c: Client, room: Room)
    requires Inv(w) && room in w.graph.rooms && Talks(w, c) && w.graph.clients[c].room == null
    ensures Inv(w.(graph := AddPlayer(w.graph, room, c)))
            <==> !(w.graph.rooms[room].count < room.maxPlayers && room in w.games)
  {
    EnterIsJoin(w, c, room);
    AddKeeps(w.graph, room, c);
    if CanJoin(w.graph, room, c) {
      JoinRooms(w, c, room);
      if room !in w.games {
        JoinStates(w, c, room);
      }
    }
  }

  // ---- the steps of a game ----

  lemma DenseRoster(r: Room, s: Seating)
    requires SeatingOk(r, s) && s.count >= r.maxPlayers
    ensures 2 <= s.count <= |s.seats|
    ensures Members(s.seats[..s.count]) == Members(s.seats) && |Members(s.seats)| == s.count
    ensures Distinct(Members(s.seats))
    ensures forall c: Client :: c in s.seats <==> c in s.seats[..s.count]
  {
    FullRoomIsDense(s.seats, s.count, r.maxPlayers);
    MembersOfDense(s.seats, s.count);
    MembersCount(s.seats);
    MembersDistinct(s.seats);
  }

  lemma StartedPlays(r: Room, s: Seating, game: Game<Client>, values: seq<int>)
    requires SeatingOk(r, s) && s.count >= r.maxPlayers && s.state != RoomPlaying
    requires FromDeck(values, r.boardSize)
    ensures s.count <= |s.seats|
    ensures Plays(r, s.(game := game), Dealt(r.boardSize, values, Members(s.seats[..s.count])))
  {
    DenseRoster(r, s);
    GameInvariant.DealtOk(r.boardSize, values, Members(s.seats));
  }

  lemma StartRoom(w: World, room: Room, game: Game<Client>, values: seq<int>)
    requires room in w.graph.rooms && RoomOk(w, room) && room !in w.games && SeatingOk(room, w.graph.rooms[room])
    requires w.graph.rooms[room].count >= room.maxPlayers
    requires FromDeck(values, room.boardSize)
    ensures RoomOk(Starts(w, room, game, values), room)
  {
    StartedPlays(room, w.graph.rooms[room], game, values);
  }

  lemma StartStates(w: World, room: Room, game: Game<Client>, values: seq<int>)
    requires StatesOk(w) && room in w.graph.rooms && room !in w.games
    ensures StatesOk(Starts(w, room, game, values))
  {
    var w' := Starts(w, room, game, values);
    forall d | d in w.graph.clients ensures StateOk(w.graph.clients[d], PlayingIn(w', w.graph.clients[d].room)) {
      assert StateOk(w.graph.clients[d], PlayingIn(w, w.graph.clients[d].room));
    }
  }

  lemma StartRooms(w: World, room: Room, game: Game<Client>, values: seq<int>)
    requires RoomsOk(w) && room in w.graph.rooms && room !in w.games && SeatingOk(room, w.graph.rooms[room])
    requires w.graph.rooms[room].count >= room.maxPlayers && FromDeck(values, room.boardSize)
    ensures RoomsOk(Starts(w, room, game, values))
  {
    StartRoom(w, room, game, values);
    OneRoomStep(w, Starts(w, room, game, values), room);
  }

  lemma StartKeepsWorld(w: World, room: Room, game: Game<Client>, values: seq<int>)
    requires Inv(w) && room in w.graph.rooms && room !in w.games
    requires w.graph.rooms[room].count >= room.maxPlayers && FromDeck(values, room.boardSize)
    ensures Inv(Starts(w, room, game, values))
  {
    WithGameKeeps(w.graph, room, game);
    assert SeatingOk(room, w.graph.rooms[room]);
    StartRooms(w, room, game, values);
    StartStates(w, room, game, values);
  }

  /** What the game's next state must be for the room to be in order. */
  ghost predicate NextOk(r: Room, s: Seating, g: GameState<Client>, g': GameState<Client>) {
    && Plays(r, if g.phase == Waiting && g'.phase == Playing then s.(state := RoomPlaying) else s, g')
    && (g'.phase == g.phase || (g.phase == Waiting && g'.phase == Playing))
  }

  lemma ReadyPlays(r: Room, s: Seating, g: GameState<Client>, c: Client)
    requires Plays(r, s, g)
    ensures NextOk(r, s, g, HandleReady(g, c))
  {
    GameInvariant.InvIndexable(g);
    GameInvariant.StepKeeps(g, GameModel.Ready(c));
  }

  lemma AdvancedRooms(w: World, room: Room, g: GameState<Client>)
    requires RoomsOk(w) && room in w.graph.rooms && room in w.games
    requires w.graph.rooms[room].game != null && NextOk(room, w.graph.rooms[room], w.games[room], g)
    ensures RoomsOk(Advanced(w, room, g))
  {
    OneRoomStep(w, Advanced(w, room, g), room);
  }

  lemma BegunStates(w: World, room: Room, g: GameState<Client>)
    requires StatesOk(w) && room in w.games && w.games[room].phase == Waiting && g.phase == Playing
    requires SeatsLinked(w.graph) && LinksSeated(w.graph) && room in w.graph.rooms
    requires forall c: Client :: c in w.graph.rooms[room].seats <==> c in Counted(w.graph.rooms[room])
    ensures StatesOk(World(Begun(w.graph, room), w.games[room := g]))
  {
    var w' := World(Begun(w.graph, room), w.games[room := g]);
    forall d | d in w'.graph.clients ensures StateOk(w'.graph.clients[d], PlayingIn(w', w'.graph.clients[d].room)) {
      assert StateOk(w.graph.clients[d], PlayingIn(w, w.graph.clients[d].room));
    }
  }

  lemma SamePhaseStates(w: World, room: Room, g: GameState<Client>)
    requires StatesOk(w) && room in w.games && w.games[room].phase == g.phase
    ensures StatesOk(w.(games := w.games[room := g]))
  {
    var w' := w.(games := w.games[room := g]);
    forall d | d in w.graph.clients ensures StateOk(w.graph.clients[d], PlayingIn(w', w.graph.clients[d].room)) {
      assert StateOk(w.graph.clients[d], PlayingIn(w, w.graph.clients[d].room));
    }
  }

  lemma AdvancedStates(w: World, room: Room, g: GameState<Client>)
    requires StatesOk(w) && room in w.graph.rooms && room in w.games
    requires SeatsLinked(w.graph) && LinksSeated(w.graph) && SeatingOk(room, w.graph.rooms[room])
    requires Plays(room, w.graph.rooms[room], w.games[room]) && NextOk(room, w.graph.rooms[room], w.games[room], g)
    ensures StatesOk(Advanced(w, room, g))
  {
    if w.games[room].phase == Waiting && g.phase == Playing {
      DenseRoster(room, w.graph.rooms[room]);
      BegunStates(w, room, g);
    } else {
      SamePhaseStates(w, room, g);
    }
  }

  lemma AdvancedKeepsWorld(w: World, room: Room, g: GameState<Client>)
    requires Inv(w) && room in w.graph.rooms && room in w.games
    requires NextOk(room, w.graph.rooms[room], w.games[room], g)
    ensures Inv(Advanced(w, room, g))
  {
    assert RoomOk(w, room) && SeatingOk(room, w.graph.rooms[room]);
    BegunKeeps(w.graph, room);
    AdvancedRooms(w, room, g);
    AdvancedStates(w, room, g);
  }

  lemma ReadyKeepsWorld(w: World, room: Room, c: Client)
    requires Inv(w) && room in w.graph.rooms && room in w.games && GameInvariant.Inv(w.games[room])
    ensures Inv(Readies(w, room, c))
  {
    assert RoomOk(w, room);
    ReadyPlays(room, w.graph.rooms[room], w.games[room], c);
    AdvancedKeepsWorld(w, room, HandleReady(w.games[room], c));
  }

  lemma FlipPlays(r: Room, s: Seating, g: GameState<Client>, c: Client, card: int)
    requires Plays(r, s, g) && Indexable(g) && HandleFlip(g, c, card).phase != Finished
    ensures NextOk(r, s, g, HandleFlip(g, c, card))
  {
    GameInvariant.HandleFlipKeeps(g, c, card);
    GameInvariant.FlipTurns(g, c, card);
  }

  // ---- the end of a room ----

  lemma DestroyedRooms(w: World, room: Room, leaver: Client)
    requires RoomsOk(w) && room in w.graph.rooms
    ensures RoomsOk(WithGraph(w, Destroy(w.graph, room, w.graph.rooms[room].seats, leaver)))
  {
    var w' := WithGraph(w, Destroy(w.graph, room, w.graph.rooms[room].seats, leaver));
    forall r | r in w'.graph.rooms ensures RoomOk(w', r) {
      assert RoomOk(w, r);
    }
  }

  lemma DestroyedStates(w: World, room: Room, leaver: Client)
    requires StatesOk(w) && LinksSeated(w.graph) && room in w.graph.rooms
    ensures StatesOk(WithGraph(w, Destroy(w.graph, room, w.graph.rooms[room].seats, leaver)))
  {
    var w' := WithGraph(w, Destroy(w.graph, room, w.graph.rooms[room].seats, leaver));
    forall d | d in w'.graph.clients ensures StateOk(w'.graph.clients[d], PlayingIn(w', w'.graph.clients[d].room)) {
      assert StateOk(w.graph.clients[d], PlayingIn(w, w.graph.clients[d].room));
    }
  }

  lemma DestroyedKeepsWorld(w: World, room: Room, leaver: Client)
    requires Inv(w) && room in w.graph.rooms && leaver in w.graph.rooms[room].seats
    ensures Inv(WithGraph(w, Destroy(w.graph, room, w.graph.rooms[room].seats, leaver)))
  {
    DestroyKeeps(w.graph, room, w.graph.rooms[room].seats, leaver);
    DestroyedRooms(w, room, leaver);
    DestroyedStates(w, room, leaver);
  }

  lemma FlipKeepsWorld(w: World, room: Room, c: Client, card: int)
    requires Inv(w) && room in w.graph.rooms && room in w.games && Indexable(w.games[room])
    ensures Inv(Flips(w, room, c, card))
  {
    assert RoomOk(w, room) && SeatingOk(room, w.graph.rooms[room]);
    if HandleFlip(w.games[room], c, card).phase == Finished {
      DestroyedKeepsWorld(w, room, w.graph.rooms[room].owner);
    } else {
      FlipPlays(room, w.graph.rooms[room], w.games[room], c, card);
      AdvancedKeepsWorld(w, room, HandleFlip(w.games[room], c, card));
    }
  }

  lemma ExpiresKeeps(w: World, c: Client)
    requires Inv(w) && c in w.graph.clients && w.graph.clients[c].disconnected
    ensures Inv(Expires(w, c)) && c !in Expires(w, c).graph.clients
  {
    var room := w.graph.clients[c].room;
    assert StateOk(w.graph.clients[c], PlayingIn(w, room));
    if room != null {
      assert room in w.graph.rooms && room in w.games && c in w.graph.rooms[room].seats;
      DestroyedKeepsWorld(w, room, c);
      GoneKeepsWorld(WithGraph(w, Destroy(w.graph, room, w.graph.rooms[room].seats, c)), c);
    } else {
      GoneKeepsWorld(w, c);
    }
  }

  // ---- reconnecting ----

  lemma SubstitutedPlays(r: Room, s: Seating, s': Seating, g: GameState<Client>, o: Client, n: Client)
    requires Plays(r, s, g) && n !in s.seats && s' == s.(seats := Reseated(s.seats, s.count, o, n))
    requires forall i :: 0 <= i < |s.seats| && s.seats[i] == o ==> i < s.count
    ensures Plays(r, s', g.(players := Substituted(g.players, o, n)))
  {
    MembersSubstituted(s.seats, s'.seats, o, n);
    MembersIn(s.seats, n);
  }

  lemma ReconnectedRooms(w: World, o: Client, n: Client)
    requires RoomsOk(w) && o in w.graph.clients && Transferable(w.graph, o)
    requires forall r :: r in w.graph.rooms ==> n !in w.graph.rooms[r].seats && SeatedOnce(w.graph.rooms[r].seats)
    requires w.graph.clients[o].room in w.graph.rooms ==> o in w.graph.rooms[w.graph.clients[o].room].seats
    ensures RoomsOk(Reconnected(w, o, n))
  {
    var room, w' := w.graph.clients[o].room, Reconnected(w, o, n);
    if room in w.graph.rooms {
      var s := w.graph.rooms[room];
      assert RoomOk(w, room);
      if room in w.games {
        OnlySeat(s.seats, o);
        SubstitutedPlays(room, s, w'.graph.rooms[room], w.games[room], o, n);
      }
      OneRoomStep(w, w', room);
    } else {
      SameRooms(w, w');
    }
  }

  lemma OnlySeat(seats: seq<Client?>, o: Client)
    requires SeatedOnce(seats) && o in seats
    ensures forall i :: 0 <= i < |seats| && seats[i] == o ==> i == IndexOf(seats, o)
  {
    IndexOfIs(seats, o);
  }

  lemma ReconnectedStates(w: World, o: Client, n: Client)
    requires StatesOk(w) && o in w.graph.clients
    ensures StatesOk(Reconnected(w, o, n))
  {
    var w' := Reconnected(w, o, n);
    forall d | d in w'.graph.clients ensures StateOk(w'.graph.clients[d], PlayingIn(w', w'.graph.clients[d].room)) {
      if d == n {
        assert StateOk(w.graph.clients[o], PlayingIn(w, w.graph.clients[o].room));
      } else {
        assert StateOk(w.graph.clients[d], PlayingIn(w, w.graph.clients[d].room));
      }
    }
  }

  lemma ReconnectKeepsWorld(w: World, o: Client, n: Client)
    requires Inv(w) && o in w.graph.clients && Talks(w, n) && o != n
    ensures Inv(Reconnected(w, o, n)) <==> w.graph.clients[n].room == null && Transferable(w.graph, o)
  {
    ReconnectKeepsExactlyWhen(w.graph, o, n);
    if w.graph.clients[n].room == null && Transferable(w.graph, o) {
      forall r | r in w.graph.rooms ensures n !in w.graph.rooms[r].seats && SeatedOnce(w.graph.rooms[r].seats) {
        assert SeatingOk(r, w.graph.rooms[r]);
      }
      ReconnectedRooms(w, o, n);
      ReconnectedStates(w, o, n);
    }
  }

  // ---- every step, and whole runs ----

  /** The steps the server does not get right: somebody leaves a room whose game goes on without being taken out of
      the game, or sits down in a room that plays; somebody comes back that sits in a room already, or as the owner of
      its room, or to a seat the scan misses; a new connection drives out a client whose seat is kept. */
  ghost predicate Harmless(w: World, e: Event)
    requires Inv(w)
  {
    match e
    case Leave(c) => !(Talks(w, c) && HasGame(w, c) && Outlives(w, c))
    case Drop(c) => !(Talks(w, c) && HasGame(w, c) && w.graph.clients[c].state != InGame && Outlives(w, c))
    case Silence(c) => !(Talks(w, c) && HasGame(w, c) && w.graph.clients[c].state != InGame && Outlives(w, c))
    case Join(c, id) => !(CanEnter(w, c, RoomById(w.graph, id)) && RoomById(w.graph, id) in w.games)
    case Reconnect(o, n) => Reconnects(w, o, n) ==> w.graph.clients[n].room == null && Transferable(w.graph, o)
    case Connect(c, evicted) => Evicts(w, c, evicted) ==> w.graph.clients[evicted].room == null
    case _ => true
  }

  /** A step keeps the server in order exactly when it is none of those. */
  lemma StepKeepsExactlyWhen(w: World, e: Event)
    requires Inv(w)
    ensures Inv(Step(w, e)) <==> Harmless(w, e)
  {
    hide Membership.Inv, StatesOk, RoomOk, OnConnect, OnCreate, OnJoin, OnStartGame, OnReady, OnFlip, Drops, Expires;
    hide Reconnected;
    match e
    case Create(c, room) => CreateStep(w, c, room);
    case Join(c, id) => JoinStep(w, c, id);
    case Leave(c) => if Talks(w, c) && Sits(w, c) { LeavesKeeps(w, c); }
    case StartGame(c, game, values) => StartStep(w, c, game, values);
    case Ready(c) => ReadyStep(w, c);
    case Flip(c, card) => FlipStep(w, c, card);
    case Drop(c) => if Talks(w, c) { DropsKeeps(w, c, false); }
    case Silence(c) => if Talks(w, c) { DropsKeeps(w, c, true); }
    case Expire(c) => if c in w.graph.clients && w.graph.clients[c].disconnected { ExpiresKeeps(w, c); }
    case Reconnect(o, n) => if Reconnects(w, o, n) { ReconnectKeepsWorld(w, o, n); }
    case Connect(c, evicted) => ConnectStep(w, c, evicted);
    case Hello(c) => ArrivalKeeps(w, Membership.Hello(c));
  }

  lemma CreateStep(w: World, c: Client, room: Room)
    requires Inv(w)
    ensures Inv(OnCreate(w, c, room))
  {
    if Talks(w, c) && Creatable(w.graph, c, room) {
      CreateKeepsWorld(w, c, room);
    }
  }

  lemma JoinStep(w: World, c: Client, id: int)
    requires Inv(w)
    ensures Inv(OnJoin(w, c, id)) <==> Harmless(w, Event.Join(c, id))
  {
    var room := RoomById(w.graph, id);
    if Talks(w, c) && w.graph.clients[c].state.AtLeastLobby() && w.graph.clients[c].room == null && room != null {
      JoinKeepsWorld(w, c, room);
    }
  }

  lemma StartStep(w: World, c: Client, game: Game<Client>, values: seq<int>)
    requires Inv(w)
    ensures Inv(OnStartGame(w, c, game, values))
  {
    if Startable(w, c, values) {
      var room := w.graph.clients[c].room as Room;
      assert room !in w.games by { assert RoomOk(w, room); }
      StartKeepsWorld(w, room, game, values);
    }
  }

  lemma ReadyStep(w: World, c: Client)
    requires Inv(w)
    ensures Inv(OnReady(w, c))
  {
    if Talks(w, c) && HasGame(w, c) {
      GameOk(w, c);
      ReadyKeepsWorld(w, w.graph.clients[c].room, c);
    }
  }

  lemma FlipStep(w: World, c: Client, card: int)
    requires Inv(w)
    ensures Inv(OnFlip(w, c, card))
  {
    if Talks(w, c) && HasGame(w, c) {
      GameOk(w, c);
      FlipKeepsWorld(w, w.graph.clients[c].room, c, card);
    }
  }

  /** A client arrives, or gives its name. */
  lemma ArrivalKeeps(w: World, e: Membership.Event)
    requires Inv(w) && (e.Connect? || e.Hello?)
    ensures Inv(w.(graph := Membership.Step(w.graph, e)))
  {
    var w' := w.(graph := Membership.Step(w.graph, e));
    Membership.StepKeeps(w.graph, e);
    ArrivalGraph(w.graph, e);
    SameRooms(w, w');
    ArrivalStates(w, w');
  }

  /** Whoever is driven out of a room stays behind in its seat, as a client nobody knows. */
  lemma SeatOrphaned(w: World, c: Client, evicted: Client)
    requires Inv(w) && Evicts(w, c, evicted) && w.graph.clients[evicted].room != null
    ensures !Inv(Welcomed(Gone(w, evicted), c))
  {
    var room, w' := w.graph.clients[evicted].room, Welcomed(Gone(w, evicted), c);
    assert evicted in w.graph.rooms[room].seats && w'.graph.rooms == w.graph.rooms;
    assert evicted !in w'.graph.clients;
    assert !SeatsLinked(w'.graph);
  }

  lemma ConnectStep(w: World, c: Client, evicted: Client?)
    requires Inv(w)
    ensures Inv(OnConnect(w, c, evicted)) <==> Harmless(w, Event.Connect(c, evicted))
  {
    if !Evicts(w, c, evicted) {
      ArrivalKeeps(w, Membership.Connect(c));
    } else if w.graph.clients[evicted].room == null {
      GoneKeepsWorld(w, evicted);
      SameRooms(w, Gone(w, evicted));
      ArrivalKeeps(Gone(w, evicted), Membership.Connect(c));
    } else {
      SeatOrphaned(w, c, evicted);
    }
  }

  ghost predicate Arrived(g: Graph, g': Graph) {
    && g'.rooms == g.rooms
    && forall d :: d in g'.clients ==>
                     if d !in g.clients then g'.clients[d].room == null
                     else
                       || g'.clients[d] == g.clients[d]
                       || (g.clients[d].state == Connected && g'.clients[d] == g.clients[d].(state := InLobby))
  }

  lemma ArrivalGraph(g: Graph, e: Membership.Event)
    requires Membership.Inv(g) && (e.Connect? || e.Hello?)
    ensures Arrived(g, Membership.Step(g, e))
  {
  }

  lemma ArrivalStates(w: World, w': World)
    requires StatesOk(w) && Arrived(w.graph, w'.graph) && w'.games == w.games
    ensures StatesOk(w')
  {
    forall d | d in w'.graph.clients ensures StateOk(w'.graph.clients[d], PlayingIn(w', w'.graph.clients[d].room)) {
      if d in w.graph.clients {
        assert StateOk(w.graph.clients[d], PlayingIn(w, w.graph.clients[d].room));
      }
    }
  }

  /** The server after a run of steps; the harmful ones do not happen. */
  ghost function Run(maxRooms: nat, es: seq<Event>): (w: World)
    ensures Inv(w)
    decreases |es|
  {
    if es == [] then World(Empty(maxRooms), map[])
    else
      var before, e := Run(maxRooms, es[..|es| - 1]), es[|es| - 1];
      StepKeepsExactlyWhen(before, e);
      if Harmless(before, e) then Step(before, e) else before
  }

  lemma RunNext(maxRooms: nat, es: seq<Event>, e: Event)
    ensures var w := Run(maxRooms, es);
            Run(maxRooms, es + [e]) == if Harmless(w, e) then Step(w, e) else w
  {
    assert (es + [e])[..|es|] == es;
  }

  /** After any run, in every room that has a game: its players are the members in seat order, so the turn is with a
      member, and while it is played all members are in the game, and nobody is waited for anywhere else. */
  lemma ReachableServer(maxRooms: nat, es: seq<Event>, r: Room)
    requires r in Run(maxRooms, es).games
    ensures var w := Run(maxRooms, es);
            && r in w.graph.rooms && GameInvariant.Inv(w.games[r])
            && w.games[r].players == Members(w.graph.rooms[r].seats)
            && |w.games[r].players| == w.graph.rooms[r].count
            && w.games[r].players[w.games[r].current] in w.graph.rooms[r].seats
            && (w.games[r].phase == Playing <==> w.graph.rooms[r].state == RoomPlaying)
            && (forall c :: c in w.graph.clients && w.graph.clients[c].room == r
                            ==> (w.graph.clients[c].state == InGame <==> w.games[r].phase == Playing))
  {
    var w := Run(maxRooms, es);
    var s := w.graph.rooms[r];
    assert RoomOk(w, r) && SeatingOk(r, s);
    MembersCount(s.seats);
    MembersIn(s.seats, w.games[r].players[w.games[r].current]);
    forall c | c in w.graph.clients && w.graph.clients[c].room == r
      ensures w.graph.clients[c].state == InGame <==> w.games[r].phase == Playing
    {
      InGamePlays(w, c);
    }
  }

  lemma NothingLeft(w: World, c: Client, r: Room)
    requires SeatsLinked(w.graph) && RoomsOk(w) && c !in w.graph.clients
    ensures r in w.graph.rooms ==> c !in w.graph.rooms[r].seats
    ensures r in w.games ==> c !in w.games[r].players
  {
    hide GameInvariant.Inv, Members;
    if r in w.games {
      assert w.games[r].players == Members(w.graph.rooms[r].seats) by { assert RoomOk(w, r); }
      MembersIn(w.graph.rooms[r].seats, c);
    }
  }

  lemma RoomExpires(w: World, c: Client)
    requires Inv(w) && c in w.graph.clients && w.graph.clients[c].disconnected && w.graph.clients[c].room != null
    ensures w.graph.clients[c].room in w.games && w.graph.clients[c].room !in Expires(w, c).graph.rooms
  {
    assert StateOk(w.graph.clients[c], PlayingIn(w, w.graph.clients[c].room));
  }

  /** A client that is given up on leaves no seat, no place in a game and no game behind. */
  lemma EvictionLeavesNothing(maxRooms: nat, es: seq<Event>, c: Client, r: Room)
    requires c in Run(maxRooms, es).graph.clients && Run(maxRooms, es).graph.clients[c].disconnected
    ensures var w, w' := Run(maxRooms, es), OnExpire(Run(maxRooms, es), c);
            && Inv(w') && c !in w'.graph.clients
            && (r in w'.graph.rooms ==> c !in w'.graph.rooms[r].seats)
            && (r in w'.games ==> c !in w'.games[r].players)
            && (w.graph.clients[c].room != null ==>
                  w.graph.clients[c].room in w.games && w.graph.clients[c].room !in w'.graph.rooms)
  {
    var w := Run(maxRooms, es);
    ExpiresKeeps(w, c);
    NothingLeft(Expires(w, c), c, r);
    if w.graph.clients[c].room != null {
      RoomExpires(w, c);
    }
  }
}
