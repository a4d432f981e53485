/** The steps that break the server do happen: for each kind a run, from the empty server, after which it does.
    Three clients a, b and c fill a room for three, or a and c a room for two; d stays in the lobby, and e has not
    connected yet. */
module Witnesses {
  import opened SeqFacts
  import opened GameModel
  import opened Games
  import opened Shuffle
  import opened Structs
  import opened Membership
  import opened Reconnecting
  import opened Server
  import ClientTable
  import GameInvariant

  datatype Cast = Cast(a: Client, b: Client, c: Client, d: Client, e: Client, room: Room, game: Game<Client>)

  ghost predicate Apart(p: Cast) {
    && p.a != p.b && p.a != p.c && p.a != p.d && p.a != p.e && p.b != p.c && p.b != p.d && p.b != p.e
    && p.c != p.d && p.c != p.e && p.d != p.e
    && p.room.roomId == 1 && 2 <= p.room.maxPlayers <= 4 && p.room.boardSize in {4, 6, 8}
  }

  ghost predicate Fits(p: Cast) {
    Apart(p) && p.room.maxPlayers == 3
  }

  ghost predicate FitsTwo(p: Cast) {
    Apart(p) && p.room.maxPlayers == 2
  }

  // ---- the runs ----

  function Arriving(c: Client): seq<Server.Event> {
    [Server.Connect(c, null), Server.Hello(c)]
  }

  function Gathering(p: Cast): seq<Server.Event> {
    Arriving(p.a) + Arriving(p.b) + Arriving(p.c) + Arriving(p.d)
  }

  function Sitting(p: Cast): seq<Server.Event> {
    Gathering(p) + [Server.Create(p.a, p.room)] + [Server.Join(p.b, 1)] + [Server.Join(p.c, 1)]
  }

  function Start(p: Cast): Server.Event {
    Server.StartGame(p.a, p.game, Deck(p.room.boardSize * p.room.boardSize / 2))
  }

  /** The game exists, and nobody is ready yet. */
  function Dealing(p: Cast): seq<Server.Event> {
    Sitting(p) + [Start(p)]
  }

  function AllBeingReady(p: Cast): seq<Server.Event> {
    Dealing(p) + [Server.Ready(p.a)] + [Server.Ready(p.b)] + [Server.Ready(p.c)]
  }

  function PlayingOn(p: Cast): seq<Server.Event> {
    AllBeingReady(p) + [Server.Drop(p.b)]
  }

  /** a and c have the list and a room to themselves, and c is lost. */
  function SittingInPairs(p: Cast): seq<Server.Event> {
    Arriving(p.a) + Arriving(p.c) + [Server.Create(p.a, p.room)] + [Server.Join(p.c, 1)]
  }

  function PlayingInPairs(p: Cast): seq<Server.Event> {
    SittingInPairs(p) + [Start(p)] + [Server.Ready(p.a)] + [Server.Ready(p.c)]
  }

  /** What the same run does to a list for two. */
  function Listing(p: Cast): seq<ClientTable.Event> {
    [ClientTable.Connect(p.a)] + [ClientTable.Connect(p.c)] + [ClientTable.Zombify(p.c)]
  }

  // ---- what the runs come to ----

  lemma NextConnect(maxRooms: nat, es: seq<Server.Event>, c: Client)
    ensures Server.Run(maxRooms, es + [Server.Connect(c, null)]) == OnConnect(Server.Run(maxRooms, es), c, null)
  {
    hide Server.Run;
    RunNext(maxRooms, es, Server.Connect(c, null));
  }

  lemma NextHello(maxRooms: nat, es: seq<Server.Event>, c: Client)
    ensures Server.Run(maxRooms, es + [Server.Hello(c)]) == OnHello(Server.Run(maxRooms, es), c)
  {
    hide Server.Run;
    RunNext(maxRooms, es, Server.Hello(c));
  }

  lemma NextCreate(maxRooms: nat, es: seq<Server.Event>, c: Client, room: Room)
    ensures Server.Run(maxRooms, es + [Server.Create(c, room)]) == OnCreate(Server.Run(maxRooms, es), c, room)
  {
    hide Server.Run;
    RunNext(maxRooms, es, Server.Create(c, room));
  }

  lemma StepJoin(w: World, c: Client, id: int)
    requires Server.Inv(w)
    ensures Server.Step(w, Server.Join(c, id)) == OnJoin(w, c, id)
    ensures RoomById(w.graph, id) !in w.games ==> Harmless(w, Server.Join(c, id))
  {
  }

  lemma NextJoin(maxRooms: nat, es: seq<Server.Event>, c: Client, id: int)
    requires RoomById(Server.Run(maxRooms, es).graph, id) !in Server.Run(maxRooms, es).games
    ensures Server.Run(maxRooms, es + [Server.Join(c, id)]) == OnJoin(Server.Run(maxRooms, es), c, id)
  {
    hide Server.Run, Server.Step, Harmless, OnJoin;
    RunNext(maxRooms, es, Server.Join(c, id));
    StepJoin(Server.Run(maxRooms, es), c, id);
  }

  ghost predicate Idle(w: World, c: Client) {
    c in w.graph.clients && w.graph.clients[c] == Link(null, InLobby, false)
  }

  /** Nobody has founded a room yet. */
  ghost predicate Hall(w: World, maxRooms: nat, known: set<Client>) {
    && w.graph.rooms == map[] && w.games == map[] && w.graph.nextId == 1
    && |w.graph.slots| == maxRooms && (forall i :: 0 <= i < maxRooms ==> w.graph.slots[i] == null)
    && w.graph.clients.Keys == known && (forall c :: c in known ==> Idle(w, c))
  }

  lemma Enters(w: World, maxRooms: nat, c: Client, known: set<Client>)
    requires Hall(w, maxRooms, known) && c !in known
    ensures Hall(OnHello(OnConnect(w, c, null), c), maxRooms, known + {c})
  {
  }

  lemma Arrives(maxRooms: nat, es: seq<Server.Event>, c: Client, known: set<Client>)
    requires Hall(Server.Run(maxRooms, es), maxRooms, known) && c !in known
    ensures Hall(Server.Run(maxRooms, es + Arriving(c)), maxRooms, known + {c})
  {
    hide Server.Run;
    NextConnect(maxRooms, es, c);
    NextHello(maxRooms, es + [Server.Connect(c, null)], c);
    assert es + Arriving(c) == es + [Server.Connect(c, null)] + [Server.Hello(c)];
    Enters(Server.Run(maxRooms, es), maxRooms, c, known);
  }

  lemma FirstArrives(maxRooms: nat, c: Client)
    ensures Hall(Server.Run(maxRooms, Arriving(c)), maxRooms, {c})
  {
    assert [] + Arriving(c) == Arriving(c);
    Arrives(maxRooms, [], c, {});
  }

  lemma Gathered(maxRooms: nat, p: Cast)
    requires Fits(p)
    ensures Hall(Server.Run(maxRooms, Gathering(p)), maxRooms, {p.a, p.b, p.c, p.d})
  {
    hide Server.Run;
    FirstArrives(maxRooms, p.a);
    Arrives(maxRooms, Arriving(p.a), p.b, {p.a});
    Arrives(maxRooms, Arriving(p.a) + Arriving(p.b), p.c, {p.a} + {p.b});
    Arrives(maxRooms, Arriving(p.a) + Arriving(p.b) + Arriving(p.c), p.d, {p.a} + {p.b} + {p.c});
    assert {p.a} + {p.b} + {p.c} + {p.d} == {p.a, p.b, p.c, p.d};
  }

  /** Who sits where; whoever sits is connected. */
  ghost predicate Table(w: World, p: Cast, seats: seq<Client?>, count: int) {
    && p.room in w.graph.rooms && w.graph.rooms[p.room].owner == p.a
    && w.graph.rooms[p.room].seats == seats && w.graph.rooms[p.room].count == count
    && (forall c: Client :: c in seats ==> Talks(w, c))
    && p.e !in w.graph.clients
  }

  ghost predicate SameClients(w: World, w': World) {
    w'.graph.clients.Keys == w.graph.clients.Keys
  }

  ghost predicate Unstarted(w: World, p: Cast) {
    p.room !in w.games && p.room in w.graph.rooms && w.graph.rooms[p.room].game == null
  }

  lemma FoundedTable(w: World, maxRooms: nat, p: Cast, known: set<Client>)
    requires Apart(p) && maxRooms > 0 && Hall(w, maxRooms, known) && p.a in known && p.e !in known
    ensures var w' := OnCreate(w, p.a, p.room);
            && Table(w', p, [p.a, null, null, null], 1) && Unstarted(w', p) && SameClients(w, w')
            && forall c :: c in known && c != p.a ==> Idle(w', c)
  {
    IndexOfIs(w.graph.slots, null);
    assert w.graph.slots[0] == null;
  }

  lemma Founds(maxRooms: nat, es: seq<Server.Event>, p: Cast, known: set<Client>)
    requires Apart(p) && maxRooms > 0 && Hall(Server.Run(maxRooms, es), maxRooms, known)
    requires p.a in known && p.e !in known
    ensures var w, w' := Server.Run(maxRooms, es), Server.Run(maxRooms, es + [Server.Create(p.a, p.room)]);
            && Table(w', p, [p.a, null, null, null], 1) && Unstarted(w', p) && SameClients(w, w')
            && forall c :: c in known && c != p.a ==> Idle(w', c)
  {
    hide Server.Run;
    NextCreate(maxRooms, es, p.a, p.room);
    FoundedTable(Server.Run(maxRooms, es), maxRooms, p, known);
  }

  /** The room is full, and d is in the lobby. */
  ghost predicate Full(w: World, p: Cast) {
    Table(w, p, [p.a, p.b, p.c, null], 3) && Idle(w, p.d)
  }

  /** The first free seat. */
  ghost predicate FreeFor(seats: seq<Client?>, count: nat, c: Client) {
    |seats| == 4 && Structs.FirstFree(seats, count) && c !in seats
  }

  lemma EnteredTable(w: World, p: Cast, seats: seq<Client?>, count: nat, c: Client)
    requires Table(w, p, seats, count) && Unstarted(w, p) && Idle(w, c)
    requires Apart(p) && count < p.room.maxPlayers && FreeFor(seats, count, c)
    requires RoomById(w.graph, 1) == p.room
    ensures var w' := OnJoin(w, c, 1);
            && Table(w', p, seats[count := c], count + 1) && Unstarted(w', p) && SameClients(w, w')
            && forall d :: d != c && Idle(w, d) ==> Idle(w', d)
  {
    assert seats[count] in seats;
    FirstIndex(seats, null, count);
    var w' := OnJoin(w, c, 1);
    forall d: Client | d in seats[count := c] ensures Talks(w', d) {
      SeatTaken(seats, count, c, d);
      assert d in seats ==> Talks(w, d);
    }
  }

  lemma TheRoom(w: World, p: Cast)
    requires Server.Inv(w) && p.room in w.graph.rooms && Apart(p)
    ensures RoomById(w.graph, 1) == p.room
  {
  }

  /** The next one sits down in the first seat nobody has taken. */
  lemma SitsDown(maxRooms: nat, es: seq<Server.Event>, p: Cast, seats: seq<Client?>, count: nat, c: Client)
    requires var w := Server.Run(maxRooms, es); Table(w, p, seats, count) && Unstarted(w, p) && Idle(w, c)
    requires Apart(p) && count < p.room.maxPlayers && FreeFor(seats, count, c)
    ensures var w, w' := Server.Run(maxRooms, es), Server.Run(maxRooms, es + [Server.Join(c, 1)]);
            && Table(w', p, seats[count := c], count + 1) && Unstarted(w', p) && SameClients(w, w')
            && forall d :: d != c && Idle(w, d) ==> Idle(w', d)
  {
    hide Server.Run;
    TheRoom(Server.Run(maxRooms, es), p);
    NextJoin(maxRooms, es, c, 1);
    EnteredTable(Server.Run(maxRooms, es), p, seats, count, c);
  }

  lemma OneSits(p: Cast)
    requires Fits(p)
    ensures FreeFor([p.a, null, null, null], 1, p.b)
    ensures [p.a, null, null, null][1 := p.b] == [p.a, p.b, null, null]
  {
  }

  lemma TwoSit(p: Cast)
    requires Fits(p)
    ensures FreeFor([p.a, p.b, null, null], 2, p.c)
    ensures [p.a, p.b, null, null][2 := p.c] == [p.a, p.b, p.c, null]
  {
  }

  lemma Sat(maxRooms: nat, p: Cast)
    requires Fits(p) && maxRooms > 0
    ensures var w := Server.Run(maxRooms, Sitting(p));
            Full(w, p) && Unstarted(w, p)
  {
    var es := Gathering(p) + [Server.Create(p.a, p.room)];
    hide Server.Run;
    Gathered(maxRooms, p);
    Founds(maxRooms, Gathering(p), p, {p.a, p.b, p.c, p.d});
    OneSits(p);
    SitsDown(maxRooms, es, p, [p.a, null, null, null], 1, p.b);
    LastSitsDown(maxRooms, es + [Server.Join(p.b, 1)], p);
  }

  lemma LastSitsDown(maxRooms: nat, es: seq<Server.Event>, p: Cast)
    requires Fits(p)
    requires var w := Server.Run(maxRooms, es);
             Table(w, p, [p.a, p.b, null, null], 2) && Unstarted(w, p) && Idle(w, p.c) && Idle(w, p.d)
    ensures var w := Server.Run(maxRooms, es + [Server.Join(p.c, 1)]);
            Full(w, p) && Unstarted(w, p)
  {
    hide Server.Run;
    TwoSit(p);
    SitsDown(maxRooms, es, p, [p.a, p.b, null, null], 2, p.c);
  }

  // ---- the game ----

  /** The game waits for those that are not ready. */
  ghost predicate Awaits(w: World, p: Cast, readied: set<Client>) {
    p.room in w.games && w.games[p.room].phase == Waiting && ReadyAre(w.games[p.room], readied)
  }

  ghost predicate ReadyAre(g: GameState<Client>, readied: set<Client>) {
    |g.ready| == |g.players| && forall i :: 0 <= i < |g.players| ==> (g.ready[i] <==> g.players[i] in readied)
  }

  lemma StepStart(w: World, c: Client, game: Game<Client>, values: seq<int>)
    requires Server.Inv(w)
    ensures Server.Step(w, Server.StartGame(c, game, values)) == OnStartGame(w, c, game, values)
    ensures Harmless(w, Server.StartGame(c, game, values))
  {
  }

  lemma NextStart(maxRooms: nat, es: seq<Server.Event>, c: Client, game: Game<Client>, values: seq<int>)
    ensures Server.Run(maxRooms, es + [Server.StartGame(c, game, values)])
         == OnStartGame(Server.Run(maxRooms, es), c, game, values)
  {
    hide Server.Run;
    RunNext(maxRooms, es, Server.StartGame(c, game, values));
    StepStart(Server.Run(maxRooms, es), c, game, values);
  }

  lemma StartedTable(w: World, p: Cast, seats: seq<Client?>, count: nat, values: seq<int>)
    requires Table(w, p, seats, count) && Unstarted(w, p) && count >= p.room.maxPlayers
    requires Talks(w, p.a) && w.graph.clients[p.a].room == p.room && FromDeck(values, p.room.boardSize)
    ensures var w' := OnStartGame(w, p.a, p.game, values);
            && Table(w', p, seats, count) && Awaits(w', p, {}) && SameClients(w, w')
            && forall d :: Idle(w, d) ==> Idle(w', d)
  {
  }

  lemma WholeDeck(boardSize: int)
    requires boardSize in {4, 6, 8}
    ensures boardSize * boardSize / 2 >= 0 && FromDeck(Deck(boardSize * boardSize / 2), boardSize)
  {
  }

  lemma SeatedHere(w: World, p: Cast, seats: seq<Client?>, count: nat, c: Client)
    requires Server.Inv(w) && Table(w, p, seats, count) && c in seats
    ensures Talks(w, c) && w.graph.clients[c].room == p.room
  {
  }

  lemma StartsTable(maxRooms: nat, es: seq<Server.Event>, p: Cast, seats: seq<Client?>, count: nat)
    requires var w := Server.Run(maxRooms, es); Table(w, p, seats, count) && Unstarted(w, p)
    requires Apart(p) && p.a in seats && count >= p.room.maxPlayers
    ensures var w, w' := Server.Run(maxRooms, es), Server.Run(maxRooms, es + [Start(p)]);
            && Table(w', p, seats, count) && Awaits(w', p, {}) && SameClients(w, w')
            && forall d :: Idle(w, d) ==> Idle(w', d)
  {
    var w := Server.Run(maxRooms, es);
    SeatedHere(w, p, seats, count, p.a);
    WholeDeck(p.room.boardSize);
    var values := Deck(p.room.boardSize * p.room.boardSize / 2);
    hide Server.Run, Table, Awaits, Idle, OnStartGame, FromDeck, Deck;
    NextStart(maxRooms, es, p.a, p.game, values);
    StartedTable(w, p, seats, count, values);
  }

  /** Those who sit at the table are connected. */
  lemma AtTable(w: World, p: Cast)
    requires Table(w, p, [p.a, p.b, p.c, null], 3)
    ensures Talks(w, p.a) && Talks(w, p.b) && Talks(w, p.c)
  {
    var seats := [p.a, p.b, p.c, null];
    assert seats[0] in seats && seats[1] in seats && seats[2] in seats;
  }

  lemma IsDealt(maxRooms: nat, p: Cast)
    requires Fits(p) && maxRooms > 0
    ensures var w := Server.Run(maxRooms, Dealing(p));
            Full(w, p) && Awaits(w, p, {})
  {
    hide Server.Run;
    Sat(maxRooms, p);
    StartsTable(maxRooms, Sitting(p), p, [p.a, p.b, p.c, null], 3);
  }

  lemma ReadyGrows(g: GameState<Client>, who: Client, readied: set<Client>)
    requires g.phase == Waiting && Distinct(g.players) && ReadyAre(g, readied) && who in g.players
    ensures var r := HandleReady(g, who);
            if (forall i :: 0 <= i < |g.players| ==> g.players[i] in readied + {who}) then r.phase == Playing
            else r.phase == Waiting && ReadyAre(r, readied + {who})
  {
    IndexOfIs(g.players, who);
    var r := PlayerReady(g, who);
    assert ReadyAre(r, readied + {who});
    forall i | 0 <= i < |g.players| ensures r.ready[i] <==> g.players[i] in readied + {who} {
    }
  }

  lemma Roster(w: World, p: Cast, seats: seq<Client?>, count: nat)
    requires Server.Inv(w) && Table(w, p, seats, count) && p.room in w.games
    ensures var g := w.games[p.room];
            && GameInvariant.Inv(g) && Distinct(g.players) && forall c :: c in g.players <==> c in seats
    ensures forall c: Client :: c in seats ==> Talks(w, c) && w.graph.clients[c].room == p.room
  {
    assert RoomOk(w, p.room) && Plays(p.room, w.graph.rooms[p.room], w.games[p.room]);
    forall c ensures c in w.games[p.room].players <==> c in seats {
      MembersIn(seats, c);
    }
  }

  lemma AdvancedTable(w: World, p: Cast, seats: seq<Client?>, count: nat, g: GameState<Client>)
    requires Table(w, p, seats, count) && p.room in w.games
    ensures var w' := Advanced(w, p.room, g);
            && Table(w', p, seats, count) && p.room in w'.games && w'.games[p.room] == g && SameClients(w, w')
            && forall d :: d !in seats && Idle(w, d) ==> Idle(w', d)
  {
    assert forall c: Client :: c in Counted(w.graph.rooms[p.room]) ==> c in seats;
  }

  ghost predicate AllIn(seats: seq<Client?>, readied: set<Client>) {
    forall c: Client :: c in seats ==> c in readied
  }

  /** How far the game is when those in the set are ready. */
  ghost predicate Begins(w: World, p: Cast, seats: seq<Client?>, readied: set<Client>) {
    if AllIn(seats, readied) then PlayingIn(w, p.room) else Awaits(w, p, readied)
  }

  lemma ReadyPlayers(g: GameState<Client>, seats: seq<Client?>, who: Client, readied: set<Client>)
    requires g.phase == Waiting && Distinct(g.players) && ReadyAre(g, readied) && who in g.players
    requires forall c :: c in g.players <==> c in seats
    ensures var r, all := HandleReady(g, who), readied + {who};
            if AllIn(seats, all) then r.phase == Playing else r.phase == Waiting && ReadyAre(r, all)
  {
    var all := readied + {who};
    ReadyGrows(g, who, readied);
    if AllIn(seats, all) {
      assert forall i :: 0 <= i < |g.players| ==> g.players[i] in g.players;
    } else {
      var c: Client :| c in seats && c !in all;
      var i :| 0 <= i < |g.players| && g.players[i] == c;
    }
  }

  lemma ReadyTable(w: World, p: Cast, seats: seq<Client?>, count: nat, who: Client, readied: set<Client>)
    requires Server.Inv(w) && Table(w, p, seats, count) && Awaits(w, p, readied) && who in seats
    ensures var w' := OnReady(w, who);
            && Table(w', p, seats, count) && Begins(w', p, seats, readied + {who}) && SameClients(w, w')
            && forall d :: d !in seats && Idle(w, d) ==> Idle(w', d)
  {
    Roster(w, p, seats, count);
    ReadyStepIs(w, p.room, who);
    AdvancedTable(w, p, seats, count, HandleReady(w.games[p.room], who));
    ReadyPlayers(w.games[p.room], seats, who, readied);
  }

  lemma StepReady(w: World, c: Client)
    requires Server.Inv(w)
    ensures Server.Step(w, Server.Ready(c)) == OnReady(w, c) && Harmless(w, Server.Ready(c))
  {
  }

  lemma BecomesReady(maxRooms: nat, es: seq<Server.Event>, p: Cast, seats: seq<Client?>, count: nat, who: Client,
                     readied: set<Client>)
    requires var w := Server.Run(maxRooms, es); Table(w, p, seats, count) && Awaits(w, p, readied)
    requires who in seats
    ensures var w, w' := Server.Run(maxRooms, es), Server.Run(maxRooms, es + [Server.Ready(who)]);
            && Table(w', p, seats, count) && Begins(w', p, seats, readied + {who}) && SameClients(w, w')
            && forall d :: d !in seats && Idle(w, d) ==> Idle(w', d)
  {
    hide Server.Run;
    RunNext(maxRooms, es, Server.Ready(who));
    StepReady(Server.Run(maxRooms, es), who);
    ReadyTable(Server.Run(maxRooms, es), p, seats, count, who, readied);
  }

  lemma ThreeSeats(p: Cast)
    requires Apart(p)
    ensures var seats := [p.a, p.b, p.c, null];
            && p.a in seats && p.b in seats && p.c in seats && p.d !in seats
            && !AllIn(seats, {p.a}) && !AllIn(seats, {p.a} + {p.b}) && AllIn(seats, {p.a} + {p.b} + {p.c})
  {
    var seats := [p.a, p.b, p.c, null];
    assert seats[0] in seats && seats[1] in seats && seats[2] in seats;
  }

  lemma TwoReady(maxRooms: nat, p: Cast)
    requires Fits(p) && maxRooms > 0
    ensures var w := Server.Run(maxRooms, Dealing(p) + [Server.Ready(p.a)] + [Server.Ready(p.b)]);
            Full(w, p) && Awaits(w, p, {p.a} + {p.b})
  {
    hide Server.Run, AllIn, Table, Awaits, Idle, SameClients;
    var es, seats := Dealing(p), [p.a, p.b, p.c, null];
    IsDealt(maxRooms, p);
    ThreeSeats(p);
    BecomesReady(maxRooms, es, p, seats, 3, p.a, {});
    assert {} + {p.a} == {p.a};
    BecomesReady(maxRooms, es + [Server.Ready(p.a)], p, seats, 3, p.b, {p.a});
  }

  lemma AllReady(maxRooms: nat, p: Cast)
    requires Fits(p) && maxRooms > 0
    ensures var w := Server.Run(maxRooms, AllBeingReady(p));
            Full(w, p) && PlayingIn(w, p.room)
  {
    hide Server.Run, AllIn;
    TwoReady(maxRooms, p);
    ThreeSeats(p);
    BecomesReady(maxRooms, Dealing(p) + [Server.Ready(p.a)] + [Server.Ready(p.b)], p, [p.a, p.b, p.c, null], 3, p.c,
                 {p.a} + {p.b});
  }

  // ---- leaving the room of a game that has not begun ----

  lemma GameOutlives(w: World, p: Cast)
    requires Fits(p) && Full(w, p) && RoomOk(w, p.room) && p.room in w.games
    requires Talks(w, p.b) && w.graph.clients[p.b].room == p.room
    ensures Outlives(w, p.b)
  {
  }

  lemma LeaverIsMissed(w: World, p: Cast)
    requires Server.Inv(w) && Fits(p) && Full(w, p) && Awaits(w, p, {})
    ensures Talks(w, p.b) && HasGame(w, p.b) && Sits(w, p.b) && Outlives(w, p.b)
    ensures w.graph.clients[p.b].state != InGame
  {
    Roster(w, p, [p.a, p.b, p.c, null], 3);
    ThreeSeats(p);
    assert RoomOk(w, p.room);
    GameOutlives(w, p);
    InGamePlays(w, p.b);
  }

  lemma Missed(w: World, c: Client)
    requires Server.Inv(w) && Talks(w, c) && HasGame(w, c) && Sits(w, c) && Outlives(w, c)
    requires w.graph.clients[c].state != InGame
    ensures !Harmless(w, Server.Leave(c)) && !Harmless(w, Server.Drop(c)) && !Harmless(w, Server.Silence(c))
  {
    hide Server.Inv, Server.Outlives;
  }

  lemma PlayerIsMissed(w: World, p: Cast)
    requires Server.Inv(w) && Fits(p) && Full(w, p) && PlayingIn(w, p.room)
    ensures Talks(w, p.b) && HasGame(w, p.b) && Outlives(w, p.b)
  {
    Roster(w, p, [p.a, p.b, p.c, null], 3);
    ThreeSeats(p);
    assert RoomOk(w, p.room);
    GameOutlives(w, p);
  }

  /** Nor is a player that leaves the room in the middle of the game taken out of it. */
  lemma LeavingTheGameHarms(maxRooms: nat, p: Cast)
    requires Fits(p) && maxRooms > 0
    ensures !Server.Inv(Server.Step(Server.Run(maxRooms, AllBeingReady(p)), Server.Leave(p.b)))
  {
    hide Server.Run, Server.Step, Server.Inv, Outlives, Talks, HasGame;
    var w := Server.Run(maxRooms, AllBeingReady(p));
    AllReady(maxRooms, p);
    PlayerIsMissed(w, p);
    Harms(w, Server.Leave(p.b));
  }

  /** A member that leaves, or whose connection ends, before the game begins stays in the game. */
  lemma LeavingHarms(maxRooms: nat, p: Cast)
    requires Fits(p) && maxRooms > 0
    ensures var w := Server.Run(maxRooms, Dealing(p));
            && !Server.Inv(Server.Step(w, Server.Leave(p.b)))
            && !Server.Inv(Server.Step(w, Server.Drop(p.b)))
            && !Server.Inv(Server.Step(w, Server.Silence(p.b)))
  {
    hide *;
    var w := Server.Run(maxRooms, Dealing(p));
    IsDealt(maxRooms, p);
    LeaverIsMissed(w, p);
    Missed(w, p.b);
    StepKeepsExactlyWhen(w, Server.Leave(p.b));
    StepKeepsExactlyWhen(w, Server.Drop(p.b));
    StepKeepsExactlyWhen(w, Server.Silence(p.b));
  }

  // ---- a game that goes on without b ----

  lemma QuietLeave(g: Graph, room: Room, c: Client, i: int)
    requires Seated(g, room) && c in g.clients && g.rooms[room].owner != c && g.rooms[room].count >= 3
    requires i == IndexOf(g.rooms[room].seats, c) && i < |g.rooms[room].seats|
    ensures Membership.RemovePlayer(g, room, c) == Vacate(g, room, c, i)
  {
  }

  lemma WithoutB(p: Cast)
    requires Fits(p)
    ensures IndexOf([p.a, p.b, p.c, null], p.b) == 1
    ensures [p.a, p.b, p.c, null][1 := null] == [p.a, null, p.c, null]
    ensures Remaining([p.a, p.b, p.c, null], 3, p.b) == 2
  {
    var seats := [p.a, p.b, p.c, null];
    FirstIndex(seats, p.b, 1);
    assert Remaining(seats, 1, p.b) == 1;
    assert Remaining(seats, 2, p.b) == 1;
  }

  /** a and c play on, with an empty seat between them. */
  ghost predicate Holed(w: World, p: Cast) {
    && Server.Inv(w) && PlayingIn(w, p.room)
    && Table(w, p, [p.a, null, p.c, null], 2) && Idle(w, p.d)
  }

  lemma LeftTable(w: World, p: Cast)
    requires Membership.Inv(w.graph) && Fits(p) && Full(w, p) && Talks(w, p.b) && w.graph.clients[p.b].room == p.room
    ensures var g := Left(w.graph, p.b);
            && p.room in g.rooms && g.rooms[p.room] == w.graph.rooms[p.room].(seats := [p.a, null, p.c, null],
                                                                              count := 2)
            && g.clients == w.graph.clients[p.b := Link(null, InLobby, false)]
  {
    WithoutB(p);
    InvSeated(w.graph, p.room);
    QuietLeave(w.graph, p.room, p.b, 1);
  }

  lemma PlayerDrops(w: World, p: Cast)
    requires Server.Inv(w) && Fits(p) && Full(w, p) && PlayingIn(w, p.room)
    ensures Talks(w, p.b) && w.graph.clients[p.b].state == InGame && w.graph.clients[p.b].room == p.room
  {
    hide Server.RoomsOk, Membership.Inv, GameInvariant.Inv;
    Roster(w, p, [p.a, p.b, p.c, null], 3);
    ThreeSeats(p);
    assert Talks(w, p.b);
    InGamePlays(w, p.b);
  }

  lemma TwoRemain(w: World, p: Cast)
    requires Server.Inv(w) && Fits(p) && Full(w, p) && HasGame(w, p.b) && w.graph.clients[p.b].room == p.room
    ensures PlaysOnWithout(w, p.b)
  {
    WithoutB(p);
  }

  lemma HoledTable(w: World, p: Cast, g: Graph)
    requires Fits(p) && Full(w, p) && Talks(w, p.a) && Talks(w, p.c)
    requires p.room in g.rooms && g.rooms[p.room] == w.graph.rooms[p.room].(seats := [p.a, null, p.c, null], count := 2)
    requires g.clients == w.graph.clients[p.b := Link(null, InLobby, false)] - {p.b}
    ensures Table(World(g, w.games), p, [p.a, null, p.c, null], 2) && Idle(World(g, w.games), p.d)
  {
    var seats := [p.a, null, p.c, null];
    assert forall c: Client :: c in seats ==> c == p.a || c == p.c;
  }

  /** What becomes of the table does not depend on the game. */
  lemma GoneTable(w: World, p: Cast, games: map<Room, GameState<Client>>)
    requires Membership.Inv(w.graph) && Fits(p) && Full(w, p) && Talks(w, p.b) && w.graph.clients[p.b].room == p.room
    requires p.room in games
    ensures var w' := Gone(WithGraph(w.(games := games), Left(w.graph, p.b)), p.b);
            && Table(w', p, [p.a, null, p.c, null], 2) && Idle(w', p.d)
            && p.room in w'.games && w'.games[p.room] == games[p.room]
  {
    LeftTable(w, p);
    AtTable(w, p);
    HoledTable(w, p, Gone(WithGraph(w.(games := games), Left(w.graph, p.b)), p.b).graph);
  }

  lemma DroppedTable(w: World, p: Cast)
    requires Server.Inv(w) && Fits(p) && Full(w, p) && PlayingIn(w, p.room)
    ensures Talks(w, p.b) && Holed(Drops(w, p.b, false), p)
  {
    PlayerDrops(w, p);
    TwoRemain(w, p);
    DropsKeeps(w, p.b, false);
    EnoughPlayers(w, p.b);
    GoneTable(w, p, Played(w, p.room, p.b).games);
  }

  lemma StepDrop(w: World, c: Client)
    requires Server.Inv(w) && Talks(w, c) && w.graph.clients[c].state == InGame
    ensures Server.Step(w, Server.Drop(c)) == Drops(w, c, false) && Harmless(w, Server.Drop(c))
  {
  }

  lemma PlaysOn(maxRooms: nat, p: Cast)
    requires Fits(p) && maxRooms > 0
    ensures Holed(Server.Run(maxRooms, PlayingOn(p)), p)
  {
    hide Server.Run;
    var es := AllBeingReady(p);
    var w := Server.Run(maxRooms, es);
    AllReady(maxRooms, p);
    DroppedTable(w, p);
    Roster(w, p, [p.a, p.b, p.c, null], 3);
    ThreeSeats(p);
    InGamePlays(w, p.b);
    RunNext(maxRooms, es, Server.Drop(p.b));
    StepDrop(w, p.b);
  }

  // ---- joining a game that goes on ----

  lemma SeatIsOpen(w: World, p: Cast)
    requires Fits(p) && Holed(w, p)
    ensures CanEnter(w, p.d, RoomById(w.graph, 1)) && RoomById(w.graph, 1) in w.games
  {
    hide Server.RoomsOk, Server.StatesOk;
    TheRoom(w, p);
  }

  lemma Harms(w: World, e: Server.Event)
    requires Server.Inv(w) && !Harmless(w, e)
    ensures !Server.Inv(Server.Step(w, e))
  {
    hide *;
    StepKeepsExactlyWhen(w, e);
  }

  lemma Intrudes(w: World, c: Client, id: int)
    requires Server.Inv(w) && CanEnter(w, c, RoomById(w.graph, id)) && RoomById(w.graph, id) in w.games
    ensures !Harmless(w, Server.Join(c, id))
  {
    hide Server.Inv;
  }

  /** Whoever takes the seat of a player that has gone is no player. */
  lemma JoiningHarms(maxRooms: nat, p: Cast)
    requires Fits(p) && maxRooms > 0
    ensures var w := Server.Run(maxRooms, PlayingOn(p)); !Server.Inv(Server.Step(w, Server.Join(p.d, 1)))
  {
    hide *;
    var w := Server.Run(maxRooms, PlayingOn(p));
    PlaysOn(maxRooms, p);
    SeatIsOpen(w, p);
    Intrudes(w, p.d, 1);
    Harms(w, Server.Join(p.d, 1));
  }

  // ---- one of the last two is waited for ----

  /** x is marked and keeps its seat. */
  ghost predicate Waits(w: World, p: Cast, x: Client, y: Client) {
    && p.room in w.graph.rooms && w.graph.rooms[p.room].owner == p.a
    && w.graph.rooms[p.room].seats == [p.a, null, p.c, null] && w.graph.rooms[p.room].count == 2
    && x in w.graph.clients && w.graph.clients[x].disconnected && w.graph.clients[x].room == p.room
    && Talks(w, y) && w.graph.clients[y].room == p.room
    && Idle(w, p.d) && p.e !in w.graph.clients
  }

  lemma OneRemains(p: Cast, x: Client)
    requires Fits(p) && (x == p.a || x == p.c)
    ensures Remaining([p.a, null, p.c, null], 2, x) < 2
  {
    assert Remaining([p.a, null, p.c, null], 1, x) <= 1;
  }

  lemma HoledPlayer(w: World, p: Cast, x: Client)
    requires Holed(w, p) && (x == p.a || x == p.c)
    ensures Talks(w, x) && w.graph.clients[x].room == p.room && w.graph.clients[x].state == InGame && HasGame(w, x)
  {
    hide Server.RoomsOk, GameInvariant.Inv;
    var seats := [p.a, null, p.c, null];
    assert seats[0] in seats && seats[2] in seats;
    assert x in w.graph.rooms[p.room].seats;
    InGamePlays(w, x);
  }

  lemma TooFewRemain(w: World, p: Cast, x: Client)
    requires Fits(p) && Holed(w, p) && (x == p.a || x == p.c) && HasGame(w, x) && w.graph.clients[x].room == p.room
    ensures !PlaysOnWithout(w, x)
  {
    OneRemains(p, x);
  }

  lemma WaitsAfter(w: World, p: Cast, x: Client, y: Client)
    requires Fits(p) && Holed(w, p) && ((x == p.a && y == p.c) || (x == p.c && y == p.a))
    ensures Talks(w, x) && w.graph.clients[x].state == InGame
    ensures Drops(w, x, false) == Marked(w, x) && Waits(Marked(w, x), p, x, y)
  {
    hide Server.RoomsOk, Server.StatesOk, Membership.Inv, GameInvariant.Inv;
    HoledPlayer(w, p, x);
    HoledPlayer(w, p, y);
    TooFewRemain(w, p, x);
  }

  lemma IsWaitedFor(maxRooms: nat, p: Cast, x: Client, y: Client)
    requires Fits(p) && maxRooms > 0 && ((x == p.a && y == p.c) || (x == p.c && y == p.a))
    ensures Waits(Server.Run(maxRooms, PlayingOn(p) + [Server.Drop(x)]), p, x, y)
  {
    hide *;
    var w := Server.Run(maxRooms, PlayingOn(p));
    PlaysOn(maxRooms, p);
    WaitsAfter(w, p, x, y);
    RunNext(maxRooms, PlayingOn(p), Server.Drop(x));
    StepDrop(w, x);
  }

  // ---- coming back, and being driven out ----

  lemma SeatMissed(w: World, p: Cast)
    requires Fits(p) && Waits(w, p, p.c, p.a)
    ensures Reconnects(w, p.c, p.d) && !Transferable(w.graph, p.c)
  {
    FirstIndex([p.a, null, p.c, null], p.c, 2);
  }

  lemma OwnerBack(w: World, p: Cast)
    requires Fits(p) && Waits(w, p, p.a, p.c)
    ensures Reconnects(w, p.a, p.d) && !Transferable(w.graph, p.a)
  {
  }

  lemma Mistaken(w: World, o: Client, n: Client)
    requires Server.Inv(w) && Reconnects(w, o, n) && (w.graph.clients[n].room != null || !Transferable(w.graph, o))
    ensures !Harmless(w, Server.Reconnect(o, n))
  {
    hide Server.Inv;
  }

  lemma DrivenOut(w: World, c: Client, z: Client)
    requires Server.Inv(w) && Evicts(w, c, z) && w.graph.clients[z].room != null
    ensures !Harmless(w, Server.Connect(c, z))
  {
    hide Server.Inv;
  }

  /** When c comes back the scan of two seats does not reach the third; when a does, the room is left to its old
      record; and a client that takes over from c while it sits in a room sits there twice. */
  lemma ComingBackHarms(maxRooms: nat, p: Cast)
    requires Fits(p) && maxRooms > 0
    ensures var w := Server.Run(maxRooms, PlayingOn(p) + [Server.Drop(p.c)]);
            && !Server.Inv(Server.Step(w, Server.Reconnect(p.c, p.d)))
            && !Server.Inv(Server.Step(w, Server.Reconnect(p.c, p.a)))
    ensures var w := Server.Run(maxRooms, PlayingOn(p) + [Server.Drop(p.a)]);
            !Server.Inv(Server.Step(w, Server.Reconnect(p.a, p.d)))
  {
    hide Server.Run, Server.Step, Harmless, Server.Inv;
    var w := Server.Run(maxRooms, PlayingOn(p) + [Server.Drop(p.c)]);
    var v := Server.Run(maxRooms, PlayingOn(p) + [Server.Drop(p.a)]);
    IsWaitedFor(maxRooms, p, p.c, p.a);
    IsWaitedFor(maxRooms, p, p.a, p.c);
    SeatMissed(w, p);
    OwnerBack(v, p);
    Mistaken(w, p.c, p.d);
    Mistaken(w, p.c, p.a);
    Mistaken(v, p.a, p.d);
    Harms(w, Server.Reconnect(p.c, p.d));
    Harms(w, Server.Reconnect(p.c, p.a));
    Harms(v, Server.Reconnect(p.a, p.d));
  }

  // ---- two that fill the list and a room ----

  ghost predicate Pair(w: World, p: Cast) {
    Table(w, p, [p.a, p.c, null, null], 2) && w.graph.clients.Keys == {p.a, p.c}
  }

  lemma PairGathers(maxRooms: nat, p: Cast)
    requires Apart(p)
    ensures Hall(Server.Run(maxRooms, Arriving(p.a) + Arriving(p.c)), maxRooms, {p.a, p.c})
  {
    hide Server.Run;
    FirstArrives(maxRooms, p.a);
    Arrives(maxRooms, Arriving(p.a), p.c, {p.a});
    assert {p.a} + {p.c} == {p.a, p.c};
  }

  lemma PairSits(maxRooms: nat, p: Cast)
    requires FitsTwo(p) && maxRooms > 0
    ensures var w := Server.Run(maxRooms, SittingInPairs(p)); Pair(w, p) && Unstarted(w, p)
  {
    hide Server.Run, Table, Unstarted, Idle, FreeFor, Hall;
    var es := Arriving(p.a) + Arriving(p.c);
    PairGathers(maxRooms, p);
    HallKeys(Server.Run(maxRooms, es), maxRooms, {p.a, p.c});
    Founds(maxRooms, es, p, {p.a, p.c});
    SecondSits(p);
    SitsDown(maxRooms, es + [Server.Create(p.a, p.room)], p, [p.a, null, null, null], 1, p.c);
  }

  lemma HallKeys(w: World, maxRooms: nat, known: set<Client>)
    requires Hall(w, maxRooms, known)
    ensures w.graph.clients.Keys == known
  {
  }

  lemma SecondSits(p: Cast)
    requires Apart(p)
    ensures FreeFor([p.a, null, null, null], 1, p.c)
    ensures [p.a, null, null, null][1 := p.c] == [p.a, p.c, null, null]
  {
  }

  lemma TwoSeats(p: Cast)
    requires Apart(p)
    ensures var seats := [p.a, p.c, null, null];
            p.a in seats && p.c in seats && !AllIn(seats, {p.a}) && AllIn(seats, {p.a} + {p.c})
    ensures Remaining([p.a, p.c, null, null], 2, p.c) < 2
  {
    var seats := [p.a, p.c, null, null];
    assert seats[0] in seats && seats[1] in seats;
    assert Remaining(seats, 1, p.c) <= 1;
  }

  lemma PairPlays(maxRooms: nat, p: Cast)
    requires FitsTwo(p) && maxRooms > 0
    ensures var w := Server.Run(maxRooms, PlayingInPairs(p)); Pair(w, p) && PlayingIn(w, p.room)
  {
    hide Server.Run, AllIn, Table, Awaits, Idle, Start;
    var es := SittingInPairs(p) + [Start(p)];
    PairIsDealt(maxRooms, p);
    TwoSeats(p);
    BecomesReady(maxRooms, es, p, [p.a, p.c, null, null], 2, p.a, {});
    assert {} + {p.a} == {p.a};
    BecomesReady(maxRooms, es + [Server.Ready(p.a)], p, [p.a, p.c, null, null], 2, p.c, {p.a});
  }

  lemma PairIsDealt(maxRooms: nat, p: Cast)
    requires FitsTwo(p) && maxRooms > 0
    ensures var w := Server.Run(maxRooms, SittingInPairs(p) + [Start(p)]); Pair(w, p) && Awaits(w, p, {})
  {
    hide Server.Run, Table, Awaits, Idle, Start, Unstarted, AllIn;
    PairSits(maxRooms, p);
    TwoSeats(p);
    StartsTable(maxRooms, SittingInPairs(p), p, [p.a, p.c, null, null], 2);
  }

  lemma PairIsWaitedFor(w: World, p: Cast)
    requires Server.Inv(w) && Apart(p) && Pair(w, p) && PlayingIn(w, p.room)
    ensures Talks(w, p.c) && w.graph.clients[p.c].state == InGame && Drops(w, p.c, false) == Marked(w, p.c)
    ensures Marked(w, p.c).graph.clients[p.c].room != null && Evicts(Marked(w, p.c), p.e, p.c)
  {
    Roster(w, p, [p.a, p.c, null, null], 2);
    TwoSeats(p);
    InGamePlays(w, p.c);
  }

  lemma NextListed(max: nat, es: seq<ClientTable.Event>, e: ClientTable.Event)
    ensures ClientTable.Run(max, es + [e]) == ClientTable.Step(ClientTable.Run(max, es), e)
  {
    assert (es + [e])[..|es|] == es;
  }

  lemma PairListed(p: Cast)
    requires Apart(p)
    ensures ClientTable.Run(2, [ClientTable.Connect(p.a)] + [ClientTable.Connect(p.c)]).slots
         == [ClientTable.Taken(p.a, 1, false), ClientTable.Taken(p.c, 2, false)]
  {
    var none, t := ClientTable.Run(2, []), ClientTable.Run(2, [ClientTable.Connect(p.a)]);
    assert none.slots == [ClientTable.Free, ClientTable.Free] && none.nextId == 1;
    assert [] + [ClientTable.Connect(p.a)] == [ClientTable.Connect(p.a)];
    NextListed(2, [], ClientTable.Connect(p.a));
    assert t.slots == [ClientTable.Taken(p.a, 1, false), ClientTable.Free] && t.nextId == 2;
    NextListed(2, [ClientTable.Connect(p.a)], ClientTable.Connect(p.c));
  }

  /** The list for two is full, and c is the one that gives way. */
  lemma ListIsFull(p: Cast)
    requires Apart(p)
    ensures var t := ClientTable.Run(2, Listing(p));
            ClientTable.Held(t.slots) == {p.a, p.c} && ClientTable.Evicted(t) == p.c
  {
    var t := ClientTable.Run(2, Listing(p));
    PairListed(p);
    NextListed(2, [ClientTable.Connect(p.a)] + [ClientTable.Connect(p.c)], ClientTable.Zombify(p.c));
    assert t.slots == [ClientTable.Taken(p.a, 1, false), ClientTable.Taken(p.c, 2, true)];
    assert t.slots[0].client in ClientTable.Held(t.slots) && t.slots[1].client in ClientTable.Held(t.slots);
  }

  /** A new connection that costs c its record leaves c's seat to nobody. The list is full, and it is c that it
      evicts. */
  lemma ConnectingHarms(maxRooms: nat, p: Cast)
    requires FitsTwo(p) && maxRooms > 0
    ensures var w, t := Server.Run(maxRooms, PlayingInPairs(p) + [Server.Drop(p.c)]), ClientTable.Run(2, Listing(p));
            && ClientTable.Held(t.slots) == w.graph.clients.Keys && ClientTable.Evicted(t) == p.c
            && !Server.Inv(Server.Step(w, Server.Connect(p.e, ClientTable.Evicted(t))))
  {
    hide Server.Run, Server.Step, Harmless, Server.Inv, ClientTable.Run, ClientTable.Held, ClientTable.Evicted;
    var w := Server.Run(maxRooms, PlayingInPairs(p));
    PairPlays(maxRooms, p);
    PairIsWaitedFor(w, p);
    RunNext(maxRooms, PlayingInPairs(p), Server.Drop(p.c));
    StepDrop(w, p.c);
    ListIsFull(p);
    DrivenOut(Marked(w, p.c), p.e, p.c);
    Harms(Marked(w, p.c), Server.Connect(p.e, p.c));
  }
}
