/** From the heap to the clients: what the handlers send and what its receivers make of it, together. */
module EndToEnd {
  import opened GameModel
  import opened GameInvariant
  import opened GameRuns
  import opened Games
  import opened Structs
  import opened Messages
  import opened Text
  import Membership
  import opened Deliveries
  import opened Mirror
  import opened Renaming
  import opened Rooms
  import opened Worlds
  import opened CatchUp
  import opened StateMessage
  import opened FormatState
  import opened ReconnectHandler
  import FlipHandler
  import ReadyHandler
  import Server
  import opened SeqFacts

  /** A game, the nicknames of its players, and the copies of those who hear of it. */
  datatype Scene = Scene(g: GameState<Client>, names: map<Client, string>, listeners: set<Client>,
                         copies: map<Client, Copy>)

  /** The nicknames tell the players apart. */
  ghost predicate WellNamed(s: Scene) {
    && Names(s.g.players, s.names) && OneToOne(s.names)
    && forall k :: 0 <= k < |s.g.players| ==> !Blank(s.names[s.g.players[k]])
  }

  /** Everybody who hears of the game plays in it, and has a copy under its own nickname. */
  ghost predicate Equipped(s: Scene) {
    forall c :: c in s.listeners ==> c in s.copies && c in s.names && s.copies[c].nickname == s.names[c]
  }

  /** Before the game begins no copy has open cards; from then on every copy mirrors it. */
  ghost predicate Agree(s: Scene)
    requires Names(s.g.players, s.names) && Equipped(s)
  {
    forall c :: c in s.listeners ==> Agrees(s.copies[c], Renamed(s.g, s.names))
  }

  ghost predicate Agrees(c: Copy, g: GameState<string>) {
    if g.phase == Waiting then c.flipped == [] && c.flippedThisTurn == 0 else Mirrors(c, g)
  }

  ghost predicate Valid(s: Scene) {
    Inv(s.g) && s.g.flips <= 1 && WellNamed(s) && Equipped(s) && Agree(s)
  }

  /** Everybody applies what has been sent to it. */
  ghost function Told(copies: map<Client, Copy>, sent: seq<Delivery>): map<Client, Copy> {
    map c | c in copies :: ReceiveAll(copies[c], Inbox(sent, c))
  }

  ghost function After(s: Scene, e: Event<Client>, sent: seq<Delivery>): Scene
    requires Inv(s.g)
  {
    InvIndexable(s.g);
    s.(g := Step(s.g, e), copies := Told(s.copies, sent))
  }

  // ---- a refusal changes nothing ----

  ghost predicate OnlyRefusals(ms: seq<Message>) {
    forall k :: 0 <= k < |ms| ==> ms[k].Refused?
  }

  lemma {:induction false} RefusalsIgnored(c: Copy, ms: seq<Message>)
    requires OnlyRefusals(ms)
    ensures ReceiveAll(c, ms) == c
  {
    if ms != [] {
      RefusalsIgnored(c, ms[..|ms| - 1]);
    }
  }

  /** An answer that is an ERROR, or none at all. */
  ghost predicate Rebuff(sent: seq<Delivery>) {
    sent == [] || (|sent| == 1 && sent[0].message.Refused?)
  }

  lemma RefusalsOnly(sent: seq<Delivery>, c: Client)
    requires Rebuff(sent)
    ensures OnlyRefusals(Inbox(sent, c))
  {
    if sent != [] {
      assert sent[..0] == [];
    }
  }

  lemma RefusedScene(s: Scene, e: Event<Client>, sent: seq<Delivery>)
    requires Valid(s) && Indexable(s.g) && Step(s.g, e) == s.g
    requires Rebuff(sent)
    ensures Valid(After(s, e, sent))
  {
    forall c | c in s.listeners ensures Told(s.copies, sent)[c] == s.copies[c] {
      RefusalsOnly(sent, c);
      RefusalsIgnored(s.copies[c], Inbox(sent, c));
    }
  }

  // ---- FLIP ----

  lemma FlipAgrees(c: Copy, names: map<Client, string>, g: GameState<Client>, who: Client, card: int, me: Client)
    requires Inv(g) && g.flips <= 1 && CanFlip(g, who, card) && Names(g.players, names) && OneToOne(names)
    requires forall k :: 0 <= k < |g.players| ==> !Blank(names[g.players[k]])
    requires me in names && c.nickname == names[me] && Mirrors(c, Renamed(g, names))
    ensures Indexable(g)
    ensures var g' := HandleFlip(g, who, card);
            && g'.players == g.players && g'.phase != Waiting && g'.flips <= 1
            && Mirrors(ReceiveAll(c, Announced(g, names, who, card, me)), Renamed(g', names))
  {
    InvIndexable(g);
    RenamedInv(g, names);
    NamesAreWritten(g.players, names);
    AnnouncedIsBroadcast(g, names, who, card, me);
    FlipMirrored(c, Renamed(g, names), names[who], card);
    RenamedFlip(g, names, who, card);
    FlipTurns(g, who, card);
  }

  /** An accepted FLIP: every copy mirrors the game that comes of it. */
  lemma FlipScene(s: Scene, who: Client, card: int, sent: seq<Delivery>)
    requires Valid(s) && Indexable(s.g) && CanFlip(s.g, who, card)
    requires FlipHandler.FlipHeard(s.listeners, sent, s.g, s.names, who, card)
    ensures Valid(After(s, Flip(who, card), sent))
  {
    hide Mirrors, Inv, Announced;
    var s' := After(s, Flip(who, card), sent);
    FlipTurns(s.g, who, card);
    StepKeeps(s.g, Flip(who, card));
    assert s.g.players[s.g.current] in s.names;
    forall c | c in s.listeners
      ensures s'.copies[c].nickname == s.names[c] && Agrees(s'.copies[c], Renamed(s'.g, s.names))
    {
      ReceiveAllKeepsName(s.copies[c], Inbox(sent, c));
      assert Agrees(s.copies[c], Renamed(s.g, s.names));
      FlipAgrees(s.copies[c], s.names, s.g, who, card, c);
    }
  }

  lemma FlipSceneIs(s: Scene, who: Client, card: int, sent: seq<Delivery>)
    requires Valid(s) && Indexable(s.g)
    requires if CanFlip(s.g, who, card) then FlipHandler.FlipHeard(s.listeners, sent, s.g, s.names, who, card)
             else Rebuff(sent)
    ensures Valid(After(s, Flip(who, card), sent)) && After(s, Flip(who, card), sent).g.players == s.g.players
  {
    hide Valid, FlipHandler.FlipHeard;
    FlipTurns(s.g, who, card);
    if CanFlip(s.g, who, card) {
      FlipScene(s, who, card, sent);
    } else {
      RefusedScene(s, Flip(who, card), sent);
    }
  }

  // ---- READY ----

  lemma {:induction false} NoScores(scores: seq<int>)
    requires forall i :: 0 <= i < |scores| ==> scores[i] >= 0
    ensures Sum(scores) >= 0
    ensures Sum(scores) == 0 ==> forall i :: 0 <= i < |scores| ==> scores[i] == 0
  {
    if scores != [] {
      NoScores(scores[..|scores| - 1]);
    }
  }

  lemma AllHidden<P>(g: GameState<P>)
    requires Inv(g) && g.flips == 0 && g.matchedPairs == 0
    ensures forall i :: 0 <= i < |g.cards| ==> g.cards[i].state == Hidden
  {
    assert InState(g.cards, Matched) == {} && InState(g.cards, Revealed) == {};
    forall i | 0 <= i < |g.cards| ensures g.cards[i].state == Hidden {
      assert i !in InState(g.cards, Matched) && i !in InState(g.cards, Revealed);
    }
  }

  lemma StartedCopy(c: Copy, size: int, players: seq<string>)
    requires PlausibleSize(size) && players != [] && forall k :: 0 <= k < |players| ==> !Blank(players[k])
    ensures var r := Receive(c, GameStart(size, players));
            && r.hasBoard && r.boardSize == size && |r.matched| == |r.values| == size * size
            && (forall i :: 0 <= i < |r.matched| ==> !r.matched[i])
            && r.players == players && r.scores == (map p | p in players :: 0)
            && r.flipped == c.flipped && r.flippedThisTurn == c.flippedThisTurn
            && r.nickname == c.nickname && (r.myTurn <==> players[0] == c.nickname)
  {
    hide Blank;
    NamedAll(players);
  }

  /** GAME_START for a game that has just begun. */
  lemma BeginningMirrored(c: Copy, g: GameState<string>)
    requires Inv(g) && g.phase == Playing && g.flips == 0 && g.matchedPairs == 0 && g.current == 0
    requires forall k :: 0 <= k < |g.players| ==> !Blank(g.players[k])
    requires c.flipped == [] && c.flippedThisTurn == 0
    ensures Mirrors(Receive(c, GameStart(g.boardSize, g.players)), g)
  {
    hide PairsTogether, Paired, InState, Sum, Blank, Distinct, Receive, Named;
    StartedCopy(c, g.boardSize, g.players);
    NoScores(g.scores);
    AllHidden(g);
  }

  /** What a member hears of the last READY. */
  lemma BeginsAgreeing(c: Copy, names: map<Client, string>, r: GameState<Client>, who: Client, me: Client)
    requires Inv(r) && r.phase == Playing && r.flips == 0 && r.matchedPairs == 0 && r.current == 0
    requires Indexable(r) && Names(r.players, names) && OneToOne(names) && who in names && me in names
    requires forall k :: 0 <= k < |r.players| ==> !Blank(names[r.players[k]])
    requires c.nickname == names[me] && c.flipped == [] && c.flippedThisTurn == 0
    ensures Mirrors(ReceiveAll(c, ReadyHandler.ReadyNews(names, r, who, me)), Renamed(r, names))
  {
    hide Mirrors, Inv, ReceiveAll;
    var before := (if me == who then [ReadyOk] else []) + [Messages.PlayerReady(names[who])];
    var start, turn := GameStart(r.boardSize, RenamedPlayers(r.players, names)), YourTurnIf(me == r.players[r.current]);
    assert ReadyHandler.ReadyNews(names, r, who, me) == before + ([start] + turn);
    NothingNew(c, before);
    ReceiveAllConcat(c, before, [start] + turn);
    RenamedInv(r, names);
    BeginningMirrored(c, Renamed(r, names));
    StartKeepsName(c, r.boardSize, RenamedPlayers(r.players, names));
    assert me == r.players[r.current] <==> names[me] == names[r.players[r.current]];
    TailMirrored(c, start, Renamed(r, names), turn);
  }

  ghost predicate OnlyReadiness(ms: seq<Message>) {
    forall k :: 0 <= k < |ms| ==> ms[k].ReadyOk? || ms[k].PlayerReady?
  }

  lemma {:induction false} NothingNew(c: Copy, ms: seq<Message>)
    requires OnlyReadiness(ms)
    ensures ReceiveAll(c, ms) == c
  {
    if ms != [] {
      NothingNew(c, ms[..|ms| - 1]);
    }
  }

  /** An accepted READY: if it is the last one, every copy mirrors the game that begins. */
  lemma ReadyScene(s: Scene, who: Client, sent: seq<Delivery>)
    requires Valid(s) && Indexable(s.g) && s.g.phase == Waiting && who in s.g.players
    requires ReadyHandler.ReadyHeard(s.listeners, sent, s.names, HandleReady(s.g, who), who)
    ensures Valid(After(s, Ready(who), sent))
  {
    hide Mirrors;
    var s', r := After(s, Ready(who), sent), HandleReady(s.g, who);
    StepKeeps(s.g, Ready(who));
    assert r.players == s.g.players && r.flips == 0 && r.matchedPairs == 0 && r.current == 0;
    forall c | c in s.listeners
      ensures s'.copies[c].nickname == s.names[c] && Agrees(s'.copies[c], Renamed(s'.g, s.names))
    {
      ReceiveAllKeepsName(s.copies[c], Inbox(sent, c));
      assert Agrees(s.copies[c], Renamed(s.g, s.names));
      if r.phase == Playing {
        BeginsAgreeing(s.copies[c], s.names, r, who, c);
      } else {
        NothingNew(s.copies[c], Inbox(sent, c));
      }
    }
  }

  lemma ReadySceneIs(s: Scene, who: Client, sent: seq<Delivery>)
    requires Valid(s) && Indexable(s.g)
    requires if s.g.phase == Waiting && who in s.g.players
             then ReadyHandler.ReadyHeard(s.listeners, sent, s.names, HandleReady(s.g, who), who)
             else Rebuff(sent)
    ensures Valid(After(s, Ready(who), sent)) && After(s, Ready(who), sent).g.players == s.g.players
  {
    hide Valid, ReadyHandler.ReadyHeard;
    if s.g.phase == Waiting && who in s.g.players {
      ReadyScene(s, who, sent);
    } else {
      IndexOfIs(s.g.players, who);
      RefusedScene(s, Ready(who), sent);
    }
  }

  // ---- one step of the server ----

  /** A client whose requests can only concern the game of this room. */
  ghost predicate Asks(w: Server.World, room: Room, c: Client) {
    Server.Talks(w, c) && (w.graph.clients[c].room == room || w.graph.clients[c].room == null)
  }

  /** While the room is there its game is this one; it goes with the end of the game. */
  ghost predicate Hosts(w: Server.World, room: Room, g: GameState<Client>) {
    if room in w.graph.rooms then room in w.games && w.games[room] == g else g.phase == Finished
  }

  /** Nobody has moved, but for those whose room has gone. */
  ghost predicate Kept(w: Server.World, w': Server.World, room: Room) {
    && w'.graph.clients.Keys == w.graph.clients.Keys
    && (forall c :: c in w.graph.clients ==>
          && w'.graph.clients[c].disconnected == w.graph.clients[c].disconnected
          && (w'.graph.clients[c].room == w.graph.clients[c].room || w'.graph.clients[c].room == null))
    && (room in w'.graph.rooms ==>
          && room in w.graph.rooms
          && w'.graph.rooms[room] == w.graph.rooms[room].(state := w'.graph.rooms[room].state))
  }

  lemma NoPlayer(w: Server.World, room: Room, c: Client, g: GameState<Client>)
    requires Server.Inv(w) && c in w.graph.clients && w.graph.clients[c].room == null && Hosts(w, room, g)
    ensures g.phase != Finished ==> c !in g.players
  {
    if room in w.graph.rooms {
      assert Server.RoomOk(w, room) && Membership.SeatingOk(room, w.graph.rooms[room]);
      Server.MembersIn(w.graph.rooms[room].seats, c);
      assert c !in w.graph.rooms[room].seats;
    }
  }

  /** Whoever does not sit in the room cannot change its game. */
  lemma Outside(w: Server.World, room: Room, c: Client, g: GameState<Client>, e: Event<Client>)
    requires Server.Inv(w) && c in w.graph.clients && w.graph.clients[c].room == null && Hosts(w, room, g) && Inv(g)
    requires e.who == c && !e.Remove?
    ensures Indexable(g) && Step(g, e) == g
  {
    hide Server.Inv;
    InvIndexable(g);
    NoPlayer(w, room, c, g);
    IndexOfIs(g.players, c);
  }

  lemma AdvancedKept(w: Server.World, room: Room, g: GameState<Client>)
    requires room in w.graph.rooms && room in w.games
    ensures var w' := Server.Advanced(w, room, g); Hosts(w', room, g) && Kept(w, w', room)
  {
  }

  lemma FlipsKept(w: Server.World, room: Room, c: Client, card: int)
    requires room in w.graph.rooms && room in w.games && Indexable(w.games[room])
    ensures var w' := Server.Flips(w, room, c, card);
            Hosts(w', room, HandleFlip(w.games[room], c, card)) && Kept(w, w', room)
  {
    AdvancedKept(w, room, HandleFlip(w.games[room], c, card));
  }

  /** A client that is not outside sits in the room, and the room is there. */
  lemma Inside(w: Server.World, room: Room, c: Client)
    requires Server.Inv(w) && Asks(w, room, c) && w.graph.clients[c].room != null
    ensures w.graph.clients[c].room == room && room in w.graph.rooms
  {
  }

  lemma FlipHosted(w: Server.World, room: Room, c: Client, card: int, g: GameState<Client>)
    requires Server.Inv(w) && Asks(w, room, c) && Hosts(w, room, g) && Inv(g)
    ensures Indexable(g)
    ensures var w' := Server.OnFlip(w, c, card); Hosts(w', room, HandleFlip(g, c, card)) && Kept(w, w', room)
  {
    hide Inv, Membership.Inv, Server.StatesOk, Server.RoomOk;
    InvIndexable(g);
    if w.graph.clients[c].room == null {
      Outside(w, room, c, g, Flip(c, card));
    } else {
      Inside(w, room, c);
      Server.FlipStepIs(w, room, c, card);
      FlipsKept(w, room, c, card);
    }
  }

  lemma ReadyHosted(w: Server.World, room: Room, c: Client, g: GameState<Client>)
    requires Server.Inv(w) && Asks(w, room, c) && Hosts(w, room, g) && Inv(g)
    ensures Indexable(g)
    ensures var w' := Server.OnReady(w, c); Hosts(w', room, HandleReady(g, c)) && Kept(w, w', room)
  {
    hide Inv, Membership.Inv, Server.StatesOk, Server.RoomOk;
    InvIndexable(g);
    if w.graph.clients[c].room == null {
      Outside(w, room, c, g, Ready(c));
    } else {
      Inside(w, room, c);
      Server.ReadyStepIs(w, room, c);
      AdvancedKept(w, room, HandleReady(g, c));
    }
  }

  // ---- on the heap ----

  /** The scene is that of the room: its members hear of it, and its players are known by their nicknames. */
  ghost predicate Shown(table: RoomTable, room: Room, s: Scene)
    reads table, table.rooms, table.live, table.clients, GamesIn(table.live), BoardsIn(table.live)
    reads room, s.g.players, set c: Client | c in room.players
  {
    && Running(table) && Valid(s) && Hosts(WorldOf(table), room, s.g)
    && s.listeners == Listeners(room.players) && s.names == Nicknames(s.g.players)
  }

  /** The client's own room, seen from the heap. */
  lemma HostedHere(table: RoomTable, room: Room, client: Client, s: Scene)
    requires Shown(table, room, s) && Asks(WorldOf(table), room, client)
    ensures client in table.clients && !client.isDisconnected
    ensures client.room == null || client.room == room
    ensures client.room == room ==>
              room.game != null && room.game.View() == s.g && room.game.WellFormed()
  {
    var w := WorldOf(table);
    InOrder(table, room, s);
    hide Shown, Server.Inv, Running, Valid;
    LinkedHere(table, client);
    if client.room != null {
      Inside(w, room, client);
      RoomOfClient(table, client);
      GameHere(table, room);
    }
  }

  lemma InOrder(table: RoomTable, room: Room, s: Scene)
    requires Shown(table, room, s)
    ensures Running(table) && Server.Inv(WorldOf(table)) && Inv(s.g) && Hosts(WorldOf(table), room, s.g)
  {
  }

  lemma LinkedHere(table: RoomTable, client: Client)
    ensures client in WorldOf(table).graph.clients <==> client in table.clients
    ensures client in table.clients ==> WorldOf(table).graph.clients[client] == LinkOf(client)
  {
  }

  lemma GameHere(table: RoomTable, room: Room)
    ensures room in WorldOf(table).games <==> room in table.live && room.game != null
    ensures room in table.live && room.game != null ==> WorldOf(table).games[room] == room.game.View()
  {
  }

  lemma ShownAgain(table: RoomTable, room: Room, w: Server.World, e: Server.Event, s: Scene)
    requires Server.Inv(w) && WorldOf(table) == Server.Step(w, e) && Apart(table.live) && Server.Harmless(w, e)
    requires Valid(s) && Hosts(WorldOf(table), room, s.g)
    requires s.listeners == Listeners(room.players) && s.names == Nicknames(s.g.players)
    ensures Shown(table, room, s)
  {
    hide Server.Inv, Server.Step, Server.Harmless, Valid, Hosts, Running;
    RunningAgain(table, w, e);
  }

  /** When handle_flip accepts. */
  lemma FlipVerdictIs(table: RoomTable, room: Room, client: Client, card: int, s: Scene)
    requires Shown(table, room, s) && Asks(WorldOf(table), room, client)
    ensures client in table.clients && !client.isDisconnected
    ensures FlipHandler.FlipVerdict(client, Some(card)).None? <==> CanFlip(s.g, client, card)
    ensures FlipHandler.FlipVerdict(client, Some(card)).None? ==>
              client.room == room && room.game != null && room.game.View() == s.g
  {
    hide Shown, Valid, Asks, Inv;
    HostedHere(table, room, client, s);
    if client.room == null {
      InOrder(table, room, s);
      LinkedHere(table, client);
      Outside(WorldOf(table), room, client, s.g, Flip(client, card));
    }
  }

  /** Nobody's name or connection changes with a flip. */
  method FlipUnmoved(table: RoomTable, room: Room, client: Client, card: int, ghost players: seq<Client>,
                     ghost listeners: set<Client>, ghost names: map<Client, string>)
    returns (sent: seq<Delivery>)
    requires Running(table) && client in table.clients && !client.isDisconnected
    requires listeners == Listeners(room.players) && names == Nicknames(players)
    modifies client`invalidMessageCount, table`live, table.rooms, OwnRoom(client)`game, OwnRoom(client)`state
    modifies Mates(client)`room, Mates(client)`state, OwnGame(client), OwnBoard(client)
    ensures WorldOf(table) == Server.OnFlip(old(WorldOf(table)), client, card) && Apart(table.live)
    ensures listeners == Listeners(room.players) && names == Nicknames(players)
    ensures FlipHandler.FlipAnswered(client, Some(card), sent)
  {
    hide FlipHandler.FlipAnswered, WorldOf, Apart, Running, Server.OnFlip;
    sent := FlipHandler.HandleFlip(table, client, Some(card));
  }

  /** handle_flip, as the members of the room hear it. */
  method FlipHere(table: RoomTable, room: Room, client: Client, card: int, ghost s: Scene) returns (sent: seq<Delivery>)
    requires Shown(table, room, s) && Asks(WorldOf(table), room, client)
    modifies client`invalidMessageCount, table`live, table.rooms, OwnRoom(client)`game, OwnRoom(client)`state
    modifies Mates(client)`room, Mates(client)`state, OwnGame(client), OwnBoard(client)
    ensures WorldOf(table) == Server.OnFlip(old(WorldOf(table)), client, card) && Apart(table.live)
    ensures s.listeners == Listeners(room.players) && s.names == Nicknames(s.g.players)
    ensures Valid(s) && Indexable(s.g)
    ensures if CanFlip(s.g, client, card) then FlipHandler.FlipHeard(s.listeners, sent, s.g, s.names, client, card)
            else Rebuff(sent)
  {
    hide Hosts, Asks, Inv, Server.Inv, Server.OnFlip, WorldOf, Apart, GamesIn, BoardsIn, Running;
    hide FlipHandler.FlipHeard, OwnGame, OwnBoard, Mates, OwnRoom, Agree, OneToOne, Listeners, Nicknames;
    InOrder(table, room, s);
    InvIndexable(s.g);
    FlipVerdictIs(table, room, client, card, s);
    sent := FlipUnmoved(table, room, client, card, s.g.players, s.listeners, s.names);
  }

  /** FLIP, and everybody takes in what it hears. */
  method FlipTold(table: RoomTable, room: Room, client: Client, card: int, ghost s: Scene)
    returns (sent: seq<Delivery>)
    requires Shown(table, room, s) && Asks(WorldOf(table), room, client)
    modifies client`invalidMessageCount, table`live, table.rooms, OwnRoom(client)`game, OwnRoom(client)`state
    modifies Mates(client)`room, Mates(client)`state, OwnGame(client), OwnBoard(client)
    ensures Inv(s.g) && Shown(table, room, After(s, Flip(client, card), sent))
    ensures Kept(old(WorldOf(table)), WorldOf(table), room)
  {
    hide Valid, Hosts, Kept, Asks, Inv, Server.Inv, Server.OnFlip, WorldOf, Apart, Running, FlipHandler.FlipHeard;
    hide Shown, Rebuff, Listeners, OwnGame, OwnBoard, Mates, OwnRoom;
    ghost var w := WorldOf(table);
    InOrder(table, room, s);
    FlipHosted(w, room, client, card, s.g);
    sent := FlipHere(table, room, client, card, s);
    FlipSceneIs(s, client, card, sent);
    ShownAgain(table, room, w, Server.Flip(client, card), After(s, Flip(client, card), sent));
  }

  lemma ReadyVerdictIs(table: RoomTable, room: Room, client: Client, s: Scene)
    requires Shown(table, room, s) && Asks(WorldOf(table), room, client)
    ensures client in table.clients && !client.isDisconnected
    ensures ReadyHandler.ReadyVerdict(client).None? ==>
              && s.g.phase == Waiting && client in s.g.players
              && client.room == room && room.game != null && room.game.View() == s.g
    ensures s.g.phase == Waiting && client in s.g.players ==> ReadyHandler.ReadyVerdict(client).None?
  {
    hide Shown, Valid, Asks, Inv;
    HostedHere(table, room, client, s);
    if client.room == null {
      InOrder(table, room, s);
      LinkedHere(table, client);
      NoPlayer(WorldOf(table), room, client, s.g);
    }
  }

  /** handle_ready, as the members of the room hear it. */
  method ReadyHere(table: RoomTable, room: Room, client: Client, ghost s: Scene) returns (sent: seq<Delivery>)
    requires Shown(table, room, s) && Asks(WorldOf(table), room, client)
    modifies OwnRoom(client)`state, Mates(client)`state
    modifies OwnGame(client)`playerReady, OwnGame(client)`state, OwnGame(client)`currentPlayerIndex
    ensures WorldOf(table) == Server.OnReady(old(WorldOf(table)), client) && Apart(table.live)
    ensures s.listeners == Listeners(room.players) && s.names == Nicknames(s.g.players)
    ensures Valid(s) && Indexable(s.g)
    ensures if s.g.phase == Waiting && client in s.g.players
            then ReadyHandler.ReadyHeard(s.listeners, sent, s.names, HandleReady(s.g, client), client)
            else Rebuff(sent)
  {
    hide Hosts, Asks, Inv, Server.Inv, Server.OnReady, WorldOf, Apart, GamesIn, BoardsIn, Running;
    hide ReadyHandler.ReadyHeard, OwnGame, Mates, OwnRoom, Agree, OneToOne, GameModel.HandleReady;
    InOrder(table, room, s);
    InvIndexable(s.g);
    ReadyVerdictIs(table, room, client, s);
    ghost var listeners, names := Listeners(room.players), Nicknames(s.g.players);
    sent := ReadyHandler.HandleReady(table, client);
    assert Listeners(room.players) == listeners && Nicknames(s.g.players) == names;
  }

  /** READY, and everybody takes in what it hears. */
  method ReadyTold(table: RoomTable, room: Room, client: Client, ghost s: Scene) returns (sent: seq<Delivery>)
    requires Shown(table, room, s) && Asks(WorldOf(table), room, client)
    modifies OwnRoom(client)`state, Mates(client)`state
    modifies OwnGame(client)`playerReady, OwnGame(client)`state, OwnGame(client)`currentPlayerIndex
    ensures Inv(s.g) && Shown(table, room, After(s, Ready(client), sent))
    ensures Kept(old(WorldOf(table)), WorldOf(table), room)
  {
    hide Valid, Hosts, Kept, Asks, Inv, Server.Inv, Server.OnReady, WorldOf, Apart, Running, ReadyHandler.ReadyHeard;
    hide Shown, Rebuff, Listeners, OwnGame, Mates, OwnRoom;
    ghost var w := WorldOf(table);
    InOrder(table, room, s);
    ReadyHosted(w, room, client, s.g);
    sent := ReadyHere(table, room, client, s);
    ReadySceneIs(s, client, sent);
    ShownAgain(table, room, w, Server.Ready(client), After(s, Ready(client), sent));
  }

  // ---- any number of requests ----

  /** READY or FLIP, from a client whose requests can only concern this room. */
  ghost predicate Requests(w: Server.World, room: Room, es: seq<Event<Client>>) {
    forall k :: 0 <= k < |es| ==> !es[k].Remove? && Asks(w, room, es[k].who)
  }

  lemma KeptOn(w: Server.World, w': Server.World, w'': Server.World, room: Room)
    requires Kept(w, w', room) && Kept(w', w'', room)
    ensures Kept(w, w'', room)
  {
  }

  lemma RequestsOn(w: Server.World, w': Server.World, room: Room, es: seq<Event<Client>>)
    requires Requests(w, room, es) && Kept(w, w', room)
    ensures Requests(w', room, es)
  {
    forall k | 0 <= k < |es| ensures Asks(w', room, es[k].who) {
      assert Asks(w, room, es[k].who);
    }
  }

  lemma {:induction false} ToldOn(copies: map<Client, Copy>, a: seq<Delivery>, b: seq<Delivery>)
    ensures Told(Told(copies, a), b) == Told(copies, a + b)
  {
    forall c | c in copies ensures Told(Told(copies, a), b)[c] == Told(copies, a + b)[c] {
      InboxConcat(a, b, c);
      ReceiveAllConcat(copies[c], Inbox(a, c), Inbox(b, c));
    }
  }

  /** What has become of a scene after some requests. */
  ghost function Later(s: Scene, es: seq<Event<Client>>, sent: seq<Delivery>): Scene
    requires Inv(s.g)
  {
    s.(g := Run(s.g, es), copies := Told(s.copies, sent))
  }

  lemma LaterOn(s: Scene, es: seq<Event<Client>>, sent: seq<Delivery>, e: Event<Client>, more: seq<Delivery>)
    requires Inv(s.g)
    ensures After(Later(s, es, sent), e, more) == Later(s, es + [e], sent + more)
  {
    assert (es + [e])[..|es|] == es;
    ToldOn(s.copies, sent, more);
  }

  lemma NothingYet(s: Scene)
    requires Inv(s.g)
    ensures Later(s, [], []) == s
  {
    forall c | c in s.copies ensures Told(s.copies, [])[c] == s.copies[c] {
      assert Inbox([], c) == [];
    }
  }

  method RequestTold(table: RoomTable, room: Room, e: Event<Client>, ghost s: Scene) returns (sent: seq<Delivery>)
    requires Shown(table, room, s) && !e.Remove? && Asks(WorldOf(table), room, e.who)
    modifies e.who`invalidMessageCount, table`live, table.rooms, OwnRoom(e.who)`game, OwnRoom(e.who)`state
    modifies Mates(e.who)`room, Mates(e.who)`state, OwnGame(e.who), OwnBoard(e.who)
    ensures Inv(s.g) && Shown(table, room, After(s, e, sent))
    ensures Kept(old(WorldOf(table)), WorldOf(table), room)
  {
    hide Shown, Kept, Asks, WorldOf;
    match e
    case Ready(who) => sent := ReadyTold(table, room, who, s);
    case Flip(who, card) => sent := FlipTold(table, room, who, card, s);
  }

  /** A request touches the room, its members and its game. */
  lemma TouchesRoom(table: RoomTable, room: Room, game: Game<Client>, who: Client, s: Scene)
    requires Shown(table, room, s) && Asks(WorldOf(table), room, who) && (room in table.live ==> room.game == game)
    ensures who in table.clients && Mates(who) <= table.clients
    ensures OwnRoom(who) <= {room} && OwnGame(who) <= {game} && OwnBoard(who) <= {game.cards}
  {
    InOrder(table, room, s);
    HostedHere(table, room, who, s);
    hide Shown, Server.Inv, Running;
    if who.room != null {
      LinkedHere(table, who);
      Inside(WorldOf(table), room, who);
      MembersKnown(table, room);
    }
  }

  lemma MembersKnown(table: RoomTable, room: Room)
    requires Membership.Inv(WorldOf(table).graph) && room in table.live
    ensures forall c: Client :: c in room.players ==> c in table.clients
  {
    var g := WorldOf(table).graph;
    Membership.InvSeated(g, room);
    hide Membership.Inv;
    assert g.rooms[room] == SeatingOf(room);
    forall c: Client | c in room.players ensures c in table.clients {
      assert c in g.rooms[room].seats;
    }
  }

  lemma SameGame(table: RoomTable, room: Room, w: Server.World, seating: Membership.Seating)
    requires Kept(w, WorldOf(table), room) && (room in w.graph.rooms ==> w.graph.rooms[room] == seating)
    ensures room in table.live ==> room in w.graph.rooms && room.game == seating.game
  {
    assert room in table.live ==> WorldOf(table).graph.rooms[room] == SeatingOf(room);
  }

  /** One request, seen from the room. */
  method RequestHere(table: RoomTable, room: Room, game: Game<Client>, e: Event<Client>, ghost s: Scene)
    returns (sent: seq<Delivery>)
    requires Shown(table, room, s) && !e.Remove? && Asks(WorldOf(table), room, e.who)
    requires room in table.live ==> room.game == game
    modifies table`live, table.rooms, room`game, room`state, game, game.cards
    modifies table.clients`room, table.clients`state, table.clients`invalidMessageCount
    ensures Inv(s.g) && Shown(table, room, After(s, e, sent)) && (room in table.live ==> room.game == game)
    ensures Kept(old(WorldOf(table)), WorldOf(table), room)
  {
    hide Shown, Asks, WorldOf, OwnRoom, OwnGame, OwnBoard, Mates, Kept;
    ghost var w, seating := WorldOf(table), SeatingOf(room);
    InTable(table, room);
    TouchesRoom(table, room, game, e.who, s);
    sent := RequestTold(table, room, e, s);
    SameGame(table, room, w, seating);
    InTable(table, room);
  }

  lemma InTable(table: RoomTable, room: Room)
    ensures room in WorldOf(table).graph.rooms <==> room in table.live
    ensures room in table.live ==> WorldOf(table).graph.rooms[room] == SeatingOf(room)
  {
  }

  lemma OneMoreRequest(es: seq<Event<Client>>, i: nat)
    requires i < |es|
    ensures es[..i] + [es[i]] == es[..i + 1]
  {
  }

  lemma KeptSame(w: Server.World, room: Room)
    ensures Kept(w, w, room)
  {
  }

  /** From the moment a game exists: whatever its players and those in no room request, in any order, every connected
      member that takes in exactly what has been sent to it has, as soon as the game has begun, an exact copy of it. */
  method AllTold(table: RoomTable, room: Room, game: Game<Client>, es: seq<Event<Client>>, ghost s: Scene)
    returns (sent: seq<Delivery>)
    requires Shown(table, room, s) && Requests(WorldOf(table), room, es)
    requires room in table.live ==> room.game == game
    modifies table`live, table.rooms, room`game, room`state, game, game.cards
    modifies table.clients`room, table.clients`state, table.clients`invalidMessageCount
    ensures Inv(s.g) && Shown(table, room, Later(s, es, sent))
  {
    hide Shown, Kept, Asks, WorldOf;
    ghost var w := WorldOf(table);
    InOrder(table, room, s);
    sent := [];
    NothingYet(s);
    KeptSame(w, room);
    for i := 0 to |es|
      invariant Shown(table, room, Later(s, es[..i], sent)) && Kept(w, WorldOf(table), room)
      invariant table.clients == old(table.clients) && (room in table.live ==> room.game == game)
    {
      ghost var before := WorldOf(table);
      RequestsOn(w, before, room, es);
      var more := RequestHere(table, room, game, es[i], Later(s, es[..i], sent));
      KeptOn(w, before, WorldOf(table), room);
      LaterOn(s, es[..i], sent, es[i], more);
      OneMoreRequest(es, i);
      sent := sent + more;
    }
    assert es[..|es|] == es;
  }

  // ---- where it begins ----

  ghost predicate Fitted(copies: map<Client, Copy>, listeners: set<Client>, g: GameState<string>)
    reads listeners
  {
    forall c :: c in listeners ==> c in copies && copies[c].nickname == c.nickname && Agrees(copies[c], g)
  }

  lemma GameInOrder(w: Server.World, room: Room)
    requires Server.Inv(w) && room in w.games
    ensures Inv(w.games[room]) && w.games[room].flips <= 1 && room in w.graph.rooms
    ensures forall c: Client :: c in w.graph.rooms[room].seats ==> c in w.games[room].players
  {
    assert Server.RoomOk(w, room);
    forall c: Client | c in w.graph.rooms[room].seats ensures c in w.games[room].players {
      Server.MembersIn(w.graph.rooms[room].seats, c);
    }
  }

  /** In a server that runs, every game that has not begun is where it can begin: the members' copies need no more than
      to have no open cards. One that is under way needs copies that mirror it. */
  lemma SceneOf(table: RoomTable, room: Room, copies: map<Client, Copy>)
    requires Running(table) && room in table.live && room.game != null
    requires OneToOne(Nicknames(room.game.players))
    requires forall c :: c in room.game.players ==> !Blank(c.nickname)
    requires Fitted(copies, Listeners(room.players), NamedView(room.game))
    ensures Shown(table, room, Scene(room.game.View(), Nicknames(room.game.players), Listeners(room.players), copies))
  {
    hide Server.Inv, Mirrors;
    var w := WorldOf(table);
    GameHere(table, room);
    InTable(table, room);
    GameInOrder(w, room);
  }

  // ---- coming back ----

  /** What a client makes of a message, GAME_STATE included. */
  function TakeIn(c: Copy, m: Message): Copy {
    if m.GameStateLine? && Twin(c) then OnGameState(c, m.text)
    else Receive(c, m)
  }

  function TakeInAll(c: Copy, ms: seq<Message>): Copy {
    if ms == [] then c else TakeIn(TakeInAll(c, ms[..|ms| - 1]), ms[|ms| - 1])
  }

  lemma FourParts(n: Client, seats: seq<Client?>, text: string, mine: bool)
    requires n in seats && SeatedOnce(seats) && n.Reachable()
    ensures Inbox(Reply(n, WelcomeBack(n.clientId))
                  + (Reached(seats, PlayerReconnected(n.nickname), null)
                     + (Reply(n, GameStateLine(text)) + if mine then Reply(n, YourTurn) else [])), n)
         == [WelcomeBack(n.clientId)] + ([PlayerReconnected(n.nickname)] + ([GameStateLine(text)] + YourTurnIf(mine)))
  {
    hide Reached, Inbox, Reply;
    var welcome, hello := Reply(n, WelcomeBack(n.clientId)), Reached(seats, PlayerReconnected(n.nickname), null);
    var state, turn := Reply(n, GameStateLine(text)), if mine then Reply(n, YourTurn) else [];
    ReplyInbox(n, WelcomeBack(n.clientId), n);
    ReplyInbox(n, GameStateLine(text), n);
    ReplyInbox(n, YourTurn, n);
    EmptyInbox(n);
    ReachedInbox(seats, PlayerReconnected(n.nickname), n);
    InboxConcat(welcome, hello + (state + turn), n);
    InboxConcat(hello, state + turn, n);
    InboxConcat(state, turn, n);
  }

  lemma EmptyInbox(c: Client)
    ensures Inbox([], c) == []
  {
  }

  lemma ReturnHeard(n: Client, room: Room, game: Game<Client>)
    requires n.room == room && room.game == game && game.WellFormed() && game.state == Playing
    requires n in room.players && SeatedOnce(room.players) && n.Reachable()
    ensures Inbox(ReturnNews(n), n)
         == [WelcomeBack(n.clientId)] + ([PlayerReconnected(n.nickname)]
            + ([GameStateLine(StateText(NamedView(game)))] + YourTurnIf(game.players[game.currentPlayerIndex] == n)))
  {
    var text, mine := StateText(NamedView(game)), game.players[game.currentPlayerIndex] == n;
    hide StateText, NamedView, Reached, Inbox, Reply;
    FourParts(n, room.players, text, mine);
  }

  lemma FourTaken(c: Copy, welcome: Message, hello: Message, state: Message, mine: bool)
    requires welcome.WelcomeBack? && hello.PlayerReconnected?
    ensures TakeInAll(c, [welcome] + ([hello] + ([state] + YourTurnIf(mine))))
         == if mine then TakeIn(c, state).(myTurn := true) else TakeIn(c, state)
  {
    var ms := [welcome, hello, state];
    assert ms[..2] == [welcome, hello] && [welcome, hello][..1] == [welcome] && [welcome][..0] == [];
    assert TakeInAll(c, [welcome]) == c;
    assert TakeInAll(c, [welcome, hello]) == c;
    assert TakeInAll(c, ms) == TakeIn(c, state);
    assert [welcome] + ([hello] + ([state] + YourTurnIf(mine))) == ms + YourTurnIf(mine);
    if mine {
      assert (ms + [YourTurn])[..3] == ms;
    } else {
      assert ms + [] == ms;
    }
  }

  lemma SnapshotKeepsName(c: Copy, s: Snapshot)
    requires Twin(c)
    ensures OnSnapshot(c, s).nickname == c.nickname
  {
  }

  /** The client that comes back, having missed whatever was played since its copy was exact, has an exact one again
      when it has taken in what handle_reconnect sends it. */
  lemma BackInGame(n: Client, room: Room, game: Game<Client>, c: Copy, g: GameState<string>, es: seq<Event<string>>)
    requires n.room == room && room.game == game && game.WellFormed() && game.state == Playing
    requires n in room.players && SeatedOnce(room.players) && n.Reachable()
    requires Inv(g) && g.flips <= 1 && Mirrors(c, g) && NamedView(game) == Run(g, es) && c.nickname == n.nickname
    requires forall k :: 0 <= k < |g.players| ==> !Blank(g.players[k]) && NoSpace(g.players[k])
    ensures Mirrors(TakeInAll(c, Inbox(ReturnNews(n), n)), NamedView(game))
  {
    hide Mirrors, StateText, ParseState, OnSnapshot, OnGameState, Run, Inv;
    var text, mine := StateText(NamedView(game)), game.players[game.currentPlayerIndex] == n;
    ReturnHeard(n, room, game);
    CaughtUpByText(c, g, es);
    var back := OnSnapshot(c, ParseState(text).value);
    ParsedIsSnapshot(c, text);
    assert TakeIn(c, GameStateLine(text)) == back;
    FourTaken(c, WelcomeBack(n.clientId), PlayerReconnected(n.nickname), GameStateLine(text), mine);
    SnapshotKeepsName(c, ParseState(text).value);
    if mine {
      QuietMirrored(back, YourTurn, NamedView(game));
    }
  }
}
