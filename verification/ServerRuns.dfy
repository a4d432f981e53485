/** The server from its start: whatever connects, sends lines, hangs up, falls silent or is given up on, in any order,
    the rooms, games and clients on the heap are what a run of the server machine says. */
module ServerRuns {
  import opened Structs
  import opened Text
  import opened Messages
  import opened Membership
  import opened Rooms
  import opened Worlds
  import opened ClientLists
  import opened Arrivals
  import opened Connections
  import opened Dispatcher
  import ClientTable
  import Keepalive
  import Server

  /** One thing that happens; connections are numbered in the order they came. The thread of a client notes the time
      when it hears a line, and then handles it. */
  datatype Input =
    | Arrival(fd: nat, at: int)
    | Heard(k: nat, at: int)
    | Line(k: nat, command: Command, at: int)
    | HangUp(k: nat, at: int)
    | Silence(k: nat, at: int, wake: int)
    | GiveUp(k: nat)

  /** The server as it was before something happened, with the clients' records and who had connected by then, and
      what came of it. */
  datatype Moment = Moment(w: Server.World, t: ClientTable.Table, timers: map<Client, Keepalive.Timers>,
                           standing: map<Client, Standing>, connections: seq<Client>, e: Option<Server.Event>)

  /** The connection is up. */
  ghost predicate Up(m: Moment, k: nat) {
    k < |m.connections| && Server.Talks(m.w, m.connections[k])
  }

  ghost predicate WaitedFor(m: Moment, k: nat) {
    k < |m.connections| && m.connections[k] in m.w.graph.clients && m.w.graph.clients[m.connections[k]].disconnected
  }

  /** Who has connected afterwards; the last one may have been refused. */
  ghost predicate Numbered(connections: seq<Client>, e: Option<Server.Event>, input: Input, more: seq<Client>) {
    if input.Arrival? then
      && |more| == |connections| + 1 && more[..|connections|] == connections
      && (e.Some? && e.value.Connect? ==> more[|connections|] == e.value.c)
    else more == connections
  }

  /** What an input comes to. */
  ghost predicate Follows(m: Moment, input: Input) {
    match input
    case Arrival(_, _) =>
      if m.t.count < |m.t.slots| || ClientTable.Evicted(m.t) != null
      then m.e.Some? && m.e.value.Connect? && m.e.value.evicted == ClientTable.Evicted(m.t)
           && m.e.value.c !in m.w.graph.clients
      else m.e == None
    case Line(k, command, at) =>
      if Up(m, k) then Means(m.w, m.t, m.timers, command, m.connections[k], at, m.e) else m.e == None
    case Heard(_, _) => m.e == None
    case HangUp(k, _) => m.e == if Up(m, k) then Some(Server.Drop(m.connections[k])) else None
    case Silence(k, _, _) => m.e == if Up(m, k) then Some(Server.Silence(m.connections[k])) else None
    case GiveUp(k) => m.e == if WaitedFor(m, k) then Some(Server.Expire(m.connections[k])) else None
  }

  // ---- the records ----

  /** A connection that ends: its record is freed, or marked, at one of these times, with its socket closed. */
  ghost predicate Parts(before: map<Client, Standing>, c: Client, times: set<int>, after: map<Client, Standing>) {
    || after == before - {c}
    || (&& c in before && c in after && after == before[c := after[c]]
        && after[c].marked && after[c].markedAt in times && after[c].socket < 0
        && after[c] == before[c].(marked := true, markedAt := after[c].markedAt, socket := after[c].socket))
  }

  ghost predicate Gone(before: map<Client, Standing>, c: Client, input: Input, e: Option<Server.Event>,
                       after: map<Client, Standing>) {
    if e == None then after == before
    else if input.HangUp? then Parts(before, c, {input.at}, after)
    else if input.Silence? then Parts(before, c, {input.at, input.wake}, after)
    else after == before - {c}
  }

  /** What an input makes of the records. Whoever it does not concern keeps its own as it is. */
  ghost predicate Recalls(m: Moment, input: Input, after: map<Client, Standing>) {
    match input
    case Arrival(fd, at) =>
      if m.e.Some? && m.e.value.Connect? then
        after == (m.standing - {m.e.value.evicted})
                 [m.e.value.c := Standing(m.t.nextId, fd, false, 0, "", 0, false, 0, at, at)]
      else after == m.standing
    case Heard(k, at) =>
      if Up(m, k) && m.connections[k] in m.standing
      then after == m.standing[m.connections[k] := m.standing[m.connections[k]].(lastActivity := at)]
      else after == m.standing
    case Line(k, command, at) =>
      if Up(m, k) then
        var c := m.connections[k];
        && c in m.standing && c in after && after == (m.standing - Freed(m.e))[c := after[c]]
        && Remembered(m.standing[c], after[c], m.w.graph.clients[c].state == Connected, command,
                      TakenOver(m.standing, m.e), at)
      else after == m.standing
    case HangUp(k, at) =>
      if Up(m, k) then Parts(m.standing, m.connections[k], {at}, after) else after == m.standing
    case Silence(k, at, wake) =>
      if Up(m, k) then Parts(m.standing, m.connections[k], {at, wake}, after) else after == m.standing
    case GiveUp(k) => after == if WaitedFor(m, k) then m.standing - {m.connections[k]} else m.standing
  }

  // ---- the list and the rooms forget a client together ----

  /** When a client's record changes, its slot of the list does, by at most the zombie mark. */
  lemma StillInStep(list: ClientList, t: ClientTable.Table)
    requires ClientTable.Inv(t) && |t.slots| == list.clientArray.Length
    requires t.count == list.clientCount && t.nextId == list.nextClientId
    requires forall i :: 0 <= i < |t.slots| ==> t.slots[i].Taken? == (list.clientArray[i] != null)
    requires forall i :: 0 <= i < |t.slots| && t.slots[i].Taken? ==>
               t.slots[i].client == list.clientArray[i] && t.slots[i].id == list.clientArray[i].clientId
    ensures ClientTable.Inv(list.View()) && ClientTable.Held(list.View().slots) == ClientTable.Held(t.slots)
  {
    forall i | 0 <= i < |t.slots| ensures list.View().slots[i] == EntryOf(list.clientArray[i]) {
    }
    ClientTable.ButForZombies(t, list.View());
  }

  /** client_list_remove, for a record that is freed. */
  method Unlist(table: RoomTable, list: ClientList, client: Client, ghost w: Server.World)
    requires ClientTable.Inv(list.View()) && table.clients == ClientTable.Held(list.View().slots) - {client}
    requires w == WorldOf(table)
    modifies list`clientCount, list.clientArray
    ensures WorldOf(table) == w && InStep(table, list)
  {
    hide ClientTable.Inv, ClientTable.Held, ClientTable.Remove, ClientList.View, EntriesOf;
    ghost var t := list.View();
    ClientTable.RemoveKeeps(t, client);
    ClientTable.RemoveHolds(t, client);
    var removed := list.Remove(client);
  }

  // ---- the reactions ----

  /** In order, but for a record that is still listed when its client has been forgotten. */
  ghost predicate Parted(table: RoomTable, list: ClientList, client: Client, freed: bool)
    reads table, table.live, GamesIn(table.live), BoardsIn(table.live), list, list.clientArray
    reads table.clients`socketFd, table.clients`isDisconnected, table.clients`nickname
    reads list.clientArray[..]`clientId, list.clientArray[..]`isDisconnected
    reads list.clientArray[..]`socketFd
  {
    && Apart(table.live) && ClientTable.Inv(list.View())
    && table.clients == ClientTable.Held(list.View().slots) - (if freed then {client} else {})
    && Records(table.clients)
  }

  /** The others' records are as they were. */
  method CutApart(table: RoomTable, client: Client, now: int,
                  ghost others: set<Client>, ghost standing: map<Client, Standing>)
    returns (freed: bool, sent: seq<Delivery>)
    requires Running(table) && client in table.clients && !client.isDisconnected
    requires client !in others && Standings(others) == standing
    modifies table`live, table.rooms, table`clients, OwnRoom(client), OwnGame(client), client
    modifies Mates(client)`room, Mates(client)`state
    ensures Standings(others) == standing && Apart(table.live) && Server.Talks(old(WorldOf(table)), client)
    ensures WorldOf(table) == Server.Drops(old(WorldOf(table)), client, false)
    ensures freed <==> client !in table.clients
    ensures table.clients == old(table.clients) - if freed then {client} else {}
    ensures StandingOf(client) == if freed then old(StandingOf(client)) else Lost(old(StandingOf(client)), now)
    ensures PartingTold(client, old(TurnNews(HeirOf(client))), freed, sent)
  {
    hide Running, Server.Drops, PartingTold, HeirOf, TurnNews, WorldOf, Apart, Mates, OwnRoom, OwnGame;
    hide StandingOf, Lost;
    freed, sent := Disconnect(table, client, now);
  }

  method CutSilentApart(table: RoomTable, client: Client, now: int, wake: int,
                        ghost others: set<Client>, ghost standing: map<Client, Standing>)
    returns (freed: bool, sent: seq<Delivery>)
    requires Running(table) && client in table.clients && !client.isDisconnected
    requires client !in others && Standings(others) == standing
    modifies table`live, table.rooms, table`clients, OwnRoom(client), OwnGame(client), client
    modifies Mates(client)`room, Mates(client)`state
    ensures Standings(others) == standing && Apart(table.live) && Server.Talks(old(WorldOf(table)), client)
    ensures WorldOf(table) == Server.Drops(old(WorldOf(table)), client, true)
    ensures freed <==> client !in table.clients
    ensures table.clients == old(table.clients) - if freed then {client} else {}
    ensures StandingOf(client) == Lost(old(StandingOf(client)), if !freed && old(InItsGame(client)) then wake else now)
    ensures PartingTold(client, old(TurnNews(HeirOf(client))), freed, sent)
  {
    hide Running, Server.Drops, PartingTold, HeirOf, TurnNews, WorldOf, Apart, Mates, OwnRoom, OwnGame;
    hide StandingOf, Lost;
    hide InItsGame;
    freed, sent := FallSilent(table, client, now, wake);
  }

  method Cut(table: RoomTable, list: ClientList, client: Client, now: int,
             ghost others: set<Client>, ghost standing: map<Client, Standing>)
    returns (freed: bool, sent: seq<Delivery>)
    requires Serving(table, list) && client in table.clients && !client.isDisconnected
    requires others == table.clients - {client} && Standings(others) == standing
    modifies table, table.rooms, table.live, table.clients, GamesIn(table.live)
    ensures WorldOf(table) == Server.Step(old(WorldOf(table)), Server.Drop(client))
    ensures Parted(table, list, client, freed) && (freed <==> client !in table.clients)
    ensures Standings(others) == standing && StandingOf(client)
         == if freed then old(StandingOf(client)) else Lost(old(StandingOf(client)), now)
    ensures table.clients == if freed then others else others + {client}
    ensures PartingTold(client, old(TurnNews(HeirOf(client))), freed, sent)
  {
    hide Running, Server.Drops, PartingTold, HeirOf, ClientTable.Inv, ClientTable.Held;
    hide WorldOf, Apart, Mates, OwnRoom, OwnGame, OwnBoard, Server.Inv, GamesIn, BoardsIn;
    ghost var t := list.View();
    Inside(table, client);
    freed, sent := CutApart(table, client, now, others, standing);
    StillInStep(list, t);
  }

  method CutSilent(table: RoomTable, list: ClientList, client: Client, now: int, wake: int,
             ghost others: set<Client>, ghost standing: map<Client, Standing>)
    returns (freed: bool, sent: seq<Delivery>)
    requires Serving(table, list) && client in table.clients && !client.isDisconnected
    requires others == table.clients - {client} && Standings(others) == standing
    modifies table, table.rooms, table.live, table.clients, GamesIn(table.live)
    ensures WorldOf(table) == Server.Step(old(WorldOf(table)), Server.Silence(client))
    ensures Parted(table, list, client, freed) && (freed <==> client !in table.clients)
    ensures Standings(others) == standing && StandingOf(client)
         == Lost(old(StandingOf(client)), if !freed && old(InItsGame(client)) then wake else now)
    ensures table.clients == if freed then others else others + {client}
    ensures PartingTold(client, old(TurnNews(HeirOf(client))), freed, sent)
  {
    hide Running, Server.Drops, PartingTold, HeirOf, ClientTable.Inv, ClientTable.Held;
    hide WorldOf, Apart, Mates, OwnRoom, OwnGame, OwnBoard, Server.Inv, GamesIn, BoardsIn;
    ghost var t := list.View();
    Inside(table, client);
    freed, sent := CutSilentApart(table, client, now, wake, others, standing);
    StillInStep(list, t);
  }

  method CutOff(table: RoomTable, list: ClientList, client: Client,
                ghost others: set<Client>, ghost standing: map<Client, Standing>)
    returns (sent: seq<Delivery>)
    requires Serving(table, list) && client in table.clients && client.isDisconnected
    requires others == table.clients - {client} && Standings(others) == standing
    modifies table, table.rooms, table.live, table.clients, GamesIn(table.live)
    ensures WorldOf(table) == Server.Step(old(WorldOf(table)), Server.Expire(client))
    ensures Standings(others) == standing && table.clients == others
    ensures Parted(table, list, client, true) && EvictionTold(client, sent)
  {
    hide Running, Server.OnExpire, EvictionTold, ForfeitPaid, ClientTable.Inv, ClientTable.Held, GamesIn, BoardsIn;
    hide WorldOf, Apart, Mates, OwnRoom, OwnGame, OwnBoard, Server.Inv;
    ghost var t := list.View();
    Inside(table, client);
    sent := Evict(table, client);
    StillInStep(list, t);
  }

  /** The record leaves the list, too. */
  method Settle(table: RoomTable, list: ClientList, client: Client, freed: bool, ghost w: Server.World)
    requires Parted(table, list, client, freed) && w == WorldOf(table)
    modifies list`clientCount, list.clientArray
    ensures WorldOf(table) == w && Steady(table, list)
  {
    hide WorldOf, ClientTable.Inv, ClientTable.Held;
    if freed {
      Unlist(table, list, client, w);
    }
  }

  lemma ClientsKnown(table: RoomTable)
    ensures forall c :: c in WorldOf(table).graph.clients ==> c in table.clients
  {
  }

  /** The records that were there are as they were. */
  method ArriveApart(table: RoomTable, list: ClientList, fd: nat, at: int, ghost z: Client?, ghost w: Server.World,
                     ghost clients: set<Client>, ghost standing: map<Client, Standing>)
    returns (client: Client, ok: bool)
    requires Running(table) && InStep(table, list) && Standings(clients) == standing
    requires z == ClientTable.Evicted(list.View()) && w == WorldOf(table)
    modifies list`clientCount, list`nextClientId, list.clientArray, table`clients
    ensures fresh(client) && Standings(clients) == standing
    ensures StandingOf(client) == Standing(old(list.nextClientId), fd, false, 0, "", 0, false, 0, at, at)
    ensures ok <==> old(list.clientCount < list.clientArray.Length) || z != null
    ensures InStep(table, list) && Apart(table.live)
    ensures table.clients == if ok then old(table.clients) - {z} + {client} else old(table.clients)
    ensures WorldOf(table) == if ok then Server.OnConnect(w, client, z) else w
  {
    hide Running, WorldOf, Apart, Server.OnConnect, Server.Inv, InStep, StandingOf, ClientTable.Evicted;
    client, ok := AcceptConnection(table, list, fd, at);
  }

  /** The records when one has been freed and one has come. */
  lemma Renewal(clients: set<Client>, z: Client?, client: Client, more: set<Client>, standing: map<Client, Standing>)
    requires Standings(clients) == standing && client !in clients && more == clients - {z} + {client}
    ensures Standings(more) == (standing - {z})[client := StandingOf(client)]
  {
    WithOthers(more, client);
    WithoutOne(clients, z, standing);
    assert more - {client} == clients - {z};
  }

  method Arrive(table: RoomTable, list: ClientList, fd: nat, at: int)
    returns (client: Client, ghost e: Option<Server.Event>)
    requires Serving(table, list)
    modifies table, list, list.clientArray
    ensures fresh(client) && client !in old(WorldOf(table)).graph.clients
    ensures e == if old(list.View()).count < |old(list.View()).slots| || old(ClientTable.Evicted(list.View())) != null
                 then Some(Server.Connect(client, old(ClientTable.Evicted(list.View())))) else None
    ensures WorldOf(table) == After(old(WorldOf(table)), e) && Steady(table, list)
    ensures Standings(table.clients)
         == if e.Some?
            then (old(Standings(table.clients)) - {e.value.evicted})
                 [client := Standing(old(list.nextClientId), fd, false, 0, "", 0, false, 0, at, at)]
            else old(Standings(table.clients))
  {
    hide Running, WorldOf, Apart, Server.OnConnect, Server.Inv, ClientTable.Inv, ClientTable.Held, Records;
    hide Standings, ClientTable.Evicted;
    ghost var z, clients := ClientTable.Evicted(list.View()), table.clients;
    ghost var standing := Standings(clients);
    ClientsKnown(table);
    RecordsFit(clients, clients);
    var ok;
    client, ok := ArriveApart(table, list, fd, at, z, WorldOf(table), clients, standing);
    if ok {
      Renewal(clients, z, client, table.clients, standing);
    }
    StillRecords(table.clients, clients, client, standing);
    e := if ok then Some(Server.Connect(client, z)) else None;
  }

  // ---- the server ----

  lemma ListedIs(list: ClientList, client: Client)
    ensures client in list.clientArray[..] <==> client in ClientTable.Held(list.View().slots)
  {
    var s, cs := list.View().slots, list.clientArray[..];
    forall k | 0 <= k < |cs| ensures s[k] == EntryOf(cs[k]) {
    }
    if client in cs {
      var k :| 0 <= k < |cs| && cs[k] == client;
      assert s[k].Taken? && s[k].client == client;
    }
  }

  lemma LinkIs(table: RoomTable, client: Client)
    ensures client in table.clients <==> client in WorldOf(table).graph.clients
    ensures client in table.clients ==> WorldOf(table).graph.clients[client] == LinkOf(client)
    ensures client in table.clients <==> client in Standings(table.clients)
    ensures client in table.clients ==> Standings(table.clients)[client] == StandingOf(client)
  {
  }

  lemma ServingSteady(table: RoomTable, list: ClientList)
    requires Serving(table, list)
    ensures Steady(table, list) && Server.Inv(WorldOf(table))
  {
  }

  /** What the records are when one of them has been freed or marked. */
  lemma GoneIs(clients: set<Client>, others: set<Client>, client: Client, rest: map<Client, Standing>, s: Standing,
               input: Input, e: Option<Server.Event>)
    requires client !in others && Standings(others) == rest && (clients == others || clients == others + {client})
    requires e.Some? && (input.HangUp? || input.Silence? || input.GiveUp?)
    requires client in clients ==>
               || (input.HangUp? && StandingOf(client) == Lost(s, input.at))
               || (input.Silence? && StandingOf(client) in {Lost(s, input.at), Lost(s, input.wake)})
    ensures Gone(rest[client := s], client, input, e, Standings(clients))
  {
    hide StandingOf;
    assert rest[client := s] - {client} == rest;
    if client in clients {
      WithOthers(clients, client);
      assert clients - {client} == others;
      assert rest[client := s][client := StandingOf(client)] == rest[client := StandingOf(client)];
    }
  }

  /** A connection ends, or its time is up. */
  method End(table: RoomTable, list: ClientList, client: Client, input: Input)
    returns (sent: seq<Delivery>, ghost e: Option<Server.Event>)
    requires Serving(table, list) && client in table.clients
    modifies table, table.rooms, table.live, table.clients, GamesIn(table.live), list, list.clientArray
    ensures e == if input.HangUp? && !old(client.isDisconnected) then Some(Server.Drop(client))
                 else if input.Silence? && !old(client.isDisconnected) then Some(Server.Silence(client))
                 else if input.GiveUp? && old(client.isDisconnected) then Some(Server.Expire(client))
                 else None
    ensures WorldOf(table) == After(old(WorldOf(table)), e) && Steady(table, list)
    ensures e.Some? && !input.GiveUp? ==>
              PartingTold(client, old(TurnNews(HeirOf(client))), client !in table.clients, sent)
    ensures e.Some? && input.GiveUp? ==> EvictionTold(client, sent)
    ensures e == None ==> sent == []
    ensures Gone(old(Standings(table.clients)), client, input, e, Standings(table.clients))
  {
    hide Running, WorldOf, Server.Inv, Server.Step, Apart, InStep, PartingTold, HeirOf, EvictionTold, Standings;
    hide Parts, Lost, StandingOf;
    ghost var others, before := table.clients - {client}, StandingOf(client);
    ghost var rest := Standings(others);
    WithOthers(table.clients, client);
    ServingSteady(table, list);
    var freed := false;
    sent, e := [], None;
    if input.HangUp? && !client.isDisconnected {
      freed, sent := Cut(table, list, client, input.at, others, rest);
      e := Some(Server.Drop(client));
    } else if input.Silence? && !client.isDisconnected {
      freed, sent := CutSilent(table, list, client, input.at, input.wake, others, rest);
      e := Some(Server.Silence(client));
    } else if input.GiveUp? && client.isDisconnected {
      sent := CutOff(table, list, client, others, rest);
      freed, e := true, Some(Server.Expire(client));
    } else {
      return;
    }
    GoneIs(table.clients, others, client, rest, before, input, e);
    Settle(table, list, client, freed, WorldOf(table));
  }

  /** The input is a line, and its client is there to be served. */
  ghost predicate LineRead(table: RoomTable, connections: seq<Client>, input: Input)
    reads table, connections
  {
    input.Line? && input.k < |connections| && Speaks(table, connections[input.k])
  }

  /** A connection that is up ends. */
  ghost predicate Ends(table: RoomTable, connections: seq<Client>, input: Input)
    reads table, connections
  {
    (input.HangUp? || input.Silence?) && input.k < |connections| && Speaks(table, connections[input.k])
  }

  /** A client that is waited for is given up on. */
  ghost predicate GivesUp(table: RoomTable, connections: seq<Client>, input: Input)
    reads table, connections
  {
    && input.GiveUp? && input.k < |connections|
    && connections[input.k] in table.clients && connections[input.k].isDisconnected
  }

  /** Nothing is sent for anything else. */
  ghost predicate Answerable(table: RoomTable, connections: seq<Client>, input: Input)
    reads table, connections
  {
    LineRead(table, connections, input) || Ends(table, connections, input) || GivesUp(table, connections, input)
  }

  lemma RecordsKnown(table: RoomTable)
    ensures Standings(table.clients).Keys == WorldOf(table).graph.clients.Keys == table.clients
  {
  }

  /** The server before something happens. */
  ghost function Snapshot(table: RoomTable, list: ClientList, connections: seq<Client>): Moment
    reads table, table.rooms, table.live, table.clients, GamesIn(table.live), BoardsIn(table.live)
    reads list, list.clientArray, list.clientArray[..]
  {
    Moment(WorldOf(table), list.View(), TimersIn(table.clients), Standings(table.clients), connections, None)
  }

  method NoteTime(table: RoomTable, client: Client, at: int)
    modifies client`lastActivity
    ensures WorldOf(table) == old(WorldOf(table)) && (Apart(table.live) <==> old(Apart(table.live)))
    ensures StandingOf(client) == old(StandingOf(client)).(lastActivity := at)
  {
    client.lastActivity := at;
    assert table.View().clients == old(table.View()).clients;
  }

  /** client_handler_thread notes when a line has come; only the record knows of it. */
  method Hear(table: RoomTable, list: ClientList, client: Client, at: int)
    requires Serving(table, list) && Speaks(table, client)
    modifies client`lastActivity
    ensures Serving(table, list) && WorldOf(table) == old(WorldOf(table))
    ensures client in old(Standings(table.clients))
    ensures Standings(table.clients)
         == old(Standings(table.clients))[client := old(Standings(table.clients))[client].(lastActivity := at)]
  {
    hide Serving, WorldOf, StandingOf, Steady, Orderly, Running, Apart, Server.Inv;
    ghost var w, t, standing := WorldOf(table), list.View(), Standings(table.clients);
    Known(table, list, client);
    ServingOrderly(table, list);
    RunningInOrder(table);
    ghost var others := table.clients - {client};
    ghost var rest := Standings(others);
    WithOthers(table.clients, client);
    NoteTime(table, client, at);
    assert Standings(others) == rest;
    WithOthers(table.clients, client);
    StillOrderly(t, list.clientArray[..], standing, client, StandingOf(client));
    StillSteady(table, list, t, standing[client := StandingOf(client)]);
    ServingAgain(table, list, w, None);
  }

  /** One thing happens. A line is only read, and a connection only lost, while the record is there. */
  method React(table: RoomTable, list: ClientList, connections: seq<Client>, input: Input, rand: nat -> nat)
    returns (more: seq<Client>, sent: seq<Delivery>, ghost e: Option<Server.Event>)
    requires Serving(table, list)
    modifies table, table.rooms, table.live, table.clients, GamesIn(table.live), BoardsIn(table.live)
    modifies list, list.clientArray
    ensures old(LineRead(table, connections, input)) ==>
              Answered(table, list, connections[input.k], input.command, input.at, sent)
    ensures old(Ends(table, connections, input)) ==>
              PartingTold(connections[input.k], old(TurnNews(HeirOf(connections[input.k]))),
                          connections[input.k] !in table.clients, sent)
    ensures old(GivesUp(table, connections, input)) ==> EvictionTold(connections[input.k], sent)
    ensures !old(Answerable(table, connections, input)) ==> sent == []
    ensures WorldOf(table) == After(old(WorldOf(table)), e)
    ensures Serving(table, list) <==> Safe(old(WorldOf(table)), e)
    ensures Follows(old(Snapshot(table, list, connections)).(e := e), input)
    ensures Recalls(old(Snapshot(table, list, connections)).(e := e), input, Standings(table.clients))
    ensures Numbered(connections, e, input, more)
  {
    hide Running, WorldOf, Server.Inv, Server.Step, Apart, Steady, ClientTable.Inv, ClientTable.Held, Answered;
    hide PartingTold, EvictionTold, HeirOf, TurnNews, Standings, TimersIn, Remembered, Parts, StandingOf, Means;
    hide GamesIn, BoardsIn;
    ghost var w := WorldOf(table);
    ServingSteady(table, list);
    more, sent, e := connections, [], None;
    if input.Arrival? {
      var client;
      client, e := Arrive(table, list, input.fd, input.at);
      more := connections + [client];
      ServingAgain(table, list, w, e);
      return;
    }
    if input.k >= |connections| {
      return;
    }
    var client := connections[input.k];
    LinkIs(table, client);
    ListedIs(list, client);
    if client !in list.clientArray[..] {
      return;
    }
    if input.Heard? {
      if !client.isDisconnected {
        Hear(table, list, client, input.at);
      }
    } else if input.Line? {
      if client.isDisconnected {
        return;
      }
      sent, e := Dispatch(table, list, client, input.command, input.at, rand);
    } else {
      sent, e := End(table, list, client, input);
      ServingAgain(table, list, w, e);
    }
  }

  ghost function EventsOf(ms: seq<Moment>): (es: seq<Server.Event>)
    ensures |es| <= |ms|
  {
    if ms == [] then []
    else
      var n := |ms| - 1;
      EventsOf(ms[..n]) + if ms[n].e.Some? then [ms[n].e.value] else []
  }

  /** Each moment is the outcome of those before it and of one input. */
  ghost predicate Recorded(maxRooms: nat, inputs: seq<Input>, ms: seq<Moment>)
    requires |ms| <= |inputs|
  {
    forall i :: 0 <= i < |ms| ==>
      && ms[i].w == Server.Run(maxRooms, EventsOf(ms[..i])) && Follows(ms[i], inputs[i])
      && ms[i].standing.Keys == ms[i].w.graph.clients.Keys
  }

  ghost predicate Passes(m: Moment, input: Input, connections: seq<Client>, standing: map<Client, Standing>) {
    && Safe(m.w, m.e) && Numbered(m.connections, m.e, input, connections)
    && Recalls(m, input, standing)
  }

  /** From each moment to the next the server was in order, and the records and who had connected were remembered. */
  ghost predicate Continuous(inputs: seq<Input>, ms: seq<Moment>)
    requires |ms| <= |inputs|
  {
    && (ms != [] ==> ms[0].connections == [] && ms[0].standing == map[])
    && forall i :: 0 <= i < |ms| - 1 ==> Passes(ms[i], inputs[i], ms[i + 1].connections, ms[i + 1].standing)
  }

  lemma RunAfter(maxRooms: nat, ms: seq<Moment>, m: Moment)
    requires m.w == Server.Run(maxRooms, EventsOf(ms)) && Safe(m.w, m.e)
    ensures Server.Run(maxRooms, EventsOf(ms + [m])) == After(m.w, m.e)
  {
    hide Server.Run, Server.Step, Server.Harmless;
    assert (ms + [m])[..|ms|] == ms;
    if m.e.Some? {
      Server.RunNext(maxRooms, EventsOf(ms), m.e.value);
    } else {
      assert EventsOf(ms) + [] == EventsOf(ms);
    }
  }

  lemma RecordGoesOn(maxRooms: nat, inputs: seq<Input>, ms: seq<Moment>, m: Moment)
    requires |ms| < |inputs| && Recorded(maxRooms, inputs, ms)
    requires m.w == Server.Run(maxRooms, EventsOf(ms)) && Follows(m, inputs[|ms|])
    requires m.standing.Keys == m.w.graph.clients.Keys
    ensures Recorded(maxRooms, inputs, ms + [m])
  {
    hide Server.Run, Follows, EventsOf;
    var more := ms + [m];
    forall i | 0 <= i < |more|
      ensures more[i].w == Server.Run(maxRooms, EventsOf(more[..i])) && Follows(more[i], inputs[i])
      ensures more[i].standing.Keys == more[i].w.graph.clients.Keys
    {
      assert more[..i] == ms[..i];
      assert ms[..|ms|] == ms;
    }
  }

  lemma StaysContinuous(inputs: seq<Input>, ms: seq<Moment>, m: Moment)
    requires |ms| < |inputs| && Continuous(inputs, ms)
    requires if ms == [] then m.connections == [] && m.standing == map[]
             else Passes(ms[|ms| - 1], inputs[|ms| - 1], m.connections, m.standing)
    ensures Continuous(inputs, ms + [m])
  {
    hide Passes;
  }

  /** The server is in order, and its state is what all that has happened to it since the start comes to. */
  ghost predicate History(table: RoomTable, list: ClientList, connections: seq<Client>,
                          maxRooms: nat, inputs: seq<Input>, ms: seq<Moment>)
    reads table, table.rooms, table.live, table.clients, GamesIn(table.live), BoardsIn(table.live)
    reads list, list.clientArray, list.clientArray[..]
  {
    && |ms| == |inputs| && Recorded(maxRooms, inputs, ms) && Continuous(inputs, ms)
    && Serving(table, list) && WorldOf(table) == Server.Run(maxRooms, EventsOf(ms))
    && if ms == [] then connections == [] && Standings(table.clients) == map[]
       else Passes(ms[|ms| - 1], inputs[|ms| - 1], connections, Standings(table.clients))
  }

  lemma EmptyServes(table: RoomTable, list: ClientList, maxRooms: nat, maxClients: nat)
    requires table.View() == Empty(maxRooms) && list.View() == ClientTable.Run(maxClients, [])
    ensures Serving(table, list) && WorldOf(table) == Server.Run(maxRooms, []) && Standings(table.clients) == map[]
  {
    assert table.live == table.View().rooms.Keys == {};
    assert table.clients == table.View().clients.Keys == {};
    assert ClientTable.Held(list.View().slots) == {};
    assert WorldOf(table) == Server.Run(maxRooms, []);
  }

  /** server_init */
  method Open(maxRooms: nat, maxClients: nat) returns (table: RoomTable, list: ClientList)
    ensures History(table, list, [], maxRooms, [], [])
  {
    table := new RoomTable(maxRooms);
    list := new ClientList(maxClients);
    EmptyServes(table, list, maxRooms, maxClients);
  }

  /** Whatever happens next, the state is again what all that has happened comes to, unless that does harm. */
  method Next(table: RoomTable, list: ClientList, connections: seq<Client>, input: Input, rand: nat -> nat,
              ghost maxRooms: nat, ghost inputs: seq<Input>, ghost ms: seq<Moment>)
    returns (more: seq<Client>, sent: seq<Delivery>, ghost m: Moment)
    requires History(table, list, connections, maxRooms, inputs, ms)
    modifies table, table.rooms, table.live, table.clients, GamesIn(table.live), BoardsIn(table.live)
    modifies list, list.clientArray
    ensures m == old(Snapshot(table, list, connections)).(e := m.e)
    ensures Follows(m, input) && Recalls(m, input, Standings(table.clients))
    ensures Server.Inv(m.w) && WorldOf(table) == After(m.w, m.e)
    ensures old(LineRead(table, connections, input)) ==>
              Answered(table, list, connections[input.k], input.command, input.at, sent)
    ensures old(Ends(table, connections, input)) ==>
              PartingTold(connections[input.k], old(TurnNews(HeirOf(connections[input.k]))),
                          connections[input.k] !in table.clients, sent)
    ensures old(GivesUp(table, connections, input)) ==> EvictionTold(connections[input.k], sent)
    ensures !old(Answerable(table, connections, input)) ==> sent == []
    ensures Safe(m.w, m.e) <==> History(table, list, more, maxRooms, inputs + [input], ms + [m])
  {
    hide Answered, LineRead, Serving, WorldOf, Server.Inv, Server.Run, Recorded, Continuous, Follows, Numbered;
    hide After, Safe, EventsOf, PartingTold, EvictionTold, HeirOf, TurnNews, Ends, GivesUp, Answerable, Recalls;
    hide Standings, TimersIn;
    RecordsKnown(table);
    ghost var before := Snapshot(table, list, connections);
    ghost var e;
    more, sent, e := React(table, list, connections, input, rand);
    m := before.(e := e);
    if Safe(before.w, e) {
      HistoryGoesOn(maxRooms, inputs, ms, m, input);
    }
  }

  lemma HistoryGoesOn(maxRooms: nat, inputs: seq<Input>, ms: seq<Moment>, m: Moment, input: Input)
    requires |ms| == |inputs| && Recorded(maxRooms, inputs, ms) && Continuous(inputs, ms)
    requires m.w == Server.Run(maxRooms, EventsOf(ms)) && Follows(m, input) && Safe(m.w, m.e)
    requires m.standing.Keys == m.w.graph.clients.Keys
    requires if ms == [] then m.connections == [] && m.standing == map[]
             else Passes(ms[|ms| - 1], inputs[|ms| - 1], m.connections, m.standing)
    ensures Recorded(maxRooms, inputs + [input], ms + [m]) && Continuous(inputs + [input], ms + [m])
    ensures Server.Run(maxRooms, EventsOf(ms + [m])) == After(m.w, m.e)
  {
    hide Follows, Passes, After, EventsOf, Server.Run;
    RunAfter(maxRooms, ms, m);
    assert Recorded(maxRooms, inputs + [input], ms);
    assert Continuous(inputs + [input], ms);
    RecordGoesOn(maxRooms, inputs + [input], ms, m);
    StaysContinuous(inputs + [input], ms, m);
  }

  // ---- what a record keeps over a run ----

  /** The client says HELLO or takes another one's place. */
  ghost predicate Renames(e: Option<Server.Event>, c: Client) {
    e.Some? && ((e.value.Hello? && e.value.c == c) || (e.value.Reconnect? && e.value.n == c))
  }

  lemma NameStays(m: Moment, input: Input, c: Client, after: map<Client, Standing>)
    requires Follows(m, input) && Recalls(m, input, after) && m.standing.Keys == m.w.graph.clients.Keys
    requires c in m.standing && c in after && !Renames(m.e, c)
    ensures after[c].nickname == m.standing[c].nickname && after[c].id == m.standing[c].id
  {
    hide MayFound, MayStart, Asked, NewGame, Server.Startable, Claimed;
    if input.Line? && Up(m, input.k) && m.connections[input.k] == c {
      assert TakenOver(m.standing, m.e).None?;
    }
  }

  /** As long as a client's record is there, only its own HELLO and RECONNECT change its nickname and its id, whatever
      the others do. */
  lemma {:induction false} NameLasts(maxRooms: nat, inputs: seq<Input>, ms: seq<Moment>, i: nat, j: nat, c: Client)
    requires |ms| <= |inputs| && Recorded(maxRooms, inputs, ms) && Continuous(inputs, ms) && i <= j < |ms|
    requires forall k :: i <= k <= j ==> c in ms[k].standing
    requires forall k :: i <= k < j ==> !Renames(ms[k].e, c)
    ensures ms[j].standing[c].nickname == ms[i].standing[c].nickname
    ensures ms[j].standing[c].id == ms[i].standing[c].id
  {
    hide Follows, Recalls, Safe, Numbered, EventsOf, Server.Run;
    if i < j {
      NameLasts(maxRooms, inputs, ms, i, j - 1, c);
      assert Passes(ms[j - 1], inputs[j - 1], ms[j].connections, ms[j].standing);
      NameStays(ms[j - 1], inputs[j - 1], c, ms[j].standing);
    }
  }
}
