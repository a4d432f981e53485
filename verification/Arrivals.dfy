/** New connections: the accepting part of server_run in server_src/server.c, with the list of clients and the rooms
    on the heap together. */
module Arrivals {
  import opened Structs
  import opened Rooms
  import opened Worlds
  import opened ClientTable
  import opened ClientLists
  import Server

  /** The list is in order, and its clients are those the rooms know of. */
  ghost predicate InStep(table: RoomTable, list: ClientList)
    reads table, list, list.clientArray
    reads list.clientArray[..]`clientId, list.clientArray[..]`isDisconnected
    reads list.clientArray[..]`socketFd
  {
    ClientTable.Inv(list.View()) && table.clients == Held(list.View().slots)
  }

  /** Only a client that is marked, and whose socket is closed, gives way. */
  lemma EvictedIsMarked(list: ClientList)
    requires Evicted(list.View()) != null
    ensures Evicted(list.View()) in Held(list.View().slots) && Evicted(list.View()).isDisconnected
  {
    var i := FirstZombie(list.View().slots, 0);
    assert list.View().slots[i] == EntryOf(list.clientArray[i]);
  }

  /** The rooms learn of the new client and forget the one whose record has been freed; nobody tells its room. */
  ghost method Introduce(table: RoomTable, client: Client, evicted: Client?, w: Server.World)
    requires w == WorldOf(table) && Apart(table.live) && client !in table.clients
    requires client.room == null && client.state == Connected && !client.isDisconnected
    requires evicted != null ==> evicted in table.clients && evicted.isDisconnected
    modifies table`clients
    ensures table.clients == old(table.clients) - {evicted} + {client}
    ensures WorldOf(table) == Server.OnConnect(w, client, evicted) && Apart(table.live)
  {
    hide SeatingOf, GamesIn, BoardsIn;
    table.clients := (set c | c in table.clients && c != evicted) + {client};
    assert table.View().rooms == w.graph.rooms;
    assert table.View().clients == Server.OnConnect(w, client, evicted).graph.clients;
  }

  /** The list alone: the rooms are as before. */
  method AcceptInList(table: RoomTable, list: ClientList, fd: int, now: int, ghost w: Server.World)
    returns (client: Client, ok: bool)
    requires w == WorldOf(table) && fd >= 0
    modifies list`clientCount, list`nextClientId, list.clientArray
    ensures fresh(client) && client.room == null && client.state == Connected
    ensures StandingOf(client) == Standing(old(list.nextClientId), fd, false, 0, "", 0, false, 0, now, now)
    ensures WorldOf(table) == w
    ensures list.View() == Accept(old(list.View()), client)
    ensures ok == Add(old(list.View()).(nextId := old(list.nextClientId) + 1), client, old(list.nextClientId), false).1
  {
    hide ClientTable.Accept, ClientTable.Add, SeatingOf, LinkOf, ClientList.View, GamesIn, BoardsIn;
    client, ok := list.Accept(fd, now);
  }

  /** client_list_add for a new connection, and what becomes of the rooms. */
  method AcceptListed(table: RoomTable, list: ClientList, fd: int, now: int, ghost z: Client?, ghost w: Server.World)
    returns (client: Client, ok: bool)
    requires w == WorldOf(table) && Apart(table.live) && InStep(table, list) && fd >= 0
    requires z == Evicted(list.View()) && (z != null ==> z in table.clients && z.isDisconnected)
    modifies list`clientCount, list`nextClientId, list.clientArray, table`clients
    ensures fresh(client)
    ensures StandingOf(client) == Standing(old(list.nextClientId), fd, false, 0, "", 0, false, 0, now, now)
    ensures ok <==> old(list.clientCount < list.clientArray.Length) || z != null
    ensures InStep(table, list) && Apart(table.live)
    ensures table.clients == if ok then old(table.clients) - {z} + {client} else old(table.clients)
    ensures WorldOf(table) == if ok then Server.OnConnect(w, client, z) else w
  {
    hide Accept, Add, Server.OnConnect, ClientTable.Inv;
    ghost var t := list.View();
    client, ok := AcceptInList(table, list, fd, now, w);
    AcceptKeeps(t, client);
    AcceptHolds(t, client);
    if ok {
      Introduce(table, client, z, w);
    }
  }

  /** server_run, once accept has returned a socket: the rooms are in order afterwards unless the list, being full,
      has freed the record of a client that still sits in one of them. */
  method AcceptConnection(table: RoomTable, list: ClientList, fd: int, now: int) returns (client: Client, ok: bool)
    requires Running(table) && InStep(table, list) && fd >= 0
    modifies list`clientCount, list`nextClientId, list.clientArray, table`clients
    ensures fresh(client)
    ensures StandingOf(client) == Standing(old(list.nextClientId), fd, false, 0, "", 0, false, 0, now, now)
    ensures ok <==> old(list.clientCount < list.clientArray.Length || Evicted(list.View()) != null)
    ensures InStep(table, list) && Apart(table.live)
    ensures ok ==> table.clients == old(table.clients) - {old(Evicted(list.View()))} + {client}
    ensures !ok ==> table.clients == old(table.clients)
    ensures WorldOf(table) == if ok then Server.OnConnect(old(WorldOf(table)), client, old(Evicted(list.View())))
                              else old(WorldOf(table))
    ensures Running(table) <==> old(Evicted(list.View()) == null || Evicted(list.View()).room == null)
  {
    ghost var z, w := Evicted(list.View()), WorldOf(table);
    if z != null {
      EvictedIsMarked(list);
      RunningServes(table, z);
    }
    client, ok := AcceptListed(table, list, fd, now, z, w);
    Server.ConnectStep(w, client, z);
  }
}
