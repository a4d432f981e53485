/** Reconnecting: a new client object takes the place of an old one in its room, its game and the client list. */
module Reconnecting {
  import opened SeqFacts
  import opened Structs
  import opened Membership

  /** The scan of handle_reconnect over a room looks at the first player_count seats only. */
  function Reseated(seats: seq<Client?>, count: int, o: Client, n: Client): (r: seq<Client?>)
    ensures |r| == |seats|
    ensures forall i :: 0 <= i < |seats| ==> r[i] == if i < count && seats[i] == o then n else seats[i]
  {
    seq(|seats|, i requires 0 <= i < |seats| => if i < count && seats[i] == o then n else seats[i])
  }

  /** The scan of handle_reconnect over the game's players. */
  function Substituted(players: seq<Client>, o: Client, n: Client): (r: seq<Client>)
    ensures |r| == |players| && forall i :: 0 <= i < |r| ==> r[i] == if players[i] == o then n else players[i]
  {
    seq(|players|, i requires 0 <= i < |players| => if players[i] == o then n else players[i])
  }

  /** What becomes of the membership graph; the old client is freed and the room's owner is left as it is. */
  function Reconnected(g: Graph, o: Client, n: Client): Graph
    requires o in g.clients
  {
    var link := g.clients[o];
    g.(
    rooms := if link.room in g.rooms
    then
      var s := g.rooms[link.room];
      g.rooms[link.room := s.(seats := Reseated(s.seats, s.count, o, n))]
    else g.rooms,
    clients := (g.clients - {o})[n := Link(link.room, link.state, false)])
  }

  /** The seat scan finds the old client, and the room is not left to a client that is gone. */
  ghost predicate Transferable(g: Graph, o: Client) {
    o in g.clients &&
    (g.clients[o].room in g.rooms ==>
       var s := g.rooms[g.clients[o].room];
       IndexOf(s.seats, o) < s.count && s.owner != o)
  }

  ghost predicate Reconnectable(g: Graph, o: Client, n: Client) {
    Inv(g) && o in g.clients && n in g.clients && o != n
  }

  lemma ReseatedAt(seats: seq<Client?>, count: int, o: Client, n: Client, i: int)
    requires SeatedOnce(seats) && 0 <= i < |seats| && seats[i] == o
    ensures Reseated(seats, count, o, n) == if i < count then seats[i := n] else seats
  {
  }

  lemma NobodyLeftBehind(seats: seq<Client?>, count: int, o: Client, n: Client, i: int)
    requires SeatedOnce(seats) && 0 <= i < |seats| && seats[i] == o && n !in seats && o != n
    ensures var r := Reseated(seats, count, o, n);
            && (o in r <==> count <= i)
            && (forall d: Client :: d != o && d != n ==> (d in r <==> d in seats))
            && (n in r <==> i < count)
  {
    ReseatedAt(seats, count, o, n, i);
    if i < count {
      forall d: Client | d != o && d != n ensures d in seats[i := n] <==> d in seats {
        if d in seats {
          var k :| 0 <= k < |seats| && seats[k] == d;
          assert seats[i := n][k] == d;
        }
      }
      assert seats[i := n][i] == n;
    }
  }

  lemma ReseatedSeatsOk(seats: seq<Client?>, count: int, limit: int, o: Client, n: Client, i: int)
    requires SeatsOk(seats, count, limit) && 0 <= i < |seats| && seats[i] == o && n !in seats
    ensures SeatsOk(Reseated(seats, count, o, n), count, limit)
  {
    ReseatedAt(seats, count, o, n, i);
    assert Occupied(Reseated(seats, count, o, n)) == Occupied(seats);
  }

  lemma UnseatedReconnect(g: Graph, o: Client, n: Client)
    requires Reconnectable(g, o, n) && g.clients[o].room == null && g.clients[n].room == null
    ensures Inv(Reconnected(g, o, n))
  {
    var g' := Reconnected(g, o, n);
    UnseatedLinks(g, o, n);
    SlotsIdsStay(g, g');
  }

  lemma UnseatedLinks(g: Graph, o: Client, n: Client)
    requires SeatsLinked(g) && LinksSeated(g) && o in g.clients && n in g.clients
    requires g.clients[o].room == null && g.clients[n].room == null
    ensures SeatsLinked(Reconnected(g, o, n)) && LinksSeated(Reconnected(g, o, n))
  {
  }

  lemma SeatedLinks(g: Graph, o: Client, n: Client, room: Room, i: int)
    requires SeatsLinked(g) && LinksSeated(g) && o in g.clients && n in g.clients && o != n
    requires g.clients[n].room == null && g.clients[o].room == room && room in g.rooms
    requires SeatedOnce(g.rooms[room].seats) && 0 <= i < |g.rooms[room].seats| && g.rooms[room].seats[i] == o
    ensures n !in g.rooms[room].seats
    ensures SeatsLinked(Reconnected(g, o, n)) && LinksSeated(Reconnected(g, o, n)) <==> i < g.rooms[room].count
  {
    var s, g' := g.rooms[room], Reconnected(g, o, n);
    NobodyLeftBehind(s.seats, s.count, o, n, i);
    if i >= s.count {
      assert o in g'.rooms[room].seats && o !in g'.clients;
    }
  }

  lemma SeatedReconnect(g: Graph, o: Client, n: Client, room: Room, i: int)
    requires Reconnectable(g, o, n) && g.clients[n].room == null
    requires g.clients[o].room == room && room in g.rooms
    requires 0 <= i < |g.rooms[room].seats| && g.rooms[room].seats[i] == o
    ensures Inv(Reconnected(g, o, n)) <==> i < g.rooms[room].count && g.rooms[room].owner != o
  {
    var s, g' := g.rooms[room], Reconnected(g, o, n);
    assert SeatingOk(room, s);
    SeatedLinks(g, o, n, room, i);
    if i < s.count {
      SlotsIdsStay(g, g');
      ReseatedSeatsOk(s.seats, s.count, room.maxPlayers, o, n, i);
      NobodyLeftBehind(s.seats, s.count, o, n, i);
      OwnerSeated(g', room, s.owner, o, n);
    }
  }

  lemma OwnerSeated(g: Graph, room: Room, owner: Client, o: Client, n: Client)
    requires room in g.rooms && g.rooms[room].owner == owner
    requires o !in g.rooms[room].seats && (owner != o ==> owner in g.rooms[room].seats)
    ensures owner in g.rooms[room].seats <==> owner != o
  {
  }

  /** handle_reconnect does not look at the room of the new client, which keeps its seat there: the seat is now of a
      client that is in another room or in none, or the client sits twice, or the old one still sits beside it. */
  lemma SeatLeftBehind(g: Graph, o: Client, n: Client, room: Room, k: int)
    requires Reconnectable(g, o, n) && g.clients[n].room == room && room in g.rooms
    requires 0 <= k < |g.rooms[room].seats| && g.rooms[room].seats[k] == n
    ensures !Inv(Reconnected(g, o, n))
  {
    var g', seats := Reconnected(g, o, n), g.rooms[room].seats;
    assert g'.rooms[room].seats[k] == n;
    if g.clients[o].room == room {
      IndexOfIs(seats, o);
      SeatedTwice(seats, g.rooms[room].count, o, n, IndexOf(seats, o), k);
      if SeatedOnce(g'.rooms[room].seats) {
        assert o in g'.rooms[room].seats && o !in g'.clients;
      } else {
        assert !SeatingOk(room, g'.rooms[room]);
      }
    } else {
      assert n in g'.rooms[room].seats && g'.clients[n].room != room;
    }
  }

  lemma SeatedTwice(seats: seq<Client?>, count: int, o: Client, n: Client, i: int, k: int)
    requires 0 <= i < |seats| && 0 <= k < |seats| && seats[i] == o && seats[k] == n && o != n
    ensures o in Reseated(seats, count, o, n) || !SeatedOnce(Reseated(seats, count, o, n))
  {
    var r := Reseated(seats, count, o, n);
    if i < count {
      assert r[i] == r[k] == n;
    } else {
      assert r[i] == o;
    }
  }

  /** Reconnecting keeps the membership graph in order exactly when the new client is in no room, and the old client is
      in none either, or sits among the first player_count seats of a room that it does not own: otherwise a seat, or
      the room's owner, is left pointing to a client that is gone or elsewhere. */
  lemma ReconnectKeepsExactlyWhen(g: Graph, o: Client, n: Client)
    requires Reconnectable(g, o, n)
    ensures Inv(Reconnected(g, o, n)) <==> g.clients[n].room == null && Transferable(g, o)
  {
    var link := g.clients[o];
    if g.clients[n].room != null {
      var room := g.clients[n].room as Room;
      assert n in g.rooms[room].seats;
      IndexOfIs(g.rooms[room].seats, n);
      SeatLeftBehind(g, o, n, room, IndexOf(g.rooms[room].seats, n));
    } else if link.room == null {
      UnseatedReconnect(g, o, n);
      assert link.room !in g.rooms;
    } else {
      assert link.room in g.rooms && o in g.rooms[link.room].seats;
      var seats := g.rooms[link.room].seats;
      IndexOfIs(seats, o);
      SeatedReconnect(g, o, n, link.room, IndexOf(seats, o));
    }
  }

  /** In a room without holes the seat scan always finds its client. */
  lemma DenseRoomScan(seats: seq<Client?>, count: int, limit: int, o: Client)
    requires SeatsOk(seats, count, limit) && o in seats
    requires forall i :: 0 <= i < |seats| && seats[i] != null ==> i < count
    ensures IndexOf(seats, o) < count
  {
    IndexOfIs(seats, o);
  }
}
