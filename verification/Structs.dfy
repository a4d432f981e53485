/** The records the server keeps for a client and for a room, and what a room's four seats look like. */
module Structs {
  import opened SeqFacts
  import opened GameModel
  import opened Games

  const ROOM_SEATS := 4
  const MAX_ROOM_NAME_LENGTH := 64

  datatype ClientState = Disconnected | Connected | Authenticated | InLobby | InRoom | InGame {
    /** state >= STATE_IN_LOBBY */
    predicate AtLeastLobby() {
      InLobby? || InRoom? || InGame?
    }

    /** state >= STATE_AUTHENTICATED */
    predicate AtLeastAuthenticated() {
      Authenticated? || AtLeastLobby()
    }
  }

  datatype RoomState = RoomWaiting | RoomPlaying | RoomFinished

  class Client {
    var socketFd: int
    var nickname: string
    var state: ClientState
    var lastActivity: int
    var invalidMessageCount: int
    var clientId: int
    var room: Room?
    var isDisconnected: bool
    var disconnectTime: int
    var waitingForPong: bool
    var lastPingTime: int
    var lastPongTime: int

    /** A client as server_run sets it up for a new connection. */
    constructor (fd: int, id: int, now: int)
      ensures socketFd == fd && clientId == id && nickname == "" && state == Connected && room == null
      ensures !isDisconnected && !waitingForPong && invalidMessageCount == 0
      ensures lastActivity == now && lastPongTime == now && lastPingTime == 0 && disconnectTime == 0
    {
      socketFd, clientId, nickname, state, room := fd, id, "", Connected, null;
      isDisconnected, waitingForPong, invalidMessageCount := false, false, 0;
      lastActivity, lastPongTime, lastPingTime, disconnectTime := now, now, 0, 0;
    }

    /** client_send_message gives up on clients that are not connected. */
    predicate Reachable()
      reads this`isDisconnected, this`socketFd
    {
      !isDisconnected && socketFd >= 0
    }
  }

  /** A client's record, but for its state and its room. */
  datatype Standing = Standing(
    id: int, socket: int, marked: bool, markedAt: int, nickname: string, errors: int,
    waiting: bool, lastPing: int, lastPong: int, lastActivity: int)

  ghost function StandingOf(c: Client): Standing
    reads c`clientId, c`socketFd, c`isDisconnected, c`disconnectTime, c`nickname, c`invalidMessageCount
    reads c`waitingForPong, c`lastPingTime, c`lastPongTime, c`lastActivity
  {
    Standing(c.clientId, c.socketFd, c.isDisconnected, c.disconnectTime, c.nickname, c.invalidMessageCount,
             c.waitingForPong, c.lastPingTime, c.lastPongTime, c.lastActivity)
  }

  ghost function Standings(clients: set<Client>): map<Client, Standing>
    reads clients`clientId, clients`socketFd, clients`isDisconnected, clients`disconnectTime, clients`nickname
    reads clients`invalidMessageCount, clients`waitingForPong, clients`lastPingTime, clients`lastPongTime
    reads clients`lastActivity
  {
    map c | c in clients :: StandingOf(c)
  }

  class Room {
    const roomId: int
    const name: string
    const maxPlayers: int
    const boardSize: int
    var players: seq<Client?>
    var playerCount: int
    var state: RoomState
    var owner: Client
    var game: Game?<Client>

    constructor (id: int, name: string, maxPlayers: int, boardSize: int, owner: Client)
      ensures roomId == id && this.name == name && this.maxPlayers == maxPlayers && this.boardSize == boardSize
      ensures players == [owner, null, null, null] && playerCount == 1
      ensures state == RoomWaiting && this.owner == owner && game == null
    {
      roomId, this.name, this.maxPlayers, this.boardSize := id, name, maxPlayers, boardSize;
      players, playerCount, state, this.owner, game := [owner, null, null, null], 1, RoomWaiting, owner, null;
    }
  }

  // ---- a client's room, those in it, its game and its board, for frames ----

  ghost function OwnRoom(c: Client): set<Room>
    reads c`room
  {
    if c.room == null then {} else {c.room}
  }

  ghost function Mates(c: Client): set<Client>
    reads c`room, OwnRoom(c)`players
  {
    if c.room == null then {} else set d: Client | d in c.room.players
  }

  ghost function OwnGame(c: Client): set<Game<Client>>
    reads c`room, OwnRoom(c)`game
  {
    if c.room == null || c.room.game == null then {} else {c.room.game}
  }

  ghost function OwnBoard(c: Client): set<array<Card>>
    reads c`room, OwnRoom(c)`game
  {
    if c.room == null || c.room.game == null then {} else {c.room.game.cards}
  }

  ghost function Nicknames(players: seq<Client>): map<Client, string>
    reads players`nickname
  {
    map c | c in players :: c.nickname
  }

  ghost function Occupied(seats: seq<Client?>): set<int> {
    set i | 0 <= i < |seats| && seats[i] != null
  }

  ghost predicate SeatedOnce(seats: seq<Client?>) {
    forall i, j :: 0 <= i < j < |seats| && seats[i] != null ==> seats[i] != seats[j]
  }

  /** The occupied seats are below the limit, hold different clients, and are counted exactly. */
  ghost predicate SeatsOk(seats: seq<Client?>, count: int, limit: int) {
    && |seats| == ROOM_SEATS && 2 <= limit <= ROOM_SEATS
    && Occupied(seats) <= Below(limit)
    && count == |Occupied(seats)|
    && SeatedOnce(seats)
  }

  ghost predicate FirstFree(seats: seq<Client?>, i: int) {
    0 <= i < |seats| && seats[i] == null && forall k :: 0 <= k < i ==> seats[k] != null
  }

  lemma EmptySeatBelow(seats: seq<Client?>, count: int, limit: int) returns (i: int)
    requires SeatsOk(seats, count, limit) && count < limit
    ensures 0 <= i < limit && seats[i] == null
  {
    if Below(limit) <= Occupied(seats) {
      SubsetCard(Below(limit), Occupied(seats));
      assert false;
    }
    i :| i in Below(limit) && i !in Occupied(seats);
  }

  /** Pigeonhole: below the limit the first free seat is a seat below the limit, so joining keeps the seats dense
      enough for the count to describe them. */
  lemma JoinKeepsSeats(seats: seq<Client?>, count: int, limit: int, i: int, c: Client)
    requires SeatsOk(seats, count, limit) && count < limit
    requires FirstFree(seats, i) && c !in seats
    ensures i < limit && SeatsOk(seats[i := c], count + 1, limit)
  {
    var e := EmptySeatBelow(seats, count, limit);
    assert Occupied(seats[i := c]) == Occupied(seats) + {i};
  }

  lemma LeaveKeepsSeats(seats: seq<Client?>, count: int, limit: int, i: int)
    requires SeatsOk(seats, count, limit)
    requires 0 <= i < |seats| && seats[i] != null
    ensures SeatsOk(seats[i := null], count - 1, limit)
    ensures seats[i] !in seats[i := null]
  {
    assert Occupied(seats[i := null]) == Occupied(seats) - {i};
  }

  /** A full room has no hole among its first count seats, and nobody sits beyond them. */
  lemma FullRoomIsDense(seats: seq<Client?>, count: int, limit: int)
    requires SeatsOk(seats, count, limit) && count >= limit
    ensures count == limit
    ensures forall i :: 0 <= i < |seats| ==> (seats[i] != null <==> i < count)
    ensures forall i, j :: 0 <= i < j < count ==> seats[i] != seats[j]
  {
    SubsetCard(Occupied(seats), Below(limit));
    forall i | 0 <= i < |seats| ensures seats[i] != null <==> i < count {
      assert i in Occupied(seats) <==> i in Below(limit);
    }
  }

  lemma SeatTaken(seats: seq<Client?>, i: int, c: Client, d: Client)
    requires 0 <= i < |seats| && seats[i] == null
    ensures d in seats[i := c] <==> d == c || d in seats
  {
    if d in seats {
      var k :| 0 <= k < |seats| && seats[k] == d;
      assert seats[i := c][k] == d;
    }
    assert seats[i := c][i] == c;
  }

  lemma SeatCleared(seats: seq<Client?>, i: int, d: Client)
    requires SeatedOnce(seats) && 0 <= i < |seats| && seats[i] != null
    ensures d in seats[i := null] <==> d in seats && d != seats[i]
  {
    if d in seats && d != seats[i] {
      var k :| 0 <= k < |seats| && seats[k] == d;
      assert seats[i := null][k] == d;
    }
  }
}
