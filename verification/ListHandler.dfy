/** handle_list_rooms and client_send_message: what becomes of the list on its way to the client. */
module ListHandler {
  import opened SeqFacts
  import opened Structs
  import opened Rooms
  import opened Text
  import opened CText
  import opened Mirror
  import opened StateMessage
  import opened RoomList
  import opened RoomListParser

  // ---- names are C strings ----

  ghost predicate Named(rs: seq<Info>) {
    forall i :: 0 <= i < |rs| ==> NoNul(rs[i].name)
  }

  lemma PrintNoNul(n: int)
    ensures NoNul(PrintInt(n))
  {
    var digits := Decimal(if n < 0 then -n else n);
    assert PrintInt(n) == (if n < 0 then "-" else "") + digits;
  }

  lemma EntryNoNul(r: Info)
    requires NoNul(r.name)
    ensures NoNul(EntryText(r))
  {
    PrintNoNul(r.id);
    PrintNoNul(r.current);
    PrintNoNul(r.max);
    PrintNoNul(r.boardSize);
  }

  lemma {:induction false} EntriesNoNul(rs: seq<Info>)
    requires Named(rs)
    ensures NoNul(EntriesText(rs))
  {
    if rs != [] {
      EntriesNoNul(rs[..|rs| - 1]);
      EntryNoNul(rs[|rs| - 1]);
    }
  }

  lemma ListNoNul(rs: seq<Info>)
    requires Named(rs)
    ensures NoNul(ListText(rs))
  {
    hide Decimal, EntriesText;
    EntriesNoNul(rs);
    PrintNoNul(|rs|);
  }

  // ---- sending ----

  /** client_send_message: a line that does not fit its buffer with the line feed is not sent. */
  function Line(message: string): (sent: Option<string>)
    ensures sent == Some(message) <==> |message| <= 1024
    ensures sent.Some? ==> sent.value == message
  {
    if |message| + 1 >= MAX_MESSAGE_LENGTH + 2 then None else Some(message)
  }

  const NOT_AUTHENTICATED := "ERROR NOT_AUTHENTICATED Not authenticated"

  /** handle_list_rooms, with whatever the buffer on its stack held before. The client gets the list exactly when a
      line can hold it and there is a terminator after it, which with ten rooms or more is a matter of luck. */
  method HandleListRooms(client: Client, rooms: array<Room?>, buffer: array<char>) returns (sent: Option<string>)
    requires buffer.Length == 4 * MAX_MESSAGE_LENGTH && |ListText(Listed(rooms))| < buffer.Length
    requires Named(Listed(rooms))
    modifies buffer
    ensures !client.Reachable() ==> sent == None
    ensures client.Reachable() && !client.state.AtLeastLobby() ==> sent == Some(NOT_AUTHENTICATED)
    ensures client.Reachable() && client.state.AtLeastLobby() ==>
              var rs := Listed(rooms);
              (sent == Some(ListText(rs))
               <==> && |ListText(rs)| <= 1024
                    && (|rs| < 10 || old(buffer[|ListText(Listed(rooms))|]) == NUL))
  {
    hide ListText, CString, SlotInfos, Shown;
    if !client.state.AtLeastLobby() {
      return if client.Reachable() then Line(NOT_AUTHENTICATED) else None;
    }
    ghost var rs := Listed(rooms);
    var length := GetListMessage(rooms, buffer);
    ListNoNul(rs);
    ReaderSees(buffer[..], ListText(rs));
    sent := if client.Reachable() then Line(CString(buffer[..])) else None;
  }

  // ---- how many rooms a line can hold ----

  /** A room as room_create makes it, while its id has at most three digits. */
  ghost predicate Usual(r: Info) {
    && Listable(r) && NoNul(r.name) && |r.name| < MAX_ROOM_NAME_LENGTH
    && r.id < 1000 && r.max <= ROOM_SEATS && r.boardSize <= 8
  }

  lemma UpToThreeDigits(n: nat)
    requires n < 1000
    ensures |PrintInt(n)| <= 3
  {
    DecimalLength(n / 10);
  }

  lemma EntryIsShort(r: Info)
    requires Usual(r)
    ensures |EntryText(r)| <= 82
  {
    UpToThreeDigits(r.id);
    DecimalLength(r.current);
    DecimalLength(r.max);
    DecimalLength(r.boardSize);
  }

  lemma {:induction false} EntriesAreShort(rs: seq<Info>)
    requires forall i :: 0 <= i < |rs| ==> Usual(rs[i])
    ensures |EntriesText(rs)| <= 82 * |rs|
  {
    if rs != [] {
      EntriesAreShort(rs[..|rs| - 1]);
      EntryIsShort(rs[|rs| - 1]);
    }
  }

  /** Up to twelve rooms always fit into a line. */
  lemma TwelveFit(rs: seq<Info>)
    requires |rs| <= 12 && forall i :: 0 <= i < |rs| ==> Usual(rs[i])
    ensures |ListText(rs)| <= 1024
  {
    EntriesAreShort(rs);
    DecimalLength(|rs|);
    assert |"ROOM_LIST"| == 9;
  }

  /** The text, and something else than its terminator. */
  ghost predicate HoldsUnended(buffer: seq<char>, text: string) {
    |text| < |buffer| && buffer[..|text|] == text && buffer[|text|] != NUL
  }

  /** Ten rooms are enough: their list fits, and with any other byte than NUL behind it the client reads on. */
  lemma TenRoomsRunOn(rs: seq<Info>, buffer: seq<char>)
    requires 10 <= |rs| <= 12 && forall i :: 0 <= i < |rs| ==> Usual(rs[i])
    requires HoldsUnended(buffer, ListText(rs))
    ensures Line(ListText(rs)) == Some(ListText(rs)) && Line(CString(buffer)) != Some(ListText(rs))
  {
    hide ListText, CString;
    TwelveFit(rs);
    ListNoNul(rs);
    ReaderSees(buffer, ListText(rs));
  }

  // ---- tables with such lists ----

  /** What n clients list that have founded a room each. */
  function OneEach(n: nat, name: string): (rs: seq<Info>)
    ensures |rs| == n && forall i :: 0 <= i < n ==> rs[i] == Info(i + 1, name, 1, 2, false, 4)
  {
    seq(n, i => Info(i + 1, name, 1, 2, false, 4))
  }

  lemma {:induction false} ShownFirst(infos: seq<Option<Info>>, rs: seq<Info>)
    requires |rs| <= |infos| && forall k :: 0 <= k < |infos| ==> infos[k] == if k < |rs| then Some(rs[k]) else None
    ensures Shown(infos) == rs
  {
    var n := |infos| - 1;
    if infos == [] {
    } else if infos[n].None? {
      ShownFirst(infos[..n], rs);
    } else {
      ShownFirst(infos[..n], rs[..n]);
      assert rs[..n] + [rs[n]] == rs;
    }
  }

  /** In an empty table each of these clients founds a room: that is what the table lists. */
  method FoundRooms(maxRooms: nat, owners: seq<Client>, name: string) returns (table: RoomTable)
    requires |owners| <= maxRooms && |name| < 64
    modifies (set c | c in owners)`room, (set c | c in owners)`state
    ensures Listed(table.rooms) == OneEach(|owners|, name)
  {
    ghost var founders := set c | c in owners;
    table := new RoomTable(maxRooms);
    table.clients := founders;
    for i := 0 to |owners|
      invariant fresh(table) && fresh(table.rooms) && table.rooms.Length == maxRooms
      invariant table.nextRoomId == i + 1 && table.clients == founders
      invariant forall k :: 0 <= k < i ==> SlotInfo(table.rooms[k]) == Some(OneEach(|owners|, name)[k])
      invariant forall k :: i <= k < maxRooms ==> table.rooms[k] == null
    {
      FoundNext(table, i, owners[i], name);
    }
    ShownFirst(SlotInfos(table.rooms, maxRooms), OneEach(|owners|, name));
  }

  method FoundNext(table: RoomTable, i: nat, owner: Client, name: string)
    requires owner in table.clients && i < table.rooms.Length && |name| < 64
    requires forall k :: 0 <= k < i ==> table.rooms[k] != null
    requires table.rooms[i] == null && table.nextRoomId == i + 1
    modifies table`nextRoomId, table`live, table.rooms, owner`room, owner`state
    ensures table.rooms[..] == old(table.rooms[..])[i := table.rooms[i]] && table.nextRoomId == i + 2
    ensures SlotInfo(table.rooms[i]) == Some(Info(i + 1, name, 1, 2, false, 4))
  {
    FirstIndex(table.rooms[..], null, i);
    var room := table.Create(name, 2, 4, owner);
    assert table.View().rooms[room] == SeatingOf(room);
    assert table.rooms[i] == room && room.name == name;
    assert room.playerCount == 1 && room.state == RoomWaiting;
  }

  /** Ten clients that found a room each are enough, whatever they call it. */
  lemma UsualRooms(n: nat, name: string)
    requires n < 1000 && !Blank(name) && NoSpace(name) && NoNul(name) && |name| < 64
    ensures forall i :: 0 <= i < n ==> Usual(OneEach(n, name)[i])
  {
    forall i | 0 <= i < n ensures Usual(OneEach(n, name)[i]) {
      assert OneEach(n, name)[i] == Info(i + 1, name, 1, 2, false, 4);
    }
  }

  lemma EntryIsLong(r: Info)
    requires |r.name| == 63
    ensures |EntryText(r)| >= 80
  {
    assert |StateWord(r.playing)| == 7;
  }

  lemma {:induction false} EntriesAreLong(rs: seq<Info>)
    requires forall i :: 0 <= i < |rs| ==> |rs[i].name| == 63
    ensures |EntriesText(rs)| >= 80 * |rs|
  {
    if rs != [] {
      EntriesAreLong(rs[..|rs| - 1]);
      EntryIsLong(rs[|rs| - 1]);
    }
  }

  /** One room more than always fit may be too many: thirteen with the longest names are never listed. */
  lemma ThirteenDoNotFit(name: string)
    requires |name| == 63
    ensures Line(ListText(OneEach(13, name))) == None
  {
    EntriesAreLong(OneEach(13, name));
    assert |"ROOM_LIST"| == 9;
  }
}
