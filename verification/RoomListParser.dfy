/** The lobby's reading of ROOM_LIST (LobbyController.handleRoomList), and the round trip. */
module RoomListParser {
  import opened Structs
  import opened Text
  import opened CText
  import opened Mirror
  import opened RoomList

  datatype LobbyRoom = LobbyRoom(id: int, name: string, current: int, max: int, state: string, boardSize: int)

  /** One turn of the parsing loop: the room, if the six words describe one, and the index it leaves. A word that
      is rejected, or is not a number, ends the turn where it stands. */
  function ReadRoom(parts: seq<string>, index: nat): (r: (Option<LobbyRoom>, nat))
    requires index + 5 < |parts|
    ensures index < r.1 <= index + 6
  {
    var id := ParseInt(parts[index]);
    if id.None? || id.value < 0 then (None, index + 1)
    else if Blank(parts[index + 1]) then (None, index + 2)
    else
      var current, max := ParseInt(parts[index + 2]), ParseInt(parts[index + 3]);
      if current.None? then (None, index + 3)
      else if max.None? || current.value < 0 || max.value < 1 || max.value > 10 || current.value > max.value
      then (None, index + 4)
      else
        var size := ParseInt(parts[index + 5]);
        if size.None? || size.value < 2 || size.value > 10 || parts[index + 4] == "FINISHED" then (None, index + 6)
        else (Some(LobbyRoom(id.value, parts[index + 1], current.value, max.value, parts[index + 4], size.value)),
              index + 6)
  }

  /** A room is read exactly when all six words make sense: an id from 0 on, a name that is not blank, no more players
      than there may be, at most ten, any state but FINISHED, and a board size from 2 to 10. Otherwise the next room is
      looked for right behind the first word that does not, or behind the limit when the two numbers do not fit. */
  lemma RoomRead(parts: seq<string>, index: nat, room: LobbyRoom)
    requires index + 5 < |parts|
    ensures ReadRoom(parts, index).0 == Some(room)
            <==> && ParseInt(parts[index]) == Some(room.id) && room.id >= 0
                 && room.name == parts[index + 1] && !(forall i :: 0 <= i < |room.name| ==> room.name[i] <= ' ')
                 && ParseInt(parts[index + 2]) == Some(room.current)
                 && ParseInt(parts[index + 3]) == Some(room.max) && 0 <= room.current <= room.max && 1 <= room.max <= 10
                 && room.state == parts[index + 4] && room.state != "FINISHED"
                 && ParseInt(parts[index + 5]) == Some(room.boardSize) && 2 <= room.boardSize <= 10
    ensures var next, id, name := ReadRoom(parts, index).1 - index, ParseInt(parts[index]), parts[index + 1];
            var current, max := ParseInt(parts[index + 2]), ParseInt(parts[index + 3]);
            var named := exists i :: 0 <= i < |name| && name[i] > ' ';
            && (next == 1 <==> id.None? || id.value < 0)
            && (next == 2 <==> id.Some? && id.value >= 0 && !named)
            && (next == 3 <==> id.Some? && id.value >= 0 && named && current.None?)
            && (next == 4 <==> && id.Some? && id.value >= 0 && named && current.Some?
                               && (max.None? || !(0 <= current.value <= max.value && 1 <= max.value <= 10)))
            && (next == 6 <==> && id.Some? && id.value >= 0 && named && current.Some? && max.Some?
                               && 0 <= current.value <= max.value && 1 <= max.value <= 10)
  {
    hide ParseInt;
  }

  type Turn = (Option<LobbyRoom>, nat)

  /** The parsing loop over whatever one turn does at an index. */
  function ReadLoop(turn: nat -> Turn, size: nat, count: int, index: nat): seq<LobbyRoom>
    decreases count
  {
    if count <= 0 || index + 5 >= size then []
    else
      var (room, next) := turn(index);
      (if room.None? then [] else [room.value]) + ReadLoop(turn, size, count - 1, next)
  }

  function TurnOf(parts: seq<string>): nat -> Turn {
    (index: nat) => if index + 5 < |parts| then ReadRoom(parts, index) else (None, index)
  }

  function ReadRooms(parts: seq<string>, count: int, index: nat): seq<LobbyRoom> {
    ReadLoop(TurnOf(parts), |parts|, count, index)
  }

  /** None when the message is ignored. */
  function ParseRoomList(text: string): Option<seq<LobbyRoom>> {
    var parts := Split(text);
    if |parts| < 2 then None
    else
      var count := ParseInt(parts[1]);
      if count.None? || count.value < 0 then None else Some(ReadRooms(parts, count.value, 2))
  }

  /** What one turn of the loop adds to the rooms found so far. */
  function Found(found: seq<LobbyRoom>, room: Option<LobbyRoom>): seq<LobbyRoom> {
    if room.None? then found else found + [room.value]
  }

  lemma ReadLoopStep(turn: nat -> Turn, size: nat, found: seq<LobbyRoom>, count: int, index: nat)
    requires count > 0 && index + 5 < size
    ensures var (room, next) := turn(index);
            found + ReadLoop(turn, size, count, index) == Found(found, room) + ReadLoop(turn, size, count - 1, next)
  {
    var (room, next) := turn(index);
    var rest := ReadLoop(turn, size, count - 1, next);
    assert found + ((if room.None? then [] else [room.value]) + rest) == Found(found, room) + rest;
  }

  method ReadAll(parts: seq<string>, count: nat) returns (found: seq<LobbyRoom>)
    ensures found == ReadRooms(parts, count, 2)
  {
    found := [];
    var index, i := 2, 0;
    while i < count && index + 5 < |parts|
      invariant 2 <= index && 0 <= i <= count
      invariant found + ReadRooms(parts, count - i, index) == ReadRooms(parts, count, 2)
    {
      ReadLoopStep(TurnOf(parts), |parts|, found, count - i, index);
      var step := ReadRoom(parts, index);
      found := Found(found, step.0);
      index, i := step.1, i + 1;
    }
    assert ReadRooms(parts, count - i, index) == [];
  }

  method HandleRoomList(message: string) returns (rooms: Option<seq<LobbyRoom>>)
    ensures rooms == ParseRoomList(message)
  {
    var parts := Split(message);
    if |parts| < 2 {
      return None;
    }
    var count := ParseInt(parts[1]);
    if count.None? || count.value < 0 {
      return None;
    }
    var found := ReadAll(parts, count.value);
    return Some(found);
  }

  // ---- the round trip ----

  /** Words followed by groups of words. */
  function Flat(head: seq<string>, groups: seq<seq<string>>): seq<string> {
    if groups == [] then head else Flat(head, groups[..|groups| - 1]) + groups[|groups| - 1]
  }

  function Groups(rs: seq<Info>): (gs: seq<seq<string>>)
    ensures |gs| == |rs| && forall i :: 0 <= i < |gs| ==> gs[i] == EntryWords(rs[i])
  {
    seq(|rs|, i requires 0 <= i < |rs| => EntryWords(rs[i]))
  }

  function ListWords(head: seq<string>, rs: seq<Info>): seq<string> {
    Flat(head, Groups(rs))
  }

  lemma EntryJoined(head: seq<string>, r: Info)
    requires head != []
    ensures Joined(head + EntryWords(r)) == Joined(head) + EntryText(r)
  {
    var ws := EntryWords(r);
    JoinedTwo(head, ws[0], ws[1]);
    JoinedTwo(head + [ws[0], ws[1]], ws[2], ws[3]);
    JoinedTwo(head + [ws[0], ws[1]] + [ws[2], ws[3]], ws[4], ws[5]);
    assert head + ws == head + [ws[0], ws[1]] + [ws[2], ws[3]] + [ws[4], ws[5]];
    Regroup(Joined(head), " " + ws[0] + " " + ws[1], " " + ws[2] + " " + ws[3], " " + ws[4] + " " + ws[5]);
    EntryTextOf(r);
  }

  lemma JoinedTwo(head: seq<string>, a: string, b: string)
    requires head != []
    ensures Joined(head + [a, b]) == Joined(head) + (" " + a + " " + b)
  {
    JoinedAppend(head, a);
    JoinedAppend(head + [a], b);
    assert head + [a, b] == head + [a] + [b];
    assert Joined(head) + " " + a + " " + b == Joined(head) + (" " + a + " " + b);
  }

  lemma Regroup(a: string, b: string, c: string, d: string)
    ensures a + b + c + d == a + (b + c + d)
  {
  }

  lemma EntryTextOf(r: Info)
    ensures var ws := EntryWords(r);
            EntryText(r) == (" " + ws[0] + " " + ws[1]) + (" " + ws[2] + " " + ws[3]) + (" " + ws[4] + " " + ws[5])
  {
  }

  lemma ListWordsStep(head: seq<string>, rs: seq<Info>)
    requires rs != []
    ensures ListWords(head, rs) == ListWords(head, rs[..|rs| - 1]) + EntryWords(rs[|rs| - 1])
  {
    assert Groups(rs)[..|rs| - 1] == Groups(rs[..|rs| - 1]);
  }

  lemma EntryJoins(words: seq<string>, text: string, before: string, r: Info, all: seq<string>)
    requires words != [] && Joined(words) == text + before && all == words + EntryWords(r)
    ensures all != [] && Joined(all) == text + (before + EntryText(r))
  {
    EntryJoined(words, r);
    Glue(text, before, EntryText(r));
  }

  lemma {:induction false} ListJoined(head: seq<string>, rs: seq<Info>)
    requires head != []
    ensures ListWords(head, rs) != []
    ensures Joined(ListWords(head, rs)) == Joined(head) + EntriesText(rs)
  {
    if rs == [] {
      assert Joined(head) + "" == Joined(head);
    } else {
      var n := |rs| - 1;
      ListJoined(head, rs[..n]);
      ListWordsStep(head, rs);
      EntryJoins(ListWords(head, rs[..n]), Joined(head), EntriesText(rs[..n]), rs[n], ListWords(head, rs));
    }
  }

  lemma Glue(a: string, b: string, c: string)
    ensures a + b + c == a + (b + c)
  {
  }

  /** What the server's rooms look like: valid ids, names and counts. */
  ghost predicate Listable(r: Info) {
    && 0 <= r.id <= INT_MAX && !Blank(r.name) && NoSpace(r.name)
    && 0 <= r.current <= r.max && 1 <= r.max <= 10 && 2 <= r.boardSize <= 10
  }

  ghost function AsLobbyRoom(r: Info): LobbyRoom {
    LobbyRoom(r.id, r.name, r.current, r.max, StateWord(r.playing), r.boardSize)
  }

  ghost function AsLobbyRooms(rs: seq<Info>): (ls: seq<LobbyRoom>)
    ensures |ls| == |rs| && forall i :: 0 <= i < |rs| ==> ls[i] == AsLobbyRoom(rs[i])
  {
    seq(|rs|, i requires 0 <= i < |rs| => AsLobbyRoom(rs[i]))
  }

  lemma {:induction false} FlatAt(head: seq<string>, groups: seq<seq<string>>, k: int)
    requires 0 <= k < |groups| && forall i :: 0 <= i < |groups| ==> |groups[i]| == 6
    ensures |Flat(head, groups)| == |head| + 6 * |groups|
    ensures Flat(head, groups)[|head| + 6 * k..|head| + 6 * k + 6] == groups[k]
    ensures Flat(head, groups)[..|head|] == head
  {
    var n := |groups| - 1;
    if k < n {
      FlatAt(head, groups[..n], k);
    } else if n > 0 {
      FlatAt(head, groups[..n], 0);
    } else {
      assert Flat(head, groups[..n]) == head;
    }
  }

  lemma EntryReadBack(parts: seq<string>, index: nat, r: Info)
    requires index + 6 <= |parts| && parts[index..index + 6] == EntryWords(r) && Listable(r)
    ensures ReadRoom(parts, index) == (Some(AsLobbyRoom(r)), index + 6)
  {
    var ws := EntryWords(r);
    var six := parts[index..index + 6];
    assert six[0] == parts[index] && six[1] == parts[index + 1] && six[2] == parts[index + 2];
    assert six[3] == parts[index + 3] && six[4] == parts[index + 4] && six[5] == parts[index + 5];
    ParsePrint(r.id);
    ParsePrint(r.current);
    ParsePrint(r.max);
    ParsePrint(r.boardSize);
  }

  /** The turn that starts where the words of room k stand reads that room and moves on by six words. */
  ghost predicate ReadsAt(turn: nat -> Turn, start: nat, ls: seq<LobbyRoom>, k: nat) {
    k < |ls| && turn(start + 6 * k) == (Some(ls[k]), start + 6 * (k + 1))
  }

  ghost predicate AllRead(turn: nat -> Turn, start: nat, ls: seq<LobbyRoom>) {
    forall k: nat :: k < |ls| ==> ReadsAt(turn, start, ls, k)
  }

  /** If every turn reads its room, so does the loop. */
  lemma {:induction false} LoopReads(turn: nat -> Turn, start: nat, ls: seq<LobbyRoom>, k: nat)
    requires k <= |ls| && AllRead(turn, start, ls)
    ensures ReadLoop(turn, start + 6 * |ls|, |ls| - k, start + 6 * k) == ls[k..]
    decreases |ls| - k
  {
    if k < |ls| {
      LoopReads(turn, start, ls, k + 1);
      assert ReadsAt(turn, start, ls, k);
      assert ls[k..] == [ls[k]] + ls[k + 1..];
    }
  }

  lemma TurnReads(rs: seq<Info>, head: seq<string>, k: nat)
    requires k < |rs| && Listable(rs[k])
    ensures ReadsAt(TurnOf(ListWords(head, rs)), |head|, AsLobbyRooms(rs), k)
  {
    hide ReadRoom, EntryWords, Listable, Flat;
    FlatAt(head, Groups(rs), k);
    EntryReadBack(ListWords(head, rs), |head| + 6 * k, rs[k]);
  }

  lemma TurnsRead(rs: seq<Info>, head: seq<string>)
    requires forall i :: 0 <= i < |rs| ==> Listable(rs[i])
    ensures AllRead(TurnOf(ListWords(head, rs)), |head|, AsLobbyRooms(rs))
  {
    forall k: nat | k < |rs| ensures ReadsAt(TurnOf(ListWords(head, rs)), |head|, AsLobbyRooms(rs), k) {
      TurnReads(rs, head, k);
    }
  }

  lemma HeadOfList(rs: seq<Info>, head: seq<string>, i: int)
    requires 0 <= i < |head|
    ensures i < |ListWords(head, rs)| && ListWords(head, rs)[i] == head[i]
  {
    if rs != [] {
      FlatAt(head, Groups(rs), 0);
      assert ListWords(head, rs)[..|head|][i] == head[i];
    }
  }

  lemma ListLength(rs: seq<Info>, head: seq<string>)
    ensures |ListWords(head, rs)| == |head| + 6 * |rs|
  {
    if rs != [] {
      FlatAt(head, Groups(rs), 0);
    }
  }

  lemma ListWordAt(head: seq<string>, rs: seq<Info>, i: int)
    requires forall k :: 0 <= k < |rs| ==> Listable(rs[k])
    requires forall k :: 0 <= k < |head| ==> head[k] != "" && NoSpace(head[k])
    requires 0 <= i < |ListWords(head, rs)|
    ensures ListWords(head, rs)[i] != "" && NoSpace(ListWords(head, rs)[i])
  {
    var ws := ListWords(head, rs);
    if rs == [] {
      assert ws == head;
    } else {
      FlatAt(head, Groups(rs), 0);
      if i < |head| {
        assert ws[..|head|][i] == ws[i];
      } else {
        EntryWordAt(head, rs, i);
      }
    }
  }

  lemma EntryWordAt(head: seq<string>, rs: seq<Info>, i: int)
    requires rs != [] && |head| <= i < |ListWords(head, rs)| == |head| + 6 * |rs|
    requires forall k :: 0 <= k < |rs| ==> Listable(rs[k])
    ensures ListWords(head, rs)[i] != "" && NoSpace(ListWords(head, rs)[i])
  {
    var k := (i - |head|) / 6;
    FlatAt(head, Groups(rs), k);
    EntryWordOk(rs[k], i - |head| - 6 * k);
    assert ListWords(head, rs)[|head| + 6 * k..|head| + 6 * k + 6][i - |head| - 6 * k] == ListWords(head, rs)[i];
  }

  lemma EntryWordOk(r: Info, j: int)
    requires Listable(r) && 0 <= j < 6
    ensures EntryWords(r)[j] != "" && NoSpace(EntryWords(r)[j])
  {
    PrintNoSpace(r.id);
    PrintNoSpace(r.current);
    PrintNoSpace(r.max);
    PrintNoSpace(r.boardSize);
    assert r.name != "";
  }

  lemma ListRead(rs: seq<Info>, head: seq<string>)
    requires forall i :: 0 <= i < |rs| ==> Listable(rs[i])
    ensures ReadRooms(ListWords(head, rs), |rs|, |head|) == AsLobbyRooms(rs)
  {
    ListLength(rs, head);
    TurnsRead(rs, head);
    LoopReadsAll(TurnOf(ListWords(head, rs)), |head|, AsLobbyRooms(rs));
  }

  lemma LoopReadsAll(turn: nat -> Turn, start: nat, ls: seq<LobbyRoom>)
    requires AllRead(turn, start, ls)
    ensures ReadLoop(turn, start + 6 * |ls|, |ls|, start) == ls
  {
    LoopReads(turn, start, ls, 0);
    assert ls[0..] == ls;
  }

  lemma ListSplit(rs: seq<Info>, head: seq<string>)
    requires head == ["ROOM_LIST", PrintInt(|rs|)] && forall i :: 0 <= i < |rs| ==> Listable(rs[i])
    ensures Split(ListText(rs)) == ListWords(head, rs)
  {
    var parts := ListWords(head, rs);
    PrintNoSpace(|rs|);
    forall i | 0 <= i < |parts| ensures parts[i] != "" && NoSpace(parts[i]) {
      ListWordAt(head, rs, i);
    }
    ListJoined(head, rs);
    HeadJoined(rs);
    SplitJoined(parts);
  }

  /** What the lobby shows is what the table lists: the same rooms, in the same order, for any number of them. */
  lemma RoomListRoundTrip(rs: seq<Info>)
    requires |rs| <= INT_MAX && forall i :: 0 <= i < |rs| ==> Listable(rs[i])
    ensures ParseRoomList(ListText(rs)) == Some(AsLobbyRooms(rs))
  {
    var head := ["ROOM_LIST", PrintInt(|rs|)];
    ListSplit(rs, head);
    HeadOfList(rs, head, 1);
    ParsePrint(|rs|);
    ListRead(rs, head);
  }

  /** A room whose record has what the lobby accepts. */
  ghost predicate Sound(r: Room)
    reads r
  {
    && 0 <= r.roomId <= INT_MAX && !Blank(r.name) && NoSpace(r.name)
    && 0 <= r.playerCount <= r.maxPlayers && 1 <= r.maxPlayers <= 10 && 2 <= r.boardSize <= 10
  }

  /** From the server's table to the lobby: it shows exactly the rooms that are there and not finished, in slot
      order, each with the number of players its record has, and as playing exactly when it plays. */
  lemma LobbyShows(rooms: array<Room?>) returns (ks: seq<int>)
    requires rooms.Length <= INT_MAX
    requires forall i :: 0 <= i < rooms.Length && rooms[i] != null ==> Sound(rooms[i])
    ensures Ascending(ks)
    ensures forall i :: i in ks <==> 0 <= i < rooms.Length && rooms[i] != null && rooms[i].state != RoomFinished
    ensures var shown := ParseRoomList(ListText(Listed(rooms)));
            && shown.Some? && |shown.value| == |ks|
            && forall k :: 0 <= k < |ks| ==>
                 && ks[k] in ks
                 && var r := rooms[ks[k]];
                    shown.value[k] == LobbyRoom(r.roomId, r.name, r.playerCount, r.maxPlayers,
                                                if r.state == RoomPlaying then "PLAYING" else "WAITING", r.boardSize)
  {
    var rs := Listed(rooms);
    ks := ListedRooms(rooms);
    forall k | 0 <= k < |rs| ensures Listable(rs[k]) {
      assert ks[k] in ks && Sound(rooms[ks[k]]);
    }
    RoomListRoundTrip(rs);
  }

  lemma DenText()
    ensures ListText([Info(7, "den", 2, 2, true, 4)]) == "ROOM_LIST 1 7 den 2 2 PLAYING 4"
  {
    var den := Info(7, "den", 2, 2, true, 4);
    OneEntry(den);
    FewNumbers();
    hide PrintInt, EntriesText;
  }

  lemma FewNumbers()
    ensures PrintInt(1) == "1" && PrintInt(2) == "2" && PrintInt(4) == "4" && PrintInt(7) == "7"
  {
  }

  lemma OneEntry(r: Info)
    ensures EntriesText([r]) == EntryText(r)
  {
    assert [r][..0] == [];
    assert EntriesText([r]) == "" + EntryText(r);
  }

  /** A room for two, both there and playing, and how the list says so. */
  lemma PlayingRoomText(rooms: array<Room?>, r: Room)
    requires rooms.Length == 1 && rooms[0] == r && r.state == RoomPlaying && r.playerCount == 2
    requires r.roomId == 7 && r.name == "den" && r.maxPlayers == 2 && r.boardSize == 4
    ensures ListText(Listed(rooms)) == "ROOM_LIST 1 7 den 2 2 PLAYING 4"
  {
    hide ListText;
    var ks := ListedRooms(rooms);
    assert 0 in ks;
    assert Listed(rooms) == [Info(7, "den", 2, 2, true, 4)];
    DenText();
  }

  lemma HeadJoined(rs: seq<Info>)
    ensures Joined(["ROOM_LIST", PrintInt(|rs|)]) + EntriesText(rs) == ListText(rs)
  {
    JoinedAppend(["ROOM_LIST"], PrintInt(|rs|));
    assert ["ROOM_LIST"] + [PrintInt(|rs|)] == ["ROOM_LIST", PrintInt(|rs|)];
    Glue("ROOM_LIST", " ", PrintInt(|rs|));
  }

  /** A reader of the C string sees the text exactly when the byte after it is a terminator. */
  lemma ReaderSees(buffer: seq<char>, text: string)
    requires |text| < |buffer| && buffer[..|text|] == text && NoNul(text)
    ensures CString(buffer) == text <==> buffer[|text|] == NUL
  {
    if buffer[|text|] == NUL {
      CStringIs(buffer, |text|);
    }
  }
}
