/** The ROOM_LIST text: printed by room_get_list_message, whose count is spliced in at the end, and read by the
    lobby's handleRoomList. */
module RoomList {
  import opened Structs
  import opened Text
  import opened CText

  datatype Info = Info(id: int, name: string, current: int, max: int, playing: bool, boardSize: int)

  // ---- the text ----

  function StateWord(playing: bool): string {
    if playing then "PLAYING" else "WAITING"
  }

  function EntryWords(r: Info): (ws: seq<string>)
    ensures |ws| == 6
  {
    [PrintInt(r.id), r.name, PrintInt(r.current), PrintInt(r.max), StateWord(r.playing), PrintInt(r.boardSize)]
  }

  function EntryText(r: Info): (s: string)
    ensures |s| > 0
  {
    " " + PrintInt(r.id) + " " + r.name + " " + PrintInt(r.current) + " " + PrintInt(r.max)
    + " " + StateWord(r.playing) + " " + PrintInt(r.boardSize)
  }

  function EntriesText(rs: seq<Info>): string {
    if rs == [] then "" else EntriesText(rs[..|rs| - 1]) + EntryText(rs[|rs| - 1])
  }

  /** The text as it would be printed with the count known from the start. */
  function Counted(head: string, rs: seq<Info>): string {
    head + (" " + PrintInt(|rs|)) + EntriesText(rs)
  }

  function ListText(rs: seq<Info>): string {
    Counted("ROOM_LIST", rs)
  }

  /** What a slot contributes: nothing when it is free or its room is finished. */
  ghost function SlotInfo(r: Room?): Option<Info>
    reads if r == null then {} else {r}
  {
    if r == null || r.state == RoomFinished then None else Some(InfoOf(r))
  }

  function InfoOf(r: Room): Info
    reads r
  {
    Info(r.roomId, r.name, r.playerCount, r.maxPlayers, r.state == RoomPlaying, r.boardSize)
  }

  ghost function SlotInfos(rooms: array<Room?>, n: nat): (infos: seq<Option<Info>>)
    requires n <= rooms.Length
    reads rooms, rooms[..]
    ensures |infos| == n
    ensures forall i :: 0 <= i < n ==> infos[i] == SlotInfo(rooms[i])
  {
    if n == 0 then [] else SlotInfos(rooms, n - 1) + [SlotInfo(rooms[n - 1])]
  }

  function Shown(infos: seq<Option<Info>>): (rs: seq<Info>)
    ensures |rs| <= |infos|
  {
    if infos == [] then []
    else
      var n := |infos| - 1;
      Shown(infos[..n]) + if infos[n].None? then [] else [infos[n].value]
  }

  ghost function Listed(rooms: array<Room?>): seq<Info>
    reads rooms, rooms[..]
  {
    Shown(SlotInfos(rooms, rooms.Length))
  }

  // ---- which rooms are listed ----

  ghost predicate Ascending(ks: seq<int>) {
    forall j, k :: 0 <= j < k < |ks| ==> ks[j] < ks[k]
  }

  /** The slots the entries come from. */
  ghost predicate From(infos: seq<Option<Info>>, ks: seq<int>, rs: seq<Info>) {
    && |ks| == |rs| && Ascending(ks)
    && (forall k :: 0 <= k < |ks| ==> 0 <= ks[k] < |infos| && infos[ks[k]] == Some(rs[k]))
    && forall i :: 0 <= i < |infos| && infos[i].Some? ==> i in ks
  }

  lemma {:induction false} ShownSlots(infos: seq<Option<Info>>) returns (ks: seq<int>)
    ensures From(infos, ks, Shown(infos))
  {
    ks := [];
    if infos != [] {
      var n := |infos| - 1;
      var before := ShownSlots(infos[..n]);
      ks := if infos[n].None? then before else before + [n];
      OneMoreSlot(infos, before, Shown(infos[..n]));
    }
  }

  lemma OneMoreSlot(infos: seq<Option<Info>>, ks: seq<int>, rs: seq<Info>)
    requires infos != [] && From(infos[..|infos| - 1], ks, rs)
    ensures var n := |infos| - 1;
            if infos[n].None? then From(infos, ks, rs) else From(infos, ks + [n], rs + [infos[n].value])
  {
    var n := |infos| - 1;
    forall i | 0 <= i < n && infos[i].Some? ensures i in ks && i in ks + [n] {
      assert infos[..n][i] == infos[i];
    }
    assert infos[n].Some? ==> (ks + [n])[|ks|] == n;
  }

  /** The list has, in slot order, every room that is there and not finished, with what its record says. */
  lemma ListedRooms(rooms: array<Room?>) returns (ks: seq<int>)
    ensures |ks| == |Listed(rooms)| && Ascending(ks)
    ensures forall i :: i in ks <==> 0 <= i < rooms.Length && rooms[i] != null && rooms[i].state != RoomFinished
    ensures forall k :: 0 <= k < |ks| ==>
              && ks[k] in ks
              && var r, e := rooms[ks[k]], Listed(rooms)[k];
                 && e.id == r.roomId && e.name == r.name && e.current == r.playerCount && e.max == r.maxPlayers
                 && (e.playing <==> r.state == RoomPlaying) && e.boardSize == r.boardSize
  {
    var infos := SlotInfos(rooms, rooms.Length);
    ks := ShownSlots(infos);
    forall k | 0 <= k < |ks| ensures ks[k] in ks && infos[ks[k]] == SlotInfo(rooms[ks[k]]) {
    }
    forall i | 0 <= i < rooms.Length ensures infos[i] == SlotInfo(rooms[i]) {
    }
  }

  // ---- printing ----

  /** memmove within one buffer. */
  method Move(buffer: array<char>, to: nat, from: nat, n: nat)
    requires to + n <= buffer.Length && from + n <= buffer.Length
    modifies buffer
    ensures buffer[..] == old(buffer[..to]) + old(buffer[from..from + n]) + old(buffer[to + n..])
  {
    forall i | 0 <= i < n {
      buffer[to + i] := buffer[from + i];
    }
  }

  /** The text with the placeholder 0 in the place of the count. */
  function Draft(head: string, rs: seq<Info>): string {
    if rs == [] then head else head + " 0" + EntriesText(rs)
  }

  lemma DraftStep(head: string, rs: seq<Info>, r: Info)
    ensures Draft(head, rs + [r]) == Draft(head, rs) + ((if rs == [] then " 0" else "") + EntryText(r))
  {
    assert (rs + [r])[..|rs|] == rs;
    var e := EntryText(r);
    if rs == [] {
      assert EntriesText(rs) + e == e;
      assert head + " 0" + e == head + (" 0" + e);
    } else {
      assert head + " 0" + (EntriesText(rs) + e) == head + " 0" + EntriesText(rs) + e;
      assert "" + e == e;
    }
  }

  lemma DraftLength(head: string, rs: seq<Info>)
    ensures |Draft(head, rs)| <= |Counted(head, rs)|
    ensures rs != [] ==> |Counted(head, rs)| == |Draft(head, rs)| + |PrintInt(|rs|)| - 1
  {
  }

  lemma {:induction false} EntriesLonger(a: seq<Info>, b: seq<Info>)
    requires a <= b
    ensures |EntriesText(a)| <= |EntriesText(b)|
    ensures a != b ==> |EntriesText(a)| < |EntriesText(b)|
    decreases |b|
  {
    if a != b {
      var n := |b| - 1;
      assert a <= b[..n];
      EntriesLonger(a, b[..n]);
      assert |EntriesText(b)| == |EntriesText(b[..n])| + |EntryText(b[n])|;
    }
  }

  lemma {:induction false} ShownPrefix(infos: seq<Option<Info>>, i: nat)
    requires i <= |infos|
    ensures Shown(infos[..i]) <= Shown(infos)
    decreases |infos|
  {
    if i < |infos| {
      var n := |infos| - 1;
      ShownPrefix(infos[..n], i);
      assert infos[..n][..i] == infos[..i];
    } else {
      assert infos[..i] == infos;
    }
  }

  /** As long as the whole text fits, so does every draft on the way, and a draft that fills the buffer is the last. */
  lemma DraftFits(head: string, infos: seq<Option<Info>>, i: nat)
    requires i <= |infos|
    ensures var part, all := Shown(infos[..i]), Shown(infos);
            && |Draft(head, part)| <= |Draft(head, all)| <= |Counted(head, all)|
            && (part != all ==> |Draft(head, part)| < |Draft(head, all)|)
  {
    ShownPrefix(infos, i);
    EntriesLonger(Shown(infos[..i]), Shown(infos));
    DraftLength(head, Shown(infos));
  }

  lemma ShownStep(infos: seq<Option<Info>>, i: nat)
    requires i < |infos|
    ensures Shown(infos[..i + 1]) == if infos[i].None? then Shown(infos[..i]) else Shown(infos[..i]) + [infos[i].value]
  {
    assert infos[..i + 1][..i] == infos[..i];
  }

  ghost predicate SameFrom(a: seq<char>, b: seq<char>, from: int) {
    |a| == |b| && forall i :: 0 <= i < |a| && from <= i ==> a[i] == b[i]
  }

  lemma TailSame(a: seq<char>, b: seq<char>, from: nat)
    requires |a| == |b| && from <= |a| && a[from..] == b[from..]
    ensures SameFrom(a, b, from)
  {
    forall i | from <= i < |a| ensures a[i] == b[i] {
      assert a[i] == a[from..][i - from] && b[i] == b[from..][i - from];
    }
  }

  /** One entry, behind the placeholder for the count when it is the first. */
  function EntryLine(info: Info, first: bool): string {
    (if first then " 0" else "") + EntryText(info)
  }

  lemma DraftFitsIn(head: string, infos: seq<Option<Info>>, i: nat, size: nat)
    requires i <= |infos| && |Counted(head, Shown(infos))| < size
    ensures |Draft(head, Shown(infos[..i]))| < size
  {
    DraftFits(head, infos, i);
  }

  /** When the loop ends there is nothing left to print. */
  lemma LastDraft(head: string, infos: seq<Option<Info>>, i: nat, size: nat)
    requires i <= |infos| && |Counted(head, Shown(infos))| < size
    requires i == |infos| || |Draft(head, Shown(infos[..i]))| >= size - 1
    ensures Shown(infos[..i]) == Shown(infos)
  {
    DraftFits(head, infos, i);
    assert i == |infos| ==> infos[..i] == infos;
  }

  /** A text with this many entries is in the buffer. */
  ghost predicate Drafted(text: string, count: nat, bytes: seq<char>, offset: nat, roomCount: nat) {
    roomCount == count && offset == |text| < |bytes| && Holds(bytes, text)
  }

  /** What a slot adds to the text. */
  ghost predicate NextText(info: Option<Info>, text: string, count: nat, next: string, nextCount: nat) {
    if info.None? then next == text && nextCount == count
    else next == text + EntryLine(info.value, count == 0) && nextCount == count + 1
  }

  lemma DraftNext(head: string, before: seq<Info>, info: Option<Info>, after: seq<Info>)
    requires after == if info.None? then before else before + [info.value]
    ensures NextText(info, Draft(head, before), |before|, Draft(head, after), |after|)
  {
    if info.Some? {
      DraftStep(head, before, info.value);
    }
  }

  /** The drafts on the way to the last one, slot by slot. */
  ghost predicate Drafts(infos: seq<Option<Info>>, texts: seq<string>, counts: seq<nat>, size: nat) {
    && |texts| == |counts| == |infos| + 1
    && (forall i :: 0 <= i < |infos| ==> NextText(infos[i], texts[i], counts[i], texts[i + 1], counts[i + 1]))
    && (forall i :: 0 <= i <= |infos| ==> |texts[i]| < size)
    && (forall i :: 0 <= i <= |infos| && |texts[i]| >= size - 1 ==>
          texts[i] == texts[|infos|] && counts[i] == counts[|infos|])
  }

  /** The loop of room_get_list_message. */
  method PrintSlots(head: string, rooms: array<Room?>, buffer: array<char>,
                    ghost infos: seq<Option<Info>>, ghost texts: seq<string>, ghost counts: seq<nat>)
    returns (offset: nat, roomCount: nat)
    requires |infos| == rooms.Length && forall i :: 0 <= i < rooms.Length ==> infos[i] == SlotInfo(rooms[i])
    requires Drafts(infos, texts, counts, buffer.Length) && texts[0] == head && counts[0] == 0
    modifies buffer
    ensures Drafted(texts[|infos|], counts[|infos|], buffer[..], offset, roomCount)
    ensures SameFrom(buffer[..], old(buffer[..]), offset + 1)
  {
    offset := Print(buffer, 0, head);
    TailSame(buffer[..], old(buffer[..]), offset + 1);
    roomCount := 0;
    var i := 0;
    while i < rooms.Length && offset < buffer.Length - 1
      invariant 0 <= i <= rooms.Length
      invariant Drafted(texts[i], counts[i], buffer[..], offset, roomCount)
      invariant SameFrom(buffer[..], old(buffer[..]), offset + 1)
    {
      assert rooms[i] == old(rooms[i]);
      assert rooms[i] != null ==>
          rooms[i].state == old(rooms[i].state) && rooms[i].playerCount == old(rooms[i].playerCount);
      offset, roomCount := PrintSlot(buffer, offset, roomCount, rooms[i], old(buffer[..]),
                                     texts[i], counts[i], texts[i + 1], counts[i + 1]);
      i := i + 1;
    }
  }

  ghost function DraftTexts(head: string, infos: seq<Option<Info>>): (texts: seq<string>)
    ensures |texts| == |infos| + 1
    ensures forall i :: 0 <= i <= |infos| ==> texts[i] == Draft(head, Shown(infos[..i]))
  {
    seq(|infos| + 1, i requires 0 <= i <= |infos| => Draft(head, Shown(infos[..i])))
  }

  ghost function DraftCounts(infos: seq<Option<Info>>): (counts: seq<nat>)
    ensures |counts| == |infos| + 1
    ensures forall i :: 0 <= i <= |infos| ==> counts[i] == |Shown(infos[..i])|
  {
    seq(|infos| + 1, i requires 0 <= i <= |infos| => |Shown(infos[..i])|)
  }

  lemma DraftsOk(head: string, infos: seq<Option<Info>>, size: nat)
    requires |Counted(head, Shown(infos))| < size
    ensures Drafts(infos, DraftTexts(head, infos), DraftCounts(infos), size)
    ensures DraftTexts(head, infos)[0] == head && DraftCounts(infos)[0] == 0
    ensures DraftTexts(head, infos)[|infos|] == Draft(head, Shown(infos))
    ensures DraftCounts(infos)[|infos|] == |Shown(infos)|
  {
    assert infos[..|infos|] == infos;
    var texts, counts := DraftTexts(head, infos), DraftCounts(infos);
    forall i | 0 <= i < |infos| ensures NextText(infos[i], texts[i], counts[i], texts[i + 1], counts[i + 1]) {
      ShownStep(infos, i);
      DraftNext(head, Shown(infos[..i]), infos[i], Shown(infos[..i + 1]));
    }
    forall i: nat | i <= |infos|
      ensures |texts[i]| < size
      ensures |texts[i]| >= size - 1 ==> texts[i] == texts[|infos|] && counts[i] == counts[|infos|]
    {
      DraftEnds(head, infos, i, size);
    }
  }

  lemma DraftEnds(head: string, infos: seq<Option<Info>>, i: nat, size: nat)
    requires i <= |infos| && |Counted(head, Shown(infos))| < size
    ensures |Draft(head, Shown(infos[..i]))| < size
    ensures |Draft(head, Shown(infos[..i]))| >= size - 1 ==> Shown(infos[..i]) == Shown(infos[..|infos|])
  {
    DraftFitsIn(head, infos, i, size);
    if |Draft(head, Shown(infos[..i]))| >= size - 1 {
      LastDraft(head, infos, i, size);
    }
    assert infos[..|infos|] == infos;
  }

  /** The text with a placeholder for the count. */
  method PrintDraft(head: string, rooms: array<Room?>, buffer: array<char>, ghost infos: seq<Option<Info>>)
    returns (offset: nat, roomCount: nat)
    requires |infos| == rooms.Length && forall i :: 0 <= i < rooms.Length ==> infos[i] == SlotInfo(rooms[i])
    requires |Counted(head, Shown(infos))| < buffer.Length
    modifies buffer
    ensures roomCount == |Shown(infos)| && offset == |Draft(head, Shown(infos))|
    ensures Holds(buffer[..], Draft(head, Shown(infos)))
    ensures SameFrom(buffer[..], old(buffer[..]), offset + 1)
  {
    DraftsOk(head, infos, buffer.Length);
    offset, roomCount := PrintSlots(head, rooms, buffer, infos, DraftTexts(head, infos), DraftCounts(infos));
  }

  /** One turn of the loop. */
  method PrintSlot(buffer: array<char>, offset: nat, roomCount: nat, r: Room?, ghost start: seq<char>,
                   ghost text: string, ghost shown: nat, ghost next: string, ghost nextShown: nat)
    returns (after: nat, count: nat)
    requires Drafted(text, shown, buffer[..], offset, roomCount) && SameFrom(buffer[..], start, offset + 1)
    requires NextText(SlotInfo(r), text, shown, next, nextShown) && |next| < buffer.Length
    modifies buffer
    ensures Drafted(next, nextShown, buffer[..], after, count) && SameFrom(buffer[..], start, after + 1)
  {
    after, count := offset, roomCount;
    if r != null && r.state != RoomFinished {
      after := AppendLine(buffer, offset, EntryLine(InfoOf(r), roomCount == 0), text, next);
      count := roomCount + 1;
    }
  }

  method AppendLine(buffer: array<char>, offset: nat, line: string, ghost before: string, ghost next: string)
    returns (after: nat)
    requires Holds(buffer[..], before) && offset == |before| && next == before + line && |next| < buffer.Length
    modifies buffer
    ensures Holds(buffer[..], next) && after == |next|
    ensures offset <= after && SameFrom(buffer[..], old(buffer[..]), after + 1)
  {
    after := Append(buffer, offset, line, before);
    TailSame(buffer[..], old(buffer[..]), after + 1);
  }

  // ---- the splice ----

  /** memcpy of a text into a buffer. */
  method Copy(buffer: array<char>, at: nat, text: string)
    requires at + |text| <= buffer.Length
    modifies buffer
    ensures buffer[..] == old(buffer[..at]) + text + old(buffer[at + |text|..])
  {
    forall i | 0 <= i < |text| {
      buffer[at + i] := text[i];
    }
  }

  /** The bytes of the list move over by the length of the count, less that of the placeholder; the terminator
      stays where it was. */
  lemma Spliced(b: seq<char>, moved: seq<char>, done: seq<char>, head: string, zero: string, temp: string,
                entries: string)
    requires |head| == 9 && |zero| == 2 && |temp| >= 2 && 9 + |temp| + |entries| <= |b|
    requires b[..11 + |entries|] == head + zero + entries
    requires moved == b[..9 + |temp|] + b[11..11 + |entries|] + b[9 + |temp| + |entries|..]
    requires done == moved[..9] + temp + moved[9 + |temp|..]
    ensures done == (head + temp + entries) + b[9 + |temp| + |entries|..]
  {
    assert b[..9] == b[..11 + |entries|][..9] == head;
    assert b[11..11 + |entries|] == b[..11 + |entries|][11..] == entries;
    assert moved[9 + |temp|..] == entries + b[9 + |temp| + |entries|..];
    assert moved[..9] == b[..9];
  }

  method Splice(buffer: array<char>, offset: nat, roomCount: nat, ghost head: string, ghost rs: seq<Info>)
    returns (after: nat)
    requires |head| == 9 && roomCount == |rs| > 0
    requires offset == |Draft(head, rs)| && Holds(buffer[..], Draft(head, rs)) && |Counted(head, rs)| < buffer.Length
    modifies buffer
    ensures after == |Counted(head, rs)|
    ensures buffer[..] == Counted(head, rs) + old(buffer[after..])
  {
    var temp := " " + PrintInt(roomCount);
    ghost var entries := EntriesText(rs);
    assert Draft(head, rs) == head + " 0" + entries;
    Replace(buffer, offset, temp, head, " 0", entries);
    after := offset + |temp| - 2;
  }

  /** The memmove and the memcpy. */
  method Replace(buffer: array<char>, offset: nat, temp: string, ghost head: string, ghost zero: string,
                 ghost entries: string)
    requires |head| == 9 && |zero| == 2 && |temp| >= 2 && offset == 11 + |entries|
    requires Holds(buffer[..], head + zero + entries) && offset + |temp| - 2 < buffer.Length
    modifies buffer
    ensures buffer[..] == (head + temp + entries) + old(buffer[offset + |temp| - 2..])
  {
    ghost var b := buffer[..];
    Move(buffer, 9 + |temp|, 11, offset - 11);
    ghost var moved := buffer[..];
    Copy(buffer, 9, temp);
    Spliced(b, moved, buffer[..], head, zero, temp, entries);
  }

  /** room_get_list_message. What follows the text is its terminator when the count has one digit; with more
      digits it is whatever was there before the call. */
  method GetListMessage(rooms: array<Room?>, buffer: array<char>) returns (length: nat)
    requires |ListText(Listed(rooms))| < buffer.Length
    modifies buffer
    ensures length == |ListText(Listed(rooms))| && buffer[..length] == ListText(Listed(rooms))
    ensures buffer[length] == if |Listed(rooms)| < 10 then NUL else old(buffer[length])
  {
    ghost var infos := SlotInfos(rooms, rooms.Length);
    var offset, roomCount := PrintDraft("ROOM_LIST", rooms, buffer, infos);
    length := InsertCount("ROOM_LIST", buffer, offset, roomCount, Shown(infos));
    assert Listed(rooms) == Shown(infos);
  }

  method InsertCount(head: string, buffer: array<char>, offset: nat, roomCount: nat, ghost rs: seq<Info>)
    returns (length: nat)
    requires |head| == 9 && roomCount == |rs|
    requires offset == |Draft(head, rs)| && Holds(buffer[..], Draft(head, rs)) && |Counted(head, rs)| < buffer.Length
    modifies buffer
    ensures length == |Counted(head, rs)| && buffer[..length] == Counted(head, rs)
    ensures length >= offset && buffer[length] == if |rs| < 10 then NUL else old(buffer[length])
    ensures |rs| >= 10 ==> length > offset
  {
    DraftLength(head, rs);
    CountDigits(roomCount);
    if roomCount > 0 {
      ghost var drafted := buffer[..];
      length := Splice(buffer, offset, roomCount, head, rs);
      assert buffer[length] == drafted[length..][0];
    } else {
      EmptyList(head, rs);
      length := Append(buffer, offset, " 0", Draft(head, rs));
    }
  }

  lemma EmptyList(head: string, rs: seq<Info>)
    requires |rs| == 0
    ensures Draft(head, rs) + " 0" == Counted(head, rs)
  {
    assert PrintInt(0) == "0";
    assert " " + "0" == " 0";
    assert head + " 0" + "" == head + " 0";
  }

  lemma CountDigits(n: nat)
    ensures |PrintInt(n)| == 1 <==> n < 10
  {
  }
}
