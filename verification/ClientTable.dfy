/** The list of connected clients as a value: what each slot holds, and the map from ids to clients it stands for. */
module ClientTable {
  import opened SeqFacts
  import opened Structs

  /** A zombie is marked disconnected and has no socket any more. */
  datatype Entry = Free | Taken(client: Client, id: int, zombie: bool)

  datatype Table = Table(slots: seq<Entry>, count: int, nextId: int)

  ghost function TakenAt(s: seq<Entry>): set<int> {
    set i | 0 <= i < |s| && s[i].Taken?
  }

  ghost predicate DistinctEntries(s: seq<Entry>) {
    forall i, j :: 0 <= i < j < |s| && s[i].Taken? && s[j].Taken? ==> s[i].client != s[j].client && s[i].id != s[j].id
  }

  ghost predicate Inv(t: Table) {
    && t.count == |TakenAt(t.slots)|
    && DistinctEntries(t.slots)
    && (forall i :: 0 <= i < |t.slots| && t.slots[i].Taken? ==> 0 < t.slots[i].id < t.nextId)
    && t.nextId > 0
  }

  /** The map from ids to clients. */
  ghost function ById(s: seq<Entry>): map<int, Client> {
    if s == [] then map[]
    else
      var e := s[|s| - 1];
      if e.Taken? then ById(s[..|s| - 1])[e.id := e.client] else ById(s[..|s| - 1])
  }

  predicate Holds(s: seq<Entry>, c: Client) {
    exists i :: 0 <= i < |s| && s[i].Taken? && s[i].client == c
  }

  // ---- the operations ----

  /** The first slot from i on that is free, or |s|. */
  function FirstFree(s: seq<Entry>, i: nat): (r: nat)
    requires i <= |s|
    ensures i <= r <= |s| && (r < |s| ==> s[r].Free?)
    ensures forall k :: i <= k < r ==> s[k].Taken?
    decreases |s| - i
  {
    if i == |s| || s[i].Free? then i else FirstFree(s, i + 1)
  }

  function FirstZombie(s: seq<Entry>, i: nat): (r: nat)
    requires i <= |s|
    ensures i <= r <= |s| && (r < |s| ==> s[r].Taken? && s[r].zombie)
    ensures forall k :: i <= k < r ==> !(s[k].Taken? && s[k].zombie)
    decreases |s| - i
  {
    if i == |s| || (s[i].Taken? && s[i].zombie) then i else FirstZombie(s, i + 1)
  }

  predicate HasId(s: seq<Entry>, id: int) {
    exists i :: 0 <= i < |s| && s[i].Taken? && s[i].id == id
  }

  /** client_list_add; a zombie gives way when there is no free slot. */
  function Add(t: Table, c: Client, id: int, zombie: bool): (r: (Table, bool))
  {
    var free, zombieSlot := FirstFree(t.slots, 0), FirstZombie(t.slots, 0);
    if HasId(t.slots, id) then (t, false)
    else if free < |t.slots| then (t.(slots := t.slots[free := Taken(c, id, zombie)], count := t.count + 1), true)
    else if zombieSlot < |t.slots| then (t.(slots := t.slots[zombieSlot := Taken(c, id, zombie)]), true)
    else (t, false)
  }

  /** server_run: a new connection takes the next id, whether or not the list has room for it. */
  function Accept(t: Table, c: Client): Table {
    Add(t.(nextId := t.nextId + 1), c, t.nextId, false).0
  }

  /** Whose record is freed for a new connection: the first zombie's, when no slot is free. */
  function Evicted(t: Table): (z: Client?) {
    var free, zombieSlot := FirstFree(t.slots, 0), FirstZombie(t.slots, 0);
    if free == |t.slots| && zombieSlot < |t.slots| then t.slots[zombieSlot].client else null
  }

  ghost function Held(s: seq<Entry>): set<Client> {
    set i | 0 <= i < |s| && s[i].Taken? :: s[i].client
  }

  function Cleared(s: seq<Entry>, c: Client): (r: seq<Entry>)
    ensures |r| == |s|
    ensures forall i :: 0 <= i < |s| ==> r[i] == if s[i].Taken? && s[i].client == c then Free else s[i]
  {
    seq(|s|, i requires 0 <= i < |s| => if s[i].Taken? && s[i].client == c then Free else s[i])
  }

  function CountOf(s: seq<Entry>, c: Client): nat {
    if s == [] then 0 else CountOf(s[..|s| - 1], c) + if s[|s| - 1].Taken? && s[|s| - 1].client == c then 1 else 0
  }

  /** client_list_remove */
  function Remove(t: Table, c: Client): Table {
    t.(slots := Cleared(t.slots, c), count := t.count - CountOf(t.slots, c))
  }

  /** The last slot that holds a client, or -1: the scan of client_list_replace does not stop at the first. */
  function LastSlot(s: seq<Entry>, c: Client): (i: int)
    ensures -1 <= i < |s|
    ensures i >= 0 ==> s[i].Taken? && s[i].client == c
    ensures forall k :: i < k < |s| ==> !(s[k].Taken? && s[k].client == c)
  {
    if s == [] then -1
    else if s[|s| - 1].Taken? && s[|s| - 1].client == c then |s| - 1
    else LastSlot(s[..|s| - 1], c)
  }

  /** client_list_replace */
  function Replace(t: Table, oldClient: Client, newClient: Client, entry: Entry): Table {
    var i, j := LastSlot(t.slots, oldClient), LastSlot(t.slots, newClient);
    if i == -1 then t
    else if j == -1 then t.(slots := t.slots[i := entry])
    else t.(slots := t.slots[j := Free][i := entry], count := t.count - 1)
  }

  /** client_list_find_by_id */
  function Find(s: seq<Entry>, id: int, i: nat): (r: Client?)
    requires i <= |s|
    decreases |s| - i
  {
    if i == |s| then null
    else if s[i].Taken? && s[i].id == id then s[i].client
    else Find(s, id, i + 1)
  }

  /** client_list_get_all, without the limit. */
  function All(s: seq<Entry>): seq<Client> {
    if s == [] then []
    else All(s[..|s| - 1]) + if s[|s| - 1].Taken? then [s[|s| - 1].client] else []
  }

  // ---- the map ----

  lemma {:induction false} ByIdHas(s: seq<Entry>, i: int)
    requires DistinctEntries(s) && 0 <= i < |s| && s[i].Taken?
    ensures s[i].id in ById(s) && ById(s)[s[i].id] == s[i].client
  {
    if i < |s| - 1 {
      ByIdHas(s[..|s| - 1], i);
    }
  }

  lemma {:induction false} ByIdOnly(s: seq<Entry>, id: int)
    requires id in ById(s)
    ensures HasId(s, id)
  {
    var n := |s| - 1;
    if s[n].Taken? && s[n].id == id {
    } else {
      ByIdOnly(s[..n], id);
      var i :| 0 <= i < n && s[..n][i].Taken? && s[..n][i].id == id;
      assert s[i].Taken? && s[i].id == id;
    }
  }

  /** The map has exactly what the slots hold. */
  lemma ByIdIs(s: seq<Entry>, id: int)
    requires DistinctEntries(s)
    ensures id in ById(s) <==> HasId(s, id)
    ensures forall i :: 0 <= i < |s| && s[i].Taken? ==> s[i].id in ById(s) && ById(s)[s[i].id] == s[i].client
  {
    forall i | 0 <= i < |s| && s[i].Taken? ensures s[i].id in ById(s) && ById(s)[s[i].id] == s[i].client {
      ByIdHas(s, i);
    }
    if id in ById(s) {
      ByIdOnly(s, id);
    }
  }

  ghost function WithoutSlot(m: map<int, Client>, e: Entry): map<int, Client> {
    if e.Taken? then m - {e.id} else m
  }

  lemma PutById(s: seq<Entry>, i: int, e: Entry)
    requires 0 <= i < |s| && DistinctEntries(s) && DistinctEntries(s[i := e])
    ensures ById(s[i := e]) ==
            if e.Taken? then WithoutSlot(ById(s), s[i])[e.id := e.client] else WithoutSlot(ById(s), s[i])
  {
    var s', m := s[i := e], WithoutSlot(ById(s), s[i]);
    var m' := if e.Taken? then m[e.id := e.client] else m;
    forall id ensures id in ById(s') <==> id in m' {
      ByIdIs(s, id);
      ByIdIs(s', id);
      if HasId(s', id) {
        var k :| 0 <= k < |s'| && s'[k].Taken? && s'[k].id == id;
        assert k != i ==> s[k] == s'[k];
      }
      if id in m' && !(e.Taken? && id == e.id) {
        var k :| 0 <= k < |s| && s[k].Taken? && s[k].id == id;
        assert k != i && s'[k] == s[k];
      }
      if e.Taken? && id == e.id {
        assert s'[i] == e;
      }
    }
    forall id | id in m' ensures id in ById(s') && ById(s')[id] == m'[id] {
      ByIdIs(s, id);
      ByIdIs(s', id);
      var k :| 0 <= k < |s'| && s'[k].Taken? && s'[k].id == id;
      assert ById(s')[s'[k].id] == s'[k].client;
      if k != i {
        assert s[k] == s'[k] && ById(s)[s[k].id] == s[k].client;
        assert e.Taken? ==> s'[i] == e && e.id != id;
      }
    }
  }

  // ---- accepting ----

  lemma PutCount(s: seq<Entry>, i: int, e: Entry)
    requires 0 <= i < |s|
    ensures |TakenAt(s[i := e])| == |TakenAt(s)| + (if e.Taken? then 1 else 0) - (if s[i].Taken? then 1 else 0)
  {
    if e.Taken? {
      assert TakenAt(s[i := e]) == TakenAt(s) + {i};
    } else {
      assert TakenAt(s[i := e]) == TakenAt(s) - {i};
    }
  }

  /** The check for a duplicate id never fires: an accepted client's id is new. */
  lemma IdIsNew(t: Table)
    requires Inv(t)
    ensures !HasId(t.slots, t.nextId)
  {
  }

  lemma AcceptKeeps(t: Table, c: Client)
    requires Inv(t) && !Holds(t.slots, c)
    ensures Inv(Accept(t, c)) && Accept(t, c).nextId == t.nextId + 1
  {
    var free, zombieSlot := FirstFree(t.slots, 0), FirstZombie(t.slots, 0);
    var e := Taken(c, t.nextId, false);
    if free < |t.slots| {
      PutCount(t.slots, free, e);
      PutDistinct(t, free, c);
    } else if zombieSlot < |t.slots| {
      PutCount(t.slots, zombieSlot, e);
      PutDistinct(t, zombieSlot, c);
    }
  }

  lemma PutDistinct(t: Table, i: int, c: Client)
    requires Inv(t) && !Holds(t.slots, c) && 0 <= i < |t.slots|
    ensures DistinctEntries(t.slots[i := Taken(c, t.nextId, false)])
  {
  }

  predicate Zombie(e: Entry) {
    e.Taken? && e.zombie
  }

  lemma FreeIff(t: Table)
    requires Inv(t)
    ensures t.count <= |t.slots|
    ensures FirstFree(t.slots, 0) < |t.slots| <==> t.count < |t.slots|
  {
    var all := Below(|t.slots|);
    SubsetCard(TakenAt(t.slots), all);
    if FirstFree(t.slots, 0) == |t.slots| {
      assert TakenAt(t.slots) == all;
    } else {
      assert FirstFree(t.slots, 0) in all && FirstFree(t.slots, 0) !in TakenAt(t.slots);
    }
  }

  /** What becomes of the map: the client is added under the next id, in a free slot if there is one; otherwise
      the zombie in the lowest slot goes; otherwise the client is refused. Nobody else is touched. */
  lemma AcceptById(t: Table, c: Client)
    requires Inv(t) && !Holds(t.slots, c)
    ensures var m, m' := ById(t.slots), ById(Accept(t, c).slots);
            if t.count < |t.slots| then m' == m[t.nextId := c]
            else if exists i :: 0 <= i < |t.slots| && Zombie(t.slots[i]) then
              exists i ::
                && 0 <= i < |t.slots| && Zombie(t.slots[i]) && (forall k :: 0 <= k < i ==> !Zombie(t.slots[k]))
                && m' == (m - {t.slots[i].id})[t.nextId := c]
            else m' == m
  {
    var free, z := FirstFree(t.slots, 0), FirstZombie(t.slots, 0);
    var e := Taken(c, t.nextId, false);
    IdIsNew(t);
    FreeIff(t);
    if free < |t.slots| {
      PutDistinct(t, free, c);
      PutById(t.slots, free, e);
    } else if z < |t.slots| {
      PutDistinct(t, z, c);
      PutById(t.slots, z, e);
      assert Zombie(t.slots[z]) && forall k :: 0 <= k < z ==> !Zombie(t.slots[k]);
    }
  }

  /** Who is listed when a connection has been accepted: one more, for which at most the evicted one has gone. */
  lemma AcceptHolds(t: Table, c: Client)
    requires Inv(t) && c !in Held(t.slots)
    ensures var accepted := Add(t.(nextId := t.nextId + 1), c, t.nextId, false).1;
            && Held(Accept(t, c).slots) == (if accepted then Held(t.slots) - {Evicted(t)} + {c} else Held(t.slots))
            && (accepted <==> t.count < |t.slots| || Evicted(t) != null)
  {
    FreeIff(t);
    IdIsNew(t);
    var free, z := FirstFree(t.slots, 0), FirstZombie(t.slots, 0);
    var e := Taken(c, t.nextId, false);
    if free < |t.slots| {
      HeldPut(t.slots, free, e);
    } else if z < |t.slots| {
      HeldPut(t.slots, z, e);
    }
  }

  lemma HeldPut(s: seq<Entry>, i: int, e: Entry)
    requires 0 <= i < |s| && DistinctEntries(s) && e.Taken? && e.client !in Held(s)
    ensures Held(s[i := e]) == (if s[i].Taken? then Held(s) - {s[i].client} else Held(s)) + {e.client}
  {
    var s' := s[i := e];
    forall c | c in Held(s) && (s[i].Taken? ==> c != s[i].client) ensures c in Held(s') {
      var k :| 0 <= k < |s| && s[k].Taken? && s[k].client == c;
      assert s'[k] == s[k];
    }
    assert s'[i] == e;
  }

  // ---- removing ----

  lemma {:induction false} CountOnce(s: seq<Entry>, c: Client, i: int)
    requires DistinctEntries(s) && 0 <= i < |s| && s[i].Taken? && s[i].client == c
    ensures CountOf(s, c) == 1 && Cleared(s, c) == s[i := Free]
  {
    var n := |s| - 1;
    if i == n {
      CountNone(s[..n], c);
    } else {
      CountOnce(s[..n], c, i);
      assert s[n].Taken? ==> s[n].client != s[i].client;
    }
  }

  lemma {:induction false} CountNone(s: seq<Entry>, c: Client)
    requires !Holds(s, c)
    ensures CountOf(s, c) == 0 && Cleared(s, c) == s
  {
    if s != [] {
      var n := |s| - 1;
      assert !(s[n].Taken? && s[n].client == c);
      HoldsPrefix(s, n, c);
      CountNone(s[..n], c);
    }
  }

  lemma HoldsPrefix(s: seq<Entry>, n: nat, c: Client)
    requires n <= |s|
    ensures Holds(s[..n], c) ==> Holds(s, c)
  {
    if Holds(s[..n], c) {
      var i :| 0 <= i < n && s[..n][i].Taken? && s[..n][i].client == c;
      assert s[i].Taken? && s[i].client == c;
    }
  }

  /** No client is found in two slots: what the code reports as a bug does not happen. */
  lemma FoundAtMostOnce(t: Table, c: Client)
    requires Inv(t)
    ensures CountOf(t.slots, c) == if Holds(t.slots, c) then 1 else 0
  {
    if Holds(t.slots, c) {
      var i :| 0 <= i < |t.slots| && t.slots[i].Taken? && t.slots[i].client == c;
      CountOnce(t.slots, c, i);
    } else {
      CountNone(t.slots, c);
    }
  }

  /** A client is never removed twice over: the counter goes down by one for a listed client and stays for others,
      and exactly the client's own id leaves the map. */
  lemma RemoveKeeps(t: Table, c: Client)
    requires Inv(t)
    ensures Inv(Remove(t, c)) && !Holds(Remove(t, c).slots, c)
    ensures Remove(t, c).count == if Holds(t.slots, c) then t.count - 1 else t.count
    ensures if Holds(t.slots, c) then
              exists i :: 0 <= i < |t.slots| && t.slots[i].Taken? && t.slots[i].client == c
                          && ById(Remove(t, c).slots) == ById(t.slots) - {t.slots[i].id}
            else ById(Remove(t, c).slots) == ById(t.slots)
  {
    if Holds(t.slots, c) {
      var i :| 0 <= i < |t.slots| && t.slots[i].Taken? && t.slots[i].client == c;
      CountOnce(t.slots, c, i);
      PutCount(t.slots, i, Free);
      PutById(t.slots, i, Free);
    } else {
      CountNone(t.slots, c);
    }
  }

  lemma RemoveHolds(t: Table, c: Client)
    requires Inv(t)
    ensures Held(Remove(t, c).slots) == Held(t.slots) - {c}
  {
    var s, r := t.slots, Remove(t, c).slots;
    forall d | d in Held(s) && d != c ensures d in Held(r) {
      var k :| 0 <= k < |s| && s[k].Taken? && s[k].client == d;
      assert r[k] == s[k];
    }
  }

  /** Who is a zombie makes no difference to the order of the list. */
  lemma ButForZombies(t: Table, t': Table)
    requires Inv(t) && |t'.slots| == |t.slots| && t'.count == t.count && t'.nextId == t.nextId
    requires forall i :: 0 <= i < |t.slots| ==> t'.slots[i].Taken? == t.slots[i].Taken?
    requires forall i :: 0 <= i < |t.slots| && t.slots[i].Taken? ==>
               t'.slots[i].client == t.slots[i].client && t'.slots[i].id == t.slots[i].id
    ensures Inv(t') && Held(t'.slots) == Held(t.slots)
  {
    assert TakenAt(t'.slots) == TakenAt(t.slots);
    forall c ensures c in Held(t'.slots) <==> c in Held(t.slots) {
      if c in Held(t.slots) {
        var k :| 0 <= k < |t.slots| && t.slots[k].Taken? && t.slots[k].client == c;
        assert t'.slots[k].client == c;
      }
      if c in Held(t'.slots) {
        var k :| 0 <= k < |t.slots| && t'.slots[k].Taken? && t'.slots[k].client == c;
        assert t.slots[k].client == c;
      }
    }
  }

  // ---- looking up ----

  lemma {:induction false} FindFrom(s: seq<Entry>, id: int, i: nat)
    requires DistinctEntries(s) && i <= |s|
    requires forall k :: 0 <= k < i ==> !(s[k].Taken? && s[k].id == id)
    ensures Find(s, id, i) == if id in ById(s) then ById(s)[id] else null
    decreases |s| - i
  {
    ByIdIs(s, id);
    if i < |s| && !(s[i].Taken? && s[i].id == id) {
      FindFrom(s, id, i + 1);
    }
  }

  /** client_list_find_by_id is a lookup in the map. */
  lemma FindIsLookup(t: Table, id: int)
    requires Inv(t)
    ensures Find(t.slots, id, 0) == if id in ById(t.slots) then ById(t.slots)[id] else null
  {
    FindFrom(t.slots, id, 0);
  }

  lemma {:induction false} AllHolds(s: seq<Entry>, c: Client)
    ensures c in All(s) <==> Holds(s, c)
  {
    if s != [] {
      var n := |s| - 1;
      AllHolds(s[..n], c);
      HoldsPrefix(s, n, c);
      if Holds(s, c) {
        var i :| 0 <= i < |s| && s[i].Taken? && s[i].client == c;
        assert i < n ==> s[..n][i].Taken? && s[..n][i].client == c;
      }
    }
  }

  lemma {:induction false} AllOnce(s: seq<Entry>)
    requires DistinctEntries(s)
    ensures |All(s)| == |TakenAt(s)| && Distinct(All(s))
  {
    if s == [] {
      assert TakenAt(s) == {};
    } else {
      var n := |s| - 1;
      AllOnce(s[..n]);
      if s[n].Taken? {
        assert TakenAt(s) == TakenAt(s[..n]) + {n};
        AllHolds(s[..n], s[n].client);
        assert s[n].client !in All(s[..n]);
      } else {
        assert TakenAt(s) == TakenAt(s[..n]);
      }
    }
  }

  /** client_list_get_all returns each listed client once. */
  lemma AllAreListed(t: Table, c: Client)
    requires Inv(t)
    ensures |All(t.slots)| == t.count && Distinct(All(t.slots))
    ensures c in All(t.slots) <==> Holds(t.slots, c)
  {
    AllOnce(t.slots);
    AllHolds(t.slots, c);
  }

  // ---- replacing on reconnect ----

  lemma LastSlotIs(s: seq<Entry>, c: Client, i: int)
    requires 0 <= i < |s| && s[i].Taken? && s[i].client == c
    requires forall k :: 0 <= k < |s| && k != i ==> !(s[k].Taken? && s[k].client == c)
    ensures LastSlot(s, c) == i
  {
  }

  /** The new client's record has been given the old client's id, so that two slots carry the same one. */
  function Renumbered(t: Table, j: int, id: int): Table
    requires 0 <= j < |t.slots| && t.slots[j].Taken?
  {
    t.(slots := t.slots[j := Taken(t.slots[j].client, id, t.slots[j].zombie)])
  }

  lemma RenumberedBreaksIds(t: Table, i: int, j: int)
    requires Inv(t) && 0 <= i < |t.slots| && 0 <= j < |t.slots| && i != j && t.slots[i].Taken? && t.slots[j].Taken?
    ensures !DistinctEntries(Renumbered(t, j, t.slots[i].id).slots)
  {
    var s := Renumbered(t, j, t.slots[i].id).slots;
    assert s[i].id == s[j].id;
    assert s[if i < j then i else j].id == s[if i < j then j else i].id;
  }

  /** Where the two scans of client_list_replace lead: the new client's own slot is freed, the old one's is
      taken over. */
  lemma ReplaceResult(t: Table, i: int, j: int)
    requires Inv(t) && 0 <= i < |t.slots| && 0 <= j < |t.slots| && i != j && t.slots[i].Taken? && t.slots[j].Taken?
    ensures var o, n := t.slots[i], t.slots[j];
            var e := Taken(n.client, o.id, n.zombie);
            Replace(Renumbered(t, j, o.id), o.client, n.client, e)
            == t.(slots := t.slots[j := Free][i := e], count := t.count - 1)
  {
    var o, n := t.slots[i], t.slots[j];
    var e := Taken(n.client, o.id, n.zombie);
    var s := Renumbered(t, j, o.id).slots;
    LastSlotIs(s, o.client, i);
    LastSlotIs(s, n.client, j);
    assert s[j := Free][i := e] == t.slots[j := Free][i := e];
  }

  lemma TakenOver(s: seq<Entry>, i: int, j: int, e: Entry)
    requires DistinctEntries(s) && 0 <= i < |s| && 0 <= j < |s| && i != j && s[i].Taken? && s[j].Taken?
    requires e == Taken(s[j].client, s[i].id, s[j].zombie)
    ensures DistinctEntries(s[j := Free]) && DistinctEntries(s[j := Free][i := e])
    ensures |TakenAt(s[j := Free][i := e])| == |TakenAt(s)| - 1
    ensures !Holds(s[j := Free][i := e], s[i].client)
  {
    PutCount(s, j, Free);
    PutCount(s[j := Free], i, e);
  }

  lemma TakenOverById(s: seq<Entry>, i: int, j: int, e: Entry)
    requires DistinctEntries(s) && 0 <= i < |s| && 0 <= j < |s| && i != j && s[i].Taken? && s[j].Taken?
    requires e == Taken(s[j].client, s[i].id, s[j].zombie)
    ensures ById(s[j := Free][i := e]) == (ById(s) - {s[j].id})[s[i].id := s[j].client]
  {
    TakenOver(s, i, j, e);
    PutById(s, j, Free);
    PutById(s[j := Free], i, e);
    assert (ById(s) - {s[j].id} - {s[i].id})[s[i].id := s[j].client] == (ById(s) - {s[j].id})[s[i].id := s[j].client];
  }

  /** client_list_replace makes ids unique again: the new client stands in the old one's slot under the old one's
      id, and its own former id is gone. */
  lemma ReplaceRestores(t: Table, i: int, j: int)
    requires Inv(t) && 0 <= i < |t.slots| && 0 <= j < |t.slots| && i != j && t.slots[i].Taken? && t.slots[j].Taken?
    ensures var o, n := t.slots[i], t.slots[j];
            var r := Replace(Renumbered(t, j, o.id), o.client, n.client, Taken(n.client, o.id, n.zombie));
            && Inv(r) && r.count == t.count - 1 && r.nextId == t.nextId && |r.slots| == |t.slots|
            && r.slots[i] == Taken(n.client, o.id, n.zombie)
            && ById(r.slots) == (ById(t.slots) - {n.id})[o.id := n.client]
            && !Holds(r.slots, o.client)
  {
    var e := Taken(t.slots[j].client, t.slots[i].id, t.slots[j].zombie);
    ReplaceResult(t, i, j);
    TakenOver(t.slots, i, j, e);
    TakenOverById(t.slots, i, j, e);
  }

  /** Whoever was listed still is, but for the old client. */
  lemma ReplaceHolds(t: Table, i: int, j: int)
    requires Inv(t) && 0 <= i < |t.slots| && 0 <= j < |t.slots| && i != j && t.slots[i].Taken? && t.slots[j].Taken?
    ensures var o, n := t.slots[i], t.slots[j];
            Held(Replace(Renumbered(t, j, o.id), o.client, n.client, Taken(n.client, o.id, n.zombie)).slots)
            == Held(t.slots) - {o.client}
  {
    var s, e := t.slots, Taken(t.slots[j].client, t.slots[i].id, t.slots[j].zombie);
    ReplaceResult(t, i, j);
    var r := s[j := Free][i := e];
    forall c | c in Held(s) && c != s[i].client ensures c in Held(r) {
      var k :| 0 <= k < |s| && s[k].Taken? && s[k].client == c;
      assert k != i && (if k == j then r[i] == e else r[k] == s[k]);
    }
  }

  // ---- whole runs ----

  datatype Event = Connect(c: Client) | Drop(c: Client) | Zombify(c: Client)
                 | Reconnect(oldClient: Client, newClient: Client)

  function Marked(s: seq<Entry>, c: Client): (r: seq<Entry>)
    ensures |r| == |s|
    ensures forall i :: 0 <= i < |s| ==> r[i] == if s[i].Taken? && s[i].client == c then s[i].(zombie := true) else s[i]
  {
    seq(|s|, i requires 0 <= i < |s| => if s[i].Taken? && s[i].client == c then s[i].(zombie := true) else s[i])
  }

  /** A connection is made, lost for good, lost for the time being, or taken up again by a later one. */
  function Step(t: Table, e: Event): Table {
    match e
    case Connect(c) => if Holds(t.slots, c) then t else Accept(t, c)
    case Drop(c) => Remove(t, c)
    case Zombify(c) => t.(slots := Marked(t.slots, c))
    case Reconnect(o, n) =>
      var i, j := LastSlot(t.slots, o), LastSlot(t.slots, n);
      if i == -1 || j == -1 || i == j then t
      else Replace(Renumbered(t, j, t.slots[i].id), o, n, Taken(n, t.slots[i].id, t.slots[j].zombie))
  }

  lemma StepKeeps(t: Table, e: Event)
    requires Inv(t)
    ensures Inv(Step(t, e))
  {
    match e
    case Connect(c) => if !Holds(t.slots, c) { AcceptKeeps(t, c); }
    case Drop(c) => RemoveKeeps(t, c);
    case Zombify(c) => assert TakenAt(Marked(t.slots, c)) == TakenAt(t.slots);
    case Reconnect(o, n) =>
      var i, j := LastSlot(t.slots, o), LastSlot(t.slots, n);
      if i != -1 && j != -1 && i != j { ReplaceRestores(t, i, j); }
  }

  ghost function Run(max: nat, es: seq<Event>): (t: Table)
    ensures Inv(t)
    decreases |es|
  {
    if es == [] then
      assert TakenAt(seq(max, i => Free)) == {};
      Table(seq(max, i => Free), 0, 1)
    else
      StepKeeps(Run(max, es[..|es| - 1]), es[|es| - 1]);
      Step(Run(max, es[..|es| - 1]), es[|es| - 1])
  }

  /** After any run the counter is the number of listed clients, lookups and listings agree with the map, the next
      id is free, and nobody is listed twice, under one id or two. */
  lemma ReachableTable(max: nat, es: seq<Event>, id: int, c: Client)
    ensures var t := Run(max, es);
            && t.count == |All(t.slots)| && Distinct(All(t.slots))
            && (c in All(t.slots) <==> Holds(t.slots, c))
            && Find(t.slots, id, 0) == (if id in ById(t.slots) then ById(t.slots)[id] else null)
            && t.nextId !in ById(t.slots)
            && DistinctEntries(t.slots)
  {
    var t := Run(max, es);
    AllAreListed(t, c);
    FindIsLookup(t, id);
    IdIsNew(t);
    ByIdIs(t.slots, t.nextId);
  }
}
