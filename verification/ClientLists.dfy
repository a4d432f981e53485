/** The list of connected clients as client_list.c keeps it: an array of pointers with holes and a counter. */
module ClientLists {
  import opened SeqFacts
  import opened Structs
  import opened ClientTable

  ghost function EntryOf(c: Client?): Entry
    reads {c}`clientId, {c}`isDisconnected, {c}`socketFd
  {
    if c == null then Free else Taken(c, c.clientId, c.isDisconnected && c.socketFd == -1)
  }

  ghost function EntriesOf(cs: seq<Client?>): (s: seq<Entry>)
    reads cs`clientId, cs`isDisconnected, cs`socketFd
    ensures |s| == |cs| && forall i :: 0 <= i < |cs| ==> s[i] == EntryOf(cs[i])
  {
    if cs == [] then [] else EntriesOf(cs[..|cs| - 1]) + [EntryOf(cs[|cs| - 1])]
  }

  class ClientList {
    const clientArray: array<Client?>
    var clientCount: int
    var nextClientId: int

    ghost function View(): Table
      reads this, clientArray, clientArray[..]`clientId
      reads clientArray[..]`isDisconnected, clientArray[..]`socketFd
    {
      Table(EntriesOf(clientArray[..]), clientCount, nextClientId)
    }

    constructor (maxClients: nat)
      ensures View() == Run(maxClients, []) && fresh(clientArray)
    {
      clientArray := new Client?[maxClients](i => null);
      clientCount, nextClientId := 0, 1;
      new;
      assert EntriesOf(clientArray[..]) == seq(maxClients, i => Free);
    }

    method Put(i: int, client: Client?)
      requires 0 <= i < clientArray.Length
      modifies clientArray
      ensures clientArray[..] == old(clientArray[..])[i := client]
      ensures View() == old(View()).(slots := old(View()).slots[i := EntryOf(client)])
    {
      clientArray[i] := client;
      assert View().slots == old(View()).slots[i := EntryOf(client)];
    }

    method Add(client: Client) returns (ok: bool)
      modifies this`clientCount, clientArray
      ensures (View(), ok)
           == ClientTable.Add(old(View()), client, client.clientId, client.isDisconnected && client.socketFd == -1)
    {
      hide ClientTable.HasId, ClientTable.Find, EntriesOf;
      var duplicate := FindById(client.clientId);
      if duplicate != null {
        return false;
      }
      var zombieSlot := -1;
      for i := 0 to clientArray.Length
        invariant View() == old(View())
        invariant forall k :: 0 <= k < i ==> clientArray[k] != null
        invariant zombieSlot == -1 ==> forall k :: 0 <= k < i ==> !Zombie(EntryOf(clientArray[k]))
        invariant zombieSlot != -1 ==> 0 <= zombieSlot < i && Zombie(EntryOf(clientArray[zombieSlot]))
        invariant zombieSlot != -1 ==> forall k :: 0 <= k < zombieSlot ==> !Zombie(EntryOf(clientArray[k]))
      {
        if clientArray[i] == null {
          Put(i, client);
          clientCount := clientCount + 1;
          return true;
        }
        if zombieSlot == -1 && clientArray[i].isDisconnected && clientArray[i].socketFd == -1 {
          zombieSlot := i;
        }
      }
      if zombieSlot != -1 {
        Put(zombieSlot, client);
        return true;
      }
      return false;
    }

    /** What server_run does with a new connection: the id is used up even when the list has no room. */
    method Accept(fd: int, now: int) returns (client: Client, ok: bool)
      requires fd >= 0
      modifies this`clientCount, this`nextClientId, clientArray
      ensures fresh(client) && client.room == null && client.state == Connected
      ensures StandingOf(client) == Standing(old(nextClientId), fd, false, 0, "", 0, false, 0, now, now)
      ensures View() == ClientTable.Accept(old(View()), client)
      ensures ok == ClientTable.Add(old(View()).(nextId := old(nextClientId) + 1), client, old(nextClientId), false).1
    {
      hide ClientTable.Add, EntriesOf;
      ghost var t := View();
      client := new Client(fd, nextClientId, now);
      nextClientId := nextClientId + 1;
      assert View() == t.(nextId := t.nextId + 1);
      ok := Add(client);
    }

    method FindById(clientId: int) returns (client: Client?)
      ensures client == Find(View().slots, clientId, 0)
      ensures client != null <==> HasId(View().slots, clientId)
    {
      var i := 0;
      while i < clientArray.Length
        invariant 0 <= i <= clientArray.Length
        invariant Find(View().slots, clientId, 0) == Find(View().slots, clientId, i)
        invariant forall k :: 0 <= k < i ==> !(View().slots[k].Taken? && View().slots[k].id == clientId)
      {
        if clientArray[i] != null && clientArray[i].clientId == clientId {
          assert View().slots[i].Taken?;
          return clientArray[i];
        }
        i := i + 1;
      }
      return null;
    }

    method Take(i: int)
      requires 0 <= i < clientArray.Length
      modifies this`clientCount, clientArray
      ensures View() == old(View()).(slots := old(View()).slots[i := Free], count := old(View()).count - 1)
    {
      Put(i, null);
      clientCount := clientCount - 1;
    }

    /** The number of slots the client was found in, which the C code reports as a bug when it is more than one. */
    method Remove(client: Client) returns (removedCount: nat)
      modifies this`clientCount, clientArray
      ensures View() == ClientTable.Remove(old(View()), client) && removedCount == CountOf(old(View()).slots, client)
    {
      removedCount := 0;
      ghost var t := View();
      for i := 0 to clientArray.Length
        invariant View() == Removing(t, client, i)
        invariant removedCount == CountOf(t.slots[..i], client)
      {
        assert View().slots[i] == EntryOf(clientArray[i]) == t.slots[i];
        if clientArray[i] == client {
          RemovingHit(t, client, i);
          Take(i);
          removedCount := removedCount + 1;
        } else {
          RemovingMiss(t, client, i);
        }
      }
      RemovingDone(t, client);
    }

    method LastSlotOf(client: Client) returns (index: int)
      ensures index == LastSlot(View().slots, client)
    {
      index := -1;
      for i := 0 to clientArray.Length
        invariant index == LastSlot(View().slots[..i], client)
      {
        assert View().slots[..i + 1][..i] == View().slots[..i];
        if clientArray[i] == client {
          index := i;
        }
      }
      assert View().slots[..clientArray.Length] == View().slots;
    }

    method Replace(oldClient: Client, newClient: Client)
      modifies this`clientCount, clientArray
      ensures View() == ClientTable.Replace(old(View()), oldClient, newClient, EntryOf(newClient))
    {
      hide EntriesOf, LastSlot;
      var oldClientIndex := LastSlotOf(oldClient);
      var newClientIndex := LastSlotOf(newClient);
      if oldClientIndex != -1 {
        Move(oldClientIndex, newClientIndex, newClient);
      }
    }

    method Move(to: int, from: int, client: Client)
      requires 0 <= to < clientArray.Length && -1 <= from < clientArray.Length
      modifies this`clientCount, clientArray
      ensures View() == if from == -1 then old(View()).(slots := old(View()).slots[to := EntryOf(client)])
                        else old(View()).(slots := old(View()).slots[from := Free][to := EntryOf(client)],
                                          count := old(View()).count - 1)
    {
      if from != -1 {
        Take(from);
      }
      Put(to, client);
    }

    /** client_list_shutdown: the clients it frees, in order, and how often the clearing of duplicates found one. */
    method Shutdown() returns (freed: seq<Client>, duplicates: nat)
      requires ClientTable.Inv(View())
      modifies this`clientCount, clientArray, (set c: Client | c in clientArray[..])`socketFd
      ensures freed == All(old(View()).slots) && Distinct(freed) && duplicates == 0
      ensures forall i :: 0 <= i < clientArray.Length ==> clientArray[i] == null
      ensures forall c :: c in freed ==> c.socketFd < 0
      ensures clientCount == 0
    {
      PresentIsAll(clientArray[..]);
      AllOnce(View().slots);
      OnceInSlots(clientArray[..]);
      freed, duplicates := FreeAll();
    }

    method FreeAll() returns (freed: seq<Client>, duplicates: nat)
      requires OnceOnly(clientArray[..])
      modifies this`clientCount, clientArray, (set c: Client | c in clientArray[..])`socketFd
      ensures freed == Present(old(clientArray[..])) && duplicates == 0 && clientCount == 0
      ensures forall i :: 0 <= i < clientArray.Length ==> clientArray[i] == null
      ensures forall c :: c in freed ==> c.socketFd < 0
    {
      ghost var cs := clientArray[..];
      freed, duplicates := [], 0;
      for i := 0 to clientArray.Length
        invariant clientArray[..] == Emptied(cs, i)
        invariant freed == Present(cs[..i]) && duplicates == 0
        invariant forall c :: c in freed ==> c.socketFd < 0
      {
        assert cs[..i + 1][..i] == cs[..i];
        assert clientArray[i] == clientArray[..][i] == cs[i];
        if clientArray[i] != null {
          var client: Client := clientArray[i];
          duplicates := FreeSlot(client, i, cs);
          freed := freed + [client];
        } else {
          assert Emptied(cs, i + 1) == Emptied(cs, i);
        }
      }
      assert cs[..clientArray.Length] == cs;
      clientCount := 0;
      forall i | 0 <= i < clientArray.Length ensures clientArray[i] == null {
        assert clientArray[i] == clientArray[..][i];
      }
    }

    method FreeSlot(client: Client, i: nat, ghost cs: seq<Client?>) returns (duplicates: nat)
      requires i < clientArray.Length == |cs| && clientArray[..] == Emptied(cs, i) && cs[i] == client && OnceOnly(cs)
      modifies this`clientCount, clientArray, client`socketFd
      ensures clientArray[..] == Emptied(cs, i + 1) && duplicates == 0
      ensures client.socketFd < 0
    {
      if client.socketFd >= 0 {
        client.socketFd := -1;
      }
      clientArray[i] := null;
      clientCount := clientCount - 1;
      assert clientArray[..] == Emptied(cs, i + 1);
      forall k | i + 1 <= k < clientArray.Length ensures clientArray[k] != client {
        assert clientArray[k] == clientArray[..][k] == cs[k];
      }
      duplicates := ClearDuplicates(client, i + 1);
    }

    /** Clears further slots that hold a client which is about to be freed. */
    method ClearDuplicates(client: Client, from: nat) returns (found: nat)
      requires from <= clientArray.Length
      modifies this`clientCount, clientArray
      ensures (forall k :: from <= k < clientArray.Length ==> old(clientArray[k]) != client)
              ==> found == 0 && clientArray[..] == old(clientArray[..])
    {
      found := 0;
      for j := from to clientArray.Length
        invariant (forall k :: from <= k < clientArray.Length ==> old(clientArray[k]) != client)
                  ==> found == 0 && forall k :: 0 <= k < clientArray.Length ==> clientArray[k] == old(clientArray[k])
      {
        if clientArray[j] == client {
          clientArray[j] := null;
          clientCount := clientCount - 1;
          found := found + 1;
        }
      }
    }

    method GetAll(maxCount: nat) returns (clients: seq<Client>)
      ensures clients == All(View().slots)[..Min(maxCount, |All(View().slots)|)]
    {
      clients := [];
      var i := 0;
      while i < clientArray.Length && |clients| < maxCount
        invariant 0 <= i <= clientArray.Length
        invariant |clients| <= maxCount && clients == All(View().slots[..i])
      {
        assert View().slots[..i + 1][..i] == View().slots[..i];
        if clientArray[i] != null {
          clients := clients + [clientArray[i]];
        }
        i := i + 1;
      }
      AllPrefix(View().slots, i);
      assert View().slots[..clientArray.Length] == View().slots;
    }
  }

  /** The clients in the slots, in order. */
  function Present(cs: seq<Client?>): seq<Client> {
    if cs == [] then []
    else Present(cs[..|cs| - 1]) + if cs[|cs| - 1] != null then [cs[|cs| - 1]] else []
  }

  lemma {:induction false} PresentIsAll(cs: seq<Client?>)
    ensures All(EntriesOf(cs)) == Present(cs)
  {
    if cs != [] {
      PresentIsAll(cs[..|cs| - 1]);
      assert EntriesOf(cs)[..|cs| - 1] == EntriesOf(cs[..|cs| - 1]);
    }
  }

  ghost predicate OnceOnly(cs: seq<Client?>) {
    forall i, j :: 0 <= i < j < |cs| && cs[i] != null ==> cs[i] != cs[j]
  }

  lemma OnceInSlots(cs: seq<Client?>)
    requires DistinctEntries(EntriesOf(cs))
    ensures OnceOnly(cs)
  {
    forall i, j | 0 <= i < j < |cs| && cs[i] != null ensures cs[i] != cs[j] {
      assert EntriesOf(cs)[i] == EntryOf(cs[i]) && EntriesOf(cs)[j] == EntryOf(cs[j]);
    }
  }

  /** The slots when the first n have been emptied. */
  ghost function Emptied(cs: seq<Client?>, n: nat): (r: seq<Client?>)
    requires n <= |cs|
    ensures |r| == |cs| && forall i :: 0 <= i < |cs| ==> r[i] == if i < n then null else cs[i]
  {
    seq(|cs|, i requires 0 <= i < |cs| => if i < n then null else cs[i])
  }

  /** client_list_remove, done up to slot n. */
  ghost function Removing(t: Table, c: Client, n: nat): Table
    requires n <= |t.slots|
  {
    t.(slots := Cleared(t.slots[..n], c) + t.slots[n..], count := t.count - CountOf(t.slots[..n], c))
  }

  lemma RemovingHit(t: Table, c: Client, i: nat)
    requires i < |t.slots| && t.slots[i].Taken? && t.slots[i].client == c
    ensures CountOf(t.slots[..i + 1], c) == CountOf(t.slots[..i], c) + 1
    ensures Removing(t, c, i + 1)
            == Removing(t, c, i).(slots := Removing(t, c, i).slots[i := Free], count := Removing(t, c, i).count - 1)
  {
    assert t.slots[..i + 1][..i] == t.slots[..i];
    assert Removing(t, c, i + 1).slots == Removing(t, c, i).slots[i := Free];
  }

  lemma RemovingMiss(t: Table, c: Client, i: nat)
    requires i < |t.slots| && !(t.slots[i].Taken? && t.slots[i].client == c)
    ensures CountOf(t.slots[..i + 1], c) == CountOf(t.slots[..i], c)
    ensures Removing(t, c, i + 1) == Removing(t, c, i)
  {
    assert t.slots[..i + 1][..i] == t.slots[..i];
    assert Removing(t, c, i + 1).slots == Removing(t, c, i).slots;
  }

  lemma RemovingDone(t: Table, c: Client)
    ensures Removing(t, c, |t.slots|) == ClientTable.Remove(t, c)
    ensures t.slots[..|t.slots|] == t.slots
  {
    assert t.slots[..|t.slots|] == t.slots;
  }

  lemma {:induction false} AllPrefix(s: seq<Entry>, i: nat)
    requires i <= |s|
    ensures All(s[..i]) <= All(s)
    decreases |s|
  {
    if i < |s| {
      AllPrefix(s[..|s| - 1], i);
      assert s[..|s| - 1][..i] == s[..i];
    } else {
      assert s[..i] == s;
    }
  }
}
