/** handle_reconnect on the client, room, game and list objects. */
module Reconnects {
  import opened GameModel
  import opened Games
  import opened Structs
  import opened Reconnecting
  import opened ClientLists
  import ClientTable
  import GameInvariant
  import GameRuns
  import Renaming

  /** Id and nickname are the old record's, socket and error count its own; nothing is due and nothing is overdue. */
  function Renewed(o: Standing, n: Standing, now: int): (r: Standing)
    ensures r.id == o.id && r.nickname == o.nickname && r.socket == n.socket && r.errors == n.errors
    ensures !r.marked && !r.waiting && r.lastPong == r.lastActivity == now && r.lastPing == r.markedAt == 0
  {
    Standing(o.id, n.socket, false, 0, o.nickname, n.errors, false, 0, now, now)
  }

  /** The new record takes over who the old client is and where it sits; its own connection and timers are fresh. */
  method TakeOver(o: Client, n: Client, now: int)
    requires o != n
    modifies n
    ensures n.state == o.state && n.room == o.room
    ensures StandingOf(n) == Renewed(StandingOf(o), old(StandingOf(n)), now)
  {
    n.nickname := o.nickname;
    n.state := o.state;
    n.room := o.room;
    n.clientId := o.clientId;
    n.lastActivity := now;
    n.isDisconnected := false;
    n.disconnectTime := 0;
    n.waitingForPong := false;
    n.lastPongTime := now;
    n.lastPingTime := 0;
  }

  method Reseat(room: Room, o: Client, n: Client) returns (updates: nat)
    requires room.playerCount <= |room.players| && o != n
    modifies room`players
    ensures room.players == Reseated(old(room.players), room.playerCount, o, n)
    ensures SeatedOnce(old(room.players)) ==> updates <= 1
  {
    updates := 0;
    ghost var before := room.players;
    var i := 0;
    while i < room.playerCount
      invariant 0 <= i && (room.playerCount >= 0 ==> i <= room.playerCount) && (room.playerCount < 0 ==> i == 0)
      invariant room.players == Reseated(before, i, o, n)
      invariant updates > 0 ==> exists k :: 0 <= k < i && before[k] == o
      invariant SeatedOnce(before) ==> updates <= 1
    {
      if room.players[i] == o {
        room.players := room.players[i := n];
        updates := updates + 1;
      }
      i := i + 1;
    }
  }

  method ReplaceInGame(game: Game<Client>, o: Client, n: Client)
    requires game.playerCount == |game.players| && o != n
    modifies game`players
    ensures game.players == Substituted(old(game.players), o, n)
  {
    ghost var before := game.players;
    for i := 0 to game.playerCount
      invariant |game.players| == |before|
      invariant forall k :: 0 <= k < |before| ==> game.players[k] == if k < i && before[k] == o then n else before[k]
    {
      if game.players[i] == o {
        game.players := game.players[i := n];
      }
    }
  }

  /** A record that changes changes its own slot of the list and no other. */
  lemma OneRecordChanged(cs: seq<Client?>, n: Client, j: int, before: seq<ClientTable.Entry>)
    requires 0 <= j < |cs| == |before| && cs[j] == n
    requires forall k :: 0 <= k < |cs| && k != j ==> before[k] == EntryOf(cs[k])
    ensures EntriesOf(cs) == before[j := EntryOf(n)]
  {
  }

  /** After the id copy two slots carry the same id. */
  method TakeOverListed(list: ClientList, o: Client, n: Client, now: int, ghost t: ClientTable.Table, ghost j: int)
    requires 0 <= j < list.clientArray.Length && list.clientArray[j] == n && o != n && n.socketFd >= 0
    requires OnceOnly(list.clientArray[..]) && t == list.View()
    modifies n
    ensures n.state == o.state && n.room == o.room
    ensures StandingOf(n) == Renewed(StandingOf(o), old(StandingOf(n)), now)
    ensures t.slots[j].Taken? && t.slots[j].client == n && t.slots[j].id == old(n.clientId) && !t.slots[j].zombie
    ensures EntryOf(n) == ClientTable.Taken(n, o.clientId, false)
    ensures list.View() == ClientTable.Renumbered(t, j, o.clientId)
  {
    assert t.slots[j] == EntryOf(n);
    TakeOver(o, n, now);
    forall k | 0 <= k < list.clientArray.Length && k != j ensures t.slots[k] == EntryOf(list.clientArray[k]) {
      assert list.clientArray[k] == list.clientArray[..][k];
    }
    OneRecordChanged(list.clientArray[..], n, j, t.slots);
  }

  method Rewrite(o: Client, n: Client)
    requires o != n
    requires n.room != null ==> 0 <= n.room.playerCount <= |n.room.players|
    requires n.room != null && n.room.game != null ==> n.room.game.playerCount == |n.room.game.players|
    modifies OwnRoom(n)`players, OwnGame(n)`players
    ensures n.room != null ==> n.room.players == Reseated(old(n.room.players), n.room.playerCount, o, n)
    ensures n.room != null && n.room.game != null ==>
              n.room.game.View() == old(n.room.game.View()).(players := Substituted(old(n.room.game.players), o, n))
  {
    if n.room != null {
      var updates := Reseat(n.room, o, n);
      if n.room.game != null {
        ReplaceInGame(n.room.game, o, n);
      }
    }
  }

  /** Everything but the list: the record, the seat and the place in the game. */
  method Move(list: ClientList, o: Client, n: Client, now: int, ghost t: ClientTable.Table, ghost j: int)
    requires 0 <= j < list.clientArray.Length && list.clientArray[j] == n && o != n && n.socketFd >= 0
    requires OnceOnly(list.clientArray[..]) && t == list.View()
    requires o.room != null ==> 0 <= o.room.playerCount <= |o.room.players|
    requires o.room != null && o.room.game != null ==> o.room.game.playerCount == |o.room.game.players|
    modifies n, OwnRoom(o)`players, OwnGame(o)`players
    ensures Moved(o, n, now)
    ensures t.slots[j].Taken? && t.slots[j].client == n && t.slots[j].id == old(n.clientId) && !t.slots[j].zombie
    ensures EntryOf(n) == ClientTable.Taken(n, o.clientId, false)
    ensures list.View() == ClientTable.Renumbered(t, j, o.clientId)
  {
    hide ClientTable.Renumbered, Reseated, Substituted, Renewed;
    TakeOverListed(list, o, n, now, t, j);
    Rewrite(o, n);
  }

  /** The new client is what the old one was, and sits where it sat. */
  twostate predicate Moved(o: Client, n: Client, now: int)
    reads n, o, OwnRoom(n), OwnGame(n), set g | g in OwnGame(n) :: g.cards
  {
    && n.state == o.state && n.room == o.room == old(o.room)
    && StandingOf(n) == Renewed(StandingOf(o), old(StandingOf(n)), now)
    && (n.room != null ==> n.room.players == Reseated(old(o.room.players), n.room.playerCount, o, n))
    && (n.room != null && n.room.game != null ==>
          && n.room.game == old(o.room.game)
          && n.room.game.View() == old(o.room.game.View()).(players := Substituted(old(o.room.game.players), o, n)))
  }

  /** The part of handle_reconnect that runs once the old client is accepted. The new client stands in slot j;
      what the list becomes is the step whose effect on the ids ClientTable.ReplaceRestores states. */
  method Transfer(list: ClientList, o: Client, n: Client, now: int, ghost j: int)
    requires 0 <= j < list.clientArray.Length && list.clientArray[j] == n && o != n && n.socketFd >= 0
    requires OnceOnly(list.clientArray[..])
    requires o.room != null ==> 0 <= o.room.playerCount <= |o.room.players|
    requires o.room != null && o.room.game != null ==> o.room.game.playerCount == |o.room.game.players|
    modifies n, list`clientCount, list.clientArray, OwnRoom(o)`players, OwnGame(o)`players
    ensures Moved(o, n, now)
    ensures old(list.View()).slots[j] == ClientTable.Taken(n, old(n.clientId), false)
    ensures list.View() == ClientTable.Replace(ClientTable.Renumbered(old(list.View()), j, o.clientId), o, n,
                                               ClientTable.Taken(n, o.clientId, false))
  {
    hide ClientTable.Renumbered, ClientTable.Replace, Reseated, Substituted, Renewed;
    Move(list, o, n, now, list.View(), j);
    list.Replace(o, n);
  }

  ghost function InPlaceOf(others: set<Client>, o: Client, n: Client): map<Client, Client> {
    map c: Client | c in others :: if c == o then n else c
  }

  /** A game goes on with the new client exactly as it would have gone on with the old one: after any run of
      messages, seats, scores, ready flags, turn and board are the same, with the new client for the old. */
  lemma GameGoesOn(g: GameState<Client>, o: Client, n: Client, others: set<Client>, es: seq<Event<Client>>)
    requires GameInvariant.Inv(g) && n !in others
    requires forall k :: 0 <= k < |g.players| ==> g.players[k] in others
    requires forall i :: 0 <= i < |es| ==> es[i].who in others
    ensures var f := InPlaceOf(others, o, n);
            && GameInvariant.Inv(g.(players := Substituted(g.players, o, n)))
            && Renaming.EventsNamed(es, f) && Renaming.Names(GameRuns.Run(g, es).players, f)
            && GameRuns.Run(g.(players := Substituted(g.players, o, n)), Renaming.RenamedEvents(es, f))
               == Renaming.Renamed(GameRuns.Run(g, es), f)
  {
    var f := InPlaceOf(others, o, n);
    assert Renaming.RenamedPlayers(g.players, f) == Substituted(g.players, o, n);
    assert Renaming.Renamed(g, f) == g.(players := Substituted(g.players, o, n));
    Renaming.RenamedRun(g, f, es);
  }
}
