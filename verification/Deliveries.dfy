/** What a client finds among the messages the server has sent, and that a flip sends every member of the room what
    module Mirror says it hears. */
module Deliveries {
  import opened GameModel
  import opened Structs
  import opened Messages
  import opened Rooms
  import opened Mirror
  import opened Renaming

  function Inbox(ds: seq<Delivery>, c: Client): seq<Message> {
    if ds == [] then []
    else
      var n := |ds| - 1;
      Inbox(ds[..n], c) + if ds[n].to == c then [ds[n].message] else []
  }

  lemma {:induction false} InboxConcat(ds: seq<Delivery>, es: seq<Delivery>, c: Client)
    ensures Inbox(ds + es, c) == Inbox(ds, c) + Inbox(es, c)
    decreases |es|
  {
    if es == [] {
      assert ds + es == ds;
    } else {
      assert (ds + es)[..|ds + es| - 1] == ds + es[..|es| - 1];
      InboxConcat(ds, es[..|es| - 1], c);
    }
  }

  /** client_send_message */
  function Reply(c: Client, m: Message): seq<Delivery>
    reads c`isDisconnected, c`socketFd
  {
    if c.Reachable() then [Delivery(c, m)] else []
  }

  lemma ReplyInbox(c: Client, m: Message, d: Client)
    requires d.Reachable()
    ensures Inbox(Reply(c, m), d) == if c == d then [m] else []
  {
    if c.Reachable() {
      assert [Delivery(c, m)][..0] == [];
    }
  }

  lemma {:induction false} NotReached(seats: seq<Client?>, m: Message, except: Client?, c: Client)
    requires c !in seats || c == except
    ensures Inbox(Reached(seats, m, except), c) == []
  {
    if seats != [] {
      var n := |seats| - 1;
      NotReached(seats[..n], m, except, c);
      OneMore(seats, m, except, c);
    }
  }

  lemma OneMore(seats: seq<Client?>, m: Message, except: Client?, c: Client)
    requires seats != []
    ensures var n := |seats| - 1;
            Inbox(Reached(seats, m, except), c) == Inbox(Reached(seats[..n], m, except), c)
            + if seats[n] == c && c != except && c.Reachable() then [m] else []
  {
    var n := |seats| - 1;
    if seats[n] != null && seats[n] != except && seats[n].Reachable() {
      InboxConcat(Reached(seats[..n], m, except), [Delivery(seats[n], m)], c);
      assert [Delivery(seats[n], m)][..0] == [];
    } else {
      assert Reached(seats, m, except) == Reached(seats[..n], m, except);
    }
  }

  /** A broadcast reaches every connected member once. */
  lemma {:induction false} ReachedInbox(seats: seq<Client?>, m: Message, c: Client)
    requires SeatedOnce(seats) && c in seats && c.Reachable()
    ensures Inbox(Reached(seats, m, null), c) == [m]
  {
    var n := |seats| - 1;
    OneMore(seats, m, null, c);
    if seats[n] == c {
      NotReached(seats[..n], m, null, c);
    } else {
      ReachedInbox(seats[..n], m, c);
    }
  }

  /** handle_flip's messages to one member, in order. */
  ghost function Announced(g: GameState<Client>, names: map<Client, string>, who: Client, card: int,
                           c: Client): seq<Message>
    requires Indexable(g) && CanFlip(g, who, card) && Names(g.players, names)
  {
    var f := FlipCard(g, who, card);
    [CardReveal(card, g.cards[card].value, names[who])] +
    if f.flips != 2 then [] else Turned(f, names, who, c)
  }

  ghost function Turned(f: GameState<Client>, names: map<Client, string>, who: Client, c: Client): seq<Message>
    requires Indexable(f) && f.flips == 2 && Names(f.players, names) && who in names
  {
    var r := CheckMatch(f);
    if IsMatch(f) then
      [Match(names[who], r.scores[r.current])] +
      if r.phase == Finished then [GameEnd(Results(RenamedPlayers(r.players, names), r.scores))]
      else YourTurnIf(c == who)
    else [Mismatch(names[r.players[r.current]])] + YourTurnIf(c == r.players[r.current])
  }

  lemma TurnedNamed(f: GameState<Client>, names: map<Client, string>, who: Client, c: Client)
    requires Indexable(f) && f.flips == 2 && Names(f.players, names) && OneToOne(names)
    requires who in names && f.players[f.current] == who && c in names
    ensures Turned(f, names, who, c) == Settlement(Renamed(f, names), names[c])
  {
  }

  /** The messages of a flip are the broadcasts the clients' copies are proved against. */
  lemma AnnouncedIsBroadcast(g: GameState<Client>, names: map<Client, string>, who: Client, card: int, c: Client)
    requires Indexable(g) && CanFlip(g, who, card) && Names(g.players, names) && OneToOne(names) && c in names
    ensures Announced(g, names, who, card, c) == Broadcasts(Renamed(g, names), names[who], card, names[c])
  {
    var f := FlipCard(g, who, card);
    assert FlipCard(Renamed(g, names), names[who], card) == Renamed(f, names);
    if f.flips == 2 {
      TurnedNamed(f, names, who, c);
    }
  }
}
