/** Games do not depend on who the players are: replacing every player by another name, one to one, commutes
    with every run. The client's nicknames and the client object that replaces another on reconnect are both
    such replacements. */
module Renaming {
  import opened SeqFacts
  import opened GameModel
  import opened GameInvariant
  import opened GameRuns

  ghost predicate Names<P, Q>(players: seq<P>, f: map<P, Q>) {
    forall k :: 0 <= k < |players| ==> players[k] in f
  }

  ghost predicate OneToOne<P, Q>(f: map<P, Q>) {
    forall p, q :: p in f && q in f && f[p] == f[q] ==> p == q
  }

  ghost function RenamedPlayers<P, Q>(players: seq<P>, f: map<P, Q>): (r: seq<Q>)
    requires Names(players, f)
    ensures |r| == |players| && forall k :: 0 <= k < |r| ==> r[k] == f[players[k]]
  {
    seq(|players|, k requires 0 <= k < |players| => f[players[k]])
  }

  ghost function Renamed<P, Q>(g: GameState<P>, f: map<P, Q>): GameState<Q>
    requires Names(g.players, f)
  {
    GameState(g.boardSize, g.totalPairs, g.cards, RenamedPlayers(g.players, f), g.scores, g.ready,
              g.current, g.first, g.second, g.flips, g.matchedPairs, g.phase)
  }

  ghost function RenamedEvent<P, Q>(e: Event<P>, f: map<P, Q>): Event<Q>
    requires e.who in f
  {
    match e
    case Ready(who) => Ready(f[who])
    case Flip(who, card) => Flip(f[who], card)
    case Remove(who) => Remove(f[who])
  }

  lemma RenamedInv<P, Q>(g: GameState<P>, f: map<P, Q>)
    requires Inv(g) && Names(g.players, f) && OneToOne(f)
    ensures Inv(Renamed(g, f))
  {
    var r := Renamed(g, f);
    forall i, j | 0 <= i < j < |r.players| ensures r.players[i] != r.players[j] {
      assert g.players[i] != g.players[j];
    }
    assert InState(r.cards, Revealed) == InState(g.cards, Revealed);
  }

  lemma RenamedFlip<P, Q>(g: GameState<P>, f: map<P, Q>, who: P, card: int)
    requires Indexable(g) && Names(g.players, f) && who in f && OneToOne(f)
    ensures Indexable(Renamed(g, f)) && HandleFlip(g, who, card).players == g.players
    ensures HandleFlip(Renamed(g, f), f[who], card) == Renamed(HandleFlip(g, who, card), f)
    ensures FlipOutcome(Renamed(g, f), f[who], card) == FlipOutcome(g, who, card)
  {
  }

  lemma {:induction false} RenamedSeat<P, Q>(players: seq<P>, f: map<P, Q>, who: P)
    requires Names(players, f) && who in f && OneToOne(f)
    ensures IndexOf(RenamedPlayers(players, f), f[who]) == IndexOf(players, who)
  {
    if players != [] && players[0] != who {
      RenamedSeat(players[1..], f, who);
      assert RenamedPlayers(players, f)[1..] == RenamedPlayers(players[1..], f);
    }
  }

  lemma RenamedWithout<P, Q>(players: seq<P>, f: map<P, Q>, i: int)
    requires Names(players, f) && 0 <= i < |players|
    ensures Names(Without(players, i), f)
    ensures Without(RenamedPlayers(players, f), i) == RenamedPlayers(Without(players, i), f)
  {
    forall k | 0 <= k < |players| - 1
      ensures Without(players, i)[k] in f && Without(RenamedPlayers(players, f), i)[k] == f[Without(players, i)[k]]
    {
      WithoutAt(players, i, k);
      WithoutAt(RenamedPlayers(players, f), i, k);
    }
  }

  lemma RenamedRemove<P, Q>(g: GameState<P>, f: map<P, Q>, who: P)
    requires Indexable(g) && Names(g.players, f) && who in f && OneToOne(f)
    ensures Names(RemovePlayer(g, who).players, f)
    ensures RemovePlayer(Renamed(g, f), f[who]) == Renamed(RemovePlayer(g, who), f)
  {
    RenamedSeat(g.players, f, who);
    var i := IndexOf(g.players, who);
    if i < |g.players| {
      RenamedWithout(g.players, f, i);
    }
  }

  lemma RenamedReady<P, Q>(g: GameState<P>, f: map<P, Q>, who: P)
    requires Indexable(g) && Names(g.players, f) && who in f && OneToOne(f)
    ensures HandleReady(g, who).players == g.players
    ensures HandleReady(Renamed(g, f), f[who]) == Renamed(HandleReady(g, who), f)
  {
    RenamedSeat(g.players, f, who);
    IndexOfIs(g.players, who);
    IndexOfIs(RenamedPlayers(g.players, f), f[who]);
    assert AllReady(PlayerReady(Renamed(g, f), f[who])) <==> AllReady(PlayerReady(g, who));
  }

  lemma RenamedStep<P, Q>(g: GameState<P>, f: map<P, Q>, e: Event<P>)
    requires Inv(g) && Names(g.players, f) && e.who in f && OneToOne(f)
    ensures Indexable(g) && Indexable(Renamed(g, f))
    ensures Names(Step(g, e).players, f)
    ensures Step(Renamed(g, f), RenamedEvent(e, f)) == Renamed(Step(g, e), f)
  {
    InvIndexable(g);
    match e
    case Ready(who) => RenamedReady(g, f, who);
    case Flip(who, card) => RenamedFlip(g, f, who, card);
    case Remove(who) => RenamedRemove(g, f, who);
  }

  ghost predicate EventsNamed<P, Q>(es: seq<Event<P>>, f: map<P, Q>) {
    forall i :: 0 <= i < |es| ==> es[i].who in f
  }

  ghost function RenamedEvents<P, Q>(es: seq<Event<P>>, f: map<P, Q>): (r: seq<Event<Q>>)
    requires EventsNamed(es, f)
    ensures |r| == |es|
  {
    if es == [] then [] else RenamedEvents(es[..|es| - 1], f) + [RenamedEvent(es[|es| - 1], f)]
  }

  /** A game that goes on with other names goes on exactly as it would have with the old ones. */
  lemma {:induction false} RenamedRun<P, Q>(g: GameState<P>, f: map<P, Q>, es: seq<Event<P>>)
    requires Inv(g) && Names(g.players, f) && OneToOne(f) && EventsNamed(es, f)
    ensures Inv(Renamed(g, f)) && Names(Run(g, es).players, f)
    ensures Run(Renamed(g, f), RenamedEvents(es, f)) == Renamed(Run(g, es), f)
    decreases |es|
  {
    RenamedInv(g, f);
    if es != [] {
      var before := es[..|es| - 1];
      RenamedRun(g, f, before);
      RenamedStep(Run(g, before), f, es[|es| - 1]);
      assert RenamedEvents(es, f)[..|es| - 1] == RenamedEvents(before, f);
    }
  }
}
