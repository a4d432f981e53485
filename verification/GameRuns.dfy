/** Whole runs of a game: what a run keeps, how it scores, and that it can always be finished. */
module GameRuns {
  import opened SeqFacts
  import opened GameModel
  import opened GameInvariant
  import Forfeit

  /** The state after a run of events. */
  ghost function Run<P>(g: GameState<P>, es: seq<Event<P>>): (r: GameState<P>)
    requires Inv(g)
    ensures Inv(r)
    decreases |es|
  {
    if es == [] then g
    else
      var before := Run(g, es[..|es| - 1]);
      StepKeeps(before, es[|es| - 1]);
      Step(before, es[|es| - 1])
  }

  /** Every state any run of messages and removals reaches from a newly created game satisfies the
      invariant: this is the whole-run form of StepKeeps. */
  lemma ReachableOk<P>(boardSize: int, values: seq<int>, players: seq<P>, es: seq<Event<P>>)
    requires ValidDeal(boardSize, values, players)
    ensures Inv(Dealt(boardSize, values, players))
    ensures var g := Run(Dealt(boardSize, values, players), es);
            && (forall i, j :: 0 <= i < |g.cards| && 0 <= j < |g.cards| && g.cards[i].value == g.cards[j].value
                               ==> (g.cards[i].state == Matched <==> g.cards[j].state == Matched))
            && |InState(g.cards, Matched)| == 2 * g.matchedPairs
            && InState(g.cards, Revealed) == Stored(g)
            && (g.phase == Finished <==> forall i :: 0 <= i < |g.cards| ==> g.cards[i].state == Matched)
            && 0 <= g.current < |g.players|
            && Sum(g.scores) <= g.matchedPairs
  {
    DealtOk(boardSize, values, players);
    FinishedIffAllMatched(Run(Dealt(boardSize, values, players), es));
  }

  // ---- matched cards stay matched ----

  ghost predicate StaysMatched<P>(g: GameState<P>, g': GameState<P>) {
    && |g'.cards| == |g.cards| && g'.boardSize == g.boardSize
    && (forall i :: 0 <= i < |g.cards| ==> g'.cards[i].value == g.cards[i].value)
    && (forall i :: 0 <= i < |g.cards| && g.cards[i].state == Matched ==> g'.cards[i].state == Matched)
  }

  lemma StepStaysMatched<P>(g: GameState<P>, e: Event<P>)
    requires Inv(g) && Indexable(g)
    ensures StaysMatched(g, Step(g, e))
  {
    match e
    case Ready(who) =>
    case Remove(who) =>
    case Flip(who, card) => FlipStaysMatched(g, who, card);
  }

  lemma FlipStaysMatched<P>(g: GameState<P>, who: P, card: int)
    requires Inv(g) && Indexable(g)
    ensures StaysMatched(g, HandleFlip(g, who, card))
  {
    var f := FlipCard(g, who, card);
    assert StaysMatched(g, f);
    if CanFlip(g, who, card) && f.flips == 2 {
      FlipStates(g, who, card);
      SettleStaysMatched(f);
    }
  }

  lemma SettleStaysMatched<P>(f: GameState<P>)
    requires Indexable(f) && OpenOk(f) && f.flips == 2
    ensures StaysMatched(f, CheckMatch(f))
  {
    OpenCardsNotMatched(f);
  }

  /** A card that is matched at some point of a run is matched at every later one, and no run moves a value. */
  lemma {:induction false} RunStaysMatched<P>(g: GameState<P>, es: seq<Event<P>>)
    requires Inv(g)
    ensures StaysMatched(g, Run(g, es))
    decreases |es|
  {
    if es != [] {
      RunStaysMatched(g, es[..|es| - 1]);
      var before := Run(g, es[..|es| - 1]);
      StepKeeps(before, es[|es| - 1]);
      StepStaysMatched(before, es[|es| - 1]);
    }
  }

  // ---- scoring ----

  datatype Move<P> = Move(who: P, card: int)

  ghost function Play<P>(g: GameState<P>, ms: seq<Move<P>>): (r: GameState<P>)
    requires Inv(g)
    ensures Inv(r)
    decreases |ms|
  {
    if ms == [] then g
    else
      var before := Play(g, ms[..|ms| - 1]);
      StepKeeps(before, Flip(ms[|ms| - 1].who, ms[|ms| - 1].card));
      HandleFlip(before, ms[|ms| - 1].who, ms[|ms| - 1].card)
  }

  /** What the server answered to each move of a run. */
  ghost function Log<P>(g: GameState<P>, ms: seq<Move<P>>): (os: seq<Outcome>)
    requires Inv(g)
    ensures |os| == |ms|
    decreases |ms|
  {
    if ms == [] then []
    else
      var before := Play(g, ms[..|ms| - 1]);
      InvIndexable(before);
      Log(g, ms[..|ms| - 1]) + [FlipOutcome(before, ms[|ms| - 1].who, ms[|ms| - 1].card)]
  }

  function Mismatches(os: seq<Outcome>): nat {
    if os == [] then 0 else Mismatches(os[..|os| - 1]) + if os[|os| - 1] == MismatchFound then 1 else 0
  }

  /** The matches in the turns of one seat, when the turn passes on after every mismatch. */
  function MatchesOfSeat(os: seq<Outcome>, seats: nat, seat: nat): nat
    requires seats > 0
  {
    if os == [] then 0
    else
      var before := os[..|os| - 1];
      MatchesOfSeat(before, seats, seat)
      + if os[|os| - 1] == MatchFound && Mismatches(before) % seats == seat then 1 else 0
  }

  /** A game in which nothing has been scored and the first seat is to move. */
  ghost predicate JustStarted<P>(g: GameState<P>) {
    && Inv(g) && g.current == 0 && g.matchedPairs == 0
    && (forall s :: 0 <= s < |g.scores| ==> g.scores[s] == 0)
  }

  lemma StartedGame<P>(boardSize: int, values: seq<int>, players: seq<P>)
    requires ValidDeal(boardSize, values, players)
    ensures JustStarted(Start(Dealt(boardSize, values, players)))
    ensures Start(Dealt(boardSize, values, players)).phase == Playing
  {
    DealtOk(boardSize, values, players);
  }

  lemma Remainder(x: int, n: int, q: int, r: int)
    requires 0 <= r < n && x == q * n + r
    ensures x % n == r
  {
    var d := q - x / n;
    assert d * n == x % n - r;
    MultipleGap(d, n);
  }

  lemma MultipleGap(d: int, n: int)
    requires n > 0
    ensures d != 0 ==> d * n >= n || d * n <= -n
  {
    if d >= 1 {
      assert d * n >= n;
    } else if d <= -1 {
      assert d * n <= -n;
    }
  }

  lemma NextTurn(m: nat, n: nat)
    requires n > 0
    ensures (m % n + 1) % n == (m + 1) % n
  {
    var q, r := m / n, m % n;
    if r + 1 == n {
      Remainder(m + 1, n, q + 1, 0);
    } else {
      Remainder(m + 1, n, q, r + 1);
    }
  }

  ghost predicate ScoredAs<P>(r: GameState<P>, os: seq<Outcome>, seats: nat) {
    && |r.players| == |r.scores| == seats > 0
    && r.current == Mismatches(os) % seats
    && (forall s :: 0 <= s < seats ==> r.scores[s] == MatchesOfSeat(os, seats, s))
    && Sum(r.scores) == r.matchedPairs
  }

  /** What an answer says about turn, scores and matches. */
  ghost predicate Answers<P>(g: GameState<P>, o: Outcome, r: GameState<P>) {
    && Indexable(g) && r.players == g.players
    && r.scores == (if o == MatchFound then g.scores[g.current := g.scores[g.current] + 1] else g.scores)
    && r.current == (if o == MismatchFound then (g.current + 1) % |g.players| else g.current)
    && r.matchedPairs == g.matchedPairs + if o == MatchFound then 1 else 0
  }

  lemma FlipAnswers<P>(g: GameState<P>, who: P, card: int)
    requires Indexable(g)
    ensures Answers(g, FlipOutcome(g, who, card), HandleFlip(g, who, card))
  {
  }

  lemma ScoredNext<P>(g: GameState<P>, o: Outcome, r: GameState<P>, os: seq<Outcome>)
    requires Answers(g, o, r) && ScoredAs(g, os, |g.players|)
    ensures ScoredAs(r, os + [o], |g.players|)
  {
    assert (os + [o])[..|os + [o]| - 1] == os;
    SumUpdate(g.scores, g.current, g.scores[g.current] + 1);
    NextTurn(Mismatches(os), |g.players|);
  }

  lemma ScoringStep<P>(g: GameState<P>, who: P, card: int, os: seq<Outcome>)
    requires Indexable(g) && ScoredAs(g, os, |g.players|)
    ensures HandleFlip(g, who, card).players == g.players
    ensures ScoredAs(HandleFlip(g, who, card), os + [FlipOutcome(g, who, card)], |g.players|)
  {
    FlipAnswers(g, who, card);
    ScoredNext(g, FlipOutcome(g, who, card), HandleFlip(g, who, card), os);
  }

  /** Without removals, the turn holder, every score and their sum can be read off the answers alone. */
  lemma {:induction false} Scoring<P>(g: GameState<P>, ms: seq<Move<P>>)
    requires JustStarted(g)
    ensures Play(g, ms).players == g.players
    ensures ScoredAs(Play(g, ms), Log(g, ms), |g.players|)
    decreases |ms|
  {
    if ms == [] {
      SumZero(g.scores);
    } else {
      Scoring(g, ms[..|ms| - 1]);
      var before, m := Play(g, ms[..|ms| - 1]), ms[|ms| - 1];
      InvIndexable(before);
      ScoringStep(before, m.who, m.card, Log(g, ms[..|ms| - 1]));
    }
  }

  /** At the end of an undisturbed game the scores share out exactly all pairs. */
  lemma FinalScores<P>(boardSize: int, values: seq<int>, players: seq<P>, ms: seq<Move<P>>)
    requires ValidDeal(boardSize, values, players)
    ensures JustStarted(Start(Dealt(boardSize, values, players)))
    ensures var r := Play(Start(Dealt(boardSize, values, players)), ms);
            r.phase == Finished ==> Sum(r.scores) == r.totalPairs
  {
    StartedGame(boardSize, values, players);
    Scoring(Start(Dealt(boardSize, values, players)), ms);
  }

  /** And so they do when an undisturbed game is forfeited at any point, as long as somebody stays. */
  lemma ForfeitedScores<P>(boardSize: int, values: seq<int>, players: seq<P>, ms: seq<Move<P>>, stays: seq<bool>)
    requires ValidDeal(boardSize, values, players)
    requires |stays| == |players| && exists k :: 0 <= k < |stays| && stays[k]
    ensures JustStarted(Start(Dealt(boardSize, values, players)))
    ensures var r := Play(Start(Dealt(boardSize, values, players)), ms);
            |r.scores| == |stays| && Sum(Forfeit.Split(r.scores, stays, r.totalPairs - r.matchedPairs)) == r.totalPairs
  {
    hide Play, MatchesOfSeat, ScoredAs;
    StartedGame(boardSize, values, players);
    var g := Start(Dealt(boardSize, values, players));
    Scoring(g, ms);
    var r := Play(g, ms);
    InStateBound(r.cards, Matched);
    Forfeit.ForfeitConserves(r.scores, stays, r.totalPairs - r.matchedPairs);
  }

  // ---- no stuck game ----

  /** The player can make exactly these flips, all of them accepted, and the last one ends the game. */
  ghost predicate PlaysOut<P>(g: GameState<P>, who: P, cards: seq<int>)
    requires Inv(g)
    decreases |cards|
  {
    if cards == [] then g.phase == Finished
    else
      && CanFlip(g, who, cards[0])
      && (StepKeeps(g, Flip(who, cards[0]));
          PlaysOut(HandleFlip(g, who, cards[0]), who, cards[1..]))
  }

  lemma HiddenCard<P>(g: GameState<P>) returns (i: int)
    requires Inv(g) && g.phase == Playing && g.flips == 0
    ensures 0 <= i < |g.cards| && g.cards[i].state == Hidden
  {
    FinishedIffAllMatched(g);
    i :| 0 <= i < |g.cards| && g.cards[i].state != Matched;
    assert i !in InState(g.cards, Revealed);
  }

  /** The partner of the only open card is still face down. */
  lemma HiddenPartner<P>(g: GameState<P>) returns (j: int)
    requires Inv(g) && g.flips == 1
    ensures Indexable(g)
    ensures 0 <= j < |g.cards| && j != g.first
    ensures g.cards[j].state == Hidden && g.cards[j].value == g.cards[g.first].value
  {
    InvIndexable(g);
    j := Partner(Values(g.cards), g.first);
    assert g.first in InState(g.cards, Revealed);
    assert j !in InState(g.cards, Revealed);
    assert g.cards[j].state != Matched;
  }

  /** From every state between two messages the player to move can finish the game alone, in exactly
      two flips for each pair that is left, less the one already made. */
  lemma {:induction false} NeverStuck<P>(g: GameState<P>) returns (cards: seq<int>)
    requires Inv(g) && g.phase == Playing && g.flips <= 1
    ensures 0 <= g.current < |g.players| && |cards| == 2 * (g.totalPairs - g.matchedPairs) - g.flips
    ensures PlaysOut(g, g.players[g.current], cards)
    decreases |g.cards| - 2 * g.matchedPairs, 2 - g.flips
  {
    InvIndexable(g);
    InStateBound(g.cards, Matched);
    var who := g.players[g.current];
    var c;
    if g.flips == 0 { c := HiddenCard(g); } else { c := HiddenPartner(g); }
    StepKeeps(g, Flip(who, c));
    var g' := HandleFlip(g, who, c);
    AfterGoodFlip(g, c);
    if g'.phase == Finished {
      cards := [c];
      assert cards[1..] == [];
    } else {
      var rest := NeverStuck(g');
      cards := [c] + rest;
      assert cards[1..] == rest;
    }
  }

  lemma AfterGoodFlip<P>(g: GameState<P>, c: int)
    requires Inv(g) && Indexable(g) && g.phase == Playing && g.flips <= 1
    requires CanFlip(g, g.players[g.current], c)
    requires g.flips == 1 ==> g.cards[c].value == g.cards[g.first].value
    ensures var g' := HandleFlip(g, g.players[g.current], c);
            && g'.current == g.current && g'.players == g.players && g'.totalPairs == g.totalPairs
            && |g'.cards| == |g.cards|
            && g'.flips == 1 - g.flips && g'.matchedPairs == g.matchedPairs + g.flips
            && g'.phase in {Playing, Finished}
            && (g'.phase == Finished <==> g'.matchedPairs == g.totalPairs)
  {
    assert g.matchedPairs != g.totalPairs;
    if g.flips == 1 {
      assert g.first in InState(g.cards, Revealed);
      assert g.cards[c].state == Hidden;
    }
  }
}
