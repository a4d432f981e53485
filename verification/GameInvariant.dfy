/** What every step keeps true of a game. */
module GameInvariant {
  import opened SeqFacts
  import opened Shuffle
  import opened GameModel

  ghost function InState(cards: seq<Card>, s: CardState): set<int> {
    set i | 0 <= i < |cards| && cards[i].state == s
  }

  ghost predicate DeckOk<P>(g: GameState<P>) {
    && MIN_BOARD_SIZE <= g.boardSize <= MAX_BOARD_SIZE
    && |g.cards| == g.boardSize * g.boardSize == 2 * g.totalPairs
    && (forall i :: 0 <= i < |g.cards| ==> 1 <= g.cards[i].value <= g.totalPairs)
    && Paired(Values(g.cards))
  }

  /** Both cards of a value are matched or neither is. */
  ghost predicate PairsTogether(cards: seq<Card>) {
    forall i, j :: 0 <= i < |cards| && 0 <= j < |cards| && cards[i].value == cards[j].value
      ==> (cards[i].state == Matched <==> cards[j].state == Matched)
  }

  /** The stored indices, as a set. */
  ghost function Stored<P>(g: GameState<P>): set<int> {
    if g.flips == 0 then {} else if g.flips == 1 then {g.first} else {g.first, g.second}
  }

  ghost predicate OpenOk<P>(g: GameState<P>) {
    && 0 <= g.flips <= 2
    && InState(g.cards, Revealed) == Stored(g)
    && (g.flips == 0 ==> g.first == -1)
    && (g.flips <= 1 ==> g.second == -1)
    && (g.flips == 2 ==> g.first != g.second)
  }

  ghost predicate RosterOk<P>(g: GameState<P>) {
    && 1 <= |g.players| <= MAX_PLAYERS
    && |g.players| == |g.scores| == |g.ready|
    && 0 <= g.current < |g.players|
    && Distinct(g.players)
    && (forall i :: 0 <= i < |g.scores| ==> g.scores[i] >= 0)
    && Sum(g.scores) <= g.matchedPairs
  }

  ghost predicate PhaseOk<P>(g: GameState<P>) {
    && (g.phase == Finished <==> g.matchedPairs == g.totalPairs)
    && (g.phase == Waiting ==> g.flips == 0 && g.matchedPairs == 0 && g.current == 0)
  }

  ghost predicate Inv<P>(g: GameState<P>) {
    && DeckOk(g) && PairsTogether(g.cards) && OpenOk(g) && RosterOk(g) && PhaseOk(g)
    && |InState(g.cards, Matched)| == 2 * g.matchedPairs
  }

  lemma InvIndexable<P>(g: GameState<P>)
    requires Inv(g)
    ensures Indexable(g)
  {
    if g.flips >= 1 {
      assert g.first in InState(g.cards, Revealed);
    }
    if g.flips == 2 {
      assert g.second in InState(g.cards, Revealed);
    }
  }

  lemma EvenSquare(n: int)
    requires MIN_BOARD_SIZE <= n <= MAX_BOARD_SIZE && n % 2 == 0
    ensures n * n / 2 >= 8 && n * n == 2 * (n * n / 2)
  {
    assert n == 4 || n == 6 || n == 8;
  }

  lemma DealtDeckOk(pairs: nat, values: seq<int>)
    requires multiset(values) == multiset(Deck(pairs))
    ensures |values| == 2 * pairs
    ensures forall i :: 0 <= i < |values| ==> 1 <= values[i] <= pairs
    ensures Paired(values)
  {
    SameLength(values, Deck(pairs));
    forall i | 0 <= i < |values|
      ensures 1 <= values[i] <= pairs && multiset(values)[values[i]] == 2
    {
      assert values[i] in multiset(values);
      DeckCounts(pairs, values[i]);
    }
  }

  /** The game handle_start_game makes satisfies the invariant. */
  lemma DealtOk<P>(boardSize: int, values: seq<int>, players: seq<P>)
    requires ValidDeal(boardSize, values, players)
    ensures Inv(Dealt(boardSize, values, players))
  {
    var g := Dealt(boardSize, values, players);
    EvenSquare(boardSize);
    DealtDeckOk(g.totalPairs, values);
    assert Values(g.cards) == values;
    assert InState(g.cards, Matched) == {} && InState(g.cards, Revealed) == {};
    SumZero(g.scores);
  }

  lemma PutKeepsValues(cards: seq<Card>, i: int, s: CardState)
    requires 0 <= i < |cards|
    ensures Values(Put(cards, i, s)) == Values(cards)
    ensures InState(Put(cards, i, s), s) == InState(cards, s) + {i}
    ensures forall t :: t != s ==> InState(Put(cards, i, s), t) == InState(cards, t) - {i}
  {
  }

  lemma FlipStates<P>(g: GameState<P>, who: P, card: int)
    requires CanFlip(g, who, card) && Indexable(g) && OpenOk(g)
    ensures InState(FlipCard(g, who, card).cards, Matched) == InState(g.cards, Matched)
    ensures OpenOk(FlipCard(g, who, card))
    ensures Values(FlipCard(g, who, card).cards) == Values(g.cards)
    ensures PairsTogether(g.cards) ==> PairsTogether(FlipCard(g, who, card).cards)
  {
    PutKeepsValues(g.cards, card, Revealed);
    assert card !in InState(g.cards, Revealed);
    assert card !in InState(g.cards, Matched);
  }

  lemma FlipKeeps<P>(g: GameState<P>, who: P, card: int)
    requires Inv(g)
    ensures Inv(FlipCard(g, who, card))
  {
    if CanFlip(g, who, card) {
      InvIndexable(g);
      FlipStates(g, who, card);
    }
  }

  lemma OpenCardsNotMatched<P>(g: GameState<P>)
    requires OpenOk(g) && g.flips == 2
    ensures g.first in InState(g.cards, Revealed) && g.second in InState(g.cards, Revealed)
    ensures g.first !in InState(g.cards, Matched) && g.second !in InState(g.cards, Matched)
  {
  }

  lemma SettleKeepsDeck<P>(g: GameState<P>)
    requires DeckOk(g) && Indexable(g) && g.flips == 2
    ensures DeckOk(CheckMatch(g))
  {
    var s := if IsMatch(g) then Matched else Hidden;
    PutKeepsValues(g.cards, g.first, s);
    PutKeepsValues(Put(g.cards, g.first, s), g.second, s);
    assert Values(CheckMatch(g).cards) == Values(g.cards);
    forall i | 0 <= i < |g.cards| ensures CheckMatch(g).cards[i].value == g.cards[i].value {
      assert Values(CheckMatch(g).cards)[i] == Values(g.cards)[i];
    }
  }

  lemma MatchKeepsTogether<P>(g: GameState<P>)
    requires DeckOk(g) && PairsTogether(g.cards) && OpenOk(g) && Indexable(g) && g.flips == 2 && IsMatch(g)
    ensures PairsTogether(CheckMatch(g).cards)
  {
    var cs, cs' := g.cards, CheckMatch(g).cards;
    forall i, j | 0 <= i < |cs'| && 0 <= j < |cs'| && cs'[i].value == cs'[j].value
      ensures cs'[i].state == Matched <==> cs'[j].state == Matched
    {
      assert cs[i].value == cs[j].value;
      if i == g.first || i == g.second {
        NoThird(Values(cs), g.first, g.second, j);
      } else if j == g.first || j == g.second {
        NoThird(Values(cs), g.first, g.second, i);
      }
    }
  }

  lemma PutTwice(cards: seq<Card>, i: int, j: int, s: CardState)
    requires 0 <= i < |cards| && 0 <= j < |cards|
    ensures InState(Put(Put(cards, i, s), j, s), s) == InState(cards, s) + {i, j}
    ensures forall t :: t != s ==> InState(Put(Put(cards, i, s), j, s), t) == InState(cards, t) - {i, j}
  {
    PutKeepsValues(cards, i, s);
    PutKeepsValues(Put(cards, i, s), j, s);
    assert InState(cards, s) + {i, j} == InState(cards, s) + {i} + {j};
    forall t: CardState | t != s
      ensures InState(Put(Put(cards, i, s), j, s), t) == InState(cards, t) - {i, j}
    {
      assert InState(cards, t) - {i, j} == InState(cards, t) - {i} - {j};
    }
  }

  lemma TwoMore(s: set<int>, i: int, j: int)
    requires i !in s && j !in s && i != j
    ensures |s + {i, j}| == |s| + 2
  {
    assert s + {i, j} == s + {i} + {j};
  }

  lemma SettledStates<P>(g: GameState<P>)
    requires Indexable(g) && OpenOk(g) && g.flips == 2
    ensures InState(CheckMatch(g).cards, Revealed) == {}
    ensures |InState(CheckMatch(g).cards, Matched)| == |InState(g.cards, Matched)| + if IsMatch(g) then 2 else 0
  {
    OpenCardsNotMatched(g);
    if IsMatch(g) {
      PutTwice(g.cards, g.first, g.second, Matched);
      TwoMore(InState(g.cards, Matched), g.first, g.second);
    } else {
      PutTwice(g.cards, g.first, g.second, Hidden);
      assert InState(CheckMatch(g).cards, Matched) == InState(g.cards, Matched);
    }
  }

  lemma InStateBound(cards: seq<Card>, s: CardState)
    ensures |InState(cards, s)| <= |cards|
  {
    SubsetCard(InState(cards, s), Below(|cards|));
  }

  /** No pair is counted twice, so matched_pairs cannot step over total_pairs. */
  lemma MatchedAtMostAll<P>(g: GameState<P>)
    requires |g.cards| == 2 * g.totalPairs && |InState(g.cards, Matched)| == 2 * g.matchedPairs
    requires OpenOk(g) && Indexable(g) && g.flips == 2 && IsMatch(g)
    ensures g.matchedPairs < g.totalPairs
  {
    SettledStates(g);
    InStateBound(CheckMatch(g).cards, Matched);
  }

  lemma SettleKeepsRoster<P>(g: GameState<P>)
    requires RosterOk(g) && Indexable(g) && g.flips == 2
    ensures RosterOk(CheckMatch(g))
    ensures Sum(CheckMatch(g).scores) == Sum(g.scores) + if IsMatch(g) then 1 else 0
  {
    SumUpdate(g.scores, g.current, g.scores[g.current] + 1);
  }

  lemma SettleKeepsTurn<P>(g: GameState<P>)
    requires OpenOk(g) && PhaseOk(g) && Indexable(g) && g.flips == 2
    requires IsMatch(g) ==> g.matchedPairs < g.totalPairs
    ensures OpenOk(CheckMatch(g)) && PhaseOk(CheckMatch(g))
  {
    SettledStates(g);
  }

  lemma SettleKeepsBoard<P>(g: GameState<P>)
    requires DeckOk(g) && PairsTogether(g.cards) && OpenOk(g) && Indexable(g) && g.flips == 2
    requires |InState(g.cards, Matched)| == 2 * g.matchedPairs
    ensures DeckOk(CheckMatch(g)) && PairsTogether(CheckMatch(g).cards)
    ensures |InState(CheckMatch(g).cards, Matched)| == 2 * CheckMatch(g).matchedPairs
  {
    SettleKeepsDeck(g);
    SettledStates(g);
    if IsMatch(g) { MatchKeepsTogether(g); } else { MismatchKeepsTogether(g); }
  }

  lemma SettleKeeps<P>(g: GameState<P>)
    requires Inv(g) && Indexable(g) && g.flips == 2
    ensures Inv(CheckMatch(g))
  {
    SettleKeepsBoard(g);
    SettleKeepsRoster(g);
    if IsMatch(g) { MatchedAtMostAll(g); }
    SettleKeepsTurn(g);
  }

  lemma MismatchKeepsTogether<P>(g: GameState<P>)
    requires PairsTogether(g.cards) && OpenOk(g) && Indexable(g) && g.flips == 2 && !IsMatch(g)
    ensures PairsTogether(CheckMatch(g).cards)
  {
    OpenCardsNotMatched(g);
    var cs, cs' := g.cards, CheckMatch(g).cards;
    forall i | 0 <= i < |cs|
      ensures cs'[i].value == cs[i].value && (cs'[i].state == Matched <==> cs[i].state == Matched)
    {
    }
  }

  lemma HandleFlipKeeps<P>(g: GameState<P>, who: P, card: int)
    requires Inv(g) && Indexable(g)
    ensures Inv(HandleFlip(g, who, card))
  {
    FlipKeeps(g, who, card);
    var f := FlipCard(g, who, card);
    if CanFlip(g, who, card) && f.flips == 2 {
      InvIndexable(f);
      SettleKeeps(f);
    }
  }

  lemma FlipTurns<P>(g: GameState<P>, who: P, card: int)
    requires Indexable(g)
    ensures HandleFlip(g, who, card).players == g.players
    ensures g.flips <= 1 ==> HandleFlip(g, who, card).flips <= 1
    ensures HandleFlip(g, who, card).phase == g.phase || HandleFlip(g, who, card).phase == Finished
  {
  }

  lemma WithoutAt<T>(s: seq<T>, i: int, k: int)
    requires 0 <= i < |s| && 0 <= k < |s| - 1
    ensures |Without(s, i)| == |s| - 1
    ensures Without(s, i)[k] == if k < i then s[k] else s[k + 1]
  {
  }

  lemma RemoveKeeps<P>(g: GameState<P>, who: P)
    requires Inv(g) && |g.players| >= 2
    ensures Inv(RemovePlayer(g, who))
  {
    RemoveKeepsRoster(g, who);
  }

  lemma RemoveKeepsRoster<P>(g: GameState<P>, who: P)
    requires RosterOk(g) && |g.players| >= 2
    ensures RosterOk(RemovePlayer(g, who))
    ensures g.current == 0 ==> RemovePlayer(g, who).current == 0
  {
    var i := IndexOf(g.players, who);
    if i < |g.players| {
      SumRemove(g.scores, i);
      forall j | 0 <= j < |g.players| - 1
        ensures Without(g.players, i)[j] == g.players[if j < i then j else j + 1]
        ensures Without(g.scores, i)[j] >= 0
      {
        WithoutAt(g.players, i, j);
        WithoutAt(g.scores, i, j);
      }
    }
  }

  /** game.c alone decides every one of these steps, so the invariant holds after any run of them. */
  lemma StepKeeps<P>(g: GameState<P>, e: Event<P>)
    requires Inv(g)
    ensures Indexable(g) && Inv(Step(g, e))
  {
    InvIndexable(g);
    match e
    case Ready(who) =>
    case Flip(who, card) => HandleFlipKeeps(g, who, card);
    case Remove(who) => if |g.players| >= 2 { RemoveKeeps(g, who); }
  }

  /** FINISHED holds exactly when every card is matched. */
  lemma FinishedIffAllMatched<P>(g: GameState<P>)
    requires Inv(g)
    ensures g.phase == Finished <==> forall i :: 0 <= i < |g.cards| ==> g.cards[i].state == Matched
  {
    var matched := InState(g.cards, Matched);
    SubsetCard(matched, Below(|g.cards|));
    if g.phase == Finished {
      assert matched == Below(|g.cards|);
      forall i | 0 <= i < |g.cards| ensures g.cards[i].state == Matched {
        assert i in matched;
      }
    }
    if forall i :: 0 <= i < |g.cards| ==> g.cards[i].state == Matched {
      assert matched == Below(|g.cards|);
    }
  }
}
