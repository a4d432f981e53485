/** A pexeso game as a value, and what each operation of server_src/game.c does to it.
    The player type is a parameter: the server plays with client pointers, the client mirrors nicknames. */
module GameModel {
  import opened SeqFacts
  import opened Shuffle

  const MIN_BOARD_SIZE := 4
  const MAX_BOARD_SIZE := 8
  const MAX_PLAYERS := 4

  datatype CardState = Hidden | Revealed | Matched
  datatype Card = Card(value: int, state: CardState)
  datatype Phase = Waiting | Playing | Finished

  /** Only the first player_count entries of the C arrays are part of the value. */
  datatype GameState<P> = GameState(
    boardSize: int, totalPairs: int, cards: seq<Card>,
    players: seq<P>, scores: seq<int>, ready: seq<bool>,
    current: int, first: int, second: int, flips: int,
    matchedPairs: int, phase: Phase)

  datatype Outcome = Rejected | Opened | MatchFound | MismatchFound

  function Values(cards: seq<Card>): (vs: seq<int>)
    ensures |vs| == |cards| && forall i :: 0 <= i < |vs| ==> vs[i] == cards[i].value
  {
    seq(|cards|, i requires 0 <= i < |cards| => cards[i].value)
  }

  function Put(cards: seq<Card>, i: int, s: CardState): seq<Card>
    requires 0 <= i < |cards|
  {
    cards[i := cards[i].(state := s)]
  }

  /** Every index the code reads is in range. */
  ghost predicate Indexable<P>(g: GameState<P>) {
    && |g.players| == |g.scores| == |g.ready|
    && 0 <= g.current < |g.players|
    && 0 <= g.flips <= 2
    && (g.flips >= 1 ==> 0 <= g.first < |g.cards|)
    && (g.flips == 2 ==> 0 <= g.second < |g.cards|)
  }

  /** The guard chain of game_flip_card. */
  predicate CanFlip<P(==)>(g: GameState<P>, who: P, card: int) {
    && g.phase == Playing
    && 0 <= g.current < |g.players| && g.players[g.current] == who
    && g.flips < 2
    && 0 <= card < |g.cards|
    && g.cards[card].state == Hidden
  }

  function FlipCard<P(==)>(g: GameState<P>, who: P, card: int): GameState<P> {
    if !CanFlip(g, who, card) then g
    else if g.flips == 0 then g.(cards := Put(g.cards, card, Revealed), flips := 1, first := card)
    else g.(cards := Put(g.cards, card, Revealed), flips := g.flips + 1, second := card)
  }

  predicate IsMatch<P>(g: GameState<P>)
    requires 0 <= g.first < |g.cards| && 0 <= g.second < |g.cards|
  {
    g.cards[g.first].value == g.cards[g.second].value
  }

  /** game_check_match with two cards open. */
  function CheckMatch<P>(g: GameState<P>): GameState<P>
    requires Indexable(g) && g.flips == 2
  {
    var closed := g.(first := -1, second := -1, flips := 0);
    if IsMatch(g) then
      closed.(
      cards := Put(Put(g.cards, g.first, Matched), g.second, Matched),
      scores := g.scores[g.current := g.scores[g.current] + 1],
      matchedPairs := g.matchedPairs + 1,
      phase := if g.matchedPairs + 1 == g.totalPairs then Finished else g.phase)
    else
      closed.(
      cards := Put(Put(g.cards, g.first, Hidden), g.second, Hidden),
      current := (g.current + 1) % |g.players|)
  }

  /** The game part of handle_flip: flip, and settle the turn after the second card. */
  function HandleFlip<P(==)>(g: GameState<P>, who: P, card: int): GameState<P>
    requires Indexable(g)
  {
    var f := FlipCard(g, who, card);
    if CanFlip(g, who, card) && f.flips == 2 then CheckMatch(f) else f
  }

  function FlipOutcome<P(==)>(g: GameState<P>, who: P, card: int): Outcome
    requires Indexable(g)
  {
    var f := FlipCard(g, who, card);
    if !CanFlip(g, who, card) then Rejected
    else if f.flips != 2 then Opened
    else if IsMatch(f) then MatchFound
    else MismatchFound
  }

  function Without<T>(s: seq<T>, i: int): seq<T>
    requires 0 <= i < |s|
  {
    s[..i] + s[i + 1..]
  }

  /** game_remove_player. The wrap is tested before the shift. */
  function RemovePlayer<P(==)>(g: GameState<P>, who: P): GameState<P>
    requires |g.players| == |g.scores| == |g.ready|
  {
    var i := IndexOf(g.players, who);
    if i == |g.players| then g
    else g.(
         players := Without(g.players, i),
         scores := Without(g.scores, i),
         ready := Without(g.ready, i),
         current := if g.current >= |g.players| - 1 then 0
         else if g.current > i then g.current - 1
         else g.current)
  }

  function PlayerReady<P(==)>(g: GameState<P>, who: P): GameState<P>
    requires |g.players| == |g.ready|
  {
    var i := IndexOf(g.players, who);
    if g.phase != Waiting || i == |g.players| then g else g.(ready := g.ready[i := true])
  }

  predicate AllReady<P>(g: GameState<P>) {
    forall i :: 0 <= i < |g.ready| ==> g.ready[i]
  }

  function Start<P>(g: GameState<P>): GameState<P> {
    if g.phase != Waiting then g else g.(phase := Playing, current := 0)
  }

  /** The game part of handle_ready. */
  function HandleReady<P(==)>(g: GameState<P>, who: P): GameState<P>
    requires |g.players| == |g.ready|
  {
    var r := PlayerReady(g, who);
    if g.phase == Waiting && who in g.players && AllReady(r) then Start(r) else r
  }

  function Dealt<P>(boardSize: int, values: seq<int>, players: seq<P>): GameState<P> {
    GameState(boardSize, boardSize * boardSize / 2,
              seq(|values|, i requires 0 <= i < |values| => Card(values[i], Hidden)),
              players, seq(|players|, i => 0), seq(|players|, i => false),
              0, -1, -1, 0, 0, Waiting)
  }

  /** What a client can make happen to a game that exists. */
  datatype Event<P> = Ready(who: P) | Flip(who: P, card: int) | Remove(who: P)

  function Step<P(==)>(g: GameState<P>, e: Event<P>): GameState<P>
    requires Indexable(g)
  {
    match e
    case Ready(who) => HandleReady(g, who)
    case Flip(who, card) => HandleFlip(g, who, card)
    // a player is only taken out of a game in which another one remains
    case Remove(who) => if |g.players| >= 2 then RemovePlayer(g, who) else g
  }

  ghost predicate ValidDeal<P>(boardSize: int, values: seq<int>, players: seq<P>) {
    && MIN_BOARD_SIZE <= boardSize <= MAX_BOARD_SIZE && boardSize % 2 == 0
    && 2 <= |players| <= MAX_PLAYERS && Distinct(players)
    && multiset(values) == multiset(Deck(boardSize * boardSize / 2))
  }
}
