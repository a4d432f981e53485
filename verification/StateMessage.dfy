/** The GAME_STATE text: printed by game_format_state_message, read by handleGameState. */
module StateMessage {
  import opened SeqFacts
  import opened GameModel
  import opened GameInvariant
  import opened GameRuns
  import opened Text
  import opened Mirror
  import opened CatchUp

  const MAX_MESSAGE_LENGTH := 1024
  const MAX_NICK_LENGTH := 32

  // ---- printing ----

  function RosterText(players: seq<string>, scores: seq<int>): string
    requires |players| == |scores|
  {
    if players == [] then ""
    else
      var n := |players| - 1;
      RosterText(players[..n], scores[..n]) + " " + players[n] + " " + PrintInt(scores[n])
  }

  /** 0 for a hidden card, the value of a matched one, and the value after a minus sign for an open one. */
  function CardText(c: Card): string {
    match c.state
    case Matched => " " + PrintInt(c.value)
    case Revealed => " -" + PrintInt(c.value)
    case Hidden => " 0"
  }

  function CardsText(cards: seq<Card>): string {
    if cards == [] then "" else CardsText(cards[..|cards| - 1]) + CardText(cards[|cards| - 1])
  }

  function HeaderText(boardSize: int, turn: string): string {
    "GAME_STATE " + PrintInt(boardSize) + " " + turn
  }

  function StateText(g: GameState<string>): string
    requires 0 <= g.current < |g.players| == |g.scores|
  {
    HeaderText(g.boardSize, g.players[g.current]) + RosterText(g.players, g.scores) + CardsText(g.cards)
  }

  // ---- the same text as words ----

  function RosterWords(players: seq<string>, scores: seq<int>): (ws: seq<string>)
    requires |players| == |scores|
    ensures |ws| == 2 * |players|
  {
    if players == [] then []
    else
      var n := |players| - 1;
      RosterWords(players[..n], scores[..n]) + [players[n], PrintInt(scores[n])]
  }

  function CodeWords(codes: seq<int>): (ws: seq<string>)
    ensures |ws| == |codes|
    ensures forall i :: 0 <= i < |codes| ==> ws[i] == PrintInt(codes[i])
  {
    seq(|codes|, i requires 0 <= i < |codes| => PrintInt(codes[i]))
  }

  function HeaderWords(boardSize: int, turn: string): seq<string> {
    ["GAME_STATE", PrintInt(boardSize), turn]
  }

  function StateWords(s: Snapshot, players: seq<string>, scores: seq<int>): seq<string>
    requires |players| == |scores|
  {
    HeaderWords(s.boardSize, s.turn) + RosterWords(players, scores) + CodeWords(s.codes)
  }

  lemma JoinedTwo(head: seq<string>, words: seq<string>, a: string, b: string)
    requires head != []
    ensures Joined(head + (words + [a, b])) == Joined(head + words) + " " + a + " " + b
  {
    JoinedAppend(head + words, a);
    JoinedAppend(head + words + [a], b);
    assert head + (words + [a, b]) == head + words + [a] + [b];
  }

  lemma Glued(h: string, t: string, a: string, b: string)
    ensures h + t + " " + a + " " + b == h + (t + " " + a + " " + b)
  {
  }

  lemma {:induction false} RosterJoined(head: seq<string>, players: seq<string>, scores: seq<int>)
    requires head != [] && |players| == |scores|
    ensures Joined(head + RosterWords(players, scores)) == Joined(head) + RosterText(players, scores)
  {
    if players == [] {
      assert head + RosterWords(players, scores) == head;
    } else {
      var n := |players| - 1;
      RosterJoined(head, players[..n], scores[..n]);
      JoinedTwo(head, RosterWords(players[..n], scores[..n]), players[n], PrintInt(scores[n]));
      Glued(Joined(head), RosterText(players[..n], scores[..n]), players[n], PrintInt(scores[n]));
    }
  }

  lemma CardPrinted(c: Card)
    requires c.value > 0
    ensures CardText(c) == " " + PrintInt(Code(c))
  {
    if c.state == Revealed {
      assert " -" == " " + "-";
    }
  }

  lemma Glue(a: string, b: string, c: string, d: string)
    ensures a + b + c + d == a + (b + (c + d))
  {
  }

  lemma CodeWordsAppend(cards: seq<Card>)
    requires cards != []
    ensures var n := |cards| - 1;
            CodeWords(Codes(cards)) == CodeWords(Codes(cards[..n])) + [PrintInt(Code(cards[n]))]
  {
  }

  lemma {:induction false} CardsJoined(head: seq<string>, cards: seq<Card>)
    requires head != [] && forall i :: 0 <= i < |cards| ==> cards[i].value > 0
    ensures Joined(head + CodeWords(Codes(cards))) == Joined(head) + CardsText(cards)
  {
    if cards == [] {
      assert head + CodeWords(Codes(cards)) == head;
    } else {
      var n := |cards| - 1;
      CardsJoined(head, cards[..n]);
      var before, word := CodeWords(Codes(cards[..n])), PrintInt(Code(cards[n]));
      CodeWordsAppend(cards);
      JoinedAppend(head + before, word);
      assert head + (before + [word]) == head + before + [word];
      CardPrinted(cards[n]);
      Glue(Joined(head), CardsText(cards[..n]), " ", word);
    }
  }

  lemma HeaderJoined(boardSize: int, turn: string)
    ensures Joined(HeaderWords(boardSize, turn)) == HeaderText(boardSize, turn)
  {
    var size := PrintInt(boardSize);
    JoinedAppend(["GAME_STATE"], size);
    JoinedAppend(["GAME_STATE", size], turn);
    assert ["GAME_STATE"] + [size] == ["GAME_STATE", size];
    assert ["GAME_STATE", size] + [turn] == HeaderWords(boardSize, turn);
    assert "GAME_STATE" + " " == "GAME_STATE ";
  }

  lemma StateJoined(g: GameState<string>)
    requires 0 <= g.current < |g.players| == |g.scores|
    requires forall i :: 0 <= i < |g.cards| ==> g.cards[i].value > 0
    ensures StateText(g) == Joined(StateWords(SnapshotOf(g), g.players, g.scores))
  {
    var h := HeaderWords(g.boardSize, g.players[g.current]);
    HeaderJoined(g.boardSize, g.players[g.current]);
    RosterJoined(h, g.players, g.scores);
    CardsJoined(h + RosterWords(g.players, g.scores), g.cards);
  }

  // ---- the length ----

  lemma {:induction false} RosterLength(players: seq<string>, scores: seq<int>)
    requires |players| == |scores|
    requires forall k :: 0 <= k < |players| ==> |players[k]| < MAX_NICK_LENGTH && 0 <= scores[k] < 100
    ensures |RosterText(players, scores)| <= 35 * |players|
  {
    if players != [] {
      var n := |players| - 1;
      RosterLength(players[..n], scores[..n]);
      DecimalLength(scores[n]);
    }
  }

  lemma {:induction false} CardsLength(cards: seq<Card>)
    requires forall i :: 0 <= i < |cards| ==> 0 < cards[i].value < 100
    ensures |CardsText(cards)| <= 4 * |cards|
  {
    if cards != [] {
      CardsLength(cards[..|cards| - 1]);
      DecimalLength(cards[|cards| - 1].value);
    }
  }

  /** No score and no value has more than two digits. */
  lemma SmallNumbers<P>(g: GameState<P>)
    requires Inv(g)
    ensures g.totalPairs <= 32 && |g.cards| <= 64
    ensures forall k :: 0 <= k < |g.scores| ==> 0 <= g.scores[k] <= g.totalPairs
    ensures forall i :: 0 <= i < |g.cards| ==> 0 < g.cards[i].value <= g.totalPairs
  {
    SumBounds(g.scores);
    InStateBound(g.cards, Matched);
    assert g.boardSize in {4, 5, 6, 7, 8};
  }

  /** The longest GAME_STATE text leaves room for its terminator in the server's buffer. */
  lemma StateFits(g: GameState<string>)
    requires Inv(g)
    requires forall k :: 0 <= k < |g.players| ==> |g.players[k]| <= 31
    ensures |StateText(g)| < 1024
  {
    SmallNumbers(g);
    RosterLength(g.players, g.scores);
    CardsLength(g.cards);
    DecimalLength(g.boardSize);
  }

  function Repeated(word: string, n: nat): string {
    if n == 0 then "" else Repeated(word, n - 1) + word
  }

  lemma OneMoreCard(cards: seq<Card>)
    requires cards != []
    ensures CardsText(cards) == CardsText(cards[..|cards| - 1]) + CardText(cards[|cards| - 1])
  {
  }

  lemma {:induction false} HiddenText(cards: seq<Card>, n: nat)
    requires n <= |cards| && forall i :: |cards| - n <= i < |cards| ==> cards[i].state == Hidden
    ensures CardsText(cards) == CardsText(cards[..|cards| - n]) + Repeated(" 0", n)
  {
    hide CardsText, PrintInt;
    if n > 0 {
      var m := |cards| - 1;
      var before := CardsText(cards[..|cards| - n]);
      HiddenText(cards[..m], n - 1);
      assert cards[..m][..m - (n - 1)] == cards[..|cards| - n];
      OneMoreCard(cards);
      assert (before + Repeated(" 0", n - 1)) + " 0" == before + (Repeated(" 0", n - 1) + " 0");
    } else {
      assert cards[..|cards|] == cards;
    }
  }

  lemma ThreeCards(a: Card, b: Card, c: Card)
    ensures CardsText([a, b, c]) == CardText(a) + CardText(b) + CardText(c)
  {
    assert [a, b, c][..2] == [a, b] && [a, b][..1] == [a] && [a][..0] == [];
    assert CardsText([a]) == CardText(a);
  }

  lemma TwoEntries(p: string, q: string, s: int, t: int)
    ensures RosterText([p, q], [s, t]) == " " + p + " " + PrintInt(s) + " " + q + " " + PrintInt(t)
  {
    hide PrintInt;
    assert [p, q][..1] == [p] && [s, t][..1] == [s] && [p][..0] == [] && [s][..0] == [];
    assert RosterText([p], [s]) == " " + p + " " + PrintInt(s);
  }

  /** A game of two on the smallest board: one pair found, one card open, the others face down. */
  lemma TwoPlayersText(g: GameState<string>)
    requires g.boardSize == 4 && g.players == ["ann", "bob"] && g.scores == [0, 1] && g.current == 1
    requires |g.cards| == 16 && g.cards[..3] == [Card(3, Matched), Card(3, Matched), Card(5, Revealed)]
    requires forall i :: 3 <= i < 16 ==> g.cards[i].state == Hidden
    ensures StateText(g) == "GAME_STATE 4 bob ann 0 bob 1 3 3 -5" + Repeated(" 0", 13)
  {
    hide PrintInt, RosterText, CardsText, Repeated;
    SmallPrints();
    HiddenText(g.cards, 13);
    ThreeCards(g.cards[0], g.cards[1], g.cards[2]);
    assert g.cards[..3] == [g.cards[0], g.cards[1], g.cards[2]];
    TwoEntries("ann", "bob", 0, 1);
  }

  lemma SmallPrints()
    ensures PrintInt(0) == "0" && PrintInt(1) == "1" && PrintInt(3) == "3" && PrintInt(4) == "4" && PrintInt(5) == "5"
  {
  }

  // ---- reading ----

  /** The loop over names and scores: it is not told how many players there are. None is a NumberFormatException. */
  function RosterLoop(parts: seq<string>, cells: int, index: nat): Option<(seq<(string, int)>, nat)>
    requires index <= |parts|
    decreases |parts| - index
  {
    if !(index < |parts| - cells && index + 1 < |parts|) then Some(([], index))
    else if Blank(parts[index]) then RosterLoop(parts, cells, index + 1)
    else
      var score := ParseInt(parts[index + 1]);
      if score.None? then None
      else
        var rest := RosterLoop(parts, cells, index + 2);
        if rest.None? || score.value < 0 then rest
        else Some(([(parts[index], score.value)] + rest.value.0, rest.value.1))
  }

  function CodesLoop(parts: seq<string>): Option<seq<int>> {
    if parts == [] then Some([])
    else
      var n := |parts| - 1;
      var before, last := CodesLoop(parts[..n]), ParseInt(parts[n]);
      if before.None? || last.None? then None else Some(before.value + [last.value])
  }

  /** What follows the board size and the turn holder. */
  function ParseBody(parts: seq<string>, size: int): Option<Snapshot>
    requires |parts| >= 3
  {
    var roster := RosterLoop(parts, size * size, 3);
    if roster.None? || |parts| - roster.value.1 != size * size then None
    else
      var codes := CodesLoop(parts[roster.value.1..]);
      if codes.None? then None else Some(Snapshot(size, parts[2], roster.value.0, codes.value))
  }

  /** A GAME_STATE text as handleGameState reads it; None when it is ignored, raises an exception or does not
      have a code for each card. */
  function ParseState(text: string): Option<Snapshot> {
    var parts := Split(text);
    if |parts| < 4 then None
    else
      var size := ParseInt(parts[1]);
      if size.None? || !PlausibleSize(size.value) || Blank(parts[2]) then None else ParseBody(parts, size.value)
  }

  // ---- whatever the text is ----

  /** What the loop over names and scores has read when it ends, by an exception or not. */
  function RosterSoFar(parts: seq<string>, cells: int, index: nat): seq<(string, int)>
    requires index <= |parts|
    decreases |parts| - index
  {
    if !(index < |parts| - cells && index + 1 < |parts|) then []
    else if Blank(parts[index]) then RosterSoFar(parts, cells, index + 1)
    else
      var score := ParseInt(parts[index + 1]);
      if score.None? then []
      else if score.value < 0 then RosterSoFar(parts, cells, index + 2)
      else [(parts[index], score.value)] + RosterSoFar(parts, cells, index + 2)
  }

  lemma {:induction false} RosterIsAll(parts: seq<string>, cells: int, index: nat)
    requires index <= |parts| && RosterLoop(parts, cells, index).Some?
    ensures RosterLoop(parts, cells, index).value.0 == RosterSoFar(parts, cells, index)
    ensures RosterLoop(parts, cells, index).value.1 <= |parts|
    decreases |parts| - index
  {
    if index < |parts| - cells && index + 1 < |parts| {
      RosterIsAll(parts, cells, if Blank(parts[index]) then index + 1 else index + 2);
    }
  }

  /** The codes before the first word that is no number. */
  function CodesSoFar(words: seq<string>): (codes: seq<int>)
    ensures |codes| <= |words|
  {
    if words == [] then []
    else
      var n := |words| - 1;
      var before, last := CodesSoFar(words[..n]), ParseInt(words[n]);
      if |before| < n || last.None? then before else before + [last.value]
  }

  lemma {:induction false} CodesAreAll(words: seq<string>)
    requires CodesLoop(words).Some?
    ensures CodesSoFar(words) == CodesLoop(words).value && |CodesSoFar(words)| == |words|
  {
    hide ParseInt;
    if words != [] {
      CodesAreAll(words[..|words| - 1]);
    }
  }

  /** The loop over the codes is over when a word is no number or a card that is not hidden has no cell. */
  function OnCodes(c: Copy, turn: string, words: seq<string>): Copy
    requires Twin(c)
  {
    var codes := CodesSoFar(words);
    var r := Restored(c, codes);
    if Reach(Cells(c), codes) < |words| then r else r.(myTurn := turn == c.nickname, started := true)
  }

  function First(words: seq<string>, n: nat): seq<string> {
    if |words| <= n then words else words[..n]
  }

  function OnBody(c: Copy, parts: seq<string>, size: nat): Copy
    requires Twin(c) && |parts| >= 3
  {
    var roster, end := RosterSoFar(parts, size * size, 3), RosterLoop(parts, size * size, 3);
    if end.None? || roster == []
    then c.(players := RosterNames(roster), scores := RosterScores(roster))
    else
      RosterIsAll(parts, size * size, 3);
      OnCodes(Prepared(c, Snapshot(size, parts[2], roster, [])), parts[2],
              First(parts[end.value.1..], size * size))
  }

  /** handleGameState on any text. */
  function OnGameState(c: Copy, text: string): Copy
    requires Twin(c)
  {
    var parts := Split(text);
    if |parts| < 4 then c
    else
      var size := ParseInt(parts[1]);
      if size.None? || !PlausibleSize(size.value) || Blank(parts[2]) then c else OnBody(c, parts, size.value)
  }

  lemma BodyIsSnapshot(c: Copy, parts: seq<string>, size: nat)
    requires Twin(c) && |parts| >= 3 && PlausibleSize(size) && !Blank(parts[2]) && ParseBody(parts, size).Some?
    ensures OnBody(c, parts, size) == OnSnapshot(c, ParseBody(parts, size).value)
  {
    hide RosterLoop, RosterSoFar, CodesLoop, CodesSoFar, Restored, Reach, Blank;
    RosterIsAll(parts, size * size, 3);
    var words := parts[RosterLoop(parts, size * size, 3).value.1..];
    CodesAreAll(words);
  }

  /** A text that parses is taken in as the snapshot it stands for. */
  lemma ParsedIsSnapshot(c: Copy, text: string)
    requires Twin(c) && ParseState(text).Some?
    ensures OnGameState(c, text) == OnSnapshot(c, ParseState(text).value)
  {
    hide ParseBody, OnBody, Split, ParseInt, Blank;
    BodyIsSnapshot(c, Split(text), ParseInt(Split(text)[1]).value);
  }

  // ---- reading what was printed ----

  lemma {:induction false} RosterWordsAt(players: seq<string>, scores: seq<int>, k: int)
    requires |players| == |scores| && 0 <= k < |players|
    ensures RosterWords(players, scores)[2 * k] == players[k]
    ensures RosterWords(players, scores)[2 * k + 1] == PrintInt(scores[k])
  {
    var n := |players| - 1;
    if k < n {
      RosterWordsAt(players[..n], scores[..n], k);
    }
  }

  ghost predicate EntryAt(parts: seq<string>, players: seq<string>, scores: seq<int>, j: int) {
    && 0 <= j < |players| == |scores| && 3 + 2 * j + 1 < |parts|
    && parts[3 + 2 * j] == players[j] && parts[3 + 2 * j + 1] == PrintInt(scores[j])
    && !Blank(players[j]) && 0 <= scores[j] <= INT_MAX
  }

  lemma EntryRead(parts: seq<string>, cells: nat, players: seq<string>, scores: seq<int>, k: nat)
    requires EntryAt(parts, players, scores, k) && 3 + 2 * k < |parts| - cells
    ensures RosterLoop(parts, cells, 3 + 2 * k) ==
            var rest := RosterLoop(parts, cells, 3 + 2 * (k + 1));
            if rest.None? then None else Some(([(players[k], scores[k])] + rest.value.0, rest.value.1))
  {
    ParsePrint(scores[k]);
  }

  lemma RosterReadStep(parts: seq<string>, cells: nat, players: seq<string>, scores: seq<int>, k: nat,
                       rest: seq<(string, int)>, end: nat)
    requires EntryAt(parts, players, scores, k) && 3 + 2 * k < |parts| - cells
    requires RosterLoop(parts, cells, 3 + 2 * (k + 1)) == Some((rest, end))
    ensures RosterLoop(parts, cells, 3 + 2 * k) == Some(([(players[k], scores[k])] + rest, end))
  {
    EntryRead(parts, cells, players, scores, k);
  }

  /** The loop stops exactly where the cards begin, for any number of players. */
  lemma {:induction false} RosterRead(parts: seq<string>, cells: nat, players: seq<string>, scores: seq<int>, k: nat)
    requires |players| == |scores| && k <= |players|
    requires |parts| == 3 + 2 * |players| + cells
    requires forall j :: 0 <= j < |players| ==> EntryAt(parts, players, scores, j)
    ensures RosterLoop(parts, cells, 3 + 2 * k) == Some((Results(players, scores)[k..], 3 + 2 * |players|))
    decreases |players| - k
  {
    if k < |players| {
      RosterRead(parts, cells, players, scores, k + 1);
      RosterReadStep(parts, cells, players, scores, k, Results(players, scores)[k + 1..], 3 + 2 * |players|);
      ResultsAt(players, scores, k);
      assert Results(players, scores)[k..] == [Results(players, scores)[k]] + Results(players, scores)[k + 1..];
    } else {
      assert Results(players, scores)[k..] == [];
    }
  }

  lemma {:induction false} CodesRead(codes: seq<int>)
    requires forall i :: 0 <= i < |codes| ==> INT_MIN <= codes[i] <= INT_MAX
    ensures CodesLoop(CodeWords(codes)) == Some(codes)
  {
    var words := CodeWords(codes);
    if codes == [] {
      assert words == [];
    } else {
      var n := |codes| - 1;
      CodesRead(codes[..n]);
      ParsePrint(codes[n]);
      assert words[..n] == CodeWords(codes[..n]);
      CodesLoopStep(words, codes);
    }
  }

  lemma CodesLoopStep(words: seq<string>, codes: seq<int>)
    requires |words| == |codes| > 0 && ParseInt(words[|words| - 1]) == Some(codes[|codes| - 1])
    requires CodesLoop(words[..|words| - 1]) == Some(codes[..|codes| - 1])
    ensures CodesLoop(words) == Some(codes)
  {
    assert codes[..|codes| - 1] + [codes[|codes| - 1]] == codes;
  }

  lemma StateWordsSplit(g: GameState<string>)
    requires Inv(g)
    requires forall k :: 0 <= k < |g.players| ==> g.players[k] != "" && NoSpace(g.players[k])
    ensures Split(StateText(g)) == StateWords(SnapshotOf(g), g.players, g.scores)
  {
    SmallNumbers(g);
    StateJoined(g);
    var ws := StateWords(SnapshotOf(g), g.players, g.scores);
    forall i | 0 <= i < |ws| ensures NoSpace(ws[i]) {
      StateWordAt(g, i);
    }
    SplitJoined(ws);
  }

  lemma StateWordAt(g: GameState<string>, i: int)
    requires RosterOk(g)
    requires forall k :: 0 <= k < |g.players| ==> g.players[k] != "" && NoSpace(g.players[k])
    requires 0 <= i < |StateWords(SnapshotOf(g), g.players, g.scores)|
    ensures NoSpace(StateWords(SnapshotOf(g), g.players, g.scores)[i])
  {
    var ws, m := StateWords(SnapshotOf(g), g.players, g.scores), 3 + 2 * |g.players|;
    if i == 1 {
      PrintNoSpace(g.boardSize);
    } else if 3 <= i < m {
      RosterWordsAt(g.players, g.scores, (i - 3) / 2);
      PrintNoSpace(g.scores[(i - 3) / 2]);
    } else if m <= i {
      PrintNoSpace(Codes(g.cards)[i - m]);
    }
  }

  /** Reading the printed text gives back the roster, the scores, the turn holder, and for every card whether it
      can be seen and, if so, its state and value. */
  lemma StateRoundTrip(g: GameState<string>)
    requires Inv(g)
    requires forall k :: 0 <= k < |g.players| ==> !Blank(g.players[k]) && NoSpace(g.players[k])
    ensures ParseState(StateText(g)) == Some(SnapshotOf(g))
  {
    forall k | 0 <= k < |g.players| ensures g.players[k] != "" {
      assert !Blank(g.players[k]);
    }
    StateWordsSplit(g);
    HeaderRead(g, Split(StateText(g)));
    BodyRead(g, Split(StateText(g)));
    ParsedState(StateText(g), Split(StateText(g)), g.boardSize, SnapshotOf(g));
  }

  lemma ParsedState(text: string, parts: seq<string>, size: int, s: Snapshot)
    requires Split(text) == parts && |parts| >= 4 && ParseInt(parts[1]) == Some(size) && PlausibleSize(size)
    requires !Blank(parts[2]) && ParseBody(parts, size) == Some(s)
    ensures ParseState(text) == Some(s)
  {
  }

  lemma HeaderRead(g: GameState<string>, parts: seq<string>)
    requires 0 <= g.current < |g.players| == |g.scores| && 0 <= g.boardSize <= INT_MAX
    requires parts == StateWords(SnapshotOf(g), g.players, g.scores)
    ensures |parts| == 3 + 2 * |g.players| + |g.cards|
    ensures ParseInt(parts[1]) == Some(g.boardSize) && parts[2] == g.players[g.current]
  {
    ParsePrint(g.boardSize);
  }

  lemma BodyRead(g: GameState<string>, parts: seq<string>)
    requires Inv(g) && parts == StateWords(SnapshotOf(g), g.players, g.scores)
    requires forall k :: 0 <= k < |g.players| ==> !Blank(g.players[k])
    ensures |parts| >= 3 && ParseBody(parts, g.boardSize) == Some(SnapshotOf(g))
  {
    SmallNumbers(g);
    BodyOfNumbers(g, parts);
  }

  lemma BodyOfNumbers(g: GameState<string>, parts: seq<string>)
    requires 0 <= g.current < |g.players| == |g.scores| && |g.cards| == g.boardSize * g.boardSize
    requires parts == StateWords(SnapshotOf(g), g.players, g.scores)
    requires forall k :: 0 <= k < |g.players| ==> !Blank(g.players[k]) && 0 <= g.scores[k] <= INT_MAX
    requires forall i :: 0 <= i < |g.cards| ==> 0 < g.cards[i].value <= INT_MAX
    ensures |parts| >= 3 && ParseBody(parts, g.boardSize) == Some(SnapshotOf(g))
  {
    RosterPartsRead(g, parts);
    CodePartsRead(g, parts);
  }

  lemma RosterPartsRead(g: GameState<string>, parts: seq<string>)
    requires 0 <= g.current < |g.players| == |g.scores|
    requires parts == StateWords(SnapshotOf(g), g.players, g.scores)
    requires forall k :: 0 <= k < |g.players| ==> !Blank(g.players[k]) && 0 <= g.scores[k] <= INT_MAX
    ensures RosterLoop(parts, |g.cards|, 3) == Some((Results(g.players, g.scores), 3 + 2 * |g.players|))
  {
    forall j | 0 <= j < |g.players| ensures EntryAt(parts, g.players, g.scores, j) {
      RosterWordsAt(g.players, g.scores, j);
      EntryInWords(g, parts, j);
    }
    EntryInWords(g, parts, 0);
    RosterRead(parts, |g.cards|, g.players, g.scores, 0);
    assert Results(g.players, g.scores)[0..] == Results(g.players, g.scores);
  }

  lemma CodePartsRead(g: GameState<string>, parts: seq<string>)
    requires 0 <= g.current < |g.players| == |g.scores|
    requires parts == StateWords(SnapshotOf(g), g.players, g.scores)
    requires forall i :: 0 <= i < |g.cards| ==> 0 < g.cards[i].value <= INT_MAX
    ensures |parts| == 3 + 2 * |g.players| + |g.cards|
    ensures CodesLoop(parts[3 + 2 * |g.players|..]) == Some(Codes(g.cards))
  {
    assert parts[3 + 2 * |g.players|..] == CodeWords(Codes(g.cards));
    CodesRead(Codes(g.cards));
  }

  lemma EntryInWords(g: GameState<string>, parts: seq<string>, j: int)
    requires 0 <= g.current < |g.players| == |g.scores| && 0 <= j < |g.players|
    requires parts == StateWords(SnapshotOf(g), g.players, g.scores)
    ensures |parts| == 3 + 2 * |g.players| + |g.cards|
    ensures parts[3 + 2 * j] == RosterWords(g.players, g.scores)[2 * j]
    ensures parts[3 + 2 * j + 1] == RosterWords(g.players, g.scores)[2 * j + 1]
  {
  }

  /** The whole way: a client that missed part of a game is brought up to date by the text itself. */
  lemma CaughtUpByText(c: Copy, g: GameState<string>, es: seq<Event<string>>)
    requires Inv(g) && g.flips <= 1 && Mirrors(c, g)
    requires forall k :: 0 <= k < |g.players| ==> !Blank(g.players[k]) && NoSpace(g.players[k])
    ensures Twin(c) && ParseState(StateText(Run(g, es))).Some?
    ensures var s := ParseState(StateText(Run(g, es))).value;
            Mirrors(OnSnapshot(c, s), Run(g, es))
  {
    RunTurns(g, es);
    var g' := Run(g, es);
    forall k | 0 <= k < |g'.players| ensures !Blank(g'.players[k]) && NoSpace(g'.players[k]) {
      assert g'.players[k] in g.players;
    }
    StateRoundTrip(g');
    CaughtUp(c, g, es);
  }
}
