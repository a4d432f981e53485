/** game_format_state_message: the GAME_STATE text of a running game, printed piece by piece into a buffer. */
module FormatState {
  import opened GameModel
  import opened Games
  import opened Structs
  import opened Renaming
  import opened Text
  import opened CText
  import opened StateMessage

  /** The game as its players' nicknames show it. */
  ghost function NamedView(game: Game<Client>): GameState<string>
    reads game, game.cards, game.players`nickname
  {
    Renamed(game.View(), Nicknames(game.players))
  }

  method Format(game: Game<Client>, buffer: array<char>) returns (length: nat)
    requires game.Valid() && buffer.Length == MAX_MESSAGE_LENGTH
    requires forall k :: 0 <= k < |game.players| ==> |game.players[k].nickname| < MAX_NICK_LENGTH
    modifies buffer
    ensures 0 <= game.currentPlayerIndex < |game.players|
    ensures Holds(buffer[..], StateText(NamedView(game))) && length == |StateText(NamedView(game))|
  {
    game.ValidWellFormed();
    SmallView(game);
    length := PrintState(game, buffer);
  }

  method PrintState(game: Game<Client>, buffer: array<char>) returns (length: nat)
    requires game.WellFormed() && buffer.Length == MAX_MESSAGE_LENGTH
    requires |game.players| <= 4 && game.cards.Length <= 64 && 0 <= game.boardSize < 10
    requires forall k :: 0 <= k < |game.playerScores| ==> 0 <= game.playerScores[k] < 100
    requires forall i :: 0 <= i < game.cards.Length ==> 0 < game.cards[i].value < 100
    requires forall k :: 0 <= k < |game.players| ==> |game.players[k].nickname| < MAX_NICK_LENGTH
    modifies buffer
    ensures Holds(buffer[..], StateText(NamedView(game))) && length == |StateText(NamedView(game))|
  {
    hide HeaderText, RosterText, CardsText;
    var turn := game.players[game.currentPlayerIndex].nickname;
    length := PrintHeader(buffer, game.boardSize, turn);
    ghost var header := HeaderText(game.boardSize, turn);
    length := PrintRoster(game, buffer, length, header);
    length := PrintCards(game, buffer, length, header + RosterText(NamedView(game).players, game.playerScores));
  }

  method PrintHeader(buffer: array<char>, boardSize: int, turn: string) returns (after: nat)
    requires buffer.Length == MAX_MESSAGE_LENGTH && 0 <= boardSize < 10 && |turn| < MAX_NICK_LENGTH
    modifies buffer
    ensures Holds(buffer[..], HeaderText(boardSize, turn)) && after == |HeaderText(boardSize, turn)| <= 44
  {
    DecimalLength(boardSize);
    after := Print(buffer, 0, "GAME_STATE " + PrintInt(boardSize) + " " + turn);
  }

  lemma SmallView(game: Game<Client>)
    requires game.Valid()
    ensures |game.players| <= 4 && |game.playerScores| == |game.players| && game.cards.Length <= 64
    ensures 0 <= game.boardSize < 10
    ensures forall k :: 0 <= k < |game.playerScores| ==> 0 <= game.playerScores[k] < 100
    ensures forall i :: 0 <= i < game.cards.Length ==> 0 < game.cards[i].value < 100
  {
    var g := game.View();
    SmallNumbers(g);
    forall i | 0 <= i < game.cards.Length ensures 0 < game.cards[i].value < 100 {
      assert game.cards[i] == g.cards[i];
    }
  }

  method PrintRoster(game: Game<Client>, buffer: array<char>, offset: nat, ghost before: string) returns (after: nat)
    requires game.WellFormed() && buffer.Length == MAX_MESSAGE_LENGTH
    requires |game.players| <= 4 && offset <= 44 && Holds(buffer[..], before) && offset == |before|
    requires forall k :: 0 <= k < |game.playerScores| ==> 0 <= game.playerScores[k] < 100
    requires forall k :: 0 <= k < |game.players| ==> |game.players[k].nickname| < MAX_NICK_LENGTH
    modifies buffer
    ensures after <= offset + 35 * |game.players|
    ensures Holds(buffer[..], before + RosterText(NamedView(game).players, game.playerScores))
    ensures after == |before + RosterText(NamedView(game).players, game.playerScores)|
  {
    ghost var names := NamedView(game).players;
    after := offset;
    for i := 0 to game.playerCount
      invariant after <= offset + 35 * i
      invariant after == |before + RosterText(names[..i], game.playerScores[..i])|
      invariant Holds(buffer[..], before + RosterText(names[..i], game.playerScores[..i]))
    {
      var entry := " " + game.players[i].nickname + " " + PrintInt(game.playerScores[i]);
      RosterStep(before, names, game.playerScores, i);
      DecimalLength(game.playerScores[i]);
      after := Append(buffer, after, entry, before + RosterText(names[..i], game.playerScores[..i]));
    }
    assert names[..game.playerCount] == names && game.playerScores[..game.playerCount] == game.playerScores;
  }

  method PrintCards(game: Game<Client>, buffer: array<char>, offset: nat, ghost before: string) returns (after: nat)
    requires game.WellFormed() && buffer.Length == MAX_MESSAGE_LENGTH && game.cards.Length <= 64
    requires offset <= 200 && Holds(buffer[..], before) && offset == |before|
    requires forall i :: 0 <= i < game.cards.Length ==> 0 < game.cards[i].value < 100
    modifies buffer
    ensures Holds(buffer[..], before + CardsText(game.cards[..])) && after == |before + CardsText(game.cards[..])|
  {
    ghost var cards := game.cards[..];
    after := offset;
    for i := 0 to game.totalCards
      invariant after <= offset + 4 * i
      invariant after == |before + CardsText(cards[..i])|
      invariant Holds(buffer[..], before + CardsText(cards[..i]))
      invariant game.cards[..] == cards
    {
      ghost var text := before + CardsText(cards[..i]);
      CardsStep(before, cards, i);
      after := PrintCard(buffer, after, game.cards[i], text);
    }
    assert cards[..game.totalCards] == cards;
  }

  method PrintCard(buffer: array<char>, offset: nat, card: Card, ghost before: string) returns (after: nat)
    requires Holds(buffer[..], before) && offset == |before| && offset + 4 < buffer.Length && 0 < card.value < 100
    modifies buffer
    ensures Holds(buffer[..], before + CardText(card)) && after == |before + CardText(card)| <= offset + 4
  {
    DecimalLength(card.value);
    if card.state == Matched {
      after := Append(buffer, offset, " " + PrintInt(card.value), before);
    } else if card.state == Revealed {
      after := Append(buffer, offset, " -" + PrintInt(card.value), before);
    } else {
      after := Append(buffer, offset, " 0", before);
    }
  }

  lemma RosterStep(before: string, names: seq<string>, scores: seq<int>, i: nat)
    requires |names| == |scores| && i < |names|
    ensures before + RosterText(names[..i + 1], scores[..i + 1])
            == (before + RosterText(names[..i], scores[..i])) + (" " + names[i] + " " + PrintInt(scores[i]))
  {
    var text, nick, score := RosterText(names[..i], scores[..i]), names[i], PrintInt(scores[i]);
    assert names[..i + 1][..i] == names[..i] && scores[..i + 1][..i] == scores[..i];
    GlueEntry(text, nick, score);
    assert before + (text + (" " + nick + " " + score)) == (before + text) + (" " + nick + " " + score);
  }

  lemma GlueEntry(text: string, nick: string, score: string)
    ensures text + " " + nick + " " + score == text + (" " + nick + " " + score)
  {
  }

  lemma CardsStep(before: string, cards: seq<Card>, i: nat)
    requires i < |cards|
    ensures before + CardsText(cards[..i + 1]) == (before + CardsText(cards[..i])) + CardText(cards[i])
  {
    assert cards[..i + 1][..i] == cards[..i];
  }
}
