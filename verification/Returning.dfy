/** What handle_reconnect sends once the new client stands in the old one's place. */
module Returning {
  import opened GameModel
  import opened Games
  import opened Structs
  import opened Messages
  import opened Rooms
  import opened Deliveries
  import opened StateMessage
  import opened FormatState

  /** The game can be printed as GAME_STATE. */
  ghost predicate Printable(game: Game<Client>)
    reads game, game.cards, game.players`nickname
  {
    && game.WellFormed() && |game.players| <= 4 && game.cards.Length <= 64 && 0 <= game.boardSize < 10
    && (forall k :: 0 <= k < |game.playerScores| ==> 0 <= game.playerScores[k] < 100)
    && (forall i :: 0 <= i < game.cards.Length ==> 0 < game.cards[i].value < 100)
    && (forall k :: 0 <= k < |game.players| ==> |game.players[k].nickname| < MAX_NICK_LENGTH)
  }

  /** While the game is played, GAME_STATE, and YOUR_TURN if it is; before it begins, a reminder. */
  ghost function GameNews(room: Room, game: Game<Client>, n: Client): seq<Delivery>
    requires game.WellFormed()
    reads game, game.cards, game.players`nickname, n`isDisconnected, n`socketFd
  {
    if game.state == Playing then
      Reply(n, GameStateLine(StateText(NamedView(game))))
      + if game.players[game.currentPlayerIndex] == n then Reply(n, YourTurn) else []
    else if game.state == Waiting then
      Reply(n, RoomJoined(room.roomId, room.name)) + Reply(n, GameCreated(game.boardSize))
    else []
  }

  ghost function RoomNews(room: Room, n: Client): seq<Delivery>
    requires room.game != null ==> room.game.WellFormed()
    reads room, n`nickname, n`isDisconnected, n`socketFd
    reads room.players`isDisconnected, room.players`socketFd
    reads if room.game == null then {} else {room.game}, if room.game == null then {} else {room.game.cards}
    reads PlayersIn(room)`nickname
  {
    Reached(room.players, PlayerReconnected(n.nickname), null)
    + if room.game == null then Reply(n, RoomJoined(room.roomId, room.name)) else GameNews(room, room.game, n)
  }

  method PrintGame(game: Game<Client>) returns (text: string)
    requires Printable(game)
    ensures Printable(game) && text == StateText(NamedView(game))
  {
    var buffer := new char[MAX_MESSAGE_LENGTH];
    var length := PrintState(game, buffer);
    text := buffer[..length];
  }

  method TellGame(room: Room, game: Game<Client>, n: Client) returns (sent: seq<Delivery>)
    requires Printable(game)
    ensures sent == GameNews(room, game, n)
  {
    if game.state == Playing {
      var text := PrintGame(game);
      sent := Reply(n, GameStateLine(text));
      sent := sent + if game.players[game.currentPlayerIndex] == n then Reply(n, YourTurn) else [];
    } else if game.state == Waiting {
      sent := Reply(n, RoomJoined(room.roomId, room.name)) + Reply(n, GameCreated(game.boardSize));
    } else {
      sent := [];
    }
  }

  method TellRoom(room: Room, n: Client) returns (sent: seq<Delivery>)
    requires room.game != null ==> Printable(room.game)
    ensures sent == RoomNews(room, n)
  {
    hide GameNews, Reached;
    if room.game == null {
      sent := Reached(room.players, PlayerReconnected(n.nickname), null) + Reply(n, RoomJoined(room.roomId, room.name));
    } else {
      var rest := TellGame(room, room.game, n);
      sent := Reached(room.players, PlayerReconnected(n.nickname), null) + rest;
    }
  }
}
