/** What the server sends, one constructor for each answer and broadcast the handlers make. */
module Messages {
  import opened Structs

  datatype Message =
    | GameCreated(boardSize: int)
    | GameStart(boardSize: int, players: seq<string>)
    | CardReveal(index: int, value: int, player: string)
    | Match(player: string, score: int)
    | Mismatch(next: string)
    | YourTurn
    | GameEnd(results: seq<(string, int)>)
    | GameEndForfeit(results: seq<(string, int)>)
    | OwnerChanged(player: string)
    | RoomClosed
    | Welcome(clientId: int)
    | WelcomeBack(clientId: int)
    | PlayerReconnected(player: string)
    | GameStateLine(text: string)
    | RoomCreated(roomId: int, name: string)
    | RoomJoined(roomId: int, name: string)
    | PlayerJoined(player: string)
    | LeftRoom
    | PlayerLeft(player: string)
    | ReadyOk
    | PlayerReady(player: string)
    | PlayerRemoved(player: string)
    | PlayerWaitedFor(player: string)
    | Refused(reason: Refusal)

  /** Why a request is answered with ERROR. */
  datatype Refusal =
    | NotAuthenticated | AlreadyInRoom | InvalidParams | RoomLimit | RoomNotFound | RoomFull
    | NotInRoom | GameNotStarted | AlreadyReady | NotRoomOwner | GameExists | NeedMorePlayers | NoGame
    | InvalidSyntax | InvalidMove | InvalidCard | AlreadyAuthenticated | InvalidCommand
    | SessionNotFound | AlreadyConnected | SessionExpired

  datatype Delivery = Delivery(to: Client, message: Message)
}
