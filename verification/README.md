# Pexeso server and client: a verified model

A model in Dafny of the pexeso (memory game) server in C and of the part of its Java client that has to agree with it,
with proofs. `dafny verify dfyconfig.toml` checks everything.

Code that works in place is modelled in place: the game, the room table, the client list, the line reader, the text
buffers and the client's controller are classes or methods over arrays with the source's loops. Each method is proved
against a function on values, and the properties are lemmas about those functions and about whole runs of them.

| module | what it is |
|---|---|
| `SeqFacts`, `Text`, `CText` | sums and sets of indices; decimal numbers, joining and splitting; C strings in buffers |
| `Shuffle`, `GameModel`, `GameInvariant`, `GameRuns`, `Roster`, `Forfeit` | the game as a value: deck, flips, turns, scores, removal, forfeit |
| `Games` | the game object of game.c |
| `Structs`, `Messages`, `Membership`, `Rooms` | client and room records, what is sent, who sits where, the room table of room.c |
| `ClientTable`, `ClientLists` | the client list as a value and as the array of client_list.c |
| `Server` | the whole server as one state machine over messages, lost connections and deadlines |
| `Rules`, `Effects`, `Hearing`, `ClientRules` | what that amounts to in plain terms: card by card, seat by seat, message by message, and field by field at the client |
| `Witnesses` | runs from the empty server to each kind of step that does harm |
| `Worlds`, `Deliveries`, `FlipHandler`, `ReadyHandler`, `StartHandler`, `RoomHandlers`, `Connections` | the handlers of client_handler.c and the eviction of server.c on the heap, proved to be steps of `Server` |
| `Arrivals`, `Dispatcher`, `ServerRuns` | new connections, the dispatch of lines, and the heap after all that has happened to a server since its start |
| `Reconnecting`, `Reconnects`, `Returning`, `ReconnectHandler`, `Renaming` | one client object taking the place of another, and what it is told |
| `Mirror`, `CatchUp`, `Controller` | the client's copy of a game: as a value, after missed messages, and as the fields of GameController |
| `StateMessage`, `FormatState`, `RoomList`, `RoomListParser`, `ListHandler`, `Framing` | the texts on the wire, printed, spliced, cut and read |
| `EndToEnd` | what the handlers send and what the clients make of it, together |
| `Keepalive` | PING, PONG and the deadlines as timed steps |

Every handled message, ping pass, checker pass over one client and end of a connection is one atomic step. C pointers
are Dafny object references. `rand()` is an arbitrary stream of numbers, and `time(NULL)` is a parameter.

## What does not hold, and exactly when it does

- In-game LEAVE_ROOM with players left does not take the leaver out of the game, and a client that leaves between
  START_GAME and the last READY stays in the roster. JOIN_ROOM lets a client into a room that plays. RECONNECT leaves
  `room->owner` pointing to the freed record of an owner, misses a seat behind a hole, and, from a client that sits in a
  room, leaves it in its old seat. A connection that finds the list full frees the record of a client that is waited
  for, which still sits in its room. `Server.Harmless` names these steps, `Server.StepKeepsExactlyWhen` shows that there
  are no others, and the lemmas of `Witnesses` give a run to each.
- What RECONNECT does to seats and back pointers alone: `Reconnecting.ReconnectKeepsExactlyWhen`.
- game_remove_player tests the wrap before the shift, so removing somebody hands the turn from the last seat to seat 0:
  `Roster.TurnAfterRemoval`.
- On a board of odd size game_create leaves one card uninitialised: `Shuffle.ShuffledDeckPaired`.
- From ten listed rooms on, the memmove in the room list leaves the terminator behind, and a list of more than 1024
  characters is not sent: `ListHandler.HandleListRooms`, with `ListHandler.TenRoomsRunOn` for the first and
  `ListHandler.ThirteenDoNotFit` for the second.
- A client that has heard GAME_CREATED but not GAME_START is not restored by GAME_STATE: `CatchUp.LateJoinerNotRestored`.
- Messages and comments speak of 60 seconds for reconnecting; the code uses 90, and so does the model.

## Model

| member | source | states |
|---|---|---|
| `Shuffle.ShuffleArray` | server_src/game.c:10-17 | the array ends up as the functional shuffle of what was in it, with `rand() % (i + 1)` as the choices |
| `Shuffle.ShufflePermutes` | server_src/game.c:10-17 | every choice sequence gives a permutation |
| `Shuffle.ShuffleInjective` | server_src/game.c:10-17 | for distinct elements two choice sequences give the same order exactly when they are equal |
| `Shuffle.ShuffleSurjective` | server_src/game.c:10-17 | every permutation is reached by some choice sequence |
| `Shuffle.DeckCounts` | server_src/game.c:73-79 | the unshuffled deck holds each value 1..pairs twice and nothing else |
| `Shuffle.ShuffledDeckPaired` | server_src/game.c:73-87 | every card of the shuffled board has a partner exactly when the board has no spare card (even size), and then every value is there exactly twice |
| `Games.Game.Create` | server_src/game.c:19-95 | refused exactly when board size or number of players is out of range; otherwise the game is the deal of the shuffled deck, and for an even board and distinct players it satisfies the game invariant |
| `Games.Game.RemovePlayer` | server_src/game.c:112-161 | the object after the shift of three parallel arrays and the turn correction is the functional removal; fails exactly for a client that is no player |
| `Games.Game.ShiftDown` | server_src/game.c:128-145 | the in-place shift removes one entry from players, scores and ready flags alike |
| `Games.Game.PlayerReady` | server_src/game.c:163-185 | sets one flag, and succeeds exactly in the waiting phase for a player |
| `Games.Game.AllPlayersReady` | server_src/game.c:187-199 | true exactly when every player's flag is set |
| `Games.Game.Start` | server_src/game.c:201-218 | starts a waiting game with seat 0 and does nothing otherwise |
| `Games.Game.FlipCard` | server_src/game.c:220-274 | succeeds exactly when the game is played, it is the client's turn, fewer than two cards are open, and the index is that of a hidden card; then that card is turned up and stored as the first or the second; otherwise nothing changes |
| `Games.Game.CheckMatch` | server_src/game.c:276-331 | settles two open cards as the functional step does: pair matched and scored, or both hidden and the turn passed on |
| `Games.Game.GetWinners` | server_src/game.c:349-374 | the two loops return exactly the list that `Roster.WinnersAreTopScorers` characterises |
| `Games.Game.BestOfOthers` | server_src/room.c:225-242 | the first forfeit pass finds the best score of those who stay and how many share it |
| `Games.Game.SplitForfeit` | server_src/room.c:244-261 | the second forfeit pass leaves exactly the scores of the functional split that `Forfeit.ForfeitConserves` and `Forfeit.ForfeitIsFair` are about |
| `GameInvariant.DealtOk` | server_src/game.c:41-92 | a new game satisfies the invariant |
| `GameInvariant.SettleKeeps` | server_src/game.c:276-331 | settling two cards keeps the whole invariant |
| `GameInvariant.HandleFlipKeeps` | server_src/client_handler.c:467-561 | a handled flip, accepted or not, keeps it |
| `GameInvariant.RemoveKeeps` | server_src/game.c:112-161 | removing a player keeps it, half-finished turns included |
| `GameInvariant.StepKeeps` | server_src/game.c:112-331 | every message that can reach a game keeps it |
| `GameInvariant.MatchedAtMostAll` | server_src/game.c:284-305 | a match is only found while pairs are missing, so matched_pairs cannot step over total_pairs |
| `GameInvariant.FinishedIffAllMatched` | server_src/game.c:299-305 | FINISHED exactly when every card is matched |
| `GameRuns.ReachableOk` | server_src/game.c:112-331 | after any run of ready, flip and remove events: both cards of a value are matched or neither, 2 * matched_pairs cards are matched, the revealed cards are exactly the stored indices, FINISHED exactly when all are matched, the turn index is in range, scores sum to at most matched_pairs |
| `GameRuns.RunStaysMatched` | server_src/game.c:253-330 | no run un-matches a card or moves a value |
| `GameRuns.Scoring` | server_src/game.c:284-319 | without removals, after any run of flips: each score is the number of matches answered in that seat's turns, the scores sum to matched_pairs, and the turn index is the number of mismatches modulo the number of players |
| `GameRuns.FinalScores` | server_src/game.c:284-305 | at the end of such a run the scores sum to total_pairs |
| `GameRuns.ForfeitedScores` | server_src/room.c:225-261 | and so they do when the run is cut short by a forfeit in which somebody stays |
| `GameRuns.HiddenPartner` | server_src/game.c:253-274 | the partner of the one open card is still hidden |
| `GameRuns.NeverStuck` | server_src/game.c:220-331 | from every playing state with fewer than two open cards there are exactly 2 * (total_pairs - matched_pairs) - flips_this_turn accepted flips, all by the player whose turn it is, that finish the game |
| `Rules.AcceptedFlip` | server_src/game.c:220-331 | card by card, in every state of the invariant: a hidden card flipped by the player whose turn it is is turned up and stored as the first; as the second, it stays up with the first one if the values are equal, for one more point and another turn, FINISHED if all cards are matched then, and otherwise both are turned down and it is the next player's turn; nothing else changes |
| `Rules.RejectedFlip` | server_src/game.c:220-251 | anybody else's flip, any other card and any other phase leave the game as it is |
| `Rules.ReadyRule` | server_src/game.c:163-218 | a READY in time sets the player's own flag and no other, and the game begins with the first seat exactly when all are set |
| `Rules.LateReady` | server_src/game.c:163-185 | any other READY leaves the game as it is |
| `Rules.DealRule` | server_src/game.c:19-95 | a new game: the deck face down, nobody ready, no points, the first seat's turn |
| `Roster.SurvivorsKeepTheirs` | server_src/game.c:128-145 | every survivor keeps order, score and ready flag |
| `Roster.TurnAfterRemoval` | server_src/game.c:147-157 | the turn stays with the same client exactly when that client stays and does not sit last (or only two played); from the last seat it wraps to seat 0, and from a removed holder it passes to the next one |
| `Roster.RemovalKeepsBoard` | server_src/game.c:112-161 | removal leaves cards, open cards and phase alone |
| `Roster.WinnersAreTopScorers` | server_src/game.c:349-374 | the winners are nonempty, distinct, and exactly the players nobody outscores |
| `Forfeit.BestIsBest` | server_src/room.c:230-242 | the first pass computes the maximum of those who stay, or -1 |
| `Forfeit.ForfeitConserves` | server_src/room.c:225-261 | the shares add up to exactly the unmatched pairs whenever somebody stays |
| `Forfeit.ForfeitIsFair` | server_src/server.c:414-450 | only top scorers among those who stay gain, and two of them never differ by more than one, the earlier seat first |
| `Structs.JoinKeepsSeats` | server_src/room.c:160-190 | pigeonhole: below the limit the first free seat is below max_players, and taking it keeps the seats counted exactly |
| `Structs.FullRoomIsDense` | server_src/client_handler.c:395-413 | a room that START_GAME accepts has no hole among its first player_count seats and nobody beyond them |
| `Membership.CreateKeeps` | server_src/room.c:69-137 | creating a room keeps the membership invariant |
| `Membership.AddKeeps` | server_src/room.c:153-194 | joining keeps it |
| `Membership.RemoveKeeps` | server_src/room.c:196-382 | leaving keeps it in all four outcomes: room survives, owner changes, forfeit, empty |
| `Membership.DestroyKeeps` | server_src/room.c:384-412 | destroying a room keeps it when everybody who sat in it is released |
| `Membership.StepKeeps` | server_src/room.c:69-412 | every membership step keeps it |
| `Membership.ReachableMembership` | server_src/room.c:69-412 | after any run: a client's room is r exactly when it sits in r, no client sits twice, room ids are unique and below next_room_id, the owner is a member, player_count is exact and all seats are below max_players |
| `Membership.DestroyedRoomReleases` | server_src/room.c:273-300 | whatever ends a room, all its members are left with no room and in the lobby |
| `Membership.StartCopiesNoHole` | server_src/client_handler.c:395-413 | in every reachable state that passes the START_GAME guard, game_create copies distinct non-null players |
| `Membership.SuccessorIsConnected` | server_src/room.c:309-331 | ownership passes to a member that is connected, or the room does not outlive its owner |
| `Membership.FirstConnectedIs` | server_src/room.c:312-325 | the successor is the first connected member in seat order |
| `Rooms.RoomTable.Create` | server_src/room.c:69-137 | null exactly when a parameter is out of range or no slot is free; otherwise the table becomes the functional creation, with the next id and the name cut to 63 characters |
| `Rooms.RoomTable.GetById` | server_src/room.c:139-151 | finds the room with the id, or there is none |
| `Rooms.RoomTable.AddPlayer` | server_src/room.c:153-194 | the heap after joining is the functional join |
| `Rooms.RoomTable.RemovePlayer` | server_src/room.c:196-382 | the heap after leaving is the functional removal; what is sent is exactly the scores of the forfeit, or the new owner's name, or that the room is closed, to the connected stayers in seat order; a game that goes on is untouched |
| `Rooms.RoomTable.Destroy` | server_src/room.c:384-412 | the heap after destroying is the functional destruction |
| `Rooms.RoomTable.Forfeit` | server_src/room.c:218-307 | settles, announces the final scores in seat order to those connected, releases everybody and frees the room |
| `Rooms.Broadcast` | server_src/room.c:479-503 | sends to every connected member but one, once, in seat order |
| `Server.StepKeepsExactlyWhen` | server_src/client_handler.c:138-960 | the whole server as one machine (12 kinds of step): a step keeps membership, games, rosters and client states in order if and only if it is none of the harmful ones: leaving a room whose game goes on without being removed from the game, dropping out the same way before the start, joining a room that plays, coming back while sitting in a room, as the owner of one or to a seat the scan misses, and a new connection that frees the record of a client that still sits in a room |
| `Server.ConnectStep` | server_src/client_list.c:117-141 | a new connection keeps the server in order exactly when it drives out nobody that sits in a room |
| `Witnesses.LeavingHarms` | server_src/client_handler.c:284-308 | a run from the empty server after which LEAVE_ROOM, a lost connection and falling silent each do harm: the game has been created and has not begun |
| `Witnesses.LeavingTheGameHarms` | server_src/client_handler.c:284-308 | a run after which LEAVE_ROOM does harm in the middle of a game: all three players were ready and one of them leaves the room |
| `Witnesses.JoiningHarms` | server_src/client_handler.c:259-270 | a run after which JOIN_ROOM does: one of three players has dropped out and somebody takes the seat |
| `Witnesses.ComingBackHarms` | server_src/client_handler.c:620-653 | a run after which RECONNECT does, by a client in the lobby to a seat the scan misses, and by a client that sits in the room; and one after which it does for the owner |
| `Witnesses.ConnectingHarms` | server_src/client_list.c:117-141 | a run after which a new connection does: two clients fill the list for two and play, one of them is lost and waited for; a run of the list has exactly these two in it and evicts the lost one for the newcomer |
| `Server.ReachableServer` | server_src/client_handler.c:310-372 | after any run, with the harmful steps skipped, every game's players are the seated members in seat order, the turn is with a member, the room plays exactly when its game does, and its members are in the game exactly then |
| `Server.EvictionLeavesNothing` | server_src/server.c:395-504 | after any such run, giving up on a client leaves no seat, no place in a game and no room of it behind |
| `Server.DropsKeeps` | server_src/client_handler.c:810-960 | the three branches at the end of a connection keep the server in order exactly when the room does not outlive a leaver that is still in its game |
| `Server.JoinKeepsWorld` | server_src/client_handler.c:259-270 | joining keeps it exactly when the room is full or has no game: JOIN_ROOM does not look at the room's state |
| `Server.ReconnectKeepsWorld` | server_src/client_handler.c:620-677 | reconnecting keeps it exactly when the new client sits in no room, the seat scan finds the old one, and that one does not own the room |
| `Server.MembersVacated` | server_src/game.c:128-145 | clearing a seat and game_remove_player take the same client out of members and roster |
| `Server.OutlivesIs` | server_src/room.c:217-382 | a room outlives a leaver exactly when enough members stay and, if the owner leaves, one of them is connected |
| `Effects.ConnectEffect` | server_src/client_list.c:89-147 | seat by seat and record by record: a new client is connected and in no room, one that it drives out leaves its seat as it is, and nothing else changes |
| `Effects.HelloEffect` | server_src/client_handler.c:138-164 | only a client that has just connected gets into the lobby, and nothing else changes |
| `Effects.CreateEffect` | server_src/room.c:69-137 | from the lobby and in no room, with a slot free: the lowest one holds the room, with its owner alone in the first seat; otherwise nothing changes |
| `Effects.JoinEffect` | server_src/room.c:153-194 | from the lobby and in no room, into a room with fewer players than it may have: the lowest free seat; otherwise nothing changes |
| `Effects.JoinNowhere` | server_src/client_handler.c:259-264 | an id that no room has changes nothing |
| `Effects.LeaveEffect` | server_src/room.c:196-382 | the room ends exactly when nobody else is in it, or it has a game and at most one other, or its owner leaves and no other is connected: then everybody who sat there is in the lobby and its slot is free; otherwise the leaver's seat is, the others keep theirs, and the owner is the connected member in the lowest seat if the owner has left; nothing else changes |
| `Effects.StartEffect` | server_src/client_handler.c:374-426 | the game's players are those who sit in the room, in seat order, its cards lie face down, and nothing else changes |
| `Effects.ReadyEffect` | server_src/client_handler.c:310-372 | the client's own game and, when that begins, its room and everybody in it; nothing else changes |
| `Effects.FlipEffect` | server_src/client_handler.c:467-561 | the client's own game and, when that is finished, its room, which goes, and everybody in it, who are in the lobby; nothing else changes |
| `Effects.WaitEffect` | server_src/client_handler.c:866-900 | a player without two others among the seats that are visited is marked, and nothing else changes |
| `Effects.RemovalEffect` | server_src/client_handler.c:828-864 | a player with two others is forgotten, and gone from its game and from its room as `LeaveEffect` says |
| `Effects.DropEffect` | server_src/client_handler.c:901-960 | somebody who plays no game is forgotten, or kept with a mark when it has fallen silent, and its room is as `LeaveEffect` says |
| `Effects.ExpireEffect` | server_src/server.c:398-498 | whoever is given up on is forgotten, and a room with a game goes, with everybody else in the lobby |
| `Effects.ReconnectEffect` | server_src/client_handler.c:620-677 | the new client is what the old one was, in its seat, if that is among those visited, and in its place in the game; the old one is forgotten, the owner stays as it is, and nothing else changes |
| `Worlds.RunningAgain` | server_src/client_handler.c:82-134 | a handler proved against a step leaves tables, rooms and games in order exactly when the step is harmless |
| `Arrivals.AcceptConnection` | server_src/server.c:123-176 | accepting a connection is the connect step, with the client the full list drives out; list and rooms know of the same clients afterwards, and the rooms are in order exactly when that client sat in none |
| `Dispatcher.Dispatch` | server_src/client_handler.c:82-134 | each line goes to its handler; the heap becomes what the server machine says of the event the line means, which the line, the client and the state before fix for every command, down to the created room's parameters, the shuffled deck and the record RECONNECT takes over; what is sent is what that handler answers; the server can serve on exactly when the step is harmless. Of the records, only the client's own changes, and the one that RECONNECT takes over goes: PONG clears the waiting flag and sets last_pong_time and last_activity, the first HELLO sets the nickname, an accepted RECONNECT copies id and nickname and resets the timers, and no other line changes timers, nickname or id |
| `Dispatcher.LineMeans` | server_src/client_handler.c:82-134 | which step each line comes to, with the conditions in the records themselves: states, seats, ranges, the owner, a free slot, the 90 s |
| `Dispatcher.HandleHello` | server_src/client_handler.c:138-164 | the hello step, with its two refusals; the nickname is the first 31 characters of the given one if the client has just connected, and as it was otherwise |
| `Dispatcher.Handle` | server_src/client_handler.c:82-134 | every line but RECONNECT: the same, with the client's record field by field |
| `Dispatcher.Resume` | server_src/client_handler.c:573-742 | RECONNECT: the same, with the record that is taken over |
| `ServerRuns.React` | server_src/server.c:123-194 | the same for everything that can happen, with what is sent to whom: a connection, which is a client not known before, a line that has come, its handling, a connection that ends, a silent client, one that is given up on; and what becomes of everybody's record: whom an input does not concern keeps its own, id, nickname, timers and all |
| `ServerRuns.Hear` | server_src/client_handler.c:779-788 | a line that has come sets last_activity, in its client's record, and changes nothing else |
| `ServerRuns.NameLasts` | server_src/client_handler.c:138-164 | over any history: as long as a client's record is there, only its own HELLO and RECONNECT change its nickname and its id |
| `ServerRuns.Open` | server_src/server.c:30-121 | the empty server has an empty history |
| `ServerRuns.Next` | server_src/server.c:123-194 | by induction over all that happens: the heap is the state of the server machine after the run of events that the inputs so far came to, none of them left open, again exactly unless the last step did harm |
| `FlipHandler.HandleFlip` | server_src/client_handler.c:428-563 | the heap becomes the server machine's flip step; each failing check gives its own error, counted, and nothing else; an accepted flip sends every connected member exactly the announced messages |
| `FlipHandler.FlipRefused` | server_src/client_handler.c:428-475 | each refusal of FLIP by what is the matter with room, game, parameter and card; it is accepted exactly when nothing is |
| `FlipHandler.SettleTurn` | server_src/client_handler.c:487-561 | MATCH or MISMATCH, then GAME_END or YOUR_TURN, as announced |
| `FlipHandler.FinishGame` | server_src/client_handler.c:520-541 | a finished game's room is destroyed and everybody in it released |
| `ReadyHandler.HandleReady` | server_src/client_handler.c:310-372 | the heap becomes the ready step; READY_OK, PLAYER_READY and, with the last one, GAME_START and YOUR_TURN are heard by exactly the right clients |
| `ReadyHandler.ReadyRefused` | server_src/client_handler.c:310-344 | each refusal of READY by what is the matter |
| `ReadyHandler.BeginPlaying` | server_src/client_handler.c:346-356 | room and counted members become playing |
| `StartHandler.HandleStartGame` | server_src/client_handler.c:374-426 | refused in the order of the checks; otherwise a game with a fair shuffled deck and the room's members starts, as the server machine says, and every connected member hears GAME_CREATED |
| `StartHandler.StartRefused` | server_src/client_handler.c:374-402 | each refusal of START_GAME by what is the matter |
| `RoomHandlers.HandleCreateRoom` | server_src/client_handler.c:179-234 | refused in the order of the checks; otherwise the create step |
| `RoomHandlers.CreateRefused` | server_src/client_handler.c:179-225 | each refusal of CREATE_ROOM by what is the matter with client, parameters and table |
| `RoomHandlers.HandleJoinRoom` | server_src/client_handler.c:236-282 | the join step, its refusals, and who hears ROOM_JOINED and PLAYER_JOINED |
| `RoomHandlers.JoinRefused` | server_src/client_handler.c:236-270 | each refusal of JOIN_ROOM by what is the matter with client, id and room |
| `RoomHandlers.HandleLeaveRoom` | server_src/client_handler.c:284-308 | the leave step; what is sent is exactly the news of room_remove_player, LEFT_ROOM, and PLAYER_LEFT to those who are still there |
| `Connections.Disconnect` | server_src/client_handler.c:810-960 | the end of a connection is the drop step; the client is freed exactly when it is not waited for, and then its record is marked with the time and its socket closed, all else in it as it was; who hears that it was removed, that it is waited for, or that a room has changed is stated branch by branch |
| `Connections.FallSilent` | server_src/server.c:351-373 | a client that is marked by the checker and then cleaned up by its thread is the silence step: it is kept, marked with the time, unless two others play on without it; who hears what is stated branch by branch, and the mark makes no difference to it |
| `Connections.DisconnectIsWake` | server_src/client_handler.c:866-921 | the record that the end of a connection leaves is the one whose deadlines `Keepalive.WokenIsSettled` follows |
| `Connections.SilenceIsWake` | server_src/server.c:351-373 | and so is the one that a silent client leaves |
| `Connections.PlayOn` | server_src/client_handler.c:825-862 | with two or more left the client is out of game and room; sent are exactly PLAYER_DISCONNECTED ... REMOVED, the new owner if there is one, and YOUR_TURN to the heir of its turn, last |
| `Connections.Evict` | server_src/server.c:395-504 | giving up on a client is the expiry step, the forfeit is paid, and every connected member hears the scores with the shares in them |
| `ReconnectHandler.HandleReconnect` | server_src/client_handler.c:573-741 | for a client that sits in a room or not: refused in the order of the checks, with that refusal alone sent, or accepted exactly for a listed id whose record passes the connection and time checks; then the whole table is the reconnect step of the server machine, the list has the new client under the old id, its record has the old id and nickname, its own socket and fresh timers, and sent are WELCOME and what there is to know about the room |
| `ReconnectHandler.ReconnectRefused` | server_src/client_handler.c:573-615 | each refusal of RECONNECT by what is the matter with the record under the id, the 90 s included |
| `Returning.TellRoom` | server_src/client_handler.c:688-741 | PLAYER_RECONNECTED to the members, then ROOM_JOINED without a game, GAME_STATE and YOUR_TURN in one that is played, a reminder in one that has not begun |
| `Returning.PrintGame` | server_src/client_handler.c:704-710 | the text sent is the GAME_STATE text of the game under its players' nicknames |
| `Deliveries.AnnouncedIsBroadcast` | server_src/client_handler.c:470-561 | what the server sends a member on a flip is, name for name, the message list the client's copy is proved against |
| `Hearing.BroadcastHeard` | server_src/room.c:479-503 | a broadcast is heard once by each connected member but the one it leaves out, and by nobody else |
| `Hearing.FlipHeard` | server_src/client_handler.c:467-561 | what anybody in the room hears of an accepted flip, message by message: CARD_REVEAL with value and name; on the second card MATCH with the new score and YOUR_TURN to the finder or, with the last pair, GAME_END with everybody's name and score, or MISMATCH with the next one's name and YOUR_TURN to that one |
| `Hearing.ReadyHeard` | server_src/client_handler.c:328-372 | and of a READY: READY_OK to the client, PLAYER_READY, and with the last one GAME_START with the names in seat order and YOUR_TURN to the first seat |
| `Hearing.LeaveNewsHeard` | server_src/room.c:217-372 | and of a member that leaves, which itself hears nothing of it: the scores of a game that is over for want of players, or, when the owner leaves, the nickname of the connected member in the lowest seat, never ROOM_CLOSED, or nothing |
| `Hearing.AnnouncedOwns` | server_src/room.c:309-331 | the owner that is announced is the one the room has afterwards |
| `Hearing.PartingHeard` | server_src/client_handler.c:295-308 | LEFT_ROOM to the leaver and PLAYER_LEFT to those who are still there |
| `Hearing.RemovalHeard` | server_src/client_handler.c:832-847 | who has been removed from a game that goes on and, if it was the owner, who owns the room now |
| `Hearing.HeirIs` | server_src/client_handler.c:839-857 | YOUR_TURN follows, to the next seat, exactly when it was the removed player's turn |
| `Hearing.TurnHeard` | server_src/client_handler.c:849-857 | which is heard by that player alone |
| `Hearing.EvictionHeard` | server_src/server.c:452-465 | every connected member hears the scores of a game that is given up |
| `Hearing.ReturnHeard` | server_src/client_handler.c:679-741 | WELCOME to the client that comes back, PLAYER_RECONNECTED to everybody in its room, and then to it alone ROOM_JOINED, or GAME_STATE and YOUR_TURN if it is its turn, or ROOM_JOINED and GAME_CREATED |
| `Hearing.ReturnToLobbyHeard` | server_src/client_handler.c:679-683 | only WELCOME outside a room |
| `Deliveries.ReachedInbox` | server_src/room.c:479-503 | a broadcast reaches every connected member exactly once |
| `Renaming.RenamedRun` | server_src/game.c:112-331 | games do not depend on who the players are: a one-to-one renaming commutes with every run |
| `Mirror.FlipMirrored` | client_src/src/main/java/cz/zcu/kiv/ups/pexeso/controller/GameController.java:296-359 | one flip, accepted or not: a client that mirrored the server and applies its messages in order mirrors it again |
| `Mirror.RunMirrored` | client_src/src/main/java/cz/zcu/kiv/ups/pexeso/controller/GameController.java:296-359 | the same for every run of flips: matched cards, open cards in order, flips this turn, scores and turn holder agree |
| `Mirror.StartMirrored` | client_src/src/main/java/cz/zcu/kiv/ups/pexeso/controller/GameController.java:708-747 | GAME_START makes a client an exact mirror if and only if it has no open cards left over |
| `Mirror.GameMirrored` | client_src/src/main/java/cz/zcu/kiv/ups/pexeso/controller/GameController.java:296-359 | from GAME_START on, for every client and every run, against the server's game of client objects |
| `CatchUp.SnapshotMirrors` | client_src/src/main/java/cz/zcu/kiv/ups/pexeso/controller/GameController.java:596-688 | one GAME_STATE makes a client, whatever its copy is, an exact mirror if and only if its board is restorable: of another size, or there with a cell for each card and nothing marked that is not matched |
| `CatchUp.CaughtUp` | client_src/src/main/java/cz/zcu/kiv/ups/pexeso/controller/GameController.java:645-688 | a client that mirrored any point of a run and missed the rest, removals included, is an exact mirror after one GAME_STATE |
| `CatchUp.OneRoomConsistent` | client_src/src/main/java/cz/zcu/kiv/ups/pexeso/controller/GameController.java:461-480 | whatever messages of one room a client gets, its board has the size it believes in |
| `CatchUp.StaysConsistent` | client_src/src/main/java/cz/zcu/kiv/ups/pexeso/controller/GameController.java:461-480 | only GAME_CREATED for another size, with a board there, does away with that |
| `CatchUp.LateJoinerNotRestored` | client_src/src/main/java/cz/zcu/kiv/ups/pexeso/controller/GameController.java:461-480 | the input on which it fails: GAME_CREATED set the board size, GAME_START never came, so GAME_STATE makes no board |
| `ClientRules.StartRule` | client_src/src/main/java/cz/zcu/kiv/ups/pexeso/controller/GameController.java:708-747 | field by field, for any message: GAME_START without names or with a size outside 2 to 10 changes nothing; otherwise an empty board of that size, the names that are not blank with score 0, and the turn with the first |
| `ClientRules.RevealRule` | client_src/src/main/java/cz/zcu/kiv/ups/pexeso/controller/GameController.java:506-529 | CARD_REVEAL of a card that is not on the board, or of no value, changes nothing; otherwise the value is noted and the card is open |
| `ClientRules.MatchRule` | client_src/src/main/java/cz/zcu/kiv/ups/pexeso/controller/GameController.java:312-325 | MATCH with a negative score changes nothing; otherwise exactly the open cards are matched and closed and the score is noted, unless an open card is not on the board |
| `ClientRules.MismatchRule` | client_src/src/main/java/cz/zcu/kiv/ups/pexeso/controller/GameController.java:338-359 | MISMATCH closes the open cards and gives the turn exactly to the one who is named |
| `ClientRules.StateIgnored` | client_src/src/main/java/cz/zcu/kiv/ups/pexeso/controller/GameController.java:596-620 | GAME_STATE with fewer than four words, a size outside 2 to 10 or a blank turn holder is ignored |
| `ClientRules.SnapshotRule` | client_src/src/main/java/cz/zcu/kiv/ups/pexeso/controller/GameController.java:596-703 | GAME_STATE cell by cell, on any board: one of another size is made anew, a positive code matches its card, a negative one opens it, both show the value, a face-down card stays what it was; a card without a cell ends it there, and only then the turn is not taken over |
| `Controller.GameController.InitializeBoard` | client_src/src/main/java/cz/zcu/kiv/ups/pexeso/controller/GameController.java:221-228 | two fresh arrays, nothing matched, no value known |
| `Controller.GameController.HandleGameCreated` | client_src/src/main/java/cz/zcu/kiv/ups/pexeso/controller/GameController.java:461-480 | the object is the copy after GAME_CREATED |
| `Controller.GameController.HandleGameStart` | client_src/src/main/java/cz/zcu/kiv/ups/pexeso/controller/GameController.java:708-747 | the object is the copy after GAME_START |
| `Controller.GameController.HandleReveal` | client_src/src/main/java/cz/zcu/kiv/ups/pexeso/controller/GameController.java:506-529 | the object is the copy after CARD_REVEAL, checks included |
| `Controller.GameController.HandleMatch` | client_src/src/main/java/cz/zcu/kiv/ups/pexeso/controller/GameController.java:312-325 | the object is the copy after MATCH, an exception half-way included |
| `Controller.GameController.HandleMismatch` | client_src/src/main/java/cz/zcu/kiv/ups/pexeso/controller/GameController.java:338-359 | the object is the copy after MISMATCH |
| `Controller.GameController.HandleYourTurn` | client_src/src/main/java/cz/zcu/kiv/ups/pexeso/controller/GameController.java:501-504 | the object is the copy after YOUR_TURN |
| `Controller.GameController.HandleGameState` | client_src/src/main/java/cz/zcu/kiv/ups/pexeso/controller/GameController.java:596-703 | whatever the message is, the object is the copy after that text: too short, out of range, an exception in the middle of the roster or of the codes, a board that is missing or too small, or all of it taken in |
| `StateMessage.ParsedIsSnapshot` | client_src/src/main/java/cz/zcu/kiv/ups/pexeso/controller/GameController.java:596-703 | a text that parses, with a code for each card, is taken in as the snapshot it stands for |
| `Controller.GameController.ReadRoster` | client_src/src/main/java/cz/zcu/kiv/ups/pexeso/controller/GameController.java:622-643 | the loop reads exactly the roster the parser specification says, and stops where it says |
| `Text.ParsePrint` | server_src/game.c:398-418 | a printed 32-bit number reads back |
| `Text.SplitJoined` | client_src/src/main/java/cz/zcu/kiv/ups/pexeso/controller/GameController.java:596-599 | words joined by single spaces split into the same words |
| `StateMessage.StateFits` | server_src/game.c:392-425 | with nicknames of at most 31 characters GAME_STATE always fits in 1024 bytes |
| `StateMessage.TwoPlayersText` | server_src/game.c:392-425 | the text of a game of two, letter by letter: size, turn holder, names with scores, a matched pair, an open card, hidden ones |
| `StateMessage.RosterRead` | client_src/src/main/java/cz/zcu/kiv/ups/pexeso/controller/GameController.java:622-643 | the player loop, which is told no player count, stops exactly where the cards begin |
| `StateMessage.StateRoundTrip` | client_src/src/main/java/cz/zcu/kiv/ups/pexeso/controller/GameController.java:596-688 | the parsed text is the server's snapshot: roster, scores, turn holder, and state and value of every visible card |
| `StateMessage.CaughtUpByText` | server_src/game.c:392-425 | catching up works through the text itself |
| `EndToEnd.AllTold` | server_src/client_handler.c:310-563 | handlers, deliveries and clients together, on the heap: from a room whose game exists, after any sequence of READY and FLIP requests, accepted or not, from its members and from clients in no room, every connected member that takes in exactly what was sent to it has, once the game has begun, an exact copy of it, to the end and after the room has gone |
| `EndToEnd.SceneOf` | server_src/client_handler.c:374-426 | in a running server every room whose game has not begun is where that can begin: the members' copies need no more than to have no open cards |
| `EndToEnd.FlipTold` | server_src/client_handler.c:428-563 | one FLIP keeps it so |
| `EndToEnd.ReadyTold` | server_src/client_handler.c:310-372 | one READY keeps it so, the one that begins the game included |
| `EndToEnd.BackInGame` | server_src/client_handler.c:682-741 | a client that comes back, having missed any run of the game, has an exact copy again when it has taken in what handle_reconnect sends it |
| `FormatState.Format` | server_src/game.c:392-425 | the snprintf loops leave exactly that text, terminated, in the buffer |
| `RoomList.PrintSlots` | server_src/room.c:428-452 | the loop over the slots prints the draft with a placeholder for the count |
| `RoomList.Splice` | server_src/room.c:454-474 | after the overlapping memmove the buffer holds the text with the real count, and every byte after it is what was there |
| `RoomList.GetListMessage` | server_src/room.c:428-475 | for any number of count digits the returned-length prefix is the text printed with the count known up front; the byte after it is the terminator exactly below ten rooms, and a stale byte from ten on |
| `RoomList.ListedRooms` | server_src/room.c:436-457 | the entries are the rooms in the table that are not finished, in slot order, each with the id, name, player count, limit and board size of its record, and as playing exactly when its state is |
| `RoomListParser.LobbyShows` | server_src/room.c:428-475 | from the server's table to the lobby: it shows exactly those rooms, with those numbers |
| `RoomListParser.PlayingRoomText` | server_src/room.c:446-457 | the text for a room of two that plays, letter by letter |
| `RoomListParser.ReaderSees` | server_src/room.c:467-474 | a reader of the C string sees exactly that text if and only if that byte is NUL |
| `ListHandler.HandleListRooms` | server_src/client_handler.c:166-177 | for NUL-free names, the client gets exactly the list if and only if a line can hold it and there are fewer than ten rooms or the stale byte behind the text is NUL |
| `ListHandler.TwelveFit` | server_src/client_handler.c:64-70 | up to twelve rooms with ids below 1000 always fit a line |
| `ListHandler.TenRoomsRunOn` | server_src/room.c:454-474 | so from ten to twelve rooms any other stale byte makes the client read on |
| `ListHandler.FoundRooms` | server_src/room.c:69-137 | there are such tables: in an empty one any number of clients found a room each, and that is what it lists |
| `ListHandler.UsualRooms` | server_src/room.c:69-137 | whatever non-blank name of at most 63 characters, without spaces or NULs, the rooms are given, `TenRoomsRunOn` and `TwelveFit` apply to their list |
| `ListHandler.ThirteenDoNotFit` | server_src/client_handler.c:64-70 | thirteen rooms with names of 63 characters never fit a line, so nothing is sent |
| `RoomListParser.HandleRoomList` | client_src/src/main/java/cz/zcu/kiv/ups/pexeso/controller/LobbyController.java:272-337 | the parsing loop returns what the parser specification says |
| `RoomListParser.RoomRead` | client_src/src/main/java/cz/zcu/kiv/ups/pexeso/controller/LobbyController.java:297-326 | whatever the text is, a room is read exactly when its six words make sense: id, name, players, limit, state and board size in their ranges; otherwise the next one is looked for right behind the first word that does not |
| `RoomListParser.RoomListRoundTrip` | client_src/src/main/java/cz/zcu/kiv/ups/pexeso/controller/LobbyController.java:272-337 | the text parses back to the same rooms |
| `Framing.Reader.Feed` | server_src/client_handler.c:776-806 | one byte of the framing loop |
| `Framing.Reader.Receive` | server_src/client_handler.c:755-807 | one recv() of the framing loop |
| `Framing.SplittingIsInvisible` | server_src/client_handler.c:755-807 | what is dispatched depends only on the concatenated bytes |
| `Framing.LongLine` | server_src/client_handler.c:797-806 | a line of k plain bytes counts k / 1024 overflows and leaves its last k mod 1024 bytes |
| `Framing.LineDispatched` | server_src/client_handler.c:779-796 | of which exactly those up to a NUL are dispatched, nothing if there are none |
| `Framing.ReturnsAreIgnored` | server_src/client_handler.c:793-795 | carriage returns make no difference, wherever they are |
| `Framing.FramingRoundTripInChunks` | server_src/client_handler.c:755-807 | printed messages come back as the same list however recv() cuts them |
| `Keepalive.PingPass` | server_src/server.c:270-304 | one pass of the PING loop is one ping tick for every client |
| `Keepalive.CheckClient` | server_src/server.c:324-395 | one pass of the checker over a client is one check tick, it touches nothing but socket and mark, and the client is given up on exactly when it is overdue |
| `Keepalive.CheckRule` | server_src/server.c:351-395 | in seconds: a check closes an open authenticated client exactly when a PING has been unanswered for more than 5 s, which also marks it, or nothing has been heard for more than 120 s, and does nothing else |
| `Keepalive.PingRule` | server_src/server.c:270-304 | in seconds: a PING goes out exactly to a client that is up, owes no PONG and gave its last one 5 s ago or more |
| `Keepalive.NinetySeconds` | server_src/server.c:399-402 | a marked, closed record is accepted for reconnect up to 90 s, the last one included, and evictable after that |
| `Keepalive.HandlePong` | server_src/client_handler.c:565-571 | the waiting flag is clear, last_pong_time and last_activity are the time of the PONG, and nothing else changes |
| `Keepalive.OnePingOutstanding` | server_src/server.c:280-300 | between two PINGs there is a PONG |
| `Keepalive.PingsApart` | server_src/server.c:285-295 | successive PINGs are at least 5 s apart |
| `Keepalive.PromptNeverMarked` | server_src/server.c:351-373 | a client that answers within 5 s is never marked disconnected |
| `Keepalive.PromptStaysOpen` | server_src/server.c:351-395 | and stays open as long as no check finds its last activity more than 120 s old |
| `Keepalive.PromptNeverCutOff` | server_src/server.c:270-395 | with the PING thread on time nothing need be assumed of its activity: it stays open and unmarked for good |
| `Keepalive.SilentIsMarked` | server_src/server.c:351-373 | a client that sends nothing after a PING, and was heard of in the 110 s before it, is marked and closed within 10 s |
| `Keepalive.PingIsSoon` | server_src/server.c:270-300 | with the thread on time, a PING comes at most six seconds after the last PONG, or two after the thread has come to the client |
| `Keepalive.SilentIsMarkedInTime` | server_src/server.c:270-373 | so with both threads on time nothing need be assumed of when the client was heard of |
| `Keepalive.AcceptedOrEvictable` | server_src/client_handler.c:588-615 | a marked, closed client is at each instant either accepted for reconnect or evictable, never both |
| `Keepalive.EvictableForGood` | server_src/server.c:395-402 | and once evictable it stays so |
| `Keepalive.WokenIsSettled` | server_src/client_handler.c:810-960 | however a connection ends, once its thread has woken up the record is gone, or from then on, at each instant, accepted for reconnect or evictable but not both |
| `ClientTable.AcceptKeeps` | server_src/client_list.c:89-147 | adding keeps ids and pointers distinct and the counter exact |
| `ClientTable.AcceptById` | server_src/client_list.c:89-147 | as a map from id to client: one entry more; or, only when no slot is free, the zombie in the lowest slot replaced; or nothing |
| `ClientTable.AcceptHolds` | server_src/client_list.c:89-147 | who is listed afterwards: the new client instead of the evicted one, accepted exactly when a slot is free or somebody can be evicted |
| `ClientTable.RemoveKeeps` | server_src/client_list.c:149-172 | removing takes exactly that client's entry away |
| `ClientTable.FoundAtMostOnce` | server_src/client_list.c:152-169 | a client is found at most once, so the duplicate report is unreachable |
| `ClientTable.FindIsLookup` | server_src/client_list.c:231-245 | the search by id is the map's lookup |
| `ClientTable.AllAreListed` | server_src/client_list.c:215-229 | the snapshot lists every client once, client_count of them |
| `ClientTable.RenumberedBreaksIds` | server_src/client_handler.c:622-626 | copying the old id into the new record breaks the uniqueness of ids |
| `ClientTable.ReplaceRestores` | server_src/client_list.c:174-213 | client_list_replace restores it: the old id leads to the new client, the new client's first id is gone, the counter is right |
| `ClientTable.ReplaceHolds` | server_src/client_list.c:174-213 | and everybody else that was listed still is |
| `ClientTable.ReachableTable` | server_src/client_list.c:31-245 | all of this after any run of accept, remove, replace and mark |
| `ClientLists.ClientList.Add` | server_src/client_list.c:89-147 | the array after adding is the functional addition |
| `ClientLists.ClientList.Remove` | server_src/client_list.c:149-172 | the array after removing is the functional removal, with the number of slots found |
| `ClientLists.ClientList.Replace` | server_src/client_list.c:174-213 | the array after replacing is the functional replacement |
| `ClientLists.ClientList.GetAll` | server_src/client_list.c:215-229 | the listed clients in slot order, up to the caller's limit |
| `ClientLists.ClientList.Shutdown` | server_src/client_list.c:31-87 | frees every client exactly once, finds no duplicate, and empties the array |
| `Reconnecting.ReconnectKeepsExactlyWhen` | server_src/client_handler.c:620-653 | replacing one client by another keeps the membership graph in order if and only if the new one is in no room, and the old one is in no room, or sits among the first player_count seats of a room it does not own |
| `Reconnecting.DenseRoomScan` | server_src/client_handler.c:637-646 | in a room without holes the scan always finds its client |
| `Reconnects.Transfer` | server_src/client_handler.c:620-674 | the new record takes over id, nickname, state, room, seat and place in the game, keeps its own socket and error count, and the list is the functional replacement |
| `Reconnects.GameGoesOn` | server_src/client_handler.c:655-670 | after any further run the game is the one that would have been, with the new client for the old |

## Left out

- Sockets, threads, signals, logging, main.c, server start and shutdown apart from the client list: plumbing. A message is a delivery to a client that is connected.
- Interleavings inside a step, freed-memory windows and the mutexes: steps are atomic.
- JavaFX widgets, alerts and scene changes; `Platform.runLater` effects on `myTurn` are applied at once; ClientConnection, LoginController and the other classes of the client.
- Closing the socket after too many errors. The texts of error messages are constructors.
- Parsing of command parameters by `sscanf`, `atoi` and `strtol`: handlers take them parsed, with None for a missing or malformed one. NUL bytes inside a line.
- The C arrays of four players are stored as their live prefix; arrays inside structs are fields of type `seq` that the methods reassign.
- Connections.FallSilent: the checker's mark and the cleanup by the client's own thread are one step; the time between them is not modelled, nor is a socket that is closed for inactivity alone on the heap (`Keepalive` has it on values).
- ServerRuns.React: the PING thread and the checker's other passes are not among its inputs, so PINGs set no waiting flag in its histories; `Keepalive` has them.
- ServerRuns.Next: an unfinished step that does harm is not followed further; LIST_ROOMS is dispatched to nothing here, because it changes neither rooms nor games (`ListHandler.HandleListRooms` has it).
- EndToEnd.AllTold: players that are removed in the middle of a game are not among its requests; `CatchUp.CaughtUp` and `EndToEnd.BackInGame` are about copies that missed a removal.
- RoomList.GetListMessage: a list that does not fit its buffer of 4096 characters is not modelled, because the source then moves bytes from beyond the end of the buffer, which gives the result no meaning.
- FormatState.Format: the same, for GAME_STATE; `StateMessage.StateFits` shows that it cannot happen.
- Keepalive.SilentIsMarked: assumes that the client was last active no more than 110 s before the PING, so that the two-minute inactivity rule, which closes without marking, does not come first; `Keepalive.SilentIsMarkedInTime` replaces that by the schedule of the PING thread.
- Nicknames are not unique on the server; the lemmas about mirrors require distinct nicknames in a room, and no blanks in them.
