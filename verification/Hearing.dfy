/** What each client hears of what happens in its room, message by message, and that nobody else hears of it. */
module Hearing {
  import opened SeqFacts
  import opened GameModel
  import opened Games
  import opened Structs
  import opened Messages
  import opened Rooms
  import opened Deliveries
  import opened Renaming
  import opened StateMessage
  import opened FormatState
  import opened Returning
  import CatchUp
  import Connections
  import Effects
  import Forfeit
  import GameInvariant
  import Membership
  import Mirror
  import ReadyHandler
  import ReconnectHandler
  import RoomHandlers
  import Rules

  ghost function Once(yes: bool, m: Message): seq<Message> {
    if yes then [m] else []
  }

  // ---- broadcasts ----

  /** A broadcast is heard once by each connected member but the one it leaves out, and by nobody else. */
  lemma BroadcastHeard(seats: seq<Client?>, m: Message, except: Client?, d: Client)
    requires SeatedOnce(seats) && d.Reachable()
    ensures Inbox(Reached(seats, m, except), d) == Once(d in seats && d != except, m)
  {
    if d in seats && d != except {
      BroadcastReaches(seats, m, except, d);
    } else {
      NotReached(seats, m, except, d);
    }
  }

  lemma {:induction false} BroadcastReaches(seats: seq<Client?>, m: Message, except: Client?, d: Client)
    requires SeatedOnce(seats) && d in seats && d != except && d.Reachable()
    ensures Inbox(Reached(seats, m, except), d) == [m]
  {
    var n := |seats| - 1;
    OneMore(seats, m, except, d);
    if seats[n] == d {
      NotReached(seats[..n], m, except, d);
    } else {
      BroadcastReaches(seats[..n], m, except, d);
    }
  }

  lemma ToEachHeard(seats: seq<Client?>, m: Message, d: Client)
    requires SeatedOnce(seats) && d.Reachable()
    ensures Inbox(ToEach(Hearers(seats), m), d) == Once(d in seats, m)
  {
    ReachedIsHeard(seats, m);
    BroadcastHeard(seats, m, null, d);
  }

  // ---- a member leaves ----

  /** The member in the lowest seat that is not waiting to reconnect. */
  ghost predicate LowestThere(seats: seq<Client?>, o: Client)
    reads seats`isDisconnected
  {
    exists k :: 0 <= k < |seats| && seats[k] == o && !o.isDisconnected
                && forall j :: 0 <= j < k && seats[j] != null ==> seats[j].isDisconnected
  }

  lemma {:induction false} NextOwnerIs(seats: seq<Client?>, d: Client)
    requires d in seats && !d.isDisconnected
    ensures NextOwner(seats) != null && LowestThere(seats, NextOwner(seats))
  {
    if seats[0] == null || seats[0].isDisconnected {
      NextOwnerIs(seats[1..], d);
      var o := NextOwner(seats);
      var k :| 0 <= k < |seats[1..]| && seats[1..][k] == o
               && forall j :: 0 <= j < k && seats[1..][j] != null ==> seats[1..][j].isDisconnected;
      assert seats[k + 1] == o;
      forall j | 0 <= j < k + 1 && seats[j] != null ensures seats[j].isDisconnected {
        if j > 0 {
          assert seats[j] == seats[1..][j - 1];
        }
      }
    } else {
      assert seats[0] == NextOwner(seats);
    }
  }

  /** The scores of a forfeit: names in seat order, and the pairs that were left shared out among the best of those
      who stay. */
  ghost predicate ForfeitBoard(game: Game<Client>, leaver: Client, board: seq<(string, int)>)
    requires |game.players| == |game.playerScores|
    reads game, game.players`nickname
  {
    var left := game.totalPairs - game.matchedPairs;
    && |board| == |game.players|
    && forall k :: 0 <= k < |board| ==>
         && board[k].0 == game.players[k].nickname
         && board[k].1 == Forfeit.Split(game.playerScores, Stays(game.players, leaver), left)[k]
  }

  /** What one who stays hears when a member leaves: the result of a game that is over for want of players, or who
      owns the room now. It is the same one that LowestThere names. */
  ghost predicate HearsLeave(room: Room, seats: seq<Client?>, client: Client, heard: seq<Message>)
    requires room.game != null ==> |room.game.players| == |room.game.playerScores|
    reads room, if room.game == null then {} else {room.game}, PlayersIn(room)`nickname
    reads seats`isDisconnected, seats`nickname
  {
    if room.game != null && room.playerCount <= 2
    then exists board :: ForfeitBoard(room.game, client, board) && heard == [GameEndForfeit(board)]
    else if room.owner == client && room.playerCount > 1
    then exists o: Client :: o in seats && LowestThere(seats, o) && heard == [OwnerChanged(o.nickname)]
    else heard == []
  }

  /** Nobody who is connected ever hears ROOM_CLOSED, because then it would be the owner itself. */
  lemma LeaveNewsHeard(room: Room, client: Client, i: int, d: Client)
    requires room.game != null ==> |room.game.players| == |room.game.playerScores|
    requires SeatedOnce(room.players) && 0 <= i < |room.players| && room.players[i] == client && d.Reachable()
    ensures var seats, heard := room.players[i := null], Inbox(LeaveNews(room, client), d);
            if d in room.players && d != client then HearsLeave(room, seats, client, heard) else heard == []
  {
    IndexOfIs(room.players, client);
    var seats := room.players[i := null];
    SeatCleared(room.players, i, d);
    assert LeaveNews(room, client) == NewsFor(room, seats, room.playerCount - 1, client);
    NewsHeard(room, seats, client, d);
  }

  lemma NewsHeard(room: Room, seats: seq<Client?>, client: Client, d: Client)
    requires room.game != null ==> |room.game.players| == |room.game.playerScores|
    requires SeatedOnce(seats) && d.Reachable()
    ensures var heard := Inbox(NewsFor(room, seats, room.playerCount - 1, client), d);
            if d in seats then HearsLeave(room, seats, client, heard) else heard == []
  {
    if room.game != null && room.playerCount <= 2 {
      var board := ForfeitScores(room.game, client);
      assert ForfeitBoard(room.game, client, board);
      ToEachHeard(seats, GameEndForfeit(board), d);
    } else if room.owner == client && room.playerCount > 1 {
      ToEachHeard(seats, OwnerNews(seats), d);
      if d in seats {
        NextOwnerIs(seats, d);
      }
    }
  }

  /** The owner that is announced is the one the room has afterwards. */
  lemma AnnouncedOwns(g: Membership.Graph, seats: seq<Client?>, owner: Client, announced: Client)
    requires forall d: Client :: d in seats ==> d in g.clients && g.clients[d].disconnected == d.isDisconnected
    requires Effects.Lowest(g, seats, owner) && LowestThere(seats, announced)
    ensures owner == announced
  {
    var k :| 0 <= k < |seats| && seats[k] == owner && !g.clients[owner].disconnected
             && forall j :: 0 <= j < k && seats[j] != null && seats[j] in g.clients ==>
                              g.clients[seats[j]].disconnected;
    var m :| 0 <= m < |seats| && seats[m] == announced && !announced.isDisconnected
             && forall j :: 0 <= j < m && seats[j] != null ==> seats[j].isDisconnected;
    assert k <= m && m <= k;
  }

  /** LEFT_ROOM to the leaver, PLAYER_LEFT to those who are still there. */
  lemma PartingHeard(client: Client, there: bool, seats: seq<Client?>, d: Client)
    requires SeatedOnce(seats) && d.Reachable()
    ensures Inbox(RoomHandlers.Parting(client, there, seats), d)
         == Once(d == client, LeftRoom) + Once(there && d in seats, PlayerLeft(client.nickname))
  {
    ReplyInbox(client, LeftRoom, d);
    if there {
      InboxConcat(Reply(client, LeftRoom), Reached(seats, PlayerLeft(client.nickname), null), d);
      BroadcastHeard(seats, PlayerLeft(client.nickname), null, d);
    } else {
      assert RoomHandlers.Parting(client, there, seats) == Reply(client, LeftRoom);
    }
  }

  // ---- a player is removed, waited for or given up on ----

  /** Those who stay hear who has been removed, and then, if it was the owner, who owns the room now. */
  lemma RemovalHeard(room: Room, client: Client, i: int, d: Client)
    requires SeatedOnce(room.players) && 0 <= i < |room.players| && room.players[i] == client && d.Reachable()
    ensures client in room.players
    ensures var seats, heard := room.players[i := null], Inbox(Connections.RemovalNews(room, client), d);
            if d in room.players && d != client then
              if room.owner == client
              then exists o: Client :: o in seats && LowestThere(seats, o)
                                       && heard == [PlayerRemoved(client.nickname), OwnerChanged(o.nickname)]
              else heard == [PlayerRemoved(client.nickname)]
            else heard == []
  {
    IndexOfIs(room.players, client);
    var seats, told := room.players[i := null], Reached(room.players, PlayerRemoved(client.nickname), client);
    SeatCleared(room.players, i, d);
    BroadcastHeard(room.players, PlayerRemoved(client.nickname), client, d);
    if room.owner == client {
      ToEachHeard(seats, OwnerNews(seats), d);
      InboxConcat(told, ToEach(Hearers(seats), OwnerNews(seats)), d);
      if d in seats {
        NextOwnerIs(seats, d);
      }
    } else {
      assert Connections.RemovalNews(room, client) == told;
    }
  }

  /** YOUR_TURN follows, to the next seat, exactly when it was the turn of the player that has been removed. */
  lemma HeirIs(g: GameState<Client>, i: int, client: Client)
    requires GameInvariant.Inv(g) && |g.players| >= 2 && 0 <= i < |g.players| && g.players[i] == client
    ensures Indexable(g)
    ensures Connections.Heir(g, client)
         == if g.current == i then g.players[if i + 1 < |g.players| then i + 1 else 0] else null
  {
    GameInvariant.InvIndexable(g);
    IndexOfIs(g.players, client);
    assert Distinct(g.players);
    assert IndexOf(g.players, client) == i;
  }

  /** And nobody else hears of it. */
  lemma TurnHeard(heir: Client?, d: Client)
    requires d.Reachable()
    ensures Inbox(Connections.TurnNews(heir), d) == Once(d == heir, YourTurn)
  {
    if heir != null {
      ReplyInbox(heir, YourTurn, d);
    }
  }

  /** Every connected member hears the result of a game that is given up. */
  lemma EvictionHeard(room: Room, client: Client, d: Client)
    requires room.game != null && |room.game.players| == |room.game.playerScores|
    requires SeatedOnce(room.players) && d.Reachable()
    ensures var heard := Inbox(Connections.EvictionNews(room, client), d);
            if d in room.players
            then exists board :: ForfeitBoard(room.game, client, board) && heard == [GameEndForfeit(board)]
            else heard == []
  {
    var board := ForfeitScores(room.game, client);
    assert ForfeitBoard(room.game, client, board);
    ToEachHeard(room.players, GameEndForfeit(board), d);
  }

  // ---- a client comes back ----

  /** Where the client is: in a room that waits, in a game under way, or in one that has not begun. */
  ghost function Whereabouts(room: Room, n: Client): seq<Message>
    requires room.game != null ==> room.game.WellFormed()
    reads room, if room.game == null then {} else {room.game}, if room.game == null then {} else {room.game.cards}
    reads PlayersIn(room)`nickname
  {
    if room.game == null then [RoomJoined(room.roomId, room.name)]
    else if room.game.state == Playing then
      [GameStateLine(StateText(NamedView(room.game)))]
      + Once(room.game.players[room.game.currentPlayerIndex] == n, YourTurn)
    else if room.game.state == Waiting then
      [RoomJoined(room.roomId, room.name), GameCreated(room.game.boardSize)]
    else []
  }

  lemma GameHeard(room: Room, n: Client, d: Client)
    requires room.game != null && room.game.WellFormed() && n.Reachable() && d.Reachable()
    ensures Inbox(GameNews(room, room.game, n), d) == if d == n then Whereabouts(room, n) else []
  {
    hide StateText;
    var game := room.game;
    if game.state == Playing {
      var text := GameStateLine(StateText(NamedView(game)));
      ReplyInbox(n, text, d);
      ReplyInbox(n, YourTurn, d);
      InboxConcat(Reply(n, text), if game.players[game.currentPlayerIndex] == n then Reply(n, YourTurn) else [], d);
    } else if game.state == Waiting {
      ReplyInbox(n, RoomJoined(room.roomId, room.name), d);
      ReplyInbox(n, GameCreated(game.boardSize), d);
      InboxConcat(Reply(n, RoomJoined(room.roomId, room.name)), Reply(n, GameCreated(game.boardSize)), d);
    }
  }

  lemma RoomNewsHeard(room: Room, n: Client, d: Client)
    requires (room.game != null ==> room.game.WellFormed()) && SeatedOnce(room.players)
    requires n.Reachable() && d.Reachable()
    ensures Inbox(RoomNews(room, n), d)
         == Once(d in room.players, PlayerReconnected(n.nickname)) + if d == n then Whereabouts(room, n) else []
  {
    hide GameNews, Reached;
    var told := Reached(room.players, PlayerReconnected(n.nickname), null);
    BroadcastHeard(room.players, PlayerReconnected(n.nickname), null, d);
    if room.game == null {
      InboxConcat(told, Reply(n, RoomJoined(room.roomId, room.name)), d);
      ReplyInbox(n, RoomJoined(room.roomId, room.name), d);
    } else {
      hide Whereabouts;
      InboxConcat(told, GameNews(room, room.game, n), d);
      GameHeard(room, n, d);
    }
  }

  /** WELCOME to the client, the news that everybody in its room hears, and then where the client is. */
  lemma ReturnHeard(n: Client, d: Client)
    requires n.room != null && (n.room.game != null ==> n.room.game.WellFormed())
    requires SeatedOnce(n.room.players) && n.Reachable() && d.Reachable()
    ensures Inbox(ReconnectHandler.ReturnNews(n), d)
         == Once(d == n, WelcomeBack(n.clientId)) + Once(d in n.room.players, PlayerReconnected(n.nickname))
            + if d == n then Whereabouts(n.room, n) else []
  {
    hide RoomNews, Whereabouts;
    RoomNewsHeard(n.room, n, d);
    ReplyInbox(n, WelcomeBack(n.clientId), d);
    InboxConcat(Reply(n, WelcomeBack(n.clientId)), RoomNews(n.room, n), d);
  }

  /** Whoever comes back to no room hears WELCOME, and nobody hears of it. */
  lemma ReturnToLobbyHeard(n: Client, d: Client)
    requires n.room == null && n.Reachable() && d.Reachable()
    ensures Inbox(ReconnectHandler.ReturnNews(n), d) == Once(d == n, WelcomeBack(n.clientId))
  {
    ReplyInbox(n, WelcomeBack(n.clientId), d);
    assert ReconnectHandler.ReturnNews(n) == Reply(n, WelcomeBack(n.clientId));
  }

  // ---- READY ----

  /** READY_OK to the client, PLAYER_READY to everybody; and with the last one GAME_START with the names in seat order,
      and YOUR_TURN to the first seat. */
  lemma ReadyHeard(g: GameState<Client>, names: map<Client, string>, client: Client, c: Client)
    requires GameInvariant.Inv(g) && g.phase == Waiting && client in g.players && Names(g.players, names)
    ensures var r := HandleReady(g, client);
            && Indexable(r) && Names(r.players, names) && client in names
            && var heard := ReadyHandler.ReadyNews(names, r, client, c);
               if forall k :: 0 <= k < |g.players| ==> g.players[k] == client || g.ready[k] then
                 exists roster :: NamesAre(g, names, roster)
                   && heard == Once(c == client, ReadyOk)
                               + [PlayerReady(names[client]), GameStart(g.boardSize, roster)]
                               + Once(c == g.players[0], YourTurn)
               else heard == Once(c == client, ReadyOk) + [PlayerReady(names[client])]
  {
    GameInvariant.InvIndexable(g);
    Rules.ReadyRule(g, client);
    assert NamesAre(g, names, RenamedPlayers(g.players, names));
    hide GameInvariant.Inv, HandleReady;
  }

  ghost predicate NamesAre(g: GameState<Client>, names: map<Client, string>, roster: seq<string>)
    requires Names(g.players, names)
  {
    |roster| == |g.players| && forall k :: 0 <= k < |roster| ==> roster[k] == names[g.players[k]]
  }

  // ---- a flip ----

  /** CARD_REVEAL with the card's value and the player's name. The second card settles the turn: MATCH with the new
      score, and GAME_END or YOUR_TURN to the finder, or MISMATCH with the name of the next one, who gets YOUR_TURN. */
  lemma FlipHeard(g: GameState<Client>, names: map<Client, string>, card: int, c: Client)
    requires GameInvariant.Inv(g) && g.phase == Playing && g.flips <= 1 && Names(g.players, names)
    requires 0 <= card < |g.cards| && g.cards[card].state == Hidden
    ensures Indexable(g) && CanFlip(g, g.players[g.current], card)
    ensures var who, next := g.players[g.current], g.players[(g.current + 1) % |g.players|];
            var heard := Announced(g, names, who, card, c);
            && heard != [] && heard[0] == CardReveal(card, g.cards[card].value, names[who])
            && var rest := heard[1..];
               if g.flips == 0 then rest == []
               else if g.cards[card].value != g.cards[g.first].value then
                 rest == [Mismatch(names[next])] + Once(c == next, YourTurn)
               else if g.matchedPairs + 1 != g.totalPairs then
                 rest == [Match(names[who], g.scores[g.current] + 1)] + Once(c == who, YourTurn)
               else
                 && |rest| == 2 && rest[0] == Match(names[who], g.scores[g.current] + 1)
                 && rest[1].GameEnd? && Board(g, names, rest[1].results)
  {
    hide Mirror.Results, GameInvariant.Inv;
    GameInvariant.InvIndexable(g);
    if g.flips == 1 {
      Rules.SecondUp(g, card);
    }
    if g.flips == 1 && g.cards[card].value == g.cards[g.first].value && g.matchedPairs + 1 == g.totalPairs {
      var scores := g.scores[g.current := g.scores[g.current] + 1];
      var named := RenamedPlayers(g.players, names);
      forall k | 0 <= k < |g.players|
        ensures Mirror.Results(named, scores)[k] == (names[g.players[k]], scores[k])
      {
        CatchUp.ResultsAt(named, scores, k);
      }
    }
  }

  /** Everybody's name and score, in seat order, with the last pair counted. */
  ghost predicate Board(g: GameState<Client>, names: map<Client, string>, results: seq<(string, int)>)
    requires Names(g.players, names) && |g.players| == |g.scores|
  {
    && |results| == |g.players|
    && forall k :: 0 <= k < |results| ==>
         && results[k].0 == names[g.players[k]]
         && results[k].1 == g.scores[k] + if k == g.current then 1 else 0
  }
}
