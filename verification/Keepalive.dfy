/** The PING thread, the timeout checker and the PONG handler, as timed steps on one client's record. */
module Keepalive {
  import opened Structs
  import opened Text

  const PONG_TIMEOUT := 5
  const PONG_WAIT_INTERVAL := 5
  const RECONNECT_TIMEOUT := 90
  const INACTIVITY_TIMEOUT := 120

  /** The fields of client_t that the two threads look at; open says that socket_fd is not -1. */
  datatype Timers = Timers(
    open: bool, authenticated: bool, disconnected: bool, disconnectTime: int,
    waiting: bool, lastPing: int, lastPong: int, lastActivity: int)

  predicate PingDue(t: Timers, now: int) {
    t.authenticated && !t.disconnected && t.open && !t.waiting && now - t.lastPong >= PONG_WAIT_INTERVAL
  }

  /** One pass of the PING thread over a client; a PING that could not be sent changes nothing. */
  function OnPingTick(t: Timers, now: int, sent: bool): Timers {
    if PingDue(t, now) && sent then t.(waiting := true, lastPing := now) else t
  }

  predicate PongOverdue(t: Timers, now: int) {
    t.authenticated && t.open && t.waiting && now - t.lastPing > PONG_TIMEOUT
  }

  /** One pass of the timeout checker over a client that it does not evict. */
  function OnCheckTick(t: Timers, now: int): Timers {
    if PongOverdue(t, now) then
      if t.disconnected then t.(open := false) else t.(open := false, disconnected := true, disconnectTime := now)
    else if t.authenticated && t.open && now - t.lastActivity > INACTIVITY_TIMEOUT then t.(open := false)
    else t
  }

  /** The checker removes the client in this pass. */
  predicate Evictable(t: Timers, now: int) {
    t.disconnected && !t.open && now - t.disconnectTime > RECONNECT_TIMEOUT
  }

  /** handle_reconnect goes on for this old client. */
  predicate ReconnectAccepted(t: Timers, now: int) {
    && (t.disconnected || !t.open)
    && now - (if t.disconnected then t.disconnectTime else t.lastActivity) <= RECONNECT_TIMEOUT
  }

  function OnPong(t: Timers, now: int): Timers {
    t.(lastActivity := now, lastPong := now, waiting := false)
  }

  function OnMessage(t: Timers, now: int): Timers {
    t.(lastActivity := now)
  }

  /** What a pass of the checker does, in seconds: it closes an open client exactly when a PING has gone unanswered
      for more than five, which also marks it, or nothing has been heard for more than 120. */
  lemma CheckRule(t: Timers, now: int)
    ensures var r := OnCheckTick(t, now);
            && (r.open <==> t.open && !(t.authenticated && ((t.waiting && now - t.lastPing > 5)
                                                            || now - t.lastActivity > 120)))
            && (r.disconnected <==> t.disconnected || (t.authenticated && t.open && t.waiting && now - t.lastPing > 5))
            && r.disconnectTime == (if r.disconnected && !t.disconnected then now else t.disconnectTime)
            && r == t.(open := r.open, disconnected := r.disconnected, disconnectTime := r.disconnectTime)
  {
  }

  /** A PING goes out exactly to a client that is up, owes no PONG and gave its last one five seconds ago or more. */
  lemma PingRule(t: Timers, now: int, sent: bool)
    ensures OnPingTick(t, now, sent)
         == if t.authenticated && t.open && !t.disconnected && !t.waiting && t.lastPong + 5 <= now && sent
            then t.(waiting := true, lastPing := now) else t
  {
  }

  /** Both sides of the 90 seconds: until then a marked record can be taken over, after that it is given up on. */
  lemma NinetySeconds(t: Timers, now: int)
    requires t.disconnected && !t.open
    ensures ReconnectAccepted(t, now) <==> now <= t.disconnectTime + 90
    ensures Evictable(t, now) <==> now > t.disconnectTime + 90
  {
  }

  // ---- runs ----

  datatype Event = PingTick(at: int, sent: bool) | CheckTick(at: int) | Pong(at: int) | Message(at: int)

  function Step(t: Timers, e: Event): Timers {
    match e
    case PingTick(at, sent) => OnPingTick(t, at, sent)
    case CheckTick(at) => OnCheckTick(t, at)
    case Pong(at) => OnPong(t, at)
    case Message(at) => OnMessage(t, at)
  }

  function Run(t: Timers, es: seq<Event>): Timers {
    if es == [] then t else Step(Run(t, es[..|es| - 1]), es[|es| - 1])
  }

  /** Event i of the run sends a PING. */
  predicate Pings(t: Timers, es: seq<Event>, i: int) {
    0 <= i < |es| && es[i].PingTick? && es[i].sent && PingDue(Run(t, es[..i]), es[i].at)
  }

  /** Time does not run backwards, and starts no earlier than what the record remembers. */
  ghost predicate InOrder(t: Timers, es: seq<Event>) {
    && (forall i, j :: 0 <= i < j < |es| ==> es[i].at <= es[j].at)
    && (forall i :: 0 <= i < |es| ==> t.lastPong <= es[i].at && t.lastActivity <= es[i].at)
  }

  /** No PONG among the events from i, exclusive, to j, exclusive. */
  ghost predicate NoPongBetween(es: seq<Event>, i: int, j: int)
    requires j <= |es|
  {
    forall k :: 0 <= k && i < k < j ==> !es[k].Pong?
  }

  lemma RunStep(t: Timers, es: seq<Event>, n: nat)
    requires n < |es|
    ensures Run(t, es[..n + 1]) == Step(Run(t, es[..n]), es[n])
  {
    assert es[..n + 1][..n] == es[..n];
  }

  /** While a client is waited for, the last PING is the one that has not been answered. */
  lemma {:induction false} WaitingSincePing(t: Timers, es: seq<Event>, n: nat) returns (i: int)
    requires n <= |es| && !t.waiting && Run(t, es[..n]).waiting
    ensures 0 <= i < n && Pings(t, es, i) && Run(t, es[..n]).lastPing == es[i].at
    ensures NoPongBetween(es, i, n)
    ensures forall k :: i < k < n ==> !Pings(t, es, k)
  {
    assert es[..0] == [];
    i := 0;
    if n > 0 {
      RunStep(t, es, n - 1);
      if Pings(t, es, n - 1) {
        i := n - 1;
      } else {
        i := WaitingSincePing(t, es, n - 1);
      }
    }
  }

  /** At most one PING is outstanding: between two PINGs there is a PONG. */
  lemma OnePingOutstanding(t: Timers, es: seq<Event>, i: int, j: int)
    requires !t.waiting && Pings(t, es, i) && Pings(t, es, j) && i < j
    ensures exists k :: i < k < j && es[k].Pong?
  {
    if NoPongBetween(es, i, j) {
      StillWaiting(t, es, i, j);
    }
  }

  lemma {:induction false} StillWaiting(t: Timers, es: seq<Event>, i: int, n: int)
    requires Pings(t, es, i) && i < n <= |es| && NoPongBetween(es, i, n)
    ensures Run(t, es[..n]).waiting && Run(t, es[..n]).lastPing == es[i].at
    decreases n
  {
    RunStep(t, es, n - 1);
    if n > i + 1 {
      StillWaiting(t, es, i, n - 1);
    }
  }

  /** The last PONG is remembered. */
  lemma {:induction false} LastPongAt(t: Timers, es: seq<Event>, k: int, n: int)
    requires InOrder(t, es) && 0 <= k < n <= |es| && es[k].Pong?
    ensures Run(t, es[..n]).lastPong >= es[k].at
    decreases n
  {
    RunStep(t, es, n - 1);
    if n > k + 1 {
      LastPongAt(t, es, k, n - 1);
      NotAhead(t, es, n - 1);
    }
  }

  lemma {:induction false} NotAhead(t: Timers, es: seq<Event>, n: nat)
    requires InOrder(t, es) && n < |es|
    ensures Run(t, es[..n]).lastPong <= es[n].at && Run(t, es[..n]).lastActivity <= es[n].at
  {
    if n > 0 {
      RunStep(t, es, n - 1);
      NotAhead(t, es, n - 1);
    } else {
      assert es[..0] == [];
    }
  }

  /** Successive PINGs are at least five seconds apart. */
  lemma PingsApart(t: Timers, es: seq<Event>, i: int, j: int)
    requires InOrder(t, es) && !t.waiting && Pings(t, es, i) && Pings(t, es, j) && i < j
    ensures es[j].at >= es[i].at + 5
  {
    OnePingOutstanding(t, es, i, j);
    var k :| i < k < j && es[k].Pong?;
    LastPongAt(t, es, k, j);
  }

  /** The client answers every PING within five seconds: no later event of the run comes before its PONG. */
  ghost predicate Prompt(t: Timers, es: seq<Event>) {
    forall i, j {:trigger Pings(t, es, i), es[j]} ::
      Pings(t, es, i) && i < j < |es| && es[j].at > es[i].at + 5
      ==> !NoPongBetween(es, i, j)
  }

  /** A client that answers within five seconds is never marked disconnected. */
  lemma {:induction false} PromptNeverMarked(t: Timers, es: seq<Event>, n: nat)
    requires n <= |es| && Prompt(t, es) && !t.waiting && !t.disconnected
    ensures !Run(t, es[..n]).disconnected
  {
    if n > 0 {
      PromptNeverMarked(t, es, n - 1);
      RunStep(t, es, n - 1);
      var before := Run(t, es[..n - 1]);
      if before.waiting {
        var i := WaitingSincePing(t, es, n - 1);
        assert !(es[n - 1].at > es[i].at + 5);
      }
    } else {
      assert es[..0] == [];
    }
  }

  /** Nor is it cut off, as long as no check finds it silent for more than two minutes. */
  lemma {:induction false} PromptStaysOpen(t: Timers, es: seq<Event>, n: nat)
    requires n <= |es| && Prompt(t, es) && t.open && !t.waiting && !t.disconnected
    requires forall k :: 0 <= k < n && es[k].CheckTick? ==> es[k].at - Run(t, es[..k]).lastActivity <= 120
    ensures Run(t, es[..n]).open && !Run(t, es[..n]).disconnected
  {
    PromptNeverMarked(t, es, n);
    if n > 0 {
      PromptStaysOpen(t, es, n - 1);
      RunStep(t, es, n - 1);
      var before := Run(t, es[..n - 1]);
      if before.waiting {
        var i := WaitingSincePing(t, es, n - 1);
        assert !(es[n - 1].at > es[i].at + 5);
      }
    } else {
      assert es[..0] == [];
    }
  }

  /** The checker runs at least every five seconds: each window of that length that the run covers has a tick. */
  ghost predicate CheckedEveryFive(es: seq<Event>, from: int, until: int) {
    forall x {:trigger CheckedIn(es, x)} :: from <= x && x + 5 <= until ==> CheckedIn(es, x)
  }

  ghost predicate CheckedIn(es: seq<Event>, x: int) {
    exists j :: 0 <= j < |es| && es[j].CheckTick? && x < es[j].at <= x + 5
  }

  ghost predicate Marked(s: Timers, ping: int) {
    s.disconnected && !s.open && ping + 5 < s.disconnectTime <= ping + 10
  }

  /** Up to the first check that is more than five seconds after the PING, the client stays open; from it on, marked. */
  lemma {:induction false} SilentStates(t: Timers, es: seq<Event>, i: int, j: int, n: int)
    requires InOrder(t, es) && Pings(t, es, i) && i < n <= |es|
    requires forall k :: i < k < |es| ==> !es[k].Pong? && !es[k].Message?
    requires es[i].at - Run(t, es[..i]).lastActivity <= 110
    requires i < j < |es| && es[j].CheckTick? && es[i].at + 5 < es[j].at <= es[i].at + 10
    ensures var s := Run(t, es[..n]);
            && s.waiting && s.lastPing == es[i].at && s.authenticated
            && s.lastActivity == Run(t, es[..i]).lastActivity
            && ((n <= j && s.open && !s.disconnected) || Marked(s, es[i].at))
    decreases n
  {
    RunStep(t, es, n - 1);
    if n > i + 1 {
      SilentStates(t, es, i, j, n - 1);
    }
  }

  /** A client that falls silent after a PING is marked disconnected, with a disconnect time at most ten seconds
      after that PING, unless it was heard of so long ago that it is closed as inactive before. */
  lemma SilentIsMarked(t: Timers, es: seq<Event>, i: int)
    requires InOrder(t, es) && Pings(t, es, i)
    requires forall k :: i < k < |es| ==> !es[k].Pong? && !es[k].Message?
    requires es[i].at - Run(t, es[..i]).lastActivity <= 110
    requires CheckedEveryFive(es, es[i].at, es[i].at + 10)
    ensures Marked(Run(t, es), es[i].at)
  {
    assert CheckedIn(es, es[i].at + 5);
    var j :| 0 <= j < |es| && es[j].CheckTick? && es[i].at + 5 < es[j].at <= es[i].at + 5 + 5;
    assert i < j;
    SilentStates(t, es, i, j, |es|);
    assert es[..|es|] == es;
  }

  // ---- the PING thread is on time ----

  /** The PING thread wakes up every second or two, and its PINGs can be sent. */
  ghost predicate PingedEveryTwo(es: seq<Event>, from: int, until: int) {
    forall x {:trigger TickedIn(es, x)} :: from <= x && x + 2 <= until ==> TickedIn(es, x)
  }

  ghost predicate TickedIn(es: seq<Event>, x: int) {
    exists j :: 0 <= j < |es| && es[j].PingTick? && es[j].sent && x < es[j].at <= x + 2
  }

  /** A record that is still open was open, and the last PONG and the last activity only move forward. */
  lemma {:induction false} RunForward(t: Timers, es: seq<Event>, m: nat, n: nat)
    requires InOrder(t, es) && m <= n <= |es|
    ensures var s, r := Run(t, es[..m]), Run(t, es[..n]);
            && s.lastPong <= r.lastPong && s.lastActivity <= r.lastActivity && s.authenticated == r.authenticated
            && (r.open ==> s.open) && (s.disconnected ==> r.disconnected)
    decreases n
  {
    if m < n {
      RunForward(t, es, m, n - 1);
      RunStep(t, es, n - 1);
      NotAhead(t, es, n - 1);
    }
  }

  /** A tick that finds a PING due leaves the client waiting until it answers. */
  lemma TickLeavesWaiting(t: Timers, es: seq<Event>, j: int, n: nat)
    requires !t.waiting && 0 <= j < n <= |es| && es[j].PingTick? && es[j].sent && NoPongBetween(es, j, n)
    requires var s := Run(t, es[..j]); s.waiting || PingDue(s, es[j].at)
    ensures Run(t, es[..n]).waiting
  {
    if Run(t, es[..j]).waiting {
      var i := WaitingSincePing(t, es, j);
      StillWaiting(t, es, i, n);
    } else {
      StillWaiting(t, es, j, n);
    }
  }

  /** A PING comes at most six seconds after the last PONG, or two seconds after the thread has come to the client. */
  lemma PingIsSoon(t: Timers, es: seq<Event>, from: int, i: int)
    requires InOrder(t, es) && !t.waiting && Pings(t, es, i) && PingedEveryTwo(es, from, es[i].at)
    ensures es[i].at <= Run(t, es[..i]).lastPong + 6 || es[i].at <= from + 2
  {
    var pong := Run(t, es[..i]).lastPong;
    var x := if pong + 4 >= from then pong + 4 else from;
    if es[i].at > x + 2 {
      assert TickedIn(es, x);
      var j :| 0 <= j < |es| && es[j].PingTick? && es[j].sent && x < es[j].at <= x + 2;
      assert j < i;
      RunForward(t, es, j, i);
      forall k | j < k < i ensures !es[k].Pong? {
        if es[k].Pong? {
          LastPongAt(t, es, k, i);
        }
      }
      TickLeavesWaiting(t, es, j, i);
    }
  }

  /** When both threads are on time, a client that falls silent after a PING is marked within ten seconds of it: the
      run begins with a message of the client, such as HELLO, and no PING finds it nearly inactive. */
  lemma SilentIsMarkedInTime(t: Timers, es: seq<Event>, i: int)
    requires InOrder(t, es) && !t.waiting && t.lastPong <= t.lastActivity && Pings(t, es, i)
    requires PingedEveryTwo(es, t.lastActivity, es[i].at) && CheckedEveryFive(es, es[i].at, es[i].at + 10)
    requires forall k :: i < k < |es| ==> !es[k].Pong? && !es[k].Message?
    ensures Marked(Run(t, es), es[i].at)
  {
    PingIsSoon(t, es, t.lastActivity, i);
    ActiveSincePong(t, es, i);
    SilentIsMarked(t, es, i);
  }

  lemma {:induction false} ActiveSincePong(t: Timers, es: seq<Event>, n: nat)
    requires InOrder(t, es) && t.lastPong <= t.lastActivity && n <= |es|
    ensures var s := Run(t, es[..n]); s.lastPong <= s.lastActivity && t.lastActivity <= s.lastActivity
  {
    if n > 0 {
      RunStep(t, es, n - 1);
      ActiveSincePong(t, es, n - 1);
      NotAhead(t, es, n - 1);
    } else {
      assert es[..0] == [];
    }
  }

  /** How long ago a client that answers in time has been heard of, while the PING thread is on time. */
  lemma HeardLately(t: Timers, es: seq<Event>, n: nat)
    requires InOrder(t, es) && Prompt(t, es) && n < |es| && PingedEveryTwo(es, t.lastActivity, es[n].at)
    requires t.authenticated && !t.waiting && t.lastPong <= t.lastActivity
    requires Run(t, es[..n]).open && !Run(t, es[..n]).disconnected
    ensures es[n].at - Run(t, es[..n]).lastActivity <= 11
  {
    var s, at := Run(t, es[..n]), es[n].at;
    ActiveSincePong(t, es, n);
    if s.waiting {
      var i := WaitingSincePing(t, es, n);
      assert !(es[n].at > es[i].at + 5);
      EverySecond(es, t.lastActivity, es[i].at, at);
      PingIsSoon(t, es, t.lastActivity, i);
      RunForward(t, es, i, n);
      SinceStart(t, es, i);
    } else {
      NotDueLong(t, es, n);
    }
  }

  lemma EverySecond(es: seq<Event>, from: int, until: int, later: int)
    requires PingedEveryTwo(es, from, later) && until <= later
    ensures PingedEveryTwo(es, from, until)
  {
  }

  lemma {:induction false} SinceStart(t: Timers, es: seq<Event>, n: nat)
    requires n <= |es|
    ensures Run(t, es[..n]).authenticated == t.authenticated
  {
    if n > 0 {
      RunStep(t, es, n - 1);
      SinceStart(t, es, n - 1);
    } else {
      assert es[..0] == [];
    }
  }

  /** A client that owes no PONG gave its last one at most six seconds ago. */
  lemma NotDueLong(t: Timers, es: seq<Event>, n: nat)
    requires InOrder(t, es) && n < |es| && PingedEveryTwo(es, t.lastActivity, es[n].at)
    requires t.authenticated && !t.waiting && !Run(t, es[..n]).waiting
    requires Run(t, es[..n]).open && !Run(t, es[..n]).disconnected
    ensures es[n].at <= Run(t, es[..n]).lastPong + 6 || es[n].at <= t.lastActivity + 2
  {
    var pong := Run(t, es[..n]).lastPong;
    var x := if pong + 4 >= t.lastActivity then pong + 4 else t.lastActivity;
    if es[n].at > x + 2 {
      assert TickedIn(es, x);
      var j :| 0 <= j < |es| && es[j].PingTick? && es[j].sent && x < es[j].at <= x + 2;
      assert j < n;
      RunForward(t, es, j, n);
      SinceStart(t, es, j);
      forall k | j < k < n ensures !es[k].Pong? {
        if es[k].Pong? {
          LastPongAt(t, es, k, n);
        }
      }
      TickLeavesWaiting(t, es, j, n);
    }
  }

  /** With the PING thread on time, a client that answers within five seconds stays connected for good. */
  lemma {:induction false} PromptNeverCutOff(t: Timers, es: seq<Event>, n: nat)
    requires InOrder(t, es) && Prompt(t, es) && n <= |es|
    requires t.authenticated && t.open && !t.waiting && !t.disconnected && t.lastPong <= t.lastActivity
    requires forall k :: 0 <= k < n ==> PingedEveryTwo(es, t.lastActivity, es[k].at)
    ensures Run(t, es[..n]).open && !Run(t, es[..n]).disconnected
  {
    if n > 0 {
      PromptNeverCutOff(t, es, n - 1);
      HeardLately(t, es, n - 1);
      PromptNeverMarked(t, es, n);
      RunStep(t, es, n - 1);
      var before := Run(t, es[..n - 1]);
      if before.waiting {
        var i := WaitingSincePing(t, es, n - 1);
        assert !(es[n - 1].at > es[i].at + 5);
      }
    } else {
      assert es[..0] == [];
    }
  }

  // ---- the end ----

  /** A client that is marked and closed is at each instant either accepted for reconnect or evictable, never
      both; a client that was closed for inactivity alone is, as long as its record is unchanged, neither. */
  lemma AcceptedOrEvictable(t: Timers, now: int)
    requires !t.open
    ensures !(ReconnectAccepted(t, now) && Evictable(t, now))
    ensures t.disconnected ==> (ReconnectAccepted(t, now) <==> !Evictable(t, now))
    ensures !t.disconnected && now - t.lastActivity > 120 ==>
              !ReconnectAccepted(t, now) && !Evictable(t, now)
  {
  }

  /** Once evictable, always evictable: the checker never misses its chance. */
  lemma {:induction false} EvictableForGood(t: Timers, es: seq<Event>, now: int, later: int)
    requires Evictable(t, now) && now <= later
    ensures Evictable(Run(t, es), later)
  {
    if es != [] {
      EvictableForGood(t, es[..|es| - 1], now, later);
    }
  }

  /** The cleanup of client_handler_thread, which the end of the socket wakes up: None when the record is freed.
      playsOn says that two others remain in the game. */
  function OnWake(t: Timers, now: int, inGame: bool, playsOn: bool): Option<Timers> {
    if inGame then if playsOn then None else Some(t.(open := false, disconnected := true, disconnectTime := now))
    else if t.disconnected then Some(t)
    else None
  }

  ghost predicate MarkedClosed(t: Timers) {
    t.disconnected && !t.open
  }

  lemma {:induction false} ClosedWithMark(t: Timers, es: seq<Event>)
    requires t.disconnected ==> !t.open
    ensures Run(t, es).disconnected ==> !Run(t, es).open
    ensures MarkedClosed(t) ==> MarkedClosed(Run(t, es)) && Run(t, es).disconnectTime == t.disconnectTime
  {
    if es != [] {
      ClosedWithMark(t, es[..|es| - 1]);
    }
  }

  /** However a connection has ended, once its thread has woken up the record is gone, or it is from then on, at each
      instant, either accepted for reconnect or evictable. */
  lemma WokenIsSettled(t: Timers, before: seq<Event>, wake: int, inGame: bool, playsOn: bool, after: seq<Event>,
                       now: int)
    requires t.disconnected ==> !t.open
    ensures var r := OnWake(Run(t, before), wake, inGame, playsOn);
            r.Some? ==> (ReconnectAccepted(Run(r.value, after), now) <==> !Evictable(Run(r.value, after), now))
  {
    ClosedWithMark(t, before);
    var r := OnWake(Run(t, before), wake, inGame, playsOn);
    if r.Some? {
      ClosedWithMark(r.value, after);
    }
  }

  // ---- the passes over the client records ----

  /** What the two threads see of a record. */
  function TimersFrom(s: Standing, authenticated: bool): Timers {
    Timers(s.socket != -1, authenticated, s.marked, s.markedAt, s.waiting, s.lastPing, s.lastPong, s.lastActivity)
  }

  lemma TimersAre(c: Client)
    ensures TimersOf(c) == TimersFrom(StandingOf(c), c.state.AtLeastAuthenticated())
  {
  }

  ghost function TimersOf(c: Client): Timers
    reads c
  {
    Timers(c.socketFd != -1, c.state.AtLeastAuthenticated(), c.isDisconnected, c.disconnectTime,
           c.waitingForPong, c.lastPingTime, c.lastPongTime, c.lastActivity)
  }

  /** The loop of the PING thread; sends says for which clients send() succeeds. */
  method PingPass(clients: seq<Client>, now: int, sends: seq<bool>)
    requires |sends| == |clients| && forall i, j :: 0 <= i < j < |clients| ==> clients[i] != clients[j]
    requires forall i :: 0 <= i < |clients| ==> clients[i].socketFd >= -1
    modifies clients
    ensures forall i :: 0 <= i < |clients| ==>
              TimersOf(clients[i]) == OnPingTick(old(TimersOf(clients[i])), now, sends[i])
  {
    for i := 0 to |clients|
      invariant forall k :: 0 <= k < i ==> TimersOf(clients[k]) == OnPingTick(old(TimersOf(clients[k])), now, sends[k])
      invariant forall k :: i <= k < |clients| ==> unchanged(clients[k])
    {
      var client := clients[i];
      if client.state.AtLeastAuthenticated() && !client.isDisconnected && client.socketFd >= 0 {
        if !client.waitingForPong {
          var timeSincePong := now - client.lastPongTime;
          if timeSincePong >= PONG_WAIT_INTERVAL {
            if sends[i] {
              client.waitingForPong := true;
              client.lastPingTime := now;
            }
          }
        }
      }
    }
  }

  /** The checks of the timeout checker on one client; true when the client is to be evicted. Its decision to evict
      is made on what the record held before the pass. */
  method CheckClient(client: Client, now: int) returns (evict: bool)
    requires client.socketFd >= -1
    modifies client
    ensures TimersOf(client) == OnCheckTick(old(TimersOf(client)), now)
    ensures client.socketFd
         == if old(client.state).AtLeastAuthenticated()
               && ((client.waitingForPong && now - client.lastPingTime > 5) || now - client.lastActivity > 120)
            then -1 else old(client.socketFd)
    ensures client.isDisconnected <==>
            || old(client.isDisconnected)
            || (&& old(client.state).AtLeastAuthenticated() && old(client.socketFd) >= 0
                && client.waitingForPong && now - client.lastPingTime > 5)
    ensures evict <==> Evictable(old(TimersOf(client)), now)
    ensures client.room == old(client.room) && client.clientId == old(client.clientId)
    ensures client.state == old(client.state) && client.nickname == old(client.nickname)
    ensures client.invalidMessageCount == old(client.invalidMessageCount)
  {
    var socketFd, isDisconnected, disconnectTime := client.socketFd, client.isDisconnected, client.disconnectTime;
    if client.state.AtLeastAuthenticated() && socketFd >= 0 {
      if client.waitingForPong {
        var pingWaitTime := now - client.lastPingTime;
        if pingWaitTime > PONG_TIMEOUT {
          if !isDisconnected {
            client.isDisconnected := true;
            client.disconnectTime := now;
          }
          client.socketFd := -1;
          return false;
        }
      }
      var inactiveTime := now - client.lastActivity;
      if inactiveTime > INACTIVITY_TIMEOUT {
        client.socketFd := -1;
      }
    }
    return isDisconnected && socketFd == -1 && now - disconnectTime > RECONNECT_TIMEOUT;
  }

  /** handle_pong */
  method HandlePong(client: Client, now: int)
    modifies client`lastActivity, client`lastPongTime, client`waitingForPong
    ensures TimersOf(client) == OnPong(old(TimersOf(client)), now)
    ensures !client.waitingForPong && client.lastPongTime == now && client.lastActivity == now
  {
    client.lastActivity := now;
    client.lastPongTime := now;
    client.waitingForPong := false;
  }
}
