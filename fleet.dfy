/**
 * The connection orchestration of main.js: the admission queue, the
 * per-bot connection and retry state machine, the readiness check and the
 * fleet start/stop and roster operations.
 *
 * The program is single-threaded and event-driven. Every event handler runs
 * to completion, so each is modelled as one method on the shared state:
 * `Fleet` holds the module-level variables, `Bot` holds one bot's wrapper
 * record together with the variables of its `createBot` closure. Events
 * from the game library (spawn, connect, end, error) and timer firings are
 * inputs: the caller chooses which bot they happen to and when.
 */
module Orchestrator {
  import opened Optional
  import opened Backoff
  import opened Policy
  import Naming

  /** A port as `parseInt` leaves it; `None` stands for NaN. */
  type Port = Option<int>

  /**
   * One bot (main.js:75-226): the fields of `botWrapper` and the closure
   * variables `retryCount`, `retryDelay` and `bot`. `hasSession` says that
   * `connectFunction` has run at least once, so `bot` is set, the wrapper's
   * `quit` and `chat` do something, and session events can arrive.
   */
  class Bot {
    const username: string
    const isMainListener: bool
    const host: string
    const port: Port

    var isOnline: bool
    var isConnected: bool
    var isFirstSpawn: bool
    var manualDisconnect: bool
    var retryCount: nat
    var retryDelay: nat
    /** Reconnects scheduled since the last spawn; `retryDelay` is `Ladder(drops)`. */
    ghost var drops: nat
    var hasSession: bool
    /** The connection timeout set by the current attempt is still pending. */
    var timeoutArmed: bool
    /** Connection timeouts set by earlier attempts: nothing clears them. */
    var staleTimeouts: nat
    /** Retry and reconnect timers set and not yet fired. */
    var pendingRetries: nat
    /** Messages handed to the session by `chat`, oldest first. */
    var sent: seq<string>

    ghost predicate Valid()
      reads this
    {
      && (isOnline ==> isConnected && !isFirstSpawn)
      && (isConnected ==> hasSession)
      && (timeoutArmed ==> hasSession)
      && (isFirstSpawn ==> retryCount < MaxRetryAttempts)
      && retryCount <= MaxRetryAttempts
      && retryDelay == Ladder(drops)
      && (!hasSession ==> isFirstSpawn && !manualDisconnect && pendingRetries == 0 && staleTimeouts == 0)
    }

    /** Waiting for its first connection, with nothing counted yet: what `createBot` returns. */
    predicate Fresh()
      reads this
    {
      && isFirstSpawn && !isOnline && !isConnected && !manualDisconnect
      && retryCount == 0 && retryDelay == InitialRetryDelay
      && staleTimeouts == 0 && pendingRetries == 0 && sent == []
    }

    function RetryStateOf(): RetryState
      reads this
    {
      RetryState(isFirstSpawn, manualDisconnect, retryCount)
    }

    /** `createBot` (main.js:78-90): a bot waiting for its first connection. */
    constructor (username: string, isMainListener: bool, host: string, port: Port)
      ensures Valid()
      ensures this.username == username && this.isMainListener == isMainListener
      ensures this.host == host && this.port == port
      ensures isFirstSpawn && !isOnline && !isConnected && !manualDisconnect
      ensures retryCount == 0 && retryDelay == InitialRetryDelay && drops == 0
      ensures !hasSession && !timeoutArmed && staleTimeouts == 0 && pendingRetries == 0 && sent == []
    {
      this.username := username;
      this.isMainListener := isMainListener;
      this.host := host;
      this.port := port;
      isOnline, isConnected, isFirstSpawn, manualDisconnect := false, false, true, false;
      retryCount, retryDelay, drops := 0, InitialRetryDelay, 0;
      hasSession, timeoutArmed, staleTimeouts, pendingRetries := false, false, 0, 0;
      sent := [];
    }

    /** Every field but `manualDisconnect` and `sent` is as it was. */
    twostate predicate SameState()
      reads this
    {
      && isOnline == old(isOnline) && isConnected == old(isConnected)
      && isFirstSpawn == old(isFirstSpawn) && retryCount == old(retryCount)
      && retryDelay == old(retryDelay) && drops == old(drops) && hasSession == old(hasSession)
      && timeoutArmed == old(timeoutArmed) && staleTimeouts == old(staleTimeouts)
      && pendingRetries == old(pendingRetries)
    }

    /** The state `Quit` leaves. */
    twostate predicate Quitted()
      reads this
    {
      SameState() && sent == old(sent) && manualDisconnect == (old(manualDisconnect) || hasSession)
    }

    /** The state `Chat(message)` leaves. */
    twostate predicate Said(message: string)
      reads this
    {
      && SameState() && manualDisconnect == old(manualDisconnect)
      && sent == if hasSession && isOnline then old(sent) + [message] else old(sent)
    }

    /** The state `Connect` leaves: a new session with its timeout set, all else kept. */
    twostate predicate SessionOpened()
      reads this
    {
      && hasSession && timeoutArmed
      && staleTimeouts == old(staleTimeouts) + (if old(timeoutArmed) then 1 else 0)
      && isOnline == old(isOnline) && isConnected == old(isConnected)
      && isFirstSpawn == old(isFirstSpawn) && manualDisconnect == old(manualDisconnect)
      && retryCount == old(retryCount) && retryDelay == old(retryDelay) && drops == old(drops)
      && pendingRetries == old(pendingRetries) && sent == old(sent)
    }

    /**
     * `connectFunction` (main.js:92-116): drop the previous session, if any,
     * and open a new one with a fresh connection timeout. The previous
     * attempt's timeout is not cleared and stays pending.
     */
    method Connect()
      requires Valid()
      modifies this`hasSession, this`timeoutArmed, this`staleTimeouts
      ensures Valid() && SessionOpened()
    {
      if timeoutArmed {
        staleTimeouts := staleTimeouts + 1;
      }
      hasSession := true;
      timeoutArmed := true;
    }

    /** `clearTimeout(connectionTimeout)` of the current attempt. */
    method ClearTimeout()
      requires Valid()
      modifies this`timeoutArmed
      ensures Valid() && !timeoutArmed
    {
      timeoutArmed := false;
    }

    /**
     * The bot's own part of the `spawn` handler (main.js:119-126, 133-134,
     * 137): clear the timeout, reset the retry counters, mark the bot online
     * and clear the manual-disconnect flag. Returns whether this was its
     * first spawn. The source clears the flag after the fleet-level steps of
     * a first spawn; those steps never read it, so the order is immaterial.
     */
    method Spawned() returns (first: bool)
      requires Valid() && hasSession
      modifies this`timeoutArmed, this`retryCount, this`retryDelay, this`drops
      modifies this`isFirstSpawn, this`isOnline, this`isConnected, this`manualDisconnect
      ensures Valid()
      ensures first == old(isFirstSpawn)
      ensures isOnline && isConnected && !isFirstSpawn && !timeoutArmed && !manualDisconnect
      ensures retryCount == 0 && retryDelay == InitialRetryDelay && drops == 0
    {
      ClearTimeout();
      retryCount := 0;
      retryDelay := InitialRetryDelay;
      drops := 0;
      first := isFirstSpawn;
      if isFirstSpawn {
        isFirstSpawn := false;
        isOnline := true;
        isConnected := true;
      } else {
        isOnline := true;
        isConnected := true;
      }
      manualDisconnect := false;
    }

    /**
     * The bot's own part of `handleConnectionFailure` (main.js:191-199,
     * 203-216): go offline and take one `OnFailure` step, setting a retry
     * timer when that step schedules one.
     */
    method CountFailure() returns (outcome: FailureOutcome)
      requires Valid() && hasSession
      modifies this`isOnline, this`isConnected, this`retryCount, this`isFirstSpawn, this`pendingRetries
      ensures Valid()
      ensures !isOnline && !isConnected
      ensures Step(outcome, RetryStateOf()) == OnFailure(old(RetryStateOf()))
      ensures pendingRetries == old(pendingRetries) + (if outcome.RetryScheduled? then 1 else 0)
    {
      isOnline := false;
      isConnected := false;
      outcome := Ignored;
      if isFirstSpawn && !manualDisconnect {
        retryCount := retryCount + 1;
        if retryCount >= MaxRetryAttempts {
          isFirstSpawn := false;
          outcome := GivenUp;
        } else {
          var delay := FirstRetryDelay(retryCount);
          pendingRetries := pendingRetries + 1;
          outcome := RetryScheduled(delay);
        }
      }
    }

    /**
     * The wrapper's `quit` (main.js:84, 178-181): a no-op until the first
     * connection attempt; afterwards it records the manual disconnect and
     * closes the session (whose `end` event then arrives as an input).
     */
    method Quit()
      requires Valid()
      modifies this`manualDisconnect
      ensures Valid() && Quitted()
    {
      if hasSession {
        manualDisconnect := true;
      }
    }

    /** The wrapper's `chat` (main.js:85, 183-187): only an online session sends. */
    method Chat(message: string)
      requires Valid()
      modifies this`sent
      ensures Valid() && Said(message)
    {
      if hasSession && isOnline {
        sent := sent + [message];
      }
    }
  }

  /** The `createdCount` variable of one `startBots` call (main.js:277). */
  class StartBatch {
    const count: nat
    var createdCount: nat

    constructor (count: nat)
      ensures this.count == count && createdCount == 0
    {
      this.count := count;
      createdCount := 0;
    }
  }

  /** A bot creation that `startBots` scheduled (main.js:283-300). */
  datatype Creation = Creation(username: string, isMainListener: bool, host: string, port: Port, batch: StartBatch)

  /** The creations `startBots(count, prefix, host, port)` schedules for its first `n` indexes. */
  function Schedule(prefix: string, n: nat, host: string, port: Port, batch: StartBatch): (r: seq<Creation>)
    ensures |r| == n
    ensures forall i :: 0 <= i < n ==>
              r[i] == Creation(Naming.Username(prefix, i), i == 0, host, port, batch)
  {
    if n == 0 then []
    else Schedule(prefix, n - 1, host, port, batch)
         + [Creation(Naming.Username(prefix, n - 1), n - 1 == 0, host, port, batch)]
  }

  /** One more creation timer extends the schedule by the next index. */
  lemma ScheduleSnoc(prefix: string, n: nat, host: string, port: Port, batch: StartBatch)
    ensures Schedule(prefix, n + 1, host, port, batch)
            == Schedule(prefix, n, host, port, batch) + [Creation(Naming.Username(prefix, n), n == 0, host, port, batch)]
  {
  }

  /**
   * A start of at most 100 bots schedules pairwise distinct names of the
   * form prefix + three digits, and makes only the first bot the main
   * listener.
   */
  lemma ScheduleNames(prefix: string, n: nat, host: string, port: Port, batch: StartBatch)
    requires n <= 100
    ensures var r := Schedule(prefix, n, host, port, batch);
            && (forall i :: 0 <= i < n ==> |r[i].username| == |prefix| + 3 && (r[i].isMainListener <==> i == 0))
            && (forall i, j :: 0 <= i < j < n ==> r[i].username != r[j].username)
  {
    Naming.FleetNames(prefix, n);
  }

  /** `bots.filter(bot => !bot.isFirstSpawn).length` (main.js:232). */
  function CountSettled(bs: seq<Bot>): (n: nat)
    reads bs
    ensures n <= |bs|
    decreases |bs|
  {
    if bs == [] then 0
    else CountSettled(bs[..|bs| - 1]) + (if bs[|bs| - 1].isFirstSpawn then 0 else 1)
  }

  /** `bots.filter(bot => bot.isConnected).length` (main.js:241). */
  function CountConnected(bs: seq<Bot>): (n: nat)
    reads bs
    ensures n <= |bs|
    decreases |bs|
  {
    if bs == [] then 0
    else CountConnected(bs[..|bs| - 1]) + (if bs[|bs| - 1].isConnected then 1 else 0)
  }

  /** Every bot is counted as settled exactly when none is still first-pending. */
  lemma {:induction false} AllSettledIff(bs: seq<Bot>)
    ensures CountSettled(bs) == |bs| <==> forall b :: b in bs ==> !b.isFirstSpawn
    decreases |bs|
  {
    if bs != [] {
      var init := bs[..|bs| - 1];
      AllSettledIff(init);
      assert forall b :: b in bs <==> b in init || b == bs[|bs| - 1];
    }
  }

  /** No bot is counted as connected exactly when none is connected. */
  lemma {:induction false} NoneConnectedIff(bs: seq<Bot>)
    ensures CountConnected(bs) == 0 <==> forall b :: b in bs ==> !b.isConnected
    decreases |bs|
  {
    if bs != [] {
      var init := bs[..|bs| - 1];
      NoneConnectedIff(init);
      assert forall b :: b in bs <==> b in init || b == bs[|bs| - 1];
    }
  }

  /** `bots.find(bot => bot.username === name)` as an index: the first match, or -1. */
  function FindByName(bs: seq<Bot>, name: string): (i: int)
    ensures -1 <= i < |bs|
    ensures i >= 0 ==> bs[i].username == name && forall j :: 0 <= j < i ==> bs[j].username != name
    ensures i == -1 <==> forall j :: 0 <= j < |bs| ==> bs[j].username != name
    decreases |bs|
  {
    if bs == [] then -1
    else
      var i := FindByName(bs[..|bs| - 1], name);
      if i >= 0 then i else if bs[|bs| - 1].username == name then |bs| - 1 else -1
  }

  /** `bots.indexOf(bot)`: the first position holding this very object, or -1. */
  function IndexOf(bs: seq<Bot>, b: Bot): (i: int)
    ensures -1 <= i < |bs|
    ensures i >= 0 ==> bs[i] == b && forall j :: 0 <= j < i ==> bs[j] != b
    ensures i == -1 <==> b !in bs
    decreases |bs|
  {
    if bs == [] then -1
    else
      var i := IndexOf(bs[..|bs| - 1], b);
      if i >= 0 then i else if bs[|bs| - 1] == b then |bs| - 1 else -1
  }

  /** The names of the online bots, in roster order. */
  function OnlineNames(bs: seq<Bot>): (names: seq<string>)
    reads bs
    ensures |names| <= |bs|
    decreases |bs|
  {
    if bs == [] then []
    else OnlineNames(bs[..|bs| - 1]) + (if bs[|bs| - 1].isOnline then [bs[|bs| - 1].username] else [])
  }

  /** Every online bot is listed, and every listed name is that of an online bot. */
  lemma {:induction false} OnlineNamesExact(bs: seq<Bot>)
    ensures forall j :: 0 <= j < |bs| && bs[j].isOnline ==> bs[j].username in OnlineNames(bs)
    ensures forall n :: n in OnlineNames(bs) ==> exists j :: 0 <= j < |bs| && bs[j].isOnline && bs[j].username == n
    decreases |bs|
  {
    if bs != [] {
      var init := bs[..|bs| - 1];
      OnlineNamesExact(init);
      forall n | n in OnlineNames(bs)
        ensures exists j :: 0 <= j < |bs| && bs[j].isOnline && bs[j].username == n
      {
        if n in OnlineNames(init) {
          var j :| 0 <= j < |init| && init[j].isOnline && init[j].username == n;
          assert bs[j] == init[j];
        } else {
          assert bs[|bs| - 1].isOnline && bs[|bs| - 1].username == n;
        }
      }
      forall j | 0 <= j < |bs| && bs[j].isOnline
        ensures bs[j].username in OnlineNames(bs)
      {
        if j < |bs| - 1 {
          assert init[j] == bs[j];
        }
      }
    }
  }

  /** The bot a name-based command acts on: the first with that name, if any. */
  function Named(bs: seq<Bot>, name: string): (named: set<Bot>)
  {
    var i := FindByName(bs, name);
    if i >= 0 then {bs[i]} else {}
  }

  /** What `restore <name>` answers before its timer is set. */
  datatype RestoreReply = EmptyName | NotFound | Scheduled

  /** The module-level state of main.js:31-40, plus the timers it has pending. */
  class Fleet {
    var bots: seq<Bot>
    var isStartingBots: bool
    var botServiceRunning: bool
    var allBotsConnected: bool
    var maintenanceMode: bool
    var serverIP: string
    var serverPort: Port
    var connectionQueue: seq<Bot>
    var activeConnections: int
    /** Bot creations scheduled by `startBots`, in the order they were scheduled. */
    var pendingCreations: seq<Creation>
    /** Bots whose `restore` is waiting out its delay, oldest first. */
    var pendingRestores: seq<Bot>

    ghost predicate Valid()
      reads this, bots, connectionQueue
    {
      && activeConnections <= MaxConcurrentConnections
      && (maintenanceMode ==> botServiceRunning)
      && (allBotsConnected ==> !maintenanceMode)
      && (forall b :: b in bots ==> b.Valid())
      && (forall i, j :: 0 <= i < j < |bots| ==> bots[i] != bots[j])
      && (forall b :: b in connectionQueue ==> b.Valid() && !b.hasSession)
      && (forall i, j :: 0 <= i < j < |connectionQueue| ==> connectionQueue[i] != connectionQueue[j])
    }

    function CurrentFlags(): Flags
      reads this
    {
      Flags(isStartingBots, botServiceRunning, allBotsConnected, maintenanceMode)
    }

    function QueueHead(): set<Bot>
      reads this
    {
      if connectionQueue == [] then {} else {connectionQueue[0]}
    }

    /**
     * The queue and counter are what `processConnectionQueue` leaves when
     * run on queue `q0` and counter `a0`: the head is admitted exactly when
     * the queue is non-empty and fewer than the maximum are in flight.
     */
    ghost predicate PumpedFrom(q0: seq<Bot>, a0: int)
      reads this
    {
      if |q0| > 0 && a0 < MaxConcurrentConnections
      then connectionQueue == q0[1..] && activeConnections == a0 + 1
      else connectionQueue == q0 && activeConnections == a0
    }

    /**
     * No bot waits in the queue while an admission slot is free. Every
     * handler keeps this; see `OnRestoreTimer` for the one that does not.
     */
    predicate Saturated()
      reads this
    {
      connectionQueue == [] || activeConnections >= MaxConcurrentConnections
    }

    /** The fleet as the program starts: no bots, every flag false. */
    constructor (serverIP: string, serverPort: Port)
      ensures Valid()
      ensures bots == [] && connectionQueue == [] && activeConnections == 0
      ensures CurrentFlags() == Flags(false, false, false, false)
      ensures this.serverIP == serverIP && this.serverPort == serverPort
      ensures pendingCreations == [] && pendingRestores == []
    {
      bots := [];
      isStartingBots, botServiceRunning, allBotsConnected, maintenanceMode := false, false, false, false;
      this.serverIP := serverIP;
      this.serverPort := serverPort;
      connectionQueue := [];
      activeConnections := 0;
      pendingCreations := [];
      pendingRestores := [];
    }

    /** `processConnectionQueue` (main.js:65-72). */
    method ProcessConnectionQueue()
      requires Valid()
      modifies this`connectionQueue, this`activeConnections, QueueHead()
      ensures Valid()
      ensures PumpedFrom(old(connectionQueue), old(activeConnections))
      ensures old(|connectionQueue| > 0 && activeConnections < MaxConcurrentConnections) ==>
                old(connectionQueue[0]).SessionOpened()
      ensures old(|connectionQueue| > 0 && activeConnections >= MaxConcurrentConnections) ==>
                unchanged(old(connectionQueue[0]))
      ensures old(Saturated()) ==> Saturated()
    {
      if |connectionQueue| == 0 || activeConnections >= MaxConcurrentConnections {
        return;
      }
      var next := connectionQueue[0];
      connectionQueue := connectionQueue[1..];
      activeConnections := activeConnections + 1;
      next.Connect();
    }

    /** `checkAllBotsConnected` (main.js:229-254). */
    method CheckAllBotsConnected()
      requires Valid()
      modifies this`isStartingBots, this`botServiceRunning, this`allBotsConnected, this`maintenanceMode
      ensures Valid()
      ensures CurrentFlags() == Readiness(old(CurrentFlags()), |bots|, CountSettled(bots), CountConnected(bots))
    {
      if |bots| == 0 {
        return;
      }
      var firstSpawnedCount := CountSettled(bots);
      var totalCount := |bots|;
      if firstSpawnedCount == totalCount {
        if !allBotsConnected {
          allBotsConnected := true;
          maintenanceMode := false;
          isStartingBots := false;
          var connectedCount := CountConnected(bots);
          if connectedCount == 0 {
            botServiceRunning := false;
          }
        }
      }
    }

    /**
     * The tail shared by a first spawn and a given-up bot (main.js:128-130,
     * 200-202): give back one admission slot, admit the next queued bot,
     * check readiness.
     */
    method ReleaseSlot()
      requires Valid()
      modifies this`connectionQueue, this`activeConnections, QueueHead()
      modifies this`isStartingBots, this`botServiceRunning, this`allBotsConnected, this`maintenanceMode
      ensures Valid()
      ensures PumpedFrom(old(connectionQueue), old(activeConnections) - 1)
      ensures CurrentFlags() == Readiness(old(CurrentFlags()), |bots|, CountSettled(bots), CountConnected(bots))
      ensures old(connectionQueue) != [] ==> old(connectionQueue[0]).SessionOpened()
      ensures old(Saturated()) ==> Saturated()
    {
      activeConnections := activeConnections - 1;
      ProcessConnectionQueue();
      CheckAllBotsConnected();
    }

    /** The `connect` event (main.js:140-146). */
    method OnConnect(b: Bot)
      requires Valid() && b.Valid() && b.hasSession
      modifies b`timeoutArmed, b`isConnected
      ensures Valid() && b.Valid()
      ensures b.isConnected && !b.timeoutArmed
    {
      b.ClearTimeout();
      b.isConnected := true;
    }

    /**
     * The `spawn` event (main.js:118-138). The first spawn settles the bot
     * as connected, gives back its admission slot, admits the next queued
     * bot and checks readiness; a later spawn only marks the bot online.
     * Either way the retry counters and the manual-disconnect flag reset.
     */
    method OnSpawn(b: Bot)
      requires Valid() && b.Valid() && b.hasSession
      modifies b`timeoutArmed, b`retryCount, b`retryDelay, b`drops
      modifies b`isFirstSpawn, b`isOnline, b`isConnected, b`manualDisconnect
      modifies this`connectionQueue, this`activeConnections, QueueHead()
      modifies this`isStartingBots, this`botServiceRunning, this`allBotsConnected, this`maintenanceMode
      ensures Valid() && b.Valid()
      ensures b.isOnline && b.isConnected && !b.isFirstSpawn && !b.manualDisconnect
      ensures b.retryCount == 0 && b.retryDelay == InitialRetryDelay && b.drops == 0
      ensures b.hasSession && !b.timeoutArmed && b.staleTimeouts == old(b.staleTimeouts)
      ensures b.pendingRetries == old(b.pendingRetries) && b.sent == old(b.sent)
      ensures old(b.isFirstSpawn) ==>
                && PumpedFrom(old(connectionQueue), old(activeConnections) - 1)
                && CurrentFlags() == Readiness(old(CurrentFlags()), |bots|, CountSettled(bots), CountConnected(bots))
      ensures old(b.isFirstSpawn) && old(connectionQueue) != [] ==> old(connectionQueue[0]).SessionOpened()
      ensures !old(b.isFirstSpawn) ==>
                && connectionQueue == old(connectionQueue) && activeConnections == old(activeConnections)
                && CurrentFlags() == old(CurrentFlags())
      ensures !old(b.isFirstSpawn) && old(connectionQueue) != [] ==> unchanged(old(connectionQueue[0]))
      ensures old(Saturated()) ==> Saturated()
    {
      var first := b.Spawned();
      if first {
        ReleaseSlot();
      }
    }

    /**
     * The `end` event (main.js:148-161). A bot that has spawned before, was
     * not quit by hand and belongs to a running service schedules a
     * reconnect after its current delay, then grows the delay for next time.
     */
    method OnEnd(b: Bot) returns (reconnectAfter: Option<nat>)
      requires Valid() && b.Valid() && b.hasSession
      modifies b`isOnline, b`isConnected, b`retryDelay, b`drops, b`pendingRetries
      ensures Valid() && b.Valid()
      ensures !b.isOnline && !b.isConnected
      ensures if !b.manualDisconnect && !b.isFirstSpawn && botServiceRunning then
                && reconnectAfter == Some(old(b.retryDelay))
                && b.retryDelay == NextReconnectDelay(old(b.retryDelay))
                && b.drops == old(b.drops) + 1 && b.pendingRetries == old(b.pendingRetries) + 1
              else
                && reconnectAfter == None
                && b.retryDelay == old(b.retryDelay) && b.drops == old(b.drops)
                && b.pendingRetries == old(b.pendingRetries)
      ensures reconnectAfter.Some? ==>
                reconnectAfter.value == Ladder(old(b.drops))
                && old(b.retryDelay) <= b.retryDelay <= MaxRetryDelay
    {
      b.isOnline := false;
      b.isConnected := false;
      reconnectAfter := None;
      if !b.manualDisconnect && !b.isFirstSpawn && botServiceRunning {
        reconnectAfter := Some(b.retryDelay);
        b.pendingRetries := b.pendingRetries + 1;
        LadderBounds(b.drops);
        NextReconnectDelayGrows(b.retryDelay);
        b.retryDelay := NextReconnectDelay(b.retryDelay);
        b.drops := b.drops + 1;
      }
      assert b.Valid();
      assert b !in connectionQueue;
    }

    /**
     * What `handleConnectionFailure` leaves: the bot is offline, its retry
     * state has taken one `OnFailure` step, and a given-up bot has released
     * its admission slot, pumped the queue and triggered the readiness check.
     */
    twostate predicate FailureHandled(b: Bot, outcome: FailureOutcome)
      reads this, b, bots
    {
      && !b.isOnline && !b.isConnected
      && Step(outcome, b.RetryStateOf()) == OnFailure(old(b.RetryStateOf()))
      && b.retryDelay == old(b.retryDelay) && b.drops == old(b.drops)
      && b.hasSession == old(b.hasSession) && b.sent == old(b.sent)
      && b.pendingRetries == old(b.pendingRetries) + (if outcome.RetryScheduled? then 1 else 0)
      && if outcome.GivenUp? then
           && PumpedFrom(old(connectionQueue), old(activeConnections) - 1)
           && CurrentFlags() == Readiness(old(CurrentFlags()), |bots|, CountSettled(bots), CountConnected(bots))
         else
           && connectionQueue == old(connectionQueue) && activeConnections == old(activeConnections)
           && CurrentFlags() == old(CurrentFlags())
    }

    /** `handleConnectionFailure` (main.js:190-218). */
    method HandleConnectionFailure(b: Bot) returns (outcome: FailureOutcome)
      requires Valid() && b.Valid() && b.hasSession
      modifies b`isOnline, b`isConnected, b`retryCount, b`isFirstSpawn, b`pendingRetries
      modifies this`connectionQueue, this`activeConnections, QueueHead()
      modifies this`isStartingBots, this`botServiceRunning, this`allBotsConnected, this`maintenanceMode
      ensures Valid() && b.Valid()
      ensures FailureHandled(b, outcome)
      ensures b.timeoutArmed == old(b.timeoutArmed) && b.staleTimeouts == old(b.staleTimeouts)
      ensures outcome.GivenUp? && old(connectionQueue) != [] ==> old(connectionQueue[0]).SessionOpened()
      ensures !outcome.GivenUp? && old(connectionQueue) != [] ==> unchanged(old(connectionQueue[0]))
      ensures old(Saturated()) ==> Saturated()
    {
      outcome := b.CountFailure();
      if outcome.GivenUp? {
        ReleaseSlot();
      }
    }

    /** The `error` event (main.js:163-169). */
    method OnError(b: Bot) returns (outcome: FailureOutcome)
      requires Valid() && b.Valid() && b.hasSession
      modifies b`isOnline, b`isConnected, b`retryCount, b`isFirstSpawn, b`pendingRetries, b`timeoutArmed
      modifies this`connectionQueue, this`activeConnections, QueueHead()
      modifies this`isStartingBots, this`botServiceRunning, this`allBotsConnected, this`maintenanceMode
      ensures Valid() && b.Valid()
      ensures FailureHandled(b, outcome)
      ensures !b.timeoutArmed && b.staleTimeouts == old(b.staleTimeouts)
      ensures outcome.GivenUp? && old(connectionQueue) != [] ==> old(connectionQueue[0]).SessionOpened()
      ensures !outcome.GivenUp? && old(connectionQueue) != [] ==> unchanged(old(connectionQueue[0]))
      ensures old(Saturated()) ==> Saturated()
    {
      b.ClearTimeout();
      b.isOnline := false;
      b.isConnected := false;
      assert b.Valid() && b !in connectionQueue;
      outcome := HandleConnectionFailure(b);
    }

    /**
     * A connection timeout firing (main.js:111-116): the current attempt's
     * timeout, or (`stale`) one left behind by an earlier attempt. It counts
     * as a failure only while the bot is still first-pending.
     */
    method OnTimeout(b: Bot, stale: bool) returns (outcome: FailureOutcome)
      requires Valid() && b.Valid()
      requires if stale then b.staleTimeouts > 0 else b.timeoutArmed
      modifies b`isOnline, b`isConnected, b`retryCount, b`isFirstSpawn, b`pendingRetries
      modifies b`timeoutArmed, b`staleTimeouts
      modifies this`connectionQueue, this`activeConnections, QueueHead()
      modifies this`isStartingBots, this`botServiceRunning, this`allBotsConnected, this`maintenanceMode
      ensures Valid() && b.Valid()
      ensures stale ==> b.staleTimeouts == old(b.staleTimeouts) - 1 && b.timeoutArmed == old(b.timeoutArmed)
      ensures !stale ==> !b.timeoutArmed && b.staleTimeouts == old(b.staleTimeouts)
      ensures old(b.isFirstSpawn) ==> FailureHandled(b, outcome)
      ensures !old(b.isFirstSpawn) ==>
                && outcome == Ignored && b.RetryStateOf() == old(b.RetryStateOf())
                && b.isOnline == old(b.isOnline) && b.isConnected == old(b.isConnected)
                && b.pendingRetries == old(b.pendingRetries)
                && connectionQueue == old(connectionQueue) && activeConnections == old(activeConnections)
                && CurrentFlags() == old(CurrentFlags())
      ensures outcome.GivenUp? && old(connectionQueue) != [] ==> old(connectionQueue[0]).SessionOpened()
      ensures !outcome.GivenUp? && old(connectionQueue) != [] ==> unchanged(old(connectionQueue[0]))
      ensures old(Saturated()) ==> Saturated()
    {
      if stale {
        b.staleTimeouts := b.staleTimeouts - 1;
      } else {
        b.timeoutArmed := false;
      }
      outcome := Ignored;
      if b.isFirstSpawn {
        outcome := HandleConnectionFailure(b);
      }
    }

    /**
     * A retry or reconnect timer firing (main.js:154-158, 211-215): both
     * reconnect only if the service still runs and the bot was not quit.
     */
    method OnRetryTimer(b: Bot)
      requires Valid() && b.Valid() && b.pendingRetries > 0
      modifies b`pendingRetries, b`hasSession, b`timeoutArmed, b`staleTimeouts
      ensures Valid() && b.Valid()
      ensures b.pendingRetries == old(b.pendingRetries) - 1
      ensures if botServiceRunning && !b.manualDisconnect then
                && b.hasSession && b.timeoutArmed
                && b.staleTimeouts == old(b.staleTimeouts) + (if old(b.timeoutArmed) then 1 else 0)
              else
                && b.hasSession == old(b.hasSession)
                && b.timeoutArmed == old(b.timeoutArmed) && b.staleTimeouts == old(b.staleTimeouts)
    {
      b.pendingRetries := b.pendingRetries - 1;
      if botServiceRunning && !b.manualDisconnect {
        b.Connect();
      }
    }

    /** `bots.forEach(bot => bot.quit())` (main.js:274, 316). */
    method QuitAll()
      requires Valid()
      modifies bots
      ensures Valid()
      ensures forall b :: b in bots ==> b.Quitted()
    {
      var i := 0;
      while i < |bots|
        invariant 0 <= i <= |bots|
        invariant Valid()
        invariant forall j :: 0 <= j < i ==> bots[j].Quitted()
        invariant forall j :: i <= j < |bots| ==> unchanged(bots[j])
      {
        bots[i].Quit();
        i := i + 1;
      }
    }

    /**
     * `startBots` (main.js:257-302). Refused while a fleet is starting or
     * running. Otherwise it enters the starting phase and maintenance mode,
     * resets the admission queue, quits and forgets the old roster, and
     * schedules one creation per index with names `prefix + pad3(i + 1)`.
     */
    method StartBots(count: nat, prefix: string, server: string, port: Port) returns (started: bool, batch: StartBatch?)
      requires Valid()
      modifies bots
      modifies this`bots, this`connectionQueue, this`activeConnections, this`pendingCreations
      modifies this`isStartingBots, this`botServiceRunning, this`allBotsConnected, this`maintenanceMode
      ensures Valid()
      ensures started <==> !old(isStartingBots) && !old(botServiceRunning)
      ensures !started ==>
                && batch == null && bots == old(bots) && connectionQueue == old(connectionQueue)
                && activeConnections == old(activeConnections) && pendingCreations == old(pendingCreations)
                && CurrentFlags() == old(CurrentFlags())
                && forall b :: b in bots ==> unchanged(b)
      ensures started ==>
                && batch != null && fresh(batch) && batch.count == count && batch.createdCount == 0
                && CurrentFlags() == Flags(true, true, false, true)
                && bots == [] && connectionQueue == [] && activeConnections == 0
                && pendingCreations == old(pendingCreations) + Schedule(prefix, count, server, port, batch)
                && forall b :: b in old(bots) ==> b.Quitted()
    {
      if isStartingBots || botServiceRunning {
        return false, null;
      }
      isStartingBots, botServiceRunning, allBotsConnected, maintenanceMode := true, true, false, true;
      connectionQueue := [];
      activeConnections := 0;
      QuitAll();
      bots := [];
      batch := new StartBatch(count);
      ScheduleBatch(count, prefix, server, port, batch);
      started := true;
    }

    /**
     * The creation loop of `startBots` (main.js:278-300): one creation
     * timer per index, in index order.
     */
    method ScheduleBatch(count: nat, prefix: string, server: string, port: Port, batch: StartBatch)
      modifies this`pendingCreations
      ensures pendingCreations == old(pendingCreations) + Schedule(prefix, count, server, port, batch)
    {
      var timers := [];
      var i := 0;
      while i < count
        invariant 0 <= i <= count
        invariant timers == Schedule(prefix, i, server, port, batch)
        invariant pendingCreations == old(pendingCreations)
      {
        ScheduleSnoc(prefix, i, server, port, batch);
        timers := timers + [Creation(Naming.Username(prefix, i), i == 0, server, port, batch)];
        i := i + 1;
      }
      pendingCreations := pendingCreations + timers;
    }

    /**
     * A new bot joins the admission queue (main.js:220-223) and the queue is
     * pumped (main.js:289). The source pushes to the roster in between;
     * neither step reads the roster, so the model does that first.
     */
    method JoinAndPump(nb: Bot)
      requires Valid() && nb.Valid() && !nb.hasSession && nb !in connectionQueue
      modifies this`connectionQueue, this`activeConnections, QueueHead()
      modifies nb
      ensures Valid()
      ensures PumpedFrom(old(connectionQueue) + [nb], old(activeConnections))
      ensures old(connectionQueue) == [] && old(activeConnections) < MaxConcurrentConnections ==> nb.SessionOpened()
      ensures old(connectionQueue) != [] || old(activeConnections) >= MaxConcurrentConnections ==> unchanged(nb)
      ensures old(connectionQueue) != [] && old(activeConnections) < MaxConcurrentConnections ==>
                old(connectionQueue[0]).SessionOpened()
      ensures old(connectionQueue) != [] && old(activeConnections) >= MaxConcurrentConnections ==>
                unchanged(old(connectionQueue[0]))
      ensures old(Saturated()) ==> Saturated()
    {
      connectionQueue := connectionQueue + [nb];
      assert QueueHead() == if old(connectionQueue) == [] then {nb} else {old(connectionQueue[0])};
      label Joined:
      ProcessConnectionQueue();
      if old(connectionQueue) == [] && old(activeConnections) < MaxConcurrentConnections {
        assert nb.SessionOpened@Joined();
      }
    }

    /**
     * A creation timer of `startBots` firing (main.js:283-300): create the
     * bot, which joins the admission queue, add it to the roster, count it
     * in its batch, pump the queue, and end the starting phase once the
     * whole batch exists.
     */
    method OnCreationTimer(k: nat) returns (newBot: Bot)
      requires Valid() && k < |pendingCreations|
      modifies this`pendingCreations, this`bots, this`connectionQueue, this`activeConnections, this`isStartingBots
      modifies QueueHead(), pendingCreations[k].batch`createdCount
      ensures Valid()
      ensures var c := old(pendingCreations[k]);
              && fresh(newBot)
              && newBot.username == c.username && newBot.isMainListener == c.isMainListener
              && newBot.host == c.host && newBot.port == c.port
              && pendingCreations == old(pendingCreations[..k] + pendingCreations[k + 1..])
              && bots == old(bots) + [newBot]
              && PumpedFrom(old(connectionQueue) + [newBot], old(activeConnections))
              && c.batch.createdCount == old(c.batch.createdCount) + 1
              && isStartingBots == (old(isStartingBots) && c.batch.createdCount != c.batch.count)
      ensures newBot.Fresh() && newBot.Valid()
      ensures newBot.hasSession <==> old(connectionQueue) == [] && old(activeConnections) < MaxConcurrentConnections
      ensures newBot.hasSession ==> newBot.timeoutArmed && newBot.staleTimeouts == 0
      ensures old(connectionQueue) != [] && old(activeConnections) < MaxConcurrentConnections ==>
                old(connectionQueue[0]).SessionOpened()
      ensures old(connectionQueue) != [] && old(activeConnections) >= MaxConcurrentConnections ==>
                unchanged(old(connectionQueue[0]))
      ensures old(Saturated()) ==> Saturated()
    {
      var c := pendingCreations[k];
      newBot := Register(k);
      JoinAndPump(newBot);
      if c.batch.createdCount == c.batch.count {
        isStartingBots := false;
      }
    }

    /**
     * The first half of a creation timer (main.js:284-286): the pending
     * creation is consumed, its bot is created, added to the roster and
     * counted in its batch; the admission queue is not touched yet.
     */
    method Register(k: nat) returns (newBot: Bot)
      requires Valid() && k < |pendingCreations|
      modifies this`pendingCreations, this`bots, pendingCreations[k].batch`createdCount
      ensures Valid()
      ensures var c := old(pendingCreations[k]);
              && fresh(newBot) && newBot.Fresh() && newBot.Valid() && !newBot.hasSession
              && newBot.username == c.username && newBot.isMainListener == c.isMainListener
              && newBot.host == c.host && newBot.port == c.port
              && pendingCreations == old(pendingCreations[..k] + pendingCreations[k + 1..])
              && bots == old(bots) + [newBot]
              && c.batch.createdCount == old(c.batch.createdCount) + 1
    {
      var c := pendingCreations[k];
      pendingCreations := pendingCreations[..k] + pendingCreations[k + 1..];
      newBot := new Bot(c.username, c.isMainListener, c.host, c.port);
      bots := bots + [newBot];
      c.batch.createdCount := c.batch.createdCount + 1;
    }

    /**
     * `stopBots` (main.js:305-325). It always leaves every flag false and
     * the roster empty; with bots present it quits them and resets the
     * admission queue. Called again, it changes nothing.
     */
    method StopBots()
      requires Valid()
      modifies bots
      modifies this`bots, this`connectionQueue, this`activeConnections
      modifies this`isStartingBots, this`botServiceRunning, this`allBotsConnected, this`maintenanceMode
      ensures Valid()
      ensures CurrentFlags() == Flags(false, false, false, false) && bots == []
      ensures old(bots) == [] ==> connectionQueue == old(connectionQueue) && activeConnections == old(activeConnections)
      ensures old(bots) != [] ==> connectionQueue == [] && activeConnections == 0
      ensures forall b :: b in old(bots) ==> b.Quitted()
    {
      if |bots| == 0 {
        botServiceRunning, allBotsConnected, maintenanceMode, isStartingBots := false, false, false, false;
        return;
      }
      QuitAll();
      bots := [];
      connectionQueue := [];
      activeConnections := 0;
      botServiceRunning, allBotsConnected, maintenanceMode, isStartingBots := false, false, false, false;
    }

    /** `kick <name>` (main.js:383-398): quit the first bot of that name, if any. */
    method Kick(name: string) returns (found: bool)
      requires Valid()
      modifies Named(bots, name)
      ensures Valid()
      ensures found <==> FindByName(bots, name) >= 0
      ensures found ==> bots[FindByName(bots, name)].Quitted()
    {
      var i := FindByName(bots, name);
      found := i >= 0;
      if found {
        bots[i].Quit();
      }
    }

    /**
     * `restore <name>` (main.js:400-426), up to its timer: an empty name is
     * refused, an unknown one changes nothing; otherwise the first bot of
     * that name is quit and its replacement is scheduled.
     */
    method RequestRestore(name: string) returns (r: RestoreReply)
      requires Valid()
      modifies Named(bots, name), this`pendingRestores
      ensures Valid()
      ensures r == EmptyName <==> name == []
      ensures r == NotFound <==> name != [] && FindByName(bots, name) == -1
      ensures r != Scheduled ==> pendingRestores == old(pendingRestores) && unchanged(Named(bots, name))
      ensures r == Scheduled ==>
                var i := FindByName(bots, name);
                && i >= 0 && bots[i].Quitted()
                && pendingRestores == old(pendingRestores) + [bots[i]]
    {
      if name == [] {
        return EmptyName;
      }
      var i := FindByName(bots, name);
      if i < 0 {
        return NotFound;
      }
      var target := bots[i];
      target.Quit();
      pendingRestores := pendingRestores + [target];
      r := Scheduled;
    }

    /**
     * The restore timer firing (main.js:416-422), as written: a fresh bot of
     * the same name joins the admission queue through `createBot`, takes the
     * old bot's place in the roster if that bot is still there, and is the
     * main listener exactly when its name is the first in the roster. The
     * queue is not pumped, so the new bot may wait with a slot free.
     */
    method OnRestoreTimer() returns (newBot: Bot)
      requires Valid() && pendingRestores != []
      modifies this`pendingRestores, this`connectionQueue, this`bots
      ensures Valid()
      ensures var target := old(pendingRestores[0]);
              var index := IndexOf(old(bots), target);
              && fresh(newBot) && newBot.username == target.username
              && (newBot.isMainListener <==> FindByName(old(bots), target.username) == 0)
              && newBot.host == serverIP && newBot.port == serverPort
              && newBot.Fresh() && newBot.Valid() && !newBot.hasSession
              && pendingRestores == old(pendingRestores[1..])
              && connectionQueue == old(connectionQueue) + [newBot]
              && bots == if index >= 0 then old(bots)[index := newBot] else old(bots)
    {
      var target := pendingRestores[0];
      pendingRestores := pendingRestores[1..];
      var isMainListener := FindByName(bots, target.username) == 0;
      newBot := new Bot(target.username, isMainListener, serverIP, serverPort);
      connectionQueue := connectionQueue + [newBot];
      var index := IndexOf(bots, target);
      if index != -1 {
        bots := bots[index := newBot];
      }
    }

    /**
     * The restore timer with the queue pumped after the new bot joins it, as
     * every other path that enqueues does (main.js:289): the fleet keeps
     * no slot idle while a bot waits.
     */
    method OnRestoreTimerPumped() returns (newBot: Bot)
      requires Valid() && pendingRestores != []
      modifies this`pendingRestores, this`connectionQueue, this`bots, this`activeConnections, QueueHead()
      ensures Valid()
      ensures var target := old(pendingRestores[0]);
              var index := IndexOf(old(bots), target);
              && fresh(newBot) && newBot.username == target.username
              && (newBot.isMainListener <==> FindByName(old(bots), target.username) == 0)
              && newBot.host == serverIP && newBot.port == serverPort
              && pendingRestores == old(pendingRestores[1..])
              && PumpedFrom(old(connectionQueue) + [newBot], old(activeConnections))
              && bots == if index >= 0 then old(bots)[index := newBot] else old(bots)
      ensures newBot.Fresh() && newBot.Valid()
      ensures newBot.hasSession <==> old(connectionQueue) == [] && old(activeConnections) < MaxConcurrentConnections
      ensures newBot.hasSession ==> newBot.timeoutArmed && newBot.staleTimeouts == 0
      ensures old(connectionQueue) != [] && old(activeConnections) < MaxConcurrentConnections ==>
                old(connectionQueue[0]).SessionOpened()
      ensures old(connectionQueue) != [] && old(activeConnections) >= MaxConcurrentConnections ==>
                unchanged(old(connectionQueue[0]))
      ensures old(Saturated()) ==> Saturated()
    {
      newBot := OnRestoreTimer();
      ProcessConnectionQueue();
    }

    /** One bot of the roster chats; the others are left as they were. */
    method ChatAt(i: nat, message: string)
      requires Valid() && i < |bots|
      modifies bots[i]
      ensures Valid()
      ensures bots[i].Said(message)
      ensures forall j :: 0 <= j < |bots| && j != i ==> unchanged(bots[j])
    {
      bots[i].Chat(message);
    }

    /**
     * Single-word `say <message>` (main.js:434-442): every online bot chats
     * the message. Returns the names of the bots that spoke, in roster order.
     */
    method SayAll(message: string) returns (speakers: seq<string>)
      requires Valid()
      modifies bots
      ensures Valid()
      ensures speakers == old(OnlineNames(bots))
      ensures forall b :: b in bots ==> b.Said(message)
    {
      speakers := [];
      var i := 0;
      while i < |bots|
        invariant 0 <= i <= |bots|
        invariant Valid()
        invariant speakers == old(OnlineNames(bots[..i]))
        invariant forall j :: 0 <= j < i ==> bots[j].Said(message)
        invariant forall j :: i <= j < |bots| ==> unchanged(bots[j])
      {
        var b := bots[i];
        assert bots[..i + 1][..i] == bots[..i];
        assert old(OnlineNames(bots[..i + 1])) == old(OnlineNames(bots[..i])) + (if b.isOnline then [b.username] else []);
        if b.isOnline {
          speakers := speakers + [b.username];
        }
        ChatAt(i, message);
        i := i + 1;
      }
      assert bots[..|bots|] == bots;
    }

    /**
     * `say <name> <message>` (main.js:443-454): the first bot of that name
     * chats the message if it exists and is online; otherwise nothing is sent.
     */
    method SayTo(name: string, message: string) returns (delivered: bool)
      requires Valid()
      modifies Named(bots, name)
      ensures Valid()
      ensures var i := FindByName(bots, name);
              && (delivered <==> i >= 0 && bots[i].isOnline)
              && (delivered ==> bots[i].Said(message) && bots[i].sent == old(bots[i].sent) + [message])
              && (!delivered ==> unchanged(Named(bots, name)))
    {
      var i := FindByName(bots, name);
      delivered := i >= 0 && bots[i].isOnline;
      if delivered {
        bots[i].Chat(message);
      }
    }
  }
}
