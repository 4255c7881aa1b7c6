/**
 * Runs of the fleet through its event handlers, for behaviour that only
 * shows across several events.
 */
module Scenarios {
  import opened Optional
  import opened Backoff
  import opened Policy
  import opened Orchestrator
  import Naming

  /** The first bot of a fleet with prefix `bot_` is `bot_001`. */
  lemma FirstName()
    ensures Naming.Username("bot_", 0) == "bot_001"
  {
    assert Naming.Decimal(1) == "1";
    assert Naming.Repeat('0', 2) == "00";
    assert Naming.Pad3(1) == "00" + "1" == "001";
    assert "bot_" + "001" == "bot_001";
    assert Naming.Username("bot_", 0) == "bot_" + Naming.Pad3(1);
  }

  /**
   * A one-bot fleet is started and its creation timer fires: the bot is
   * admitted at once and is connecting.
   */
  method StartedFleet() returns (f: Fleet, b: Bot)
    ensures fresh(f) && fresh(b) && f.Valid() && f.bots == [b]
    ensures b.hasSession && b.isFirstSpawn && b.username == "bot_001"
    ensures f.connectionQueue == [] && f.activeConnections == 1 && f.pendingRestores == []
    ensures f.CurrentFlags() == Flags(false, true, false, true)
  {
    f := new Fleet("localhost", Some(25565));
    var started, batch := f.StartBots(1, "bot_", "localhost", Some(25565));
    assert started && f.pendingCreations == Schedule("bot_", 1, "localhost", Some(25565), batch);
    assert f.pendingCreations[0].username == Naming.Username("bot_", 0);
    FirstName();
    b := f.OnCreationTimer(0);
  }

  /**
   * The started fleet's bot connects and spawns, and the fleet settles: the
   * bot is online, no connection is in flight, the queue is empty and
   * commands are accepted again.
   */
  method SettledFleet() returns (f: Fleet, b: Bot)
    ensures fresh(f) && fresh(b) && f.Valid() && f.bots == [b]
    ensures b.isOnline && b.username == "bot_001"
    ensures f.connectionQueue == [] && f.activeConnections == 0 && f.pendingRestores == []
    ensures f.CurrentFlags() == Flags(false, true, true, false)
  {
    f, b := StartedFleet();
    f.OnConnect(b);
    f.OnSpawn(b);
    assert CountSettled(f.bots) == 1 && CountConnected(f.bots) == 1 by {
      assert f.bots[..0] == [];
    }
  }

  /**
   * The settled one-bot fleet restores its bot. Returns the length of the
   * admission queue, the connection counter and whether the fleet is
   * `Saturated` just after the restore timer fires, with `pumped` choosing
   * the corrected restore timer over the one main.js runs: as written, the
   * new bot waits in the queue with every slot free, and nothing left in the
   * fleet will pump it.
   */
  method RestoreAfterSettling(pumped: bool) returns (queued: nat, active: int, saturated: bool)
    ensures !pumped ==> queued == 1 && active == 0 && !saturated
    ensures pumped ==> queued == 0 && active == 1 && saturated
  {
    var f, b := SettledFleet();
    var answer := f.RequestRestore(b.username);
    assert answer == Scheduled && f.pendingRestores == [b];
    if pumped {
      var nb := f.OnRestoreTimerPumped();
    } else {
      var nb := f.OnRestoreTimer();
    }
    queued, active, saturated := |f.connectionQueue|, f.activeConnections, f.Saturated();
  }
}
