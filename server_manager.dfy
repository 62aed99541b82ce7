/**
 * The game server's status monitor: it publishes this server's player count
 * to the server-status store once when started and again on every tick of a
 * repeating timer, sets up its connection listeners once in its lifetime,
 * and can be stopped and started again.
 *
 * The timer is a handle plus a ghost count of live timers; the store is the
 * list of status writes the monitor issued, each with whether it landed.
 * The connection listeners only log, so only how often they were set up is
 * kept.
 */
module ServerManagement {
  import opened Wrappers
  import opened Sockets

  /** The row the status store is asked to write. */
  datatype StatusUpdate = StatusUpdate(serverId: nat, status: string, playerCount: nat)

  /** One awaited write to the status store and whether it succeeded. */
  datatype StatusWrite = StatusWrite(update: StatusUpdate, landed: bool)

  /** A call a caller makes on the monitor. */
  datatype Command = Start(landed: bool) | Stop | Tick(landed: bool)

  class ServerManager {
    /** The socket.io server; `null` stands for a server object the monitor
        cannot read, which makes every read of it throw. */
    const io: Io?
    const serverId: nat
    var isRunning: bool
    var updateInterval: Option<nat>
    var setupComplete: bool
    /** The status writes issued so far, oldest first. */
    var statusWrites: seq<StatusWrite>
    /** How many timer handles were ever created; the next one is this number. */
    var timersCreated: nat
    ghost var listenerSetups: nat
    ghost var liveTimers: nat

    /** Listeners are set up once at most and a live timer exists exactly while
        the handle is held. With a readable server the monitor runs exactly
        while it holds the handle; with an unreadable one `start` stops midway
        (see Start), so only the direction from handle to running holds. */
    ghost predicate Valid()
      reads this
    {
      && listenerSetups == (if setupComplete then 1 else 0)
      && liveTimers == (if updateInterval.Some? then 1 else 0)
      && (updateInterval.Some? ==> isRunning && setupComplete && updateInterval.value < timersCreated)
      && (io != null ==> (isRunning <==> updateInterval.Some?))
      && (io == null ==> !setupComplete)
    }

    constructor (io: Io?, serverId: nat := 1)
      ensures Valid()
      ensures this.io == io && this.serverId == serverId
      ensures !isRunning && updateInterval == None && !setupComplete
      ensures statusWrites == [] && timersCreated == 0
      ensures listenerSetups == 0 && liveTimers == 0
    {
      this.io := io;
      this.serverId := serverId;
      isRunning := false;
      updateInterval := None;
      setupComplete := false;
      statusWrites := [];
      timersCreated := 0;
      listenerSetups := 0;
      liveTimers := 0;
    }

    /** `getCurrentPlayerCount`: the number of sockets in the default
        namespace; the read throws when the server cannot be read, and then
        the count is 0. */
    function PlayerCount(): (n: nat)
      reads this, io
      ensures io == null ==> n == 0
      ensures io != null ==> n == |io.sockets.Keys|
    {
      if io == null then 0 else |io.sockets|
    }

    /** `isActive`: whether the monitor is running. With a readable server
        that is exactly while it holds a live timer, and a held timer always
        means it is active. */
    function IsActive(): (active: bool)
      requires Valid()
      reads this
      ensures active <==> isRunning
      ensures io != null ==> (active <==> updateInterval.Some? && liveTimers == 1)
      ensures updateInterval.Some? ==> active && setupComplete
    {
      isRunning
    }

    /** `updateServerStatus`: one write of the current count under status
        "online". A failed write is swallowed: nothing but the write's own
        record depends on `landed`, and no failure reaches the caller. */
    method UpdateServerStatus(landed: bool)
      modifies this`statusWrites
      ensures statusWrites == old(statusWrites)
        + [StatusWrite(StatusUpdate(serverId, "online", PlayerCount()), landed)]
    {
      var count := PlayerCount();
      statusWrites := statusWrites + [StatusWrite(StatusUpdate(serverId, "online", count), landed)];
    }

    /** `start`. When already running nothing changes. Otherwise the monitor
        is marked running, sets up its listeners if it never did, creates one
        repeating timer and publishes once. Setting up the listeners reads
        the server, so with an unreadable server the first start throws
        after marking the monitor running and before the timer exists. */
    method Start(landed: bool) returns (threw: bool)
      requires Valid()
      modifies this
      ensures Valid()
      ensures old(isRunning) ==> unchanged(this) && !threw
      ensures threw <==> !old(isRunning) && !old(setupComplete) && io == null
      ensures threw ==>
        && isRunning && updateInterval == None && !setupComplete
        && statusWrites == old(statusWrites) && timersCreated == old(timersCreated)
        && listenerSetups == old(listenerSetups) && liveTimers == 0
      ensures !old(isRunning) && !threw ==>
        && isRunning && setupComplete
        && updateInterval == Some(old(timersCreated)) && timersCreated == old(timersCreated) + 1
        && liveTimers == 1
        && listenerSetups == 1
        && statusWrites == old(statusWrites)
             + [StatusWrite(StatusUpdate(serverId, "online", PlayerCount()), landed)]
    {
      if isRunning {
        return false;
      }
      isRunning := true;
      if !setupComplete {
        if io == null {
          // the listener setup reads the server and throws
          return true;
        }
        listenerSetups := listenerSetups + 1;
        setupComplete := true;
      }
      updateInterval := Some(timersCreated);
      timersCreated := timersCreated + 1;
      liveTimers := liveTimers + 1;
      UpdateServerStatus(landed);
      threw := false;
    }

    /** `stop`. When not running nothing changes. Otherwise the monitor is
        marked stopped and its timer, if it holds one, is cleared. */
    method Stop()
      requires Valid()
      modifies this`isRunning, this`updateInterval, this`liveTimers
      ensures Valid()
      ensures !old(isRunning) ==> unchanged(this)
      ensures !isRunning && updateInterval == None && liveTimers == 0
    {
      if !isRunning {
        return;
      }
      isRunning := false;
      if updateInterval.Some? {
        updateInterval := None;
        liveTimers := liveTimers - 1;
      }
    }

    /** One firing of the repeating timer: another status update. */
    method Tick(landed: bool)
      requires Valid() && updateInterval.Some?
      modifies this`statusWrites
      ensures Valid()
      ensures statusWrites == old(statusWrites)
        + [StatusWrite(StatusUpdate(serverId, "online", PlayerCount()), landed)]
    {
      UpdateServerStatus(landed);
    }

    /** Any sequence of starts, stops and timer firings (firings only while a
        timer is live, since a cleared timer never fires) keeps the invariant:
        the listeners are set up at most once and at most one timer is live. */
    method Run(commands: seq<Command>)
      requires Valid()
      modifies this
      ensures Valid()
      ensures listenerSetups <= 1 && liveTimers <= 1
      ensures old(setupComplete) ==> setupComplete
      ensures old(statusWrites) <= statusWrites
    {
      var i := 0;
      while i < |commands|
        invariant 0 <= i <= |commands|
        invariant Valid()
        invariant old(setupComplete) ==> setupComplete
        invariant old(statusWrites) <= statusWrites
      {
        match commands[i] {
          case Start(landed) =>
            var _ := Start(landed);
          case Stop =>
            Stop();
          case Tick(landed) =>
            if updateInterval.Some? {
              Tick(landed);
            }
        }
        i := i + 1;
      }
    }

    /** `listConnectedSockets`: the ids of the sockets in the default
        namespace, each once; an unreadable server gives none. */
    method ListConnectedSockets() returns (ids: seq<SocketId>)
      ensures io == null ==> ids == []
      ensures io != null ==> forall id :: id in ids <==> id in io.sockets
      ensures NoDuplicates(ids)
      ensures |ids| == PlayerCount()
    {
      if io == null {
        return [];
      }
      ids := [];
      var rest := io.sockets.Keys;
      while rest != {}
        invariant forall id :: id in io.sockets <==> id in ids || id in rest
        invariant forall id :: id in ids ==> id !in rest
        invariant NoDuplicates(ids)
        invariant |ids| + |rest| == |io.sockets|
        decreases |rest|
      {
        var id :| id in rest;
        ids := ids + [id];
        rest := rest - {id};
      }
    }
  }
}
