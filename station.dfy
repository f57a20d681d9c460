/**
 * simulation::Station: the top-level object that owns the simulation
 * executive, the interoperability networks and the data recorder, binds
 * the ownship (primary) player, and schedules the time-critical,
 * network and background work either on threads of their own or inline.
 *
 * Calls the station makes into other components (ownship connect and
 * disconnect notifications, RESET, tcFrame, the network input and output
 * frames, background processing, data recording, thread creation and
 * termination) are appended, in order, to the activity log `log`. A
 * thread is a flag saying whether the station holds one; whether creating
 * it succeeds is a parameter.
 */
module SimulationStation {
  import opened Common
  import opened BasePairStream

  const DefaultTcThreadPri: real := 0.8
  const DefaultBgThreadPri: real := 0.5
  const DefaultNetThreadPri: real := 0.5

  /** The default rates the slot table documents (Hz). */
  const DefaultTcRate: real := 50.0
  const DefaultNetRate: real := 20.0
  const DefaultBgRate: real := 0.0

  /** A simulation player: its identity, and whether it is a local player. */
  datatype Player = Player(handle: nat, local: bool)

  /** An interoperability network handler (AbstractNetIO). */
  datatype NetHandle = NetHandle(id: nat)

  /** The simulation executive, reduced to its player list (null when it has none). */
  datatype Simulation = Simulation(players: Option<seq<Pair<Player>>>)

  datatype ThreadKind = TcThread | NetThread | BgThread

  /** What the station asks of the components around it. */
  datatype Activity =
    | OwnshipDisconnect(player: Player)
    | OwnshipConnect(player: Player)
    | ResetEvent
    | TcFrame(dt: real)
    | BackgroundTasks(dt: real)
    | InputFrame(net: NetHandle, dt: real)
    | OutputFrame(net: NetHandle, dt: real)
    | ProcessRecords
    /** A thread object built with this priority and rate, and a stack size when one is set. */
    | ThreadCreate(kind: ThreadKind, priority: real, rate: real, stackSize: Option<uint32>)
    | ThreadTerminate(kind: ThreadKind)

  predicate InUnitRange(x: real) {
    0.0 <= x <= 1.0
  }

  function PlayersOf(sim: Option<Simulation>): Option<seq<Pair<Player>>> {
    if sim.Some? then sim.value.players else None
  }

  // ---------------------------------------------------------------------
  // Ownship binding
  // ---------------------------------------------------------------------

  /** The ownship, its name, the notifications sent and the result of setOwnshipPlayer(). */
  datatype Binding = Binding(ownship: Option<Player>, name: Option<string>, events: seq<Activity>, bound: bool)

  /** The DISCONNECT sent to the old ownship, if there is one. */
  function Disconnect(ownship: Option<Player>): seq<Activity> {
    if ownship.Some? then [OwnshipDisconnect(ownship.value)] else []
  }

  /** setOwnshipPlayer(newOS) given the current ownship, its name and the player list. */
  function BindOwnship(ownship: Option<Player>, name: Option<string>,
                       players: Option<seq<Pair<Player>>>, newOS: Option<Player>): Binding
  {
    if newOS == ownship then Binding(ownship, name, [], true)
    else if newOS.None? then Binding(None, None, Disconnect(ownship), true)
    else if players.None? || !newOS.value.local then Binding(ownship, name, [], false)
    else match FirstMatch(players.value, SameObject(newOS.value))
      case None => Binding(ownship, name, [], false)
      case Some(i) =>
        Binding(newOS, Some(players.value[i].slot), Disconnect(ownship) + [OwnshipConnect(newOS.value)], true)
  }

  /** Setting the current ownship again succeeds and changes nothing. */
  lemma SameOwnshipChangesNothing(ownship: Option<Player>, name: Option<string>, players: Option<seq<Pair<Player>>>)
    ensures BindOwnship(ownship, name, players, ownship) == Binding(ownship, name, [], true)
  {
  }

  /**
   * Setting a null ownship always succeeds and clears the ownship and its
   * name; the old ownship, and only an existing one, is told DISCONNECT.
   */
  lemma NullOwnshipClears(ownship: Option<Player>, name: Option<string>, players: Option<seq<Pair<Player>>>)
    ensures var b := BindOwnship(ownship, name, players, None);
      b.bound && b.ownship == None &&
      (ownship.Some? ==> b.name == None && b.events == [OwnshipDisconnect(ownship.value)]) &&
      (ownship.None? ==> b.name == name && b.events == [])
  {
  }

  /**
   * A different, non-null player becomes ownship exactly when it is in the
   * player list and is a local player. Then the old ownship is told
   * DISCONNECT before the new one is told CONNECT, and the name becomes
   * the slot name of the first pair holding the player.
   */
  lemma NewOwnshipMustBeListedAndLocal(ownship: Option<Player>, name: Option<string>,
                                       players: Option<seq<Pair<Player>>>, p: Player)
    requires Some(p) != ownship
    ensures var b := BindOwnship(ownship, name, players, Some(p));
      b.bound <==> players.Some? && p.local && exists i :: 0 <= i < |players.value| && players.value[i].obj == p
    ensures var b := BindOwnship(ownship, name, players, Some(p));
      b.bound ==>
        b.ownship == Some(p) &&
        b.events == Disconnect(ownship) + [OwnshipConnect(p)] &&
        exists i :: 0 <= i < |players.value| && players.value[i].obj == p && b.name == Some(players.value[i].slot) &&
                    forall j :: 0 <= j < i ==> players.value[j].obj != p
  {
    if players.Some? && p.local {
      var pl := players.value;
      var r := FirstMatch(pl, SameObject(p));
      if r.None? {
        forall i | 0 <= i < |pl| ensures pl[i].obj != p {
          assert !Matches(SameObject(p), pl[i]);
        }
      } else {
        forall j | 0 <= j < r.value ensures pl[j].obj != p {
          assert !Matches(SameObject(p), pl[j]);
        }
      }
    }
  }

  /** A failed binding leaves the ownship and its name as they were and tells nobody anything. */
  lemma FailedBindingChangesNothing(ownship: Option<Player>, name: Option<string>,
                                    players: Option<seq<Pair<Player>>>, newOS: Option<Player>)
    requires !BindOwnship(ownship, name, players, newOS).bound
    ensures var b := BindOwnship(ownship, name, players, newOS);
      b.ownship == ownship && b.name == name && b.events == []
  {
  }

  /**
   * Whatever the binding, CONNECT goes only to the new ownship, and only as
   * the last notification.
   */
  lemma ConnectComesLast(ownship: Option<Player>, name: Option<string>,
                         players: Option<seq<Pair<Player>>>, newOS: Option<Player>)
    ensures var b := BindOwnship(ownship, name, players, newOS);
      forall i :: 0 <= i < |b.events| && b.events[i].OwnshipConnect? ==>
        i == |b.events| - 1 && b.ownship == Some(b.events[i].player) && b.ownship != ownship
  {
  }

  /** The player setOwnshipByName() picks: the one in the first pair with that name. */
  function NamedPlayer(players: seq<Pair<Player>>, name: string): Option<Player> {
    match FirstMatch(players, SlotName(name))
    case None => None
    case Some(k) => Some(players[k].obj)
  }

  // ---------------------------------------------------------------------
  // The startup RESET timer
  // ---------------------------------------------------------------------

  /** The startup part of updateTC(dt): the new timer, and whether RESET is sent. */
  function TimerStep(timer: real, dt: real): (r: (real, bool))
    ensures timer < 0.0 ==> r == (timer, false)
    ensures timer >= 0.0 ==> r.0 == timer - dt && (r.1 <==> timer - dt < 0.0)
  {
    if timer >= 0.0 then
      var t := timer - dt;
      (t, t < 0.0)
    else (timer, false)
  }

  /** The timer after one updateTC() per element of `dts`. */
  function RunTimer(timer: real, dts: seq<real>): real
    decreases |dts|
  {
    if dts == [] then timer else RunTimer(TimerStep(timer, dts[0]).0, dts[1..])
  }

  /** How many RESETs those updateTC() calls send. */
  function Resets(timer: real, dts: seq<real>): nat
    decreases |dts|
  {
    if dts == [] then 0
    else (if TimerStep(timer, dts[0]).1 then 1 else 0) + Resets(TimerStep(timer, dts[0]).0, dts[1..])
  }

  /** A timer that has gone negative is never touched again. */
  lemma {:induction false} NegativeTimerIsFrozen(timer: real, dts: seq<real>)
    requires timer < 0.0
    ensures RunTimer(timer, dts) == timer && Resets(timer, dts) == 0
    decreases |dts|
  {
    if dts != [] {
      NegativeTimerIsFrozen(timer, dts[1..]);
    }
  }

  /**
   * The timer sends RESET at most once: exactly once when it starts at or
   * above zero and ends below zero, and never otherwise.
   */
  lemma {:induction false} StartupResetFiresOnce(timer: real, dts: seq<real>)
    ensures Resets(timer, dts) == if timer >= 0.0 && RunTimer(timer, dts) < 0.0 then 1 else 0
    decreases |dts|
  {
    if dts != [] {
      var t := TimerStep(timer, dts[0]).0;
      if t < 0.0 {
        NegativeTimerIsFrozen(t, dts[1..]);
      } else {
        StartupResetFiresOnce(t, dts[1..]);
      }
    }
  }

  // ---------------------------------------------------------------------
  // Scheduling
  // ---------------------------------------------------------------------

  /** `n` copies of `a`. */
  function Repeat(a: Activity, n: nat): (r: seq<Activity>)
    ensures |r| == n && forall i :: 0 <= i < n ==> r[i] == a
  {
    seq(n, _ => a)
  }

  /** One inputFrame(dt) per network, in list order. */
  function InputFrames(nets: seq<NetHandle>, dt: real): (r: seq<Activity>)
    ensures |r| == |nets| && forall i :: 0 <= i < |nets| ==> r[i] == InputFrame(nets[i], dt)
  {
    seq(|nets|, i requires 0 <= i < |nets| => InputFrame(nets[i], dt))
  }

  /** One outputFrame(dt) per network, in list order. */
  function OutputFrames(nets: seq<NetHandle>, dt: real): (r: seq<Activity>)
    ensures |r| == |nets| && forall i :: 0 <= i < |nets| ==> r[i] == OutputFrame(nets[i], dt)
  {
    seq(|nets|, i requires 0 <= i < |nets| => OutputFrame(nets[i], dt))
  }

  /** The stack size a new thread is given: only a nonzero one is set. */
  function StackRequest(size: uint32): Option<uint32> {
    if size > 0 then Some(size) else None
  }

  /** The background half of updateData(dt): create the thread, run the work inline, or neither. */
  function BackgroundPart(bgRate: real, haveBg: bool, bgPri: real, bgStack: uint32, dt: real): seq<Activity> {
    if bgRate > 0.0 && !haveBg then [ThreadCreate(BgThread, bgPri, bgRate, StackRequest(bgStack))]
    else if bgRate == 0.0 && !haveBg then [BackgroundTasks(dt)]
    else []
  }

  /** The network half of updateData(dt). */
  function NetworkPart(netRate: real, networks: Option<seq<NetHandle>>, haveNet: bool,
                       netPri: real, netStack: uint32, dt: real): seq<Activity> {
    if netRate > 0.0 && networks.Some? && !haveNet then [ThreadCreate(NetThread, netPri, netRate, StackRequest(netStack))]
    else if netRate == 0.0 && networks.Some? && !haveNet then
      InputFrames(networks.value, dt) + OutputFrames(networks.value, dt)
    else []
  }

  /** Background work runs inline exactly when the rate is zero and there is no background thread. */
  lemma BackgroundInlineExactly(bgRate: real, haveBg: bool, bgPri: real, bgStack: uint32, dt: real)
    ensures BackgroundTasks(dt) in BackgroundPart(bgRate, haveBg, bgPri, bgStack, dt) <==> bgRate == 0.0 && !haveBg
    ensures (exists a :: a in BackgroundPart(bgRate, haveBg, bgPri, bgStack, dt) && a.ThreadCreate?)
            <==> bgRate > 0.0 && !haveBg
  {
    if bgRate > 0.0 && !haveBg {
      assert ThreadCreate(BgThread, bgPri, bgRate, StackRequest(bgStack)) in BackgroundPart(bgRate, haveBg, bgPri, bgStack, dt);
    }
  }

  /**
   * With at least one network, the network work runs inline exactly when
   * the rate is zero and there is no network thread, and then every
   * network's inputFrame() comes before any outputFrame(), each half in
   * list order.
   */
  lemma NetworkInlineExactly(netRate: real, nets: seq<NetHandle>, haveNet: bool,
                             netPri: real, netStack: uint32, dt: real)
    requires |nets| > 0
    ensures var part := NetworkPart(netRate, Some(nets), haveNet, netPri, netStack, dt);
      (exists i :: 0 <= i < |part| && part[i].InputFrame?) <==> netRate == 0.0 && !haveNet
    ensures var part := NetworkPart(netRate, Some(nets), haveNet, netPri, netStack, dt);
      forall i, j :: 0 <= i < |part| && 0 <= j < |part| && part[i].InputFrame? && part[j].OutputFrame? ==> i < j
    ensures netRate == 0.0 && !haveNet ==>
      var part := NetworkPart(netRate, Some(nets), haveNet, netPri, netStack, dt);
      |part| == 2 * |nets| &&
      forall k :: 0 <= k < |nets| ==> part[k] == InputFrame(nets[k], dt) && part[|nets| + k] == OutputFrame(nets[k], dt)
  {
    var part := NetworkPart(netRate, Some(nets), haveNet, netPri, netStack, dt);
    if netRate == 0.0 && !haveNet {
      assert part[0] == InputFrame(nets[0], dt);
    }
  }

  class Station {
    var sim: Option<Simulation>
    var ownship: Option<Player>
    var ownshipName: Option<string>
    var networks: Option<seq<NetHandle>>
    var hasDataRecorder: bool

    var tcRate: real
    var tcPri: real
    var tcStackSize: uint32
    var fastForwardRate: uint32
    var netRate: real
    var netPri: real
    var netStackSize: uint32
    var bgRate: real
    var bgPri: real
    var bgStackSize: uint32
    var tmrUpdateEnbl: bool

    /** The startup RESET countdown (seconds) and the time it was configured with. */
    var startupResetTimer: real
    var startupResetTimer0: Option<real>

    var tcThread: bool
    var netThread: bool
    var bgThread: bool

    var log: seq<Activity>

    /** The ranges the slot setters enforce. */
    ghost predicate Valid()
      reads this`tcRate, this`netRate, this`bgRate, this`tcPri, this`netPri, this`bgPri
    {
      tcRate > 0.0 && netRate > 0.0 && bgRate >= 0.0 &&
      InUnitRange(tcPri) && InUnitRange(netPri) && InUnitRange(bgPri)
    }

    /**
     * A station with nothing attached: the documented default rates and
     * priorities, system-default stack sizes and no startup RESET.
     */
    constructor (fastForward0: uint32)
      ensures Valid()
      ensures sim == None && ownship == None && ownshipName == None && networks == None && !hasDataRecorder
      ensures tcRate == DefaultTcRate && netRate == DefaultNetRate && bgRate == DefaultBgRate
      ensures tcPri == DefaultTcThreadPri && netPri == DefaultNetThreadPri && bgPri == DefaultBgThreadPri
      ensures tcStackSize == 0 && netStackSize == 0 && bgStackSize == 0 && fastForwardRate == fastForward0
      ensures startupResetTimer < 0.0 && startupResetTimer0 == None && !tmrUpdateEnbl
      ensures !tcThread && !netThread && !bgThread && log == []
    {
      sim, ownship, ownshipName, networks, hasDataRecorder := None, None, None, None, false;
      tcRate, tcPri, tcStackSize := DefaultTcRate, DefaultTcThreadPri, 0;
      fastForwardRate := fastForward0;
      netRate, netPri, netStackSize := DefaultNetRate, DefaultNetThreadPri, 0;
      bgRate, bgPri, bgStackSize := DefaultBgRate, DefaultBgThreadPri, 0;
      tmrUpdateEnbl := false;
      startupResetTimer, startupResetTimer0 := -1.0, None;
      tcThread, netThread, bgThread := false, false, false;
      log := [];
    }

    // --- ownship -------------------------------------------------------

    /**
     * setOwnshipPlayer(newOS). For a non-null player other than the current
     * ownship the simulation is dereferenced unchecked, so it must exist.
     */
    method SetOwnshipPlayer(newOS: Option<Player>) returns (bound: bool)
      requires newOS.Some? && newOS != ownship ==> sim.Some?
      modifies this`ownship, this`ownshipName, this`log
      ensures var b := BindOwnship(old(ownship), old(ownshipName), PlayersOf(sim), newOS);
        ownship == b.ownship && ownshipName == b.name && log == old(log) + b.events && bound == b.bound
    {
      if newOS == ownship {
        return true;
      }

      if newOS.None? {
        ownshipName := None;
        if ownship.Some? {
          log := log + [OwnshipDisconnect(ownship.value)];
          ownship := None;
        }
        return true;
      }

      bound := false;
      var p := newOS.value;
      var pl := sim.value.players;
      if pl.Some? {
        var items := pl.value;
        var i := 0;
        while i < |items| && !bound
          invariant 0 <= i <= |items|
          invariant !bound ==> ownship == old(ownship) && ownshipName == old(ownshipName) && log == old(log)
          invariant !bound ==> forall j :: 0 <= j < i ==> !(items[j].obj == p && p.local)
          invariant bound ==> (0 < i && p.local && FirstMatch(items, SameObject(p)) == Some(i - 1) &&
                               ownship == newOS && ownshipName == Some(items[i - 1].slot) &&
                               log == old(log) + Disconnect(old(ownship)) + [OwnshipConnect(p)])
        {
          var ip := items[i].obj;
          if ip == p && ip.local {
            forall j | 0 <= j < i ensures !Matches(SameObject(p), items[j]) {
            }
            FirstMatchAt(items, SameObject(p), i);
            ownshipName := None;
            if ownship.Some? {
              log := log + [OwnshipDisconnect(ownship.value)];
              ownship := None;
            }
            ownship := newOS;
            ownshipName := Some(items[i].slot);
            log := log + [OwnshipConnect(p)];
            bound := true;
          }
          i := i + 1;
        }
        if !bound && p.local {
          assert FirstMatch(items, SameObject(p)) == None by {
            forall j | 0 <= j < |items| ensures !Matches(SameObject(p), items[j]) {
            }
          }
        }
      }
    }

    /**
     * setOwnshipByName(name): true exactly when the first player with that
     * name exists and is not already the ownship, whether or not
     * setOwnshipPlayer() then accepts it.
     */
    method SetOwnshipByName(newOS: Option<string>) returns (bound: bool)
      modifies this`ownship, this`ownshipName, this`log
      ensures var pl := PlayersOf(sim);
        bound <==> (pl.Some? && newOS.Some? && NamedPlayer(pl.value, newOS.value).Some? &&
                    NamedPlayer(pl.value, newOS.value) != old(ownship))
      ensures bound ==>
        var b := BindOwnship(old(ownship), old(ownshipName), PlayersOf(sim), NamedPlayer(PlayersOf(sim).value, newOS.value));
        ownship == b.ownship && ownshipName == b.name && log == old(log) + b.events
      ensures !bound ==> ownship == old(ownship) && ownshipName == old(ownshipName) && log == old(log)
    {
      bound := false;
      var pl: Option<seq<Pair<Player>>> := None;
      if sim.Some? {
        pl := sim.value.players;
      }
      if pl.Some? && newOS.Some? {
        var p := FindByName(pl.value, newOS);
        if p.Some? {
          var newOwnship := p.value.obj;
          if Some(newOwnship) != ownship {
            var _ := SetOwnshipPlayer(Some(newOwnship));
            bound := true;
          }
        }
      }
    }

    /** setSlotOwnshipName(): the name is replaced, null included. */
    method SetSlotOwnshipName(newName: Option<string>) returns (ok: bool)
      modifies this`ownshipName
      ensures ok && ownshipName == newName
    {
      ownshipName := newName;
      ok := true;
    }

    /** setSlotSimulation(): the simulation executive is replaced, null included. */
    method SetSlotSimulation(p: Option<Simulation>) returns (ok: bool)
      modifies this`sim
      ensures ok && sim == p
    {
      sim := p;
      ok := true;
    }

    /** setSlotNetworks(): the network list is replaced, null included. */
    method SetSlotNetworks(a: Option<seq<NetHandle>>) returns (ok: bool)
      modifies this`networks
      ensures ok && networks == a
    {
      networks := a;
      ok := true;
    }

    /** setDataRecorder(): attach or detach the data recorder. */
    method SetDataRecorder(present: bool) returns (ok: bool)
      modifies this`hasDataRecorder
      ensures ok && hasDataRecorder == present
    {
      hasDataRecorder := present;
      ok := true;
    }

    // --- the startup RESET ---------------------------------------------

    /** The startup RESET part of updateTC(dt): count down while not negative, RESET on crossing zero. */
    method UpdateStartupResetTimer(dt: real) returns (fired: bool)
      modifies this`startupResetTimer, this`log
      ensures (startupResetTimer, fired) == TimerStep(old(startupResetTimer), dt)
      ensures log == old(log) + if fired then [ResetEvent] else []
    {
      fired := false;
      if startupResetTimer >= 0.0 {
        startupResetTimer := startupResetTimer - dt;
        if startupResetTimer < 0.0 {
          log := log + [ResetEvent];
          fired := true;
        }
      }
    }

    /**
     * setSlotStartupResetTime(num): removing a configured time disarms the
     * timer; a new time (in seconds) arms it with that value. With neither
     * an old nor a new time the timer is left as it is.
     */
    method SetSlotStartupResetTime(num: Option<real>) returns (ok: bool)
      modifies this`startupResetTimer, this`startupResetTimer0
      ensures ok && startupResetTimer0 == num
      ensures num.Some? ==> startupResetTimer == num.value
      ensures num.None? && old(startupResetTimer0).Some? ==> startupResetTimer == -1.0
      ensures num.None? && old(startupResetTimer0).None? ==> startupResetTimer == old(startupResetTimer)
    {
      if startupResetTimer0.Some? {
        startupResetTimer0 := None;
        startupResetTimer := -1.0;
      }
      startupResetTimer0 := num;
      if startupResetTimer0.Some? {
        startupResetTimer := startupResetTimer0.value;
      }
      ok := true;
    }

    // --- scheduling ----------------------------------------------------

    /** processTimeCriticalTasks(dt): tcFrame(dt), fastForwardRate times. */
    method ProcessTimeCriticalTasks(dt: real)
      modifies this`log
      ensures log == old(log) + Repeat(TcFrame(dt), fastForwardRate)
    {
      for jj := 0 to fastForwardRate
        invariant log == old(log) + Repeat(TcFrame(dt), jj)
      {
        assert Repeat(TcFrame(dt), jj + 1) == Repeat(TcFrame(dt), jj) + [TcFrame(dt)];
        log := log + [TcFrame(dt)];
      }
    }

    /** processNetworkInputTasks(dt): inputFrame(dt) on each network, in list order. */
    method ProcessNetworkInputTasks(dt: real)
      modifies this`log
      ensures log == old(log) + if networks.Some? then InputFrames(networks.value, dt) else []
    {
      var nets := networks;
      if nets.Some? {
        var items := nets.value;
        var i := 0;
        while i < |items|
          invariant 0 <= i <= |items|
          invariant log == old(log) + InputFrames(items[..i], dt)
        {
          assert InputFrames(items[..i + 1], dt) == InputFrames(items[..i], dt) + [InputFrame(items[i], dt)];
          log := log + [InputFrame(items[i], dt)];
          i := i + 1;
        }
        assert items[..i] == items;
      }
    }

    /** processNetworkOutputTasks(dt): outputFrame(dt) on each network, in list order. */
    method ProcessNetworkOutputTasks(dt: real)
      modifies this`log
      ensures log == old(log) + if networks.Some? then OutputFrames(networks.value, dt) else []
    {
      var nets := networks;
      if nets.Some? {
        var items := nets.value;
        var i := 0;
        while i < |items|
          invariant 0 <= i <= |items|
          invariant log == old(log) + OutputFrames(items[..i], dt)
        {
          assert OutputFrames(items[..i + 1], dt) == OutputFrames(items[..i], dt) + [OutputFrame(items[i], dt)];
          log := log + [OutputFrame(items[i], dt)];
          i := i + 1;
        }
        assert items[..i] == items;
      }
    }

    /** processBackgroundTasks(dt): the I/O handlers, the simulation and the OTW systems do their background work. */
    method ProcessBackgroundTasks(dt: real)
      modifies this`log
      ensures log == old(log) + [BackgroundTasks(dt)]
    {
      log := log + [BackgroundTasks(dt)];
    }

    /** createTimeCriticalProcess(): build and start a thread unless there is one; a failed start leaves none. */
    method CreateTimeCriticalProcess(createOk: bool)
      modifies this`tcThread, this`log
      ensures tcThread == (old(tcThread) || createOk)
      ensures log == old(log) + if old(tcThread) then [] else [ThreadCreate(TcThread, tcPri, tcRate, StackRequest(tcStackSize))]
    {
      if !tcThread {
        log := log + [ThreadCreate(TcThread, tcPri, tcRate, StackRequest(tcStackSize))];
        tcThread := createOk;
      }
    }

    /** createNetworkProcess(). */
    method CreateNetworkProcess(createOk: bool)
      modifies this`netThread, this`log
      ensures netThread == (old(netThread) || createOk)
      ensures log == old(log) + if old(netThread) then [] else [ThreadCreate(NetThread, netPri, netRate, StackRequest(netStackSize))]
    {
      if !netThread {
        log := log + [ThreadCreate(NetThread, netPri, netRate, StackRequest(netStackSize))];
        netThread := createOk;
      }
    }

    /** createBackgroundProcess(). */
    method CreateBackgroundProcess(createOk: bool)
      modifies this`bgThread, this`log
      ensures bgThread == (old(bgThread) || createOk)
      ensures log == old(log) + if old(bgThread) then [] else [ThreadCreate(BgThread, bgPri, bgRate, StackRequest(bgStackSize))]
    {
      if !bgThread {
        log := log + [ThreadCreate(BgThread, bgPri, bgRate, StackRequest(bgStackSize))];
        bgThread := createOk;
      }
    }

    /** The background half of updateData(dt): create the thread, or run the work inline. */
    method UpdateBackground(dt: real, createOk: bool)
      modifies this`bgThread, this`log
      ensures bgThread == (old(bgThread) || (bgRate > 0.0 && createOk))
      ensures log == old(log) + BackgroundPart(bgRate, old(bgThread), bgPri, bgStackSize, dt)
    {
      if bgRate > 0.0 && !bgThread {
        CreateBackgroundProcess(createOk);
      }
      if bgRate == 0.0 && !bgThread {
        ProcessBackgroundTasks(dt);
      }
    }

    /** The network half of updateData(dt): create the thread, or run all inputs and then all outputs inline. */
    method UpdateNetworks(dt: real, createOk: bool)
      modifies this`netThread, this`log
      ensures netThread == (old(netThread) || (netRate > 0.0 && networks.Some? && createOk))
      ensures log == old(log) + NetworkPart(netRate, networks, old(netThread), netPri, netStackSize, dt)
      ensures Valid() ==> forall i :: |old(log)| <= i < |log| ==> log[i].ThreadCreate?
    {
      if netRate > 0.0 {
        ValidStationNeverRunsNetworkInline(netRate, networks, netThread, netPri, netStackSize, dt);
      }
      if netRate > 0.0 && networks.Some? && !netThread {
        CreateNetworkProcess(createOk);
      }
      if netRate == 0.0 && networks.Some? && !netThread {
        ProcessNetworkInputTasks(dt);
        ProcessNetworkOutputTasks(dt);
        assert log == old(log) + InputFrames(networks.value, dt) + OutputFrames(networks.value, dt);
      }
    }

    /**
     * updateData(dt): background work on a new thread or inline, then the
     * network work on a new thread or inline (all inputs, then all
     * outputs), then the data recorder's records.
     */
    method UpdateData(dt: real, bgCreateOk: bool, netCreateOk: bool)
      modifies this`bgThread, this`netThread, this`log
      ensures bgThread == (old(bgThread) || (bgRate > 0.0 && bgCreateOk))
      ensures netThread == (old(netThread) || (netRate > 0.0 && networks.Some? && netCreateOk))
      ensures log == old(log)
                     + BackgroundPart(bgRate, old(bgThread), bgPri, bgStackSize, dt)
                     + NetworkPart(netRate, networks, old(netThread), netPri, netStackSize, dt)
                     + (if hasDataRecorder then [ProcessRecords] else [])
      ensures Valid() ==> forall i :: |old(log)| <= i < |log| ==> !log[i].InputFrame? && !log[i].OutputFrame?
    {
      UpdateBackground(dt, bgCreateOk);
      ghost var afterBg := log;
      assert forall i :: |old(log)| <= i < |afterBg| ==> !afterBg[i].InputFrame? && !afterBg[i].OutputFrame?;
      UpdateNetworks(dt, netCreateOk);
      if hasDataRecorder {
        log := log + [ProcessRecords];
      }
    }

    // --- thread handles --------------------------------------------------

    /** setTcThread(h): an existing thread is terminated before it is replaced. */
    method SetTcThread(h: bool)
      modifies this`tcThread, this`log
      ensures tcThread == h
      ensures log == old(log) + if old(tcThread) then [ThreadTerminate(TcThread)] else []
    {
      if tcThread {
        log := log + [ThreadTerminate(TcThread)];
      }
      tcThread := h;
    }

    method SetNetThread(h: bool)
      modifies this`netThread, this`log
      ensures netThread == h
      ensures log == old(log) + if old(netThread) then [ThreadTerminate(NetThread)] else []
    {
      if netThread {
        log := log + [ThreadTerminate(NetThread)];
      }
      netThread := h;
    }

    method SetBgThread(h: bool)
      modifies this`bgThread, this`log
      ensures bgThread == h
      ensures log == old(log) + if old(bgThread) then [ThreadTerminate(BgThread)] else []
    {
      if bgThread {
        log := log + [ThreadTerminate(BgThread)];
      }
      bgThread := h;
    }

    // --- slot setters ----------------------------------------------------

    /** setSlotTimeCriticalRate(): only a rate above zero is accepted. */
    method SetSlotTimeCriticalRate(num: Option<real>) returns (ok: bool)
      modifies this`tcRate
      ensures ok <==> num.Some? && num.value > 0.0
      ensures tcRate == if ok then num.value else old(tcRate)
      ensures old(Valid()) ==> Valid()
    {
      ok := false;
      if num.Some? {
        var rate := num.value;
        if rate > 0.0 {
          tcRate := rate;
          ok := true;
        }
      }
    }

    /** setSlotTimeCriticalPri(): only a priority in [0, 1] is accepted. */
    method SetSlotTimeCriticalPri(num: Option<real>) returns (ok: bool)
      modifies this`tcPri
      ensures ok <==> num.Some? && InUnitRange(num.value)
      ensures tcPri == if ok then num.value else old(tcPri)
      ensures old(Valid()) ==> Valid()
    {
      ok := false;
      if num.Some? {
        var pri := num.value;
        if pri >= 0.0 && pri <= 1.0 {
          tcPri := pri;
          ok := true;
        }
      }
    }

    /** setSlotTimeCriticalStackSize(): only a size of zero or more is accepted. */
    method SetSlotTimeCriticalStackSize(num: Option<int32>) returns (ok: bool)
      modifies this`tcStackSize
      ensures ok <==> num.Some? && num.value >= 0
      ensures tcStackSize == if ok then num.value else old(tcStackSize)
    {
      ok := false;
      if num.Some? {
        var isize := num.value;
        if isize >= 0 {
          tcStackSize := isize;
          ok := true;
        }
      }
    }

    /** setSlotNetworkRate(): only a rate above zero is accepted. */
    method SetSlotNetworkRate(num: Option<real>) returns (ok: bool)
      modifies this`netRate
      ensures ok <==> num.Some? && num.value > 0.0
      ensures netRate == if ok then num.value else old(netRate)
      ensures old(Valid()) ==> Valid()
    {
      ok := false;
      if num.Some? {
        var rate := num.value;
        if rate > 0.0 {
          netRate := rate;
          ok := true;
        }
      }
    }

    /** setSlotNetworkPri(): only a priority in [0, 1] is accepted. */
    method SetSlotNetworkPri(num: Option<real>) returns (ok: bool)
      modifies this`netPri
      ensures ok <==> num.Some? && InUnitRange(num.value)
      ensures netPri == if ok then num.value else old(netPri)
      ensures old(Valid()) ==> Valid()
    {
      ok := false;
      if num.Some? {
        var pri := num.value;
        if pri >= 0.0 && pri <= 1.0 {
          netPri := pri;
          ok := true;
        }
      }
    }

    /** setSlotNetworkStackSize(): only a size of zero or more is accepted. */
    method SetSlotNetworkStackSize(num: Option<int32>) returns (ok: bool)
      modifies this`netStackSize
      ensures ok <==> num.Some? && num.value >= 0
      ensures netStackSize == if ok then num.value else old(netStackSize)
    {
      ok := false;
      if num.Some? {
        var isize := num.value;
        if isize >= 0 {
          netStackSize := isize;
          ok := true;
        }
      }
    }

    /** setSlotBackgroundRate(): a rate of zero (no thread) or more is accepted. */
    method SetSlotBackgroundRate(num: Option<real>) returns (ok: bool)
      modifies this`bgRate
      ensures ok <==> num.Some? && num.value >= 0.0
      ensures bgRate == if ok then num.value else old(bgRate)
      ensures old(Valid()) ==> Valid()
    {
      ok := false;
      if num.Some? {
        var rate := num.value;
        if rate >= 0.0 {
          bgRate := rate;
          ok := true;
        }
      }
    }

    /** setSlotBackgroundPri(): only a priority in [0, 1] is accepted. */
    method SetSlotBackgroundPri(num: Option<real>) returns (ok: bool)
      modifies this`bgPri
      ensures ok <==> num.Some? && InUnitRange(num.value)
      ensures bgPri == if ok then num.value else old(bgPri)
      ensures old(Valid()) ==> Valid()
    {
      ok := false;
      if num.Some? {
        var pri := num.value;
        if pri >= 0.0 && pri <= 1.0 {
          bgPri := pri;
          ok := true;
        }
      }
    }

    /** setSlotBackgroundStackSize(): only a size of zero or more is accepted. */
    method SetSlotBackgroundStackSize(num: Option<int32>) returns (ok: bool)
      modifies this`bgStackSize
      ensures ok <==> num.Some? && num.value >= 0
      ensures bgStackSize == if ok then num.value else old(bgStackSize)
    {
      ok := false;
      if num.Some? {
        var isize := num.value;
        if isize >= 0 {
          bgStackSize := isize;
          ok := true;
        }
      }
    }

    /** setSlotFastForwardRate(): only a rate of zero or more is accepted. */
    method SetSlotFastForwardRate(msg: Option<int32>) returns (ok: bool)
      modifies this`fastForwardRate
      ensures ok <==> msg.Some? && msg.value >= 0
      ensures fastForwardRate == if ok then msg.value else old(fastForwardRate)
    {
      ok := false;
      if msg.Some? {
        var ii := msg.value;
        if ii >= 0 {
          fastForwardRate := ii;
          ok := true;
        }
      }
    }

    /** setSlotEnableUpdateTimers(): the number's boolean value; a null number is refused. */
    method SetSlotEnableUpdateTimers(msg: Option<bool>) returns (ok: bool)
      modifies this`tmrUpdateEnbl
      ensures ok <==> msg.Some?
      ensures tmrUpdateEnbl == if ok then msg.value else old(tmrUpdateEnbl)
    {
      ok := false;
      if msg.Some? {
        tmrUpdateEnbl := msg.value;
        ok := true;
      }
    }
  }

  /**
   * With a network rate above zero, which is all the slot setter accepts
   * and what Station.Valid() keeps, the network half of updateData() only
   * ever creates the thread; it never runs the network frames inline.
   */
  lemma ValidStationNeverRunsNetworkInline(netRate: real, networks: Option<seq<NetHandle>>, haveNet: bool,
                                           netPri: real, netStack: uint32, dt: real)
    requires netRate > 0.0
    ensures forall a :: a in NetworkPart(netRate, networks, haveNet, netPri, netStack, dt) ==> a.ThreadCreate?
  {
  }
}
