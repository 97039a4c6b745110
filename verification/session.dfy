/**
  Listening sessions of one `OpenCloseDetector`. The detector's own fields are
  the listener it was built with, whether its late-initialised sensor manager
  has been assigned, and whether the platform reported a rotation sensor.
  `start` attaches the listener to the shared companion object and registers
  the companion with the sensor manager, both only when a rotation sensor
  exists; `stop` detaches the listener and unregisters the companion. The
  sensor produces samples all the time, but the companion hears them only
  while it is registered. The activity calls `start` when it resumes and
  `stop` when it pauses.
 */
module Session {
  import opened Hysteresis

  /** One detector instance: its constructor's listener, whether the
      `lateinit` sensor manager has been assigned, and whether
      `rotationSensor` is non-null. */
  datatype Detector = Detector(owner: ListenerId, managerAssigned: bool, hasRotationSensor: bool)

  /** A detector, the companion object it writes, and whether the companion
      is registered with the sensor manager. */
  datatype System = System(detector: Detector, shared: Shared, registered: bool)

  /** What the outside world does next: resume the activity (the platform
      reports whether a rotation sensor exists), pause it, or produce a sensor
      sample, which reaches the companion only while it is registered. */
  datatype Command = Resume(sensorPresent: bool) | Pause | Sense(sample: Sample)

  datatype PlayResult = PlayResult(system: System, events: seq<Event>)

  /** A freshly constructed detector next to a freshly loaded, unregistered
      companion. */
  function Boot(owner: ListenerId): System {
    System(Detector(owner, false, false), Initial, false)
  }

  /** Attaching and registering happen together, and only when a rotation
      sensor exists; otherwise both are left as they were. `isOpen` is never
      reset. */
  function Start(sys: System, sensorPresent: bool): (r: System)
    ensures r.detector == sys.detector.(managerAssigned := true, hasRotationSensor := sensorPresent)
    ensures r.shared.isOpen == sys.shared.isOpen
    ensures sensorPresent ==> r.shared.listener == Some(sys.detector.owner) && r.registered
    ensures !sensorPresent ==> r.shared.listener == sys.shared.listener && r.registered == sys.registered
  {
    var d := sys.detector.(managerAssigned := true, hasRotationSensor := sensorPresent);
    if sensorPresent then System(d, sys.shared.(listener := Some(d.owner)), true)
    else System(d, sys.shared, sys.registered)
  }

  /** Detaches whatever listener is attached and unregisters the companion.
      The sensor manager must have been assigned by an earlier `start`: it is
      a `lateinit` property. */
  function Stop(sys: System): (r: System)
    requires sys.detector.managerAssigned
    ensures r.detector == sys.detector
    ensures r.shared == sys.shared.(listener := None)
    ensures !r.registered
  {
    System(sys.detector, sys.shared.(listener := None), false)
  }

  /** Every `Pause` is preceded by some `Resume`, or by an assigned manager. */
  predicate Playable(ready: bool, cmds: seq<Command>)
    decreases |cmds|
  {
    cmds == [] ||
    match cmds[0]
    case Resume(_) => Playable(true, cmds[1..])
    case Pause => ready && Playable(ready, cmds[1..])
    case Sense(_) => Playable(ready, cmds[1..])
  }

  /** The samples among `cmds` that reach the companion, in order, when it
      starts out registered or not as `reg` says. */
  function Delivered(reg: bool, cmds: seq<Command>): (xs: seq<Sample>)
    ensures |xs| <= |cmds|
    decreases |cmds|
  {
    if cmds == [] then []
    else
      match cmds[0]
      case Resume(present) => Delivered(reg || present, cmds[1..])
      case Pause => Delivered(false, cmds[1..])
      case Sense(x) => (if reg then [x] else []) + Delivered(reg, cmds[1..])
  }

  /** The listener reference is either empty or this detector's own, and a
      listener is attached exactly while the companion is registered. */
  predicate Coherent(sys: System) {
    && (sys.shared.listener.Some? ==> sys.shared.listener.value == sys.detector.owner)
    && (sys.registered <==> sys.shared.listener.Some?)
  }

  /** Executes `cmds`, collecting the notifications made to the listener. */
  function Play(sys: System, cmds: seq<Command>): (r: PlayResult)
    requires Playable(sys.detector.managerAssigned, cmds)
    ensures r.system.detector.owner == sys.detector.owner
    ensures sys.detector.managerAssigned ==> r.system.detector.managerAssigned
    ensures Coherent(sys) ==> Coherent(r.system)
    ensures |r.events| <= |Delivered(sys.registered, cmds)|
    decreases |cmds|
  {
    if cmds == [] then PlayResult(sys, [])
    else
      match cmds[0]
      case Resume(present) => Play(Start(sys, present), cmds[1..])
      case Pause => Play(Stop(sys), cmds[1..])
      case Sense(x) =>
        if sys.registered then
          var st := Step(sys.shared, x);
          var rest := Play(sys.(shared := st.state), cmds[1..]);
          PlayResult(rest.system, Emitted(st.emitted) + rest.events)
        else Play(sys, cmds[1..])
  }

  /** Stopping twice is the same as stopping once. */
  lemma StopIdempotent(sys: System)
    requires sys.detector.managerAssigned
    ensures Stop(Stop(sys)) == Stop(sys)
  {
  }

  /** Starting twice with the same sensor answer is the same as starting once. */
  lemma StartIdempotent(sys: System, present: bool)
    ensures Start(Start(sys, present), present) == Start(sys, present)
  {
  }

  /** Once a detector has started, its sensor manager stays assigned, so
      every later command sequence, including any number of stops, is valid. */
  lemma {:induction false} PlayableOnceStarted(cmds: seq<Command>)
    ensures Playable(true, cmds)
    decreases |cmds|
  {
    if cmds != [] {
      PlayableOnceStarted(cmds[1..]);
    }
  }

  /** `isOpen` outlives sessions: starting and stopping never touch it, so
      after any command sequence it is where the delivered samples alone,
      fed to the starting state, would have put it. */
  lemma {:induction false} PlayCarriesOpenState(sys: System, cmds: seq<Command>)
    requires Playable(sys.detector.managerAssigned, cmds)
    ensures Play(sys, cmds).system.shared.isOpen == Run(sys.shared, Delivered(sys.registered, cmds)).state.isOpen
    decreases |cmds|
  {
    if cmds != [] {
      var rest := cmds[1..];
      match cmds[0]
      case Resume(present) =>
        var t := Start(sys, present);
        PlayCarriesOpenState(t, rest);
        RunStateIgnoresListener(sys.shared, Delivered(t.registered, rest), t.shared.listener);
        assert t.shared == sys.shared.(listener := t.shared.listener);
      case Pause =>
        var t := Stop(sys);
        PlayCarriesOpenState(t, rest);
        RunStateIgnoresListener(sys.shared, Delivered(false, rest), None);
      case Sense(x) =>
        if sys.registered {
          var st := Step(sys.shared, x);
          PlayCarriesOpenState(sys.(shared := st.state), rest);
          assert Delivered(sys.registered, cmds) == [x] + Delivered(true, rest);
          assert ([x] + Delivered(true, rest))[1..] == Delivered(true, rest);
        } else {
          PlayCarriesOpenState(sys, rest);
          assert Delivered(sys.registered, cmds) == [] + Delivered(false, rest);
          assert [] + Delivered(false, rest) == Delivered(false, rest);
        }
    }
  }

  /** Across any number of sessions the listener's notifications strictly
      alternate, the first leaving the starting state; every change of state
      is announced, so the last notification names the final state and no
      notification means no change. */
  lemma {:induction false} PlayAlternates(sys: System, cmds: seq<Command>)
    requires Coherent(sys)
    requires Playable(sys.detector.managerAssigned, cmds)
    ensures AlternatesFrom(sys.shared.isOpen, Play(sys, cmds).events)
    ensures Play(sys, cmds).events == [] ==> Play(sys, cmds).system.shared.isOpen == sys.shared.isOpen
    ensures var r := Play(sys, cmds);
      r.events != [] ==> r.events[|r.events| - 1] == Announce(r.system.shared.isOpen)
    decreases |cmds|
  {
    if cmds != [] {
      var rest := cmds[1..];
      match cmds[0]
      case Resume(present) =>
        PlayAlternates(Start(sys, present), rest);
      case Pause =>
        PlayAlternates(Stop(sys), rest);
      case Sense(x) =>
        if sys.registered {
          var st := Step(sys.shared, x);
          var t := sys.(shared := st.state);
          var r := Play(t, rest);
          PlayAlternates(t, rest);
          assert Play(sys, cmds) == PlayResult(r.system, Emitted(st.emitted) + r.events);
          if st.emitted.Some? {
            AlternationPrepend(sys.shared.isOpen, st.emitted.value, r.events);
          } else {
            assert st.state == sys.shared;
            assert Emitted(st.emitted) + r.events == r.events;
          }
        } else {
          PlayAlternates(sys, rest);
        }
    }
  }

  /** From a fresh boot, whatever the activity does, the listener hears
      Open, Close, Open, ... in that order. */
  lemma BootedEventsAlternate(owner: ListenerId, cmds: seq<Command>)
    requires Playable(false, cmds)
    ensures var es := Play(Boot(owner), cmds).events;
      forall i :: 0 <= i < |es| ==> es[i] == (if i % 2 == 0 then Open else Close)
  {
    PlayAlternates(Boot(owner), cmds);
    AlternatesPointwise(false, Play(Boot(owner), cmds).events);
  }

  /** Within one registered session the listener hears exactly what `Run`
      announces for the sensed samples, and the companion ends where `Run`
      ends. */
  lemma {:induction false} SessionMatchesRun(sys: System, cmds: seq<Command>)
    requires sys.registered
    requires Playable(sys.detector.managerAssigned, cmds)
    requires forall i :: 0 <= i < |cmds| ==> cmds[i].Sense?
    ensures Play(sys, cmds).events == Run(sys.shared, Delivered(true, cmds)).events
    ensures Play(sys, cmds).system.shared == Run(sys.shared, Delivered(true, cmds)).state
    decreases |cmds|
  {
    if cmds != [] {
      var x := cmds[0].sample;
      var st := Step(sys.shared, x);
      SessionMatchesRun(sys.(shared := st.state), cmds[1..]);
      assert Delivered(true, cmds) == [x] + Delivered(true, cmds[1..]);
      assert ([x] + Delivered(true, cmds[1..]))[1..] == Delivered(true, cmds[1..]);
    }
  }

  const High: Sample := Sample(RotationVectorType, 90.0)
  const Low: Sample := Sample(RotationVectorType, 5.0)

  /** A new session starts from the previous session's state, so its first
      notification can be `Close`. */
  lemma ResumedSessionMayBeginWithClose(owner: ListenerId)
    ensures var cmds := [Resume(true), Sense(High), Pause, Resume(true), Sense(Low)];
      Playable(false, cmds) && Play(Boot(owner), cmds).events == [Open, Close]
  {
    var cmds := [Resume(true), Sense(High), Pause, Resume(true), Sense(Low)];
    PlayableOnceStarted(cmds[1..]);
    var s1 := Start(Boot(owner), true);
    var s2 := s1.(shared := Shared(true, Some(owner)));
    var s3 := Stop(s2);
    var s4 := Start(s3, true);
    assert Play(s4, cmds[4..]).events == [Close];
    assert Play(s2, cmds[2..]).events == [Close];
    assert Play(s1, cmds[1..]).events == [Open, Close];
  }

  /** A sample sensed while paused never reaches the companion: it neither
      moves the state nor is announced. */
  lemma PausedSampleUnheard(owner: ListenerId)
    ensures var cmds := [Resume(true), Sense(High), Pause, Sense(Low), Resume(true), Sense(High)];
      Playable(false, cmds) && Play(Boot(owner), cmds).events == [Open]
      && Play(Boot(owner), cmds).system.shared == Shared(true, Some(owner))
  {
    var cmds := [Resume(true), Sense(High), Pause, Sense(Low), Resume(true), Sense(High)];
    PlayableOnceStarted(cmds[1..]);
    var s1 := Start(Boot(owner), true);
    var s2 := s1.(shared := Shared(true, Some(owner)));
    var s3 := Stop(s2);
    var s5 := Start(s3, true);
    assert Play(s5, cmds[5..]) == PlayResult(s5, []);
    assert Play(s3, cmds[3..]) == PlayResult(s5, []);
    assert Play(s1, cmds[1..]) == PlayResult(s5, [Open]);
  }

  /** Without a rotation sensor the companion is never registered and no
      listener is attached: nothing is heard, nothing is announced and the
      companion state never changes. */
  lemma {:induction false} NoSensorNoEvents(sys: System, cmds: seq<Command>)
    requires !sys.registered && sys.shared.listener.None?
    requires Playable(sys.detector.managerAssigned, cmds)
    requires forall i :: 0 <= i < |cmds| ==> cmds[i] != Resume(true)
    ensures Play(sys, cmds).events == []
    ensures Play(sys, cmds).system.shared == sys.shared
    ensures !Play(sys, cmds).system.registered
    decreases |cmds|
  {
    if cmds != [] {
      var rest := cmds[1..];
      assert forall i :: 0 <= i < |rest| ==> rest[i] == cmds[i + 1];
      match cmds[0]
      case Resume(present) =>
        NoSensorNoEvents(Start(sys, present), rest);
      case Pause =>
        NoSensorNoEvents(Stop(sys), rest);
      case Sense(x) =>
        NoSensorNoEvents(sys, rest);
    }
  }
}
