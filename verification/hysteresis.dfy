/**
  The open/close gesture detector of the FeedMe app: a two-state hysteresis
  machine that consumes rotation-vector samples, reduced here to a sensor-type
  tag and a pitch in degrees, and notifies an optional listener of `Open` and
  `Close` transitions.

  The state is the detector's companion object, shared by every detector
  instance: the flag `isOpen` and the listener reference that `start` and
  `stop` write. A sample is processed by the pure function `Step`; a stream of
  samples by the fold `Run`.
 */
module Hysteresis {

  /** The platform's type code for rotation-vector samples (Android's
      `Sensor.TYPE_ROTATION_VECTOR`). Only its identity matters here. */
  const RotationVectorType: int := 11

  /** A closed detector opens on a pitch strictly above this many degrees. */
  const OpenAbove: real := 80.0

  /** An open detector closes on a pitch strictly below this many degrees. */
  const CloseBelow: real := 10.0

  datatype Option<+T> = None | Some(value: T)

  /** Identity of an `OpenCloseEventListener` object. */
  type ListenerId = nat

  /** One sensor callback: the sensor's type tag and the pitch, in degrees,
      that the platform's orientation conversion derives from its values. */
  datatype Sample = Sample(sensorType: int, pitch: real)

  /** The two notifications of the listener interface. */
  datatype Event = Open | Close

  /** The companion object's state: `isOpen` and the attached listener. */
  datatype Shared = Shared(isOpen: bool, listener: Option<ListenerId>)

  /** The companion object as the program loads it: closed, nobody listening. */
  const Initial: Shared := Shared(false, None)

  datatype StepResult = StepResult(state: Shared, emitted: Option<Event>)

  datatype RunResult = RunResult(state: Shared, events: seq<Event>)

  /** The notification that reports arriving in state `open`. */
  function Announce(open: bool): Event {
    if open then Open else Close
  }

  predicate IsRotation(x: Sample) {
    x.sensorType == RotationVectorType
  }

  /** True when `x` moves a detector in state `open` to the other state. */
  predicate Crosses(open: bool, x: Sample) {
    IsRotation(x) && (if open then x.pitch < CloseBelow else x.pitch > OpenAbove)
  }

  function Emitted(e: Option<Event>): seq<Event> {
    match e
    case None => []
    case Some(ev) => [ev]
  }

  /** Sets `isOpen` to `open` and notifies the attached listener, if there is
      one; with no listener the change is silent. */
  function Enter(s: Shared, open: bool): StepResult {
    StepResult(s.(isOpen := open), if s.listener.Some? then Some(Announce(open)) else None)
  }

  /** The sample callback. Foreign sensor types are dropped; otherwise a pitch
      above the opening threshold opens a closed detector, a pitch below the
      closing threshold closes an open one, and anything else changes nothing. */
  function Step(s: Shared, x: Sample): (r: StepResult)
    // a sample never touches the listener reference
    ensures r.state.listener == s.listener
    // the thresholds force the state ...
    ensures IsRotation(x) && x.pitch > OpenAbove ==> r.state.isOpen
    ensures IsRotation(x) && x.pitch < CloseBelow ==> !r.state.isOpen
    // ... and the state moves only when a threshold is crossed
    ensures r.state.isOpen != s.isOpen <==> Crosses(s.isOpen, x)
    // exactly one notification per change, and only to an attached listener
    ensures r.emitted.Some? <==> s.listener.Some? && r.state.isOpen != s.isOpen
    ensures r.emitted.Some? ==> r.emitted.value == Announce(r.state.isOpen)
  {
    if x.sensorType != RotationVectorType then StepResult(s, None)
    else if x.pitch > OpenAbove then
      if !s.isOpen then Enter(s, true) else StepResult(s, None)
    else if x.pitch < CloseBelow then
      if s.isOpen then Enter(s, false) else StepResult(s, None)
    else StepResult(s, None)
  }

  /** Feeds `xs` to the callback in order, collecting the notifications. */
  function Run(s: Shared, xs: seq<Sample>): (r: RunResult)
    ensures r.state.listener == s.listener
    ensures s.listener.None? ==> r.events == []
    ensures |r.events| <= |xs|
    decreases |xs|
  {
    if xs == [] then RunResult(s, [])
    else
      var first := Step(s, xs[0]);
      var rest := Run(first.state, xs[1..]);
      RunResult(rest.state, Emitted(first.emitted) + rest.events)
  }

  /** `es` strictly alternates and its first event leaves state `open`. */
  predicate AlternatesFrom(open: bool, es: seq<Event>)
    decreases |es|
  {
    es == [] || (es[0] == Announce(!open) && AlternatesFrom(!open, es[1..]))
  }

  /** Opening on a high pitch. */
  lemma OpensAboveThreshold(s: Shared, x: Sample)
    requires !s.isOpen && IsRotation(x) && x.pitch > OpenAbove
    ensures Step(s, x).state == s.(isOpen := true)
    ensures Step(s, x).emitted == (if s.listener.Some? then Some(Open) else None)
  {
  }

  /** Closing on a low pitch. */
  lemma ClosesBelowThreshold(s: Shared, x: Sample)
    requires s.isOpen && IsRotation(x) && x.pitch < CloseBelow
    ensures Step(s, x).state == s.(isOpen := false)
    ensures Step(s, x).emitted == (if s.listener.Some? then Some(Close) else None)
  {
  }

  /** Both thresholds are strict: 10 and 80 themselves are in the dead zone. */
  lemma DeadZoneIsInert(s: Shared, x: Sample)
    requires CloseBelow <= x.pitch <= OpenAbove
    ensures Step(s, x) == StepResult(s, None)
  {
  }

  /** Samples from any other sensor are discarded without effect. */
  lemma ForeignSampleIgnored(s: Shared, x: Sample)
    requires !IsRotation(x)
    ensures Step(s, x) == StepResult(s, None)
  {
  }

  /** Repeating a sample changes nothing further and notifies nobody. */
  lemma StepIdempotent(s: Shared, x: Sample)
    ensures Step(Step(s, x).state, x) == StepResult(Step(s, x).state, None)
  {
  }

  /** A second sample on the same side of the same threshold is silent:
      90 then 95 degrees while closed gives one `Open`. */
  lemma SameSideTwiceSilent(s: Shared, x: Sample, y: Sample)
    requires IsRotation(x) && IsRotation(y)
    requires (x.pitch > OpenAbove && y.pitch > OpenAbove) || (x.pitch < CloseBelow && y.pitch < CloseBelow)
    ensures Step(Step(s, x).state, y) == StepResult(Step(s, x).state, None)
  {
  }

  /** With no listener attached the state still moves by the same rules as
      with one, but nothing is announced. */
  lemma DetachedStepSilent(s: Shared, x: Sample, l: ListenerId)
    requires s.listener.None?
    ensures Step(s, x).emitted.None?
    ensures Step(s, x).state.isOpen == Step(s.(listener := Some(l)), x).state.isOpen
  {
  }

  /** Concrete steps: 85 degrees opens a closed detector, 45 leaves an open
      one open, 5 closes it, and 90 then 95 opens exactly once. */
  lemma ConcreteSteps(l: ListenerId)
    ensures Step(Shared(false, Some(l)), Sample(RotationVectorType, 85.0)) == StepResult(Shared(true, Some(l)), Some(Open))
    ensures Step(Shared(true, Some(l)), Sample(RotationVectorType, 45.0)) == StepResult(Shared(true, Some(l)), None)
    ensures Step(Shared(true, Some(l)), Sample(RotationVectorType, 5.0)) == StepResult(Shared(false, Some(l)), Some(Close))
    ensures Run(Shared(false, Some(l)), [Sample(RotationVectorType, 90.0), Sample(RotationVectorType, 95.0)]).events == [Open]
  {
  }

  /** Running `xs + ys` is running `xs`, then `ys` from where it stopped. */
  lemma {:induction false} RunAppend(s: Shared, xs: seq<Sample>, ys: seq<Sample>)
    ensures Run(s, xs + ys).state == Run(Run(s, xs).state, ys).state
    ensures Run(s, xs + ys).events == Run(s, xs).events + Run(Run(s, xs).state, ys).events
    decreases |xs|
  {
    if xs == [] {
      assert xs + ys == ys;
    } else {
      var first := Step(s, xs[0]);
      assert (xs + ys)[0] == xs[0];
      assert (xs + ys)[1..] == xs[1..] + ys;
      RunAppend(first.state, xs[1..], ys);
    }
  }

  /** The listener has no say in where the state goes: only in who hears of it. */
  lemma {:induction false} RunStateIgnoresListener(s: Shared, xs: seq<Sample>, l: Option<ListenerId>)
    ensures Run(s, xs).state.isOpen == Run(s.(listener := l), xs).state.isOpen
    decreases |xs|
  {
    if xs != [] {
      var t := Step(s, xs[0]).state;
      var u := Step(s.(listener := l), xs[0]).state;
      assert u == t.(listener := l);
      RunStateIgnoresListener(t, xs[1..], l);
    }
  }

  /** The last notification of a run names the state the run ends in, and a
      run that notified an attached listener of nothing ended where it began. */
  predicate EndsAgree(s: Shared, r: RunResult) {
    && (s.listener.Some? && r.events == [] ==> r.state.isOpen == s.isOpen)
    && (r.events != [] ==> r.events[|r.events| - 1] == Announce(r.state.isOpen))
  }

  /** With a listener attached, the notifications strictly alternate, the
      first one leaves the starting state, and the last one names the final
      state; no notification means no change of state. */
  lemma {:induction false} RunAlternates(s: Shared, xs: seq<Sample>)
    ensures AlternatesFrom(s.isOpen, Run(s, xs).events)
    ensures EndsAgree(s, Run(s, xs))
    decreases |xs|
  {
    if xs != [] && s.listener.Some? {
      var first := Step(s, xs[0]);
      var rest := Run(first.state, xs[1..]);
      RunAlternates(first.state, xs[1..]);
      assert Run(s, xs) == RunResult(rest.state, Emitted(first.emitted) + rest.events);
      if first.emitted.Some? {
        AlternationPrepend(s.isOpen, first.emitted.value, rest.events);
      } else {
        assert first.state == s;
        assert Emitted(first.emitted) + rest.events == rest.events;
      }
    }
  }

  lemma AlternationPrepend(open: bool, e: Event, es: seq<Event>)
    requires e == Announce(!open)
    requires AlternatesFrom(!open, es)
    ensures AlternatesFrom(open, [e] + es)
  {
    assert ([e] + es)[1..] == es;
  }

  /** The alternation spelled out position by position. */
  lemma {:induction false} AlternatesPointwise(open: bool, es: seq<Event>)
    requires AlternatesFrom(open, es)
    ensures forall i :: 0 <= i < |es| ==> es[i] == Announce(if i % 2 == 0 then !open else open)
    decreases |es|
  {
    if es != [] {
      AlternatesPointwise(!open, es[1..]);
      forall i | 0 < i < |es|
        ensures es[i] == Announce(if i % 2 == 0 then !open else open)
      {
        assert es[i] == es[1..][i - 1];
        assert (i - 1) % 2 == 0 <==> i % 2 != 0;
      }
    }
  }

  /** From the initial closed state with a listener attached, every sample
      stream yields Open, Close, Open, ...: each `Close` follows an `Open`. */
  lemma InitialEventsAlternate(l: ListenerId, xs: seq<Sample>)
    ensures var es := Run(Initial.(listener := Some(l)), xs).events;
      forall i :: 0 <= i < |es| ==> es[i] == (if i % 2 == 0 then Open else Close)
  {
    RunAlternates(Initial.(listener := Some(l)), xs);
    AlternatesPointwise(false, Run(Initial.(listener := Some(l)), xs).events);
  }

  /** A notification is never spontaneous: the first one is made by the
      first sample that crosses the threshold out of the starting state.
      Every sample before it is silent and leaves the state alone. */
  lemma {:induction false} FirstEventHasCause(s: Shared, xs: seq<Sample>)
    requires Run(s, xs).events != []
    ensures exists j ::
      && 0 <= j < |xs| && Crosses(s.isOpen, xs[j])
      && Run(s, xs[..j]) == RunResult(s, [])
      && Run(s, xs[..j + 1]).events == [Announce(!s.isOpen)]
    decreases |xs|
  {
    var first := Step(s, xs[0]);
    if first.emitted.Some? {
      assert xs[..0] == [];
      assert xs[..1] == [xs[0]];
      assert Run(s, xs[..1]) == RunResult(first.state, Emitted(first.emitted) + Run(first.state, []).events);
    } else {
      assert first.state == s;
      FirstEventHasCause(s, xs[1..]);
      var j :|
        && 0 <= j < |xs[1..]| && Crosses(s.isOpen, xs[1..][j])
        && Run(s, xs[1..][..j]) == RunResult(s, [])
        && Run(s, xs[1..][..j + 1]).events == [Announce(!s.isOpen)];
      assert xs[j + 1] == xs[1..][j];
      assert xs[..j + 1][0] == xs[0] && xs[..j + 1][1..] == xs[1..][..j];
      assert xs[..j + 2][0] == xs[0] && xs[..j + 2][1..] == xs[1..][..j + 1];
      assert Run(s, xs[..j + 1]) == RunResult(s, []);
      assert Run(s, xs[..j + 2]).events == [Announce(!s.isOpen)];
    }
  }

  /** Conversely, with a listener attached a stream that contains a sample
      crossing out of the starting state always produces a notification. */
  lemma {:induction false} CrossingIsAnnounced(s: Shared, xs: seq<Sample>, j: nat)
    requires s.listener.Some?
    requires j < |xs| && Crosses(s.isOpen, xs[j])
    ensures Run(s, xs).events != []
    decreases j
  {
    var first := Step(s, xs[0]);
    if first.emitted.None? {
      assert first.state == s;
      assert xs[1..][j - 1] == xs[j];
      CrossingIsAnnounced(s, xs[1..], j - 1);
    }
  }

  /** The callback as the program runs it: one mutable flag updated sample by
      sample, with notifications appended as they are made. */
  method Listen(s: Shared, xs: seq<Sample>) returns (final: Shared, events: seq<Event>)
    ensures final == Run(s, xs).state
    ensures events == Run(s, xs).events
    ensures AlternatesFrom(s.isOpen, events)
  {
    final, events := s, [];
    for i := 0 to |xs|
      invariant final == Run(s, xs[..i]).state
      invariant events == Run(s, xs[..i]).events
    {
      RunAppend(s, xs[..i], [xs[i]]);
      assert xs[..i + 1] == xs[..i] + [xs[i]];
      var r := Step(final, xs[i]);
      final := r.state;
      events := events + Emitted(r.emitted);
    }
    assert xs[..|xs|] == xs;
    RunAlternates(s, xs);
  }
}
