# FeedMe open/close detector in Dafny

The FeedMe Android app detects an open/close gesture from the device's
rotation-vector sensor. `OpenCloseDetector` converts each sample to a
pitch angle and runs it through a two-threshold hysteresis machine that lives in
the detector's companion object `listener`. That object holds `isOpen` and the
attached `OpenCloseEventListener`:

- a pitch strictly above 80 degrees opens a closed detector and calls `onOpen`;
- a pitch strictly below 10 degrees closes an open detector and calls `onClose`;
- every other pitch, and every sample from a sensor other than the rotation vector,
  changes nothing.

The listener call uses `?.`, so the state changes even when no listener is
attached. `start` attaches the detector's listener only when the platform has
a rotation sensor. `stop` detaches it. Nothing ever resets `isOpen`.

The project has two modules:

- `Hysteresis` (`hysteresis.dfy`) holds the companion state `Shared`, the
  sample callback as the pure function `Step`, and its fold `Run` over a
  sequence of samples. Around them sit lemmas about the single step (opening,
  closing, dead zone, foreign sensors, idempotence, the silent detached case)
  and about whole runs: strict alternation, the last event naming the final
  state, with a listener attached, a notification being made exactly when the
  stream holds a sample that crosses out of the starting state, and the listener having no
  influence on the state. `Listen` is the imperative form of the callback
  loop, proved equal to `Run`.
- `Session` (`session.dfy`) holds the per-instance detector fields (`owner`,
  the `lateinit` sensor manager, `rotationSensor`), whether the companion is
  registered with the sensor manager, and `Start`/`Stop`. `start` registers
  the companion only together with attaching the listener (lines 107-109) and
  `stop` unregisters it (line 115). `Play` executes the activity's lifecycle
  (resume, pause) interleaved with sensor samples, and a sample reaches the
  companion only while it is registered. Its lemmas show that `isOpen`
  carries across sessions and that the listener's notifications alternate
  across any number of sessions.

Two behaviours of the code are easy to miss:

- Calling `stop` before any `start` is not safe, because `sensorManager` is
  `lateinit` (MainActivity.kt:67, 115). `Stop` therefore requires an assigned
  manager.
- A new session does not begin closed. `start` never resets `isOpen`
  (MainActivity.kt:74, 104-111), so a resumed session can begin with `Close`.

## Model

| member | source | states |
|---|---|---|
| Hysteresis.Step | app/src/main/java/com/example/feedme/MainActivity.kt:77-97 | A sample never touches the listener reference. A rotation sample above 80 leaves the detector open, and one below 10 leaves it closed. The state changes exactly when the sample crosses the threshold out of the current state. A notification is made exactly when the state changed and a listener is attached, and it names the new state. |
| Hysteresis.Run | app/src/main/java/com/example/feedme/MainActivity.kt:75-97 | Feeding a sample stream keeps the listener reference. With no listener attached the stream produces no notification. There are never more notifications than samples. |
| Hysteresis.OpensAboveThreshold | app/src/main/java/com/example/feedme/MainActivity.kt:86-90 | From closed, a rotation sample with pitch above 80 sets `isOpen` and emits exactly one `Open`, or nothing when no listener is attached. |
| Hysteresis.ClosesBelowThreshold | app/src/main/java/com/example/feedme/MainActivity.kt:91-95 | From open, a rotation sample with pitch below 10 clears `isOpen` and emits exactly one `Close`, or nothing when no listener is attached. |
| Hysteresis.DeadZoneIsInert | app/src/main/java/com/example/feedme/MainActivity.kt:86-96 | A pitch in the closed interval [10, 80], both ends included, changes nothing and emits nothing, whatever the prior state and sensor type. |
| Hysteresis.ForeignSampleIgnored | app/src/main/java/com/example/feedme/MainActivity.kt:78-80 | A sample from any sensor other than the rotation vector leaves the state unchanged and emits nothing. |
| Hysteresis.StepIdempotent | app/src/main/java/com/example/feedme/MainActivity.kt:86-96 | Feeding the same sample again changes nothing further and emits nothing. |
| Hysteresis.SameSideTwiceSilent | app/src/main/java/com/example/feedme/MainActivity.kt:87-92 | A second consecutive sample past the same threshold, such as 90 then 95, is silent and leaves the state as the first one set it. |
| Hysteresis.DetachedStepSilent | app/src/main/java/com/example/feedme/MainActivity.kt:87-95 | With no listener attached, a sample emits nothing but moves `isOpen` exactly as it would with a listener. |
| Hysteresis.ConcreteSteps | app/src/main/java/com/example/feedme/MainActivity.kt:86-96 | Closed at 85 degrees opens with `Open`. Open at 45 stays open, silently. Open at 5 closes with `Close`. Closed at 90 then 95 emits a single `Open`. |
| Hysteresis.RunAppend | app/src/main/java/com/example/feedme/MainActivity.kt:77-97 | Processing `xs + ys` is processing `xs`, then `ys` from the state `xs` ended in. The notifications are concatenated in the same order. |
| Hysteresis.RunStateIgnoresListener | app/src/main/java/com/example/feedme/MainActivity.kt:87-95 | Any sample stream drives `isOpen` to the same final value whichever listener, or none, is attached. |
| Hysteresis.RunAlternates | app/src/main/java/com/example/feedme/MainActivity.kt:74-96 | The notifications of any sample stream strictly alternate, and the first one leaves the starting state. The last one names the final state. With a listener attached and no notification, the state did not change. |
| Hysteresis.InitialEventsAlternate | app/src/main/java/com/example/feedme/MainActivity.kt:74-96 | From the initial closed state, every even position of the event sequence is `Open` and every odd one is `Close`. So the sequence starts with `Open` and each `Close` follows an `Open`. |
| Hysteresis.FirstEventHasCause | app/src/main/java/com/example/feedme/MainActivity.kt:86-95 | If a stream produces any notification, it holds a rotation sample that crosses the threshold out of the starting state, from closed a pitch above 80 and from open a pitch below 10. Every sample before it is silent and leaves the state unchanged, and the prefix ending with it produces exactly one notification, the one leaving the starting state. So that sample causes the first notification. |
| Hysteresis.CrossingIsAnnounced | app/src/main/java/com/example/feedme/MainActivity.kt:86-95 | Conversely, with a listener attached, a stream holding a rotation sample that crosses out of the starting state always produces a notification. |
| Hysteresis.Listen | app/src/main/java/com/example/feedme/MainActivity.kt:77-97 | Updating one mutable flag sample by sample and appending notifications ends in the same state and event list as the fold `Run`, and those events alternate. |
| Session.Start | app/src/main/java/com/example/feedme/MainActivity.kt:104-111 | Assigns the sensor manager and records whether a rotation sensor exists. It attaches the detector's own listener only when that sensor exists, and otherwise leaves the listener reference as it was. It never changes `isOpen`. |
| Session.Stop | app/src/main/java/com/example/feedme/MainActivity.kt:113-116 | Callable only once `start` has assigned the sensor manager. Clears the listener reference, unregisters the companion, and changes nothing else. |
| Session.Play | app/src/main/java/com/example/feedme/MainActivity.kt:104-116 | The resume/pause/sample sequence keeps the detector's owner and a once-assigned sensor manager. From a coherent state, the listener reference stays empty or the detector's own, and a listener stays attached exactly while the companion is registered. There is at most one notification per sample that reaches the companion. |
| Session.StopIdempotent | app/src/main/java/com/example/feedme/MainActivity.kt:113-116 | After a `start`, stopping twice is the same as stopping once. |
| Session.PlayableOnceStarted | app/src/main/java/com/example/feedme/MainActivity.kt:104-116 | Once `start` has assigned the sensor manager, every later sequence of resumes, pauses and samples is valid, including repeated stops. |
| Session.StartIdempotent | app/src/main/java/com/example/feedme/MainActivity.kt:104-111 | Starting twice with the same sensor availability is the same as starting once. |
| Session.PlayCarriesOpenState | app/src/main/java/com/example/feedme/MainActivity.kt:70-116 | After any valid lifecycle sequence, `isOpen` equals the result of feeding the samples that reached the companion, alone, to the starting state, whatever was attached. Sessions never reset it. |
| Session.PlayAlternates | app/src/main/java/com/example/feedme/MainActivity.kt:74-116 | From a coherent state, across any number of pauses and resumes, the listener's notifications strictly alternate and the first leaves the starting state. Every change of state is announced: the last notification names the final state, and no notification means no change. |
| Session.BootedEventsAlternate | app/src/main/java/com/example/feedme/MainActivity.kt:74-116 | From a fresh detector and companion, whatever the activity does, the listener hears `Open` at every even position and `Close` at every odd one. |
| Session.SessionMatchesRun | app/src/main/java/com/example/feedme/MainActivity.kt:77-97 | Within one registered session the listener hears exactly what `Run` announces for the sensed samples, and the companion ends where `Run` ends. |
| Session.PausedSampleUnheard | app/src/main/java/com/example/feedme/MainActivity.kt:109-115 | A low pitch sensed while paused never reaches the unregistered companion. Open, pause, low pitch, resume, high pitch gives a single `Open`, and the detector stays open. |
| Session.ResumedSessionMayBeginWithClose | app/src/main/java/com/example/feedme/MainActivity.kt:104-111 | Because `isOpen` survives a pause, the first notification of a resumed session can be `Close`. |
| Session.NoSensorNoEvents | app/src/main/java/com/example/feedme/MainActivity.kt:104-111 | If the platform never reports a rotation sensor at `start`, no listener is ever attached and no notification is ever made. The companion is never registered, so no sample reaches it and its state never changes. |

## Left out

- Pitch derivation: the rotation matrix, the coordinate remap, the orientation
  angles and the radians-to-degrees conversion (MainActivity.kt:81-85) are
  platform floating-point calls. A sample carries its pitch directly as a `real`.
- Floating point: pitch is an exact real. A NaN pitch is not modelled; in
  the source it would compare false on both sides and fall into the dead zone.
- Sensor registration: `registerListener`, `unregisterListener` and the
  500000 microsecond sampling period (MainActivity.kt:109, 115) are OS plumbing.
  Only their effect is modelled: a `registered` flag that lets a sample reach
  the companion between a registering `start` and the next `stop`. Which
  samples the sensor produces, and when, is an input to `Play`.
- The sensor type code 11 is Android's value for the rotation vector. Only
  its difference from other codes matters.
- Session.Stop: the source assigns `null` to the listener (line 114) before the
  uninitialised `sensorManager` throws (line 115). The model makes calling
  `stop` before `start` a precondition instead, so that partial effect and
  the exception are not modelled.
- Several detector instances writing the shared companion object are not
  modelled: the model runs one detector, sequentially. Only with a second
  instance could the companion hear samples while no listener is attached.
  The callback-level lemmas `Hysteresis.DetachedStepSilent` and
  `Hysteresis.RunStateIgnoresListener` describe that case; `Session` never
  reaches it.
- `onAccuracyChanged` (MainActivity.kt:99-101) is an empty callback.
- The activity's UI (`MainContent`, `DefaultPreview`), its `println` callbacks,
  theming and the unconnected `capturing` toggle are presentation with no logic.
- The sample timestamp is unused by the source and not modelled.
