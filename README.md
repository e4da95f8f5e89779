# Smart dustbin controller, modelled in Dafny

The smart dustbin is three microcontroller sketches. Each one is modelled here
together with the properties its code promises.

- **ESP32.c**, the combined controller. Every pass of `loop()`:
  - it services its broker session;
  - every 200 ms it averages three valid proximity readings. It reports the
    average to the lid peer over serial (`D:<distance>`). When someone
    approaches or leaves, it sends an edge-triggered `O:1` / `O:0` command and
    publishes the lid state;
  - every 10 s it publishes the bin's fill percentage.

  On the first broker connection of its lifetime it publishes a retained seed
  on both topics.
- **FillLevel.c**, the fill-only controller. It publishes the fill level of a
  6 cm bin every 10 s. Its seed latch is set only when the seed publish reports
  success.
- **sensor.c**, the proximity-only controller. It works on `long` integers.
  It averages three samples per pass and reports the distance at most once a
  second. It drives the lid peer with the same edge-triggered commands.

The modules are:

- `Clock`: the 32-bit millisecond counter and the unsigned `now - last` gates.
- `Broker`: the event log, the topics, the serial commands and the three-attempt
  connect policy.
- `Ranger`: the echo-to-centimetre conversion.
- `Fill`: the fill-percentage formula with its clamp.
- `Esp32`, `FillLevel`, `Sensor`: one module per sketch. Each holds:
  - the sketch's pure logic: validation, averaging, the lid transition, the fill
    value, and one scheduler tick `Step` over a `State` value;
  - a class `Node`. Its fields are the sketch's globals and its methods are the
    sketch's functions. Each method is proved to move its fields and extend its
    log exactly as `Step` and its parts say.

Side effects are an append-only log of `Event`s. An event is a protocol line on
the serial link to the lid peer, or a call to `mqttClient.publish` with its topic, payload and
retained flag. The hardware's answers are parameters:

- echo durations in microseconds (0 on a `pulseIn` timeout);
- the broker's answers to `connect`;
- whether `mqttClient.loop()` keeps the session;
- whether FillLevel's seed publish succeeds;
- the values of `millis()`.

Behaviour of the code worth noting; the model follows it:

- The combined controller's retained seed carries the *current* lid state
  (`ESP32.c:124`), whichever it is.
- On the combined controller, an average of exactly 50 cm counts as far: an
  open lid closes (`ESP32.c:271`).
- The fill-only controller accepts any positive distance up to 400 cm
  (`FillLevel.c:137`). Unlike the combined controller, it has no 0.5 cm lower
  bound.
- The fill-only controller latches `firstReadingSent` only after a successful
  seed publish (`FillLevel.c:95-99`). After a failed seed publish, a later
  connection publishes the retained seed again.
- sensor.c does not validate readings at all: `pulseIn` timeouts average to
  0 cm, which opens the lid. Its report gate is strict (`> 1000`).

## Model

| member | source | states |
|---|---|---|
| Clock.Elapsed | ESP32.c:82 | `now - last` on `unsigned long`: the value `d` in [0, 2^32) with `last + d` congruent to `now` modulo 2^32 |
| Clock.Due | ESP32.c:82 | the scheduler gate `now - last >= interval`, on the unsigned difference (its meaning in real time is `GatesTolerateWrap`) |
| Clock.DueStrictly | sensor.c:50 | the strict gate `now - last > interval`, on the unsigned difference (its meaning in real time is `GatesTolerateWrap`) |
| Clock.ElapsedIsTimeSinceStamp | ESP32.c:82-91 | if `k < 2^32` ms passed since the stamp, the unsigned difference is exactly `k`, wrap or not |
| Clock.GatesTolerateWrap | ESP32.c:82-91 | the `>=` gate fires iff at least `interval` ms passed, and the `>` gate iff more than `interval` ms passed, also across a counter wrap |
| Broker.Command | ESP32.c:263-278 | the lid command is `O:1` exactly for open and `O:0` exactly for close |
| Broker.DistinctLiterals | ESP32.c:12-13 | the two topics are different strings, and so are the two commands |
| Broker.FailuresBeforeConnect | ESP32.c:110-135 | the number of failed `connect` calls is at most the budget (3), every counted call failed, and the call after them succeeded unless the budget ran out |
| Broker.ConnectsIffAnAttemptSucceeds | ESP32.c:111-118 | one `reconnectMQTT` ends connected iff one of its first three `connect` calls succeeds |
| Ranger.EchoToCm | ESP32.c:153 | the conversion `duration * 0.034 / 2` in exact reals; its linear form and its thresholds are the lemmas below |
| Ranger.EchoToCmIsLinear | ESP32.c:153 | `duration * 0.034 / 2` is the linear map `duration * 17 / 1000` |
| Ranger.BelowHalfCentimetre | ESP32.c:163 | the distance is below 0.5 cm iff the echo is shorter than 30 us |
| Ranger.NotPositive | FillLevel.c:137 | the distance is not positive iff the echo is not positive |
| Ranger.Beyond | ESP32.c:163 | the distance exceeds `limit` cm iff `duration * 17 > limit * 1000` |
| Fill.FillPercentage | ESP32.c:212-222 | a reading that is not positive or lies beyond the bin height gives the default; an accepted reading gives a value in [0, 100) equal to the unclamped `(height - reading) / height * 100` |
| Fill.FillPercentageInRange | ESP32.c:218-222 | with a default inside [0, 100], every fill value is inside [0, 100] |
| Fill.EmptyAtBinBottom | ESP32.c:218 | a reading equal to the bin height is 0 % |
| Fill.FillDecreasesWithDistance | ESP32.c:218 | among accepted readings, a nearer surface gives a strictly fuller bin |
| Esp32.MeasureDistance | ESP32.c:150-171 | the sentinel -1 is returned exactly for echoes outside 30..23529 us (timeout, below 0.5 cm, beyond 400 cm) |
| Esp32.AcceptedEchoWindow | ESP32.c:153-171 | an accepted reading is the echo converted to cm and lies in [0.5, 400]; every other echo gives the sentinel |
| Esp32.Accepted | ESP32.c:243-254 | the readings the averager keeps (`distances[i] > 0`), in order, are no more than the echoes read |
| Esp32.AcceptedInRange | ESP32.c:243-246 | every kept reading lies in [0.5, 400] cm |
| Esp32.AcceptedOfPrefix | ESP32.c:243-254 | the readings kept from a prefix of the echoes are a prefix of those kept from all of them |
| Esp32.ProximityAverage | ESP32.c:243-256 | the mean of the first three kept readings lies in [0.5, 400] cm |
| Esp32.AverageProximity | ESP32.c:240-256 | the resampling loop consumes echoes up to and including the third acceptable one, and returns the mean of the first three kept readings |
| Esp32.LidPayload | ESP32.c:191 | the lid payload is `OPEN` exactly when open and `CLOSED` exactly when closed |
| Esp32.LidTransition | ESP32.c:258-278 | a check always sends `D:` first; the lid ends open iff the average is below 50 cm; a steady state sends only the `D:` line; on a change it then sends the command and a non-retained publish of the new state |
| Esp32.LidTransitionCounts | ESP32.c:262-278 | a check issues one command and one non-retained lid publish exactly on a change of state, and nothing retained or on the fill topic |
| Esp32.LidTransitionSettles | ESP32.c:262-278 | a second check on the same average is steady and only reports the distance |
| Esp32.ThresholdIsOnTheClosedSide | ESP32.c:263-271 | an average of exactly 50 cm leaves the lid closed, closing it if it was open |
| Esp32.FillEvent | ESP32.c:204-236 | one non-retained fill publish per call: the default when the reading is invalid or beyond 42 cm, else the fill formula; always within [0, 100] |
| Esp32.FillEchoWindow | ESP32.c:212-222 | the default is published unless the echo is 30 to 2470 us; inside that window the value is below 100, and the longest accepted echo gives a value below 0.05 (printed `0.0`) |
| Esp32.SeedEvents | ESP32.c:122-125 | the retained seed pair: the default fill level on the fill topic, then the current lid state on the lid topic |
| Esp32.Reconnect | ESP32.c:109-136 | the session is up iff it was up or an attempt succeeds; the first connection with the latch clear publishes the retained default fill and the current lid state and latches; nothing else changes |
| Esp32.ProximityTask | ESP32.c:82-85 | the gated proximity task: when due, stamp the check time and run `LidTransition` on the average; otherwise nothing (its counts and publishes are the lemmas below) |
| Esp32.FillTask | ESP32.c:88-91 | the gated fill task: when due, stamp the publish time and publish `FillEvent`; otherwise nothing |
| Esp32.Step | ESP32.c:71-92 | each task, when its gate is due at the same `millis()` value, stamps only its own time; the lid state follows the average; the session is up after `mqttClient.loop()` as the attempts and the service allow (what the tick emits is `StepCounts`, `StepSerialTraffic` and `FillPublishEndsTick`) |
| Esp32.ReconnectCounts | ESP32.c:122-127 | reconnecting publishes nothing non-retained and no command; if it publishes, it publishes one retained message per topic |
| Esp32.ReconnectEvents | ESP32.c:122-127 | everything reconnecting logs is a retained publish, and its fill value is the default |
| Esp32.ProximityTaskCounts | ESP32.c:82-85 | the proximity task's commands and non-retained lid publishes are one each exactly on a lid change; it publishes nothing else |
| Esp32.ProximityTaskEvents | ESP32.c:82-85 | every publish of the proximity task is a non-retained lid publish of the state it ends in |
| Esp32.FillTaskCounts | ESP32.c:88-91 | the fill task publishes one non-retained fill level exactly when its gate is due, and nothing else |
| Esp32.StepCounts | ESP32.c:71-92 | one tick issues one lid command and one non-retained lid publish exactly on a lid change; one non-retained fill publish exactly when the fill gate is due; one retained publish per topic exactly on the first connection of the lifetime, else none |
| Esp32.StepLidCounts | ESP32.c:82-85 | the lid part of `StepCounts`: commands and non-retained lid publishes of a tick, one each exactly on a lid change |
| Esp32.StepFillCount | ESP32.c:88-91 | the fill part of `StepCounts`: one non-retained fill publish exactly when the fill gate is due |
| Esp32.StepRetainedCount | ESP32.c:122-127 | the retained part of `StepCounts`: one retained publish per topic exactly on the first connection |
| Esp32.ReconnectSerialTraffic | ESP32.c:109-136 | reconnecting emits no protocol line (`D:`, `O:1`, `O:0`) |
| Esp32.ProximityTaskSerialTraffic | ESP32.c:258-278 | among protocol lines (`D:`, `O:1`, `O:0`), a due proximity task emits the `D:` line with the average, then the command exactly on a lid change; a task not due emits none |
| Esp32.StepSerialTraffic | ESP32.c:71-92 | a tick emits no protocol line (`D:`, `O:1`, `O:0`) unless the proximity gate is due, and then exactly one `D:` line with the average, followed by the lid command exactly when the lid changes |
| Esp32.FillPublishEndsTick | ESP32.c:80-91 | proximity is checked before fill: on a due fill gate the tick's last event is the fill publish `FillEvent` |
| Esp32.StepLidPublishMirrorsState | ESP32.c:263-278 | every non-retained lid publish of a tick carries the lid state the tick ends in |
| Esp32.StepFillInRange | ESP32.c:71-92 | every fill publish of a tick, seed included, carries a value in [0, 100] |
| Esp32.StepKeepsSeeded | ESP32.c:118-127 | a live session always comes with the latch set, and a tick never clears the latch |
| Esp32.StepKeepsLatch | ESP32.c:122-127 | a tick never clears `firstReadingSent`, and sets it exactly on the first connection of the lifetime |
| Esp32.RunKeepsLatch | ESP32.c:122-127 | over any run of ticks the latch, once set, stays set |
| Esp32.Run | ESP32.c:71-92 | consecutive passes of `loop()`: each tick starts from the state the previous one left, and the logs are concatenated in order |
| Esp32.RetainedOncePerLifetime | ESP32.c:122-127 | over any run of ticks each topic receives exactly one retained publish if the latch was set during the run, and none otherwise |
| Esp32.Node.constructor | ESP32.c:41-45 | boot: both stamps 0, latch clear, lid closed, no session, empty log |
| Esp32.Node.PublishFillLevel | ESP32.c:174-188 | appends one publish on the fill topic with the given value and retained flag |
| Esp32.Node.PublishLidState | ESP32.c:190-202 | appends one publish of `OPEN`/`CLOSED` on the lid topic with the retained flag |
| Esp32.Node.ReconnectMqtt | ESP32.c:109-136 | the retry loop leaves the globals and the log as `Reconnect` says, and reports the failed attempts |
| Esp32.Node.CheckProximityAndControlLid | ESP32.c:238-279 | decides on the mean of the first three kept readings, then moves `isLidOpen` and extends the log as `LidTransition` says |
| Esp32.Node.MeasureAndPublishFillLevel | ESP32.c:204-236 | appends exactly the publish `FillEvent` describes |
| Esp32.Node.ServiceBroker | ESP32.c:72-75 | reconnects only when the session is down, then lets `mqttClient.loop()` keep or drop it |
| Esp32.Node.RunProximityTask | ESP32.c:82-85 | the gated proximity task, as `ProximityTask` says |
| Esp32.Node.RunFillTask | ESP32.c:88-91 | the gated fill task, as `FillTask` says |
| Esp32.Node.Loop | ESP32.c:71-92 | one pass of `loop()` moves the globals and extends the log exactly as `Step` says |
| FillLevel.MeasureDistance | FillLevel.c:122-142 | the sentinel -1 is returned exactly for echoes outside 1..23529 us (timeout, not positive, beyond 400 cm); accepted readings lie in (0, 400] |
| FillLevel.AcceptedEchoWindow | FillLevel.c:125-142 | an accepted reading is the echo converted to cm; every other echo gives the sentinel |
| FillLevel.FillEvent | FillLevel.c:161-194 | one non-retained fill publish per call: the default 10 when the reading is invalid or beyond 6 cm, else the fill formula; always within [0, 100] |
| FillLevel.FillEchoWindow | FillLevel.c:169-180 | the default is published unless the echo is 1 to 352 us; inside that window the value is below 100 |
| FillLevel.Reconnect | FillLevel.c:81-109 | the session is up iff it was up or an attempt succeeds; a connection with the latch clear publishes the retained default 10 on the fill topic (the constant `SEED`, FillLevel.c:95); the latch is set only if that publish succeeds |
| FillLevel.PublishTask | FillLevel.c:52-63 | the gated publish task: when due, stamp the publish time and publish `FillEvent` on the second echo; otherwise nothing |
| FillLevel.Step | FillLevel.c:45-64 | the publish task stamps its time exactly when its gate is due; the session is up as the attempts and `mqttClient.loop()` allow; on a due gate the tick's last event is the fill publish `FillEvent` |
| FillLevel.StepCounts | FillLevel.c:45-64 | a tick publishes one non-retained fill level exactly when its gate is due, one retained fill level exactly when it connects with the latch clear, nothing on the lid topic and no command |
| FillLevel.StepIgnoresDisplayedEcho | FillLevel.c:57-62 | the reading taken only for display changes nothing a tick does |
| FillLevel.LatchIsFinal | FillLevel.c:94-100 | once the latch is set it stays set, and a tick publishes nothing retained |
| FillLevel.SeedRetriedAfterFailedPublish | FillLevel.c:94-100 | a seed publish that fails leaves the latch clear, so the next connection publishes the seed again |
| FillLevel.Node.constructor | FillLevel.c:25-27 | boot: stamp 0, latch clear, no session, empty log |
| FillLevel.Node.PublishFillLevel | FillLevel.c:145-159 | appends one publish on the fill topic with the given value and retained flag |
| FillLevel.Node.ReconnectMqtt | FillLevel.c:81-109 | the retry loop leaves the globals and the log as `Reconnect` says, and reports the failed attempts |
| FillLevel.Node.MeasureAndPublishFillLevel | FillLevel.c:161-194 | appends exactly the publish `FillEvent` describes |
| FillLevel.Node.ServiceBroker | FillLevel.c:46-49 | reconnects only when the session is down, then lets `mqttClient.loop()` keep or drop it |
| FillLevel.Node.RunPublishTask | FillLevel.c:52-63 | the gated publish task, as `PublishTask` says |
| FillLevel.Node.Loop | FillLevel.c:45-64 | one pass of `loop()` moves the globals and extends the log exactly as `Step` says |
| Sensor.TruncDiv | sensor.c:35 | C's integer `/`: the quotient truncated toward zero, for both signs |
| Sensor.SampleDistance | sensor.c:34-35 | `measure()`'s distance: the echo halved with `long` division, divided by 29.1 and truncated back to `long` (its meaning is `SampleIsTruncatedQuotient`) |
| Sensor.SampleIsTruncatedQuotient | sensor.c:35 | for a real echo the sample is the real quotient `(duration / 2) / 29.1` rounded down to a whole centimetre |
| Sensor.Average | sensor.c:46 | the integer mean of the three samples lies between their minimum and maximum |
| Sensor.LoopDistance | sensor.c:40-46 | the distance a pass decides on: the integer mean of the three samples taken in order |
| Sensor.NearIffShortEcho | sensor.c:34-35 | for a real echo the sample is below 50 cm iff the echo is shorter than 2910 us |
| Sensor.LidDecision | sensor.c:56-70 | the lid ends open iff the distance is below 50 cm; one command is sent exactly when the state flips, and none otherwise |
| Sensor.Step | sensor.c:38-73 | the lid state follows the averaged distance; the report stamp moves to the second `millis()` value exactly when more than 1000 ms passed |
| Sensor.StepOutput | sensor.c:48-70 | a pass's whole output is one `D:` line with the integer mean exactly when more than 1000 ms passed (strictly), followed by one `O:1`/`O:0` command exactly when the lid state flips; so at most one of each, and no publishes |
| Sensor.TimeoutsOpenTheLid | sensor.c:34-61 | three `pulseIn` timeouts average to 0 cm and open a closed lid |
| Sensor.FiftyIsOnTheClosedSide | sensor.c:57-64 | a distance of exactly 50 cm leaves the lid closed, closing it if it was open |
| Sensor.Node.constructor | sensor.c:8-10 | boot: lid closed, report stamp 0, the zero-initialised three-slot sample buffer `aver`, empty log |
| Sensor.Node.Measure | sensor.c:27-36 | stores the echo in `duration` and its truncated distance in `dist` |
| Sensor.Node.TakeSamples | sensor.c:40-44 | fills `aver` with the three samples in order, `duration` holding the last echo |
| Sensor.Node.Loop | sensor.c:38-73 | one pass of `loop()` leaves the samples in `aver`, their integer mean in `dist`, and moves the globals and extends the log exactly as `Step` says |

## Left out

- Wi-Fi bring-up (`setupWiFi`), `setup()`, pin configuration, the status LED and every `delay`: they are timing or hardware effects with no effect on the logic modelled.
- The broker library: `connect`, `publish` and `loop` are oracles. A `Publish` event records a call, not a delivery, and publish results are ignored except where FillLevel's latch reads them.
- The random client-id suffix: it is a label with no effect on the policy.
- Console debug text on `Serial`: the explanatory prints, warnings and FillLevel's displayed reading are not logged. Only the protocol lines `D:`, `O:1` and `O:0` are. In ESP32.c the lid peer's link is `Serial` itself, the same 9600-baud UART (`ESP32.c:35`, `ESP32.c:53`). The console text from `reconnectMQTT`, `publishLidState` and the fill task goes out on it, mixed in with the protocol lines. The model does not describe what the peer receives beyond the protocol lines.
- Floating point: `float` values are exact reals. `%.1f` formatting is the abstract payload `OneDecimal(v)`, and printing the average after `D:` is `SerialDistance(v)`. Rounding near a threshold is not modelled.
- sensor.c's unused global `average`: nothing reads or writes it.
- Sensor.Node.Loop: `long` overflow is not modelled, because no echo `pulseIn` can return comes near it.
- Esp32.AverageProximity: it requires that the echoes contain at least three acceptable readings. The source loop never ends otherwise, and a nonterminating loop is not modelled.
- Esp32.Reconnect: the broker must answer at least three `connect` calls. This is a condition on the supplied answers, not on the sketch. FillLevel.Reconnect and the `ReconnectMqtt` methods need the same.
- `mqttClient.connected()` is a field `connected`, decided by the `connect` answers and by `mqttClient.loop()`. The model assumes a session is up from a successful `connect` until `mqttClient.loop()` reports it lost. In the source, `reconnectMQTT` tests `connected()` again after every success (`ESP32.c:111`, `FillLevel.c:83`). A session lost during the seed publish would make that same call connect again, without counting a retry. In the fill-only sketch that call would also publish the retained seed a second time. `FillLevel.StepCounts` and `FillLevel.SeedRetriedAfterFailedPublish` hold under this assumption.
- `ESP32.c:157-166`: the warnings `measureDistance` prints only for the fill sensor are console text and are left out with it.
