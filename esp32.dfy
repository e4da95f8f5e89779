/**
 * The combined controller (ESP32.c): it services the broker, then every
 * 200 ms averages three valid proximity readings and drives the lid peer
 * over serial, and every 10 s publishes the bin's fill level.
 *
 * The pure part (validation, averaging, the lid transition, the fill value,
 * one scheduler tick) is written as functions over a `State` value; class
 * `Node` holds the sketch's globals and its methods, proved to follow them.
 */
module Esp32 {
  import opened Clock
  import opened Broker
  import opened Ranger
  import Fill

  const BIN_HEIGHT: real := 42.0
  const DEFAULT_FILL_LEVEL: real := 20.0
  const LID_PROXIMITY_THRESHOLD: real := 50.0
  const FILL_PUBLISH_INTERVAL: nat := 10000
  const PROXIMITY_CHECK_INTERVAL: nat := 200

  /** Minimum and maximum distance `measureDistance` accepts, in cm. */
  const MIN_DISTANCE: real := 0.5
  const MAX_DISTANCE: real := 400.0

  // ---------------------------------------------------------------------------
  // Ranger validation

  /**
   * `measureDistance` on an echo of `duration` microseconds: the sentinel on a
   * timeout or a distance outside [0.5, 400] cm, else the distance itself. In
   * microseconds, the readings it accepts are the echoes of 30 to 23529 us.
   */
  function MeasureDistance(duration: int): (d: real)
    ensures d == INVALID <==> !(30 <= duration <= 23529)
  {
    BelowHalfCentimetre(duration);
    Beyond(duration, 400);
    var distance := EchoToCm(duration);
    if duration == 0 then INVALID
    else if distance < MIN_DISTANCE || distance > MAX_DISTANCE then INVALID
    else distance
  }

  /** An accepted reading is the echo converted to centimetres, and lies in [0.5, 400]. */
  lemma AcceptedEchoWindow(duration: int)
    ensures MeasureDistance(duration) == if 30 <= duration <= 23529 then EchoToCm(duration) else INVALID
    ensures 30 <= duration <= 23529 ==> MIN_DISTANCE <= EchoToCm(duration) <= MAX_DISTANCE
  {
    BelowHalfCentimetre(duration);
    Beyond(duration, 400);
  }

  // ---------------------------------------------------------------------------
  // Proximity averager

  /** The readings among `echoes` that the averager keeps (`distances[i] > 0`), in order. */
  function Accepted(echoes: seq<int>): (acc: seq<real>)
    ensures |acc| <= |echoes|
  {
    if echoes == [] then []
    else
      var d := MeasureDistance(echoes[0]);
      if d > 0.0 then [d] + Accepted(echoes[1..]) else Accepted(echoes[1..])
  }

  lemma ConsOfConcat(x: real, s: seq<real>, t: seq<real>)
    ensures [x] + (s + t) == [x] + s + t
  {
  }

  /** Every kept reading is a valid distance, within [0.5, 400] cm. */
  lemma {:induction false} AcceptedInRange(echoes: seq<int>)
    ensures forall i :: 0 <= i < |Accepted(echoes)| ==> MIN_DISTANCE <= Accepted(echoes)[i] <= MAX_DISTANCE
  {
    if echoes != [] {
      AcceptedEchoWindow(echoes[0]);
      AcceptedInRange(echoes[1..]);
    }
  }

  lemma {:induction false} AcceptedOfConcat(a: seq<int>, b: seq<int>)
    ensures Accepted(a + b) == Accepted(a) + Accepted(b)
  {
    if a == [] {
      assert a + b == b;
    } else {
      assert (a + b)[0] == a[0] && (a + b)[1..] == a[1..] + b;
      AcceptedOfConcat(a[1..], b);
      if MeasureDistance(a[0]) > 0.0 {
        ConsOfConcat(MeasureDistance(a[0]), Accepted(a[1..]), Accepted(b));
      }
    }
  }

  /**
   * One more echo read by the averager: it is there while fewer than all the
   * accepted readings are kept, and it extends the kept prefix by its reading
   * exactly when that reading is kept.
   */
  lemma AcceptedOfLonger(echoes: seq<int>, k: nat)
    requires k <= |echoes| && |Accepted(echoes[..k])| < |Accepted(echoes)|
    ensures k < |echoes|
    ensures var d := MeasureDistance(echoes[k]);
      Accepted(echoes[..k + 1]) == Accepted(echoes[..k]) + (if d > 0.0 then [d] else [])
  {
    AcceptedOfPrefix(echoes, k);
    assert echoes[..k + 1] == echoes[..k] + [echoes[k]];
    AcceptedOfConcat(echoes[..k], [echoes[k]]);
    assert [echoes[k]][1..] == [];
  }

  /** One pass of the averager's loop, on the readings kept so far and their sum. */
  lemma AveragerStep(echoes: seq<int>, k: nat, acc: seq<real>, sum: real)
    requires k <= |echoes| && acc == Accepted(echoes[..k]) && |acc| < |Accepted(echoes)|
    requires sum == Sum(acc)
    ensures k < |echoes|
    ensures var d := MeasureDistance(echoes[k]);
      && (d > 0.0 ==> acc + [d] == Accepted(echoes[..k + 1]) && sum + d == Sum(acc + [d]))
      && (d <= 0.0 ==> acc == Accepted(echoes[..k + 1]))
  {
    AcceptedOfLonger(echoes, k);
    SumOfLonger(acc, MeasureDistance(echoes[k]));
  }

  /** The accepted readings of a prefix are a prefix of the accepted readings. */
  lemma AcceptedOfPrefix(echoes: seq<int>, k: nat)
    requires k <= |echoes|
    ensures Accepted(echoes[..k]) <= Accepted(echoes)
    ensures |Accepted(echoes)| <= |Accepted(echoes[..k])| + (|echoes| - k)
  {
    assert echoes[..k] + echoes[k..] == echoes;
    AcceptedOfConcat(echoes[..k], echoes[k..]);
  }

  function Sum(s: seq<real>): real
  {
    if s == [] then 0.0 else Sum(s[..|s| - 1]) + s[|s| - 1]
  }

  lemma SumOfLonger(s: seq<real>, x: real)
    ensures Sum(s + [x]) == Sum(s) + x
  {
    assert (s + [x])[..|s|] == s;
  }

  lemma SumOfThree(s: seq<real>)
    requires |s| == 3
    ensures Sum(s) == s[0] + s[1] + s[2]
  {
    assert s[..2][..1] == s[..1];
    assert Sum(s) == Sum(s[..2]) + s[2];
    assert Sum(s[..2]) == Sum(s[..1]) + s[1];
    assert Sum(s[..1]) == Sum(s[..1][..0]) + s[0];
  }

  /** The distance the lid decides on: the mean of the first three accepted readings. */
  function ProximityAverage(echoes: seq<int>): (avg: real)
    requires |Accepted(echoes)| >= 3
    ensures MIN_DISTANCE <= avg <= MAX_DISTANCE
  {
    AcceptedInRange(echoes);
    var acc := Accepted(echoes);
    (acc[0] + acc[1] + acc[2]) / 3.0
  }

  /**
   * The sampling loop of `checkProximityAndControlLid`: it reads echoes in
   * order until three have been accepted, and returns their mean and the number
   * of echoes consumed. It ends only if three accepted readings exist.
   */
  method AverageProximity(echoes: seq<int>) returns (avg: real, used: nat)
    requires |Accepted(echoes)| >= 3
    ensures used <= |echoes|
    ensures |Accepted(echoes[..used])| == 3
    ensures MeasureDistance(echoes[used - 1]) > 0.0   // it stops at the third accepted reading
    ensures avg == ProximityAverage(echoes)
  {
    var distances := new real[3];
    var sum := 0.0;
    var i, k := 0, 0;
    ghost var acc: seq<real> := [];   // Accepted(echoes[..k]), the readings kept so far
    while i < 3
      invariant 0 <= i <= 3 && k <= |echoes|
      invariant acc == Accepted(echoes[..k]) && |acc| == i
      invariant sum == Sum(acc)
      invariant i == 3 ==> 0 < k && MeasureDistance(echoes[k - 1]) > 0.0
      decreases |echoes| - k
    {
      AveragerStep(echoes, k, acc, sum);
      var d := MeasureDistance(echoes[k]);
      distances[i] := d;
      if d > 0.0 {
        acc := acc + [d];
        sum := sum + d;
        i := i + 1;
      }
      // otherwise the source steps `i` back and samples the same slot again
      k := k + 1;
    }
    AcceptedOfPrefix(echoes, k);
    SumOfThree(acc);
    avg := sum / 3.0;
    used := k;
  }

  // ---------------------------------------------------------------------------
  // Lid state machine

  /** The payload of `publishLidState`. */
  function LidPayload(isOpen: bool): (s: string)
    ensures isOpen <==> s == "OPEN"
    ensures !isOpen <==> s == "CLOSED"
  {
    if isOpen then "OPEN" else "CLOSED"
  }

  /** The new lid state and what one proximity check emits, in order. */
  datatype LidStep = LidStep(open: bool, out: seq<Event>)

  /**
   * One proximity check on the averaged distance `avg`: always a `D:` line;
   * on a transition also the command and then a non-retained state publish.
   */
  function LidTransition(isLidOpen: bool, avg: real): (r: LidStep)
    ensures r.open <==> avg < LID_PROXIMITY_THRESHOLD
    ensures |r.out| > 0 && r.out[0] == SerialDistance(avg)
    ensures r.open == isLidOpen <==> r.out == [SerialDistance(avg)]
    ensures r.open != isLidOpen ==>
      r.out[1..] == [Command(r.open), Publish(TOPIC_LID_STATE, Text(LidPayload(r.open)), false)]
  {
    var distanceLine := [SerialDistance(avg)];
    if avg < LID_PROXIMITY_THRESHOLD && !isLidOpen then
      LidStep(true, distanceLine + [SerialLine(OPEN_COMMAND), Publish(TOPIC_LID_STATE, Text(LidPayload(true)), false)])
    else if avg >= LID_PROXIMITY_THRESHOLD && isLidOpen then
      LidStep(false, distanceLine + [SerialLine(CLOSE_COMMAND), Publish(TOPIC_LID_STATE, Text(LidPayload(false)), false)])
    else
      LidStep(isLidOpen, distanceLine)
  }

  /**
   * A proximity check issues a lid command, and a non-retained lid publish,
   * exactly on a transition, and then one of each; it never publishes a fill
   * level or anything retained.
   */
  lemma LidTransitionCounts(isLidOpen: bool, avg: real)
    ensures var r := LidTransition(isLidOpen, avg);
      && Commands(r.out) == (if r.open != isLidOpen then 1 else 0)
      && Publishes(r.out, TOPIC_LID_STATE, false) == (if r.open != isLidOpen then 1 else 0)
      && Publishes(r.out, TOPIC_LID_STATE, true) == 0
      && Publishes(r.out, TOPIC_FILL_LEVEL, false) == 0
      && Publishes(r.out, TOPIC_FILL_LEVEL, true) == 0
  {
    var r := LidTransition(isLidOpen, avg);
    DistinctLiterals();
    CountsOfSingle(SerialDistance(avg));
    if r.open != isLidOpen {
      var c := Command(r.open);
      var p := Publish(TOPIC_LID_STATE, Text(LidPayload(r.open)), false);
      assert r.out == [SerialDistance(avg)] + [c] + [p];
      CountsOfConcat([SerialDistance(avg)] + [c], [p]);
      CountsOfConcat([SerialDistance(avg)], [c]);
      CountsOfSingle(c);
      CountsOfSingle(p);
    }
  }

  /** Deciding twice on the same distance: the second decision is steady and only reports. */
  lemma LidTransitionSettles(isLidOpen: bool, avg: real)
    ensures LidTransition(LidTransition(isLidOpen, avg).open, avg) ==
            LidStep(LidTransition(isLidOpen, avg).open, [SerialDistance(avg)])
  {
  }

  /** A hand exactly at the threshold counts as absent: the lid closes or stays closed. */
  lemma ThresholdIsOnTheClosedSide(isLidOpen: bool)
    ensures !LidTransition(isLidOpen, LID_PROXIMITY_THRESHOLD).open
  {
  }

  // ---------------------------------------------------------------------------
  // Fill estimator

  /** `measureAndPublishFillLevel` on a fill echo: the one publish it makes. */
  function FillEvent(duration: int): (e: Event)
    ensures e.Publish? && e.topic == TOPIC_FILL_LEVEL && !e.retained && e.payload.OneDecimal?
    ensures 0.0 <= e.payload.v <= 100.0
    ensures var d := MeasureDistance(duration);
      (d <= 0.0 || d > BIN_HEIGHT ==> e.payload.v == DEFAULT_FILL_LEVEL) &&
      (0.0 < d <= BIN_HEIGHT ==> e.payload.v == (BIN_HEIGHT - d) / BIN_HEIGHT * 100.0)
  {
    Fill.FillPercentageInRange(BIN_HEIGHT, DEFAULT_FILL_LEVEL, MeasureDistance(duration));
    Publish(TOPIC_FILL_LEVEL,
            OneDecimal(Fill.FillPercentage(BIN_HEIGHT, DEFAULT_FILL_LEVEL, MeasureDistance(duration))),
            false)
  }

  /**
   * In microseconds: the default is published unless the echo is 30 to 2470 us
   * long (0.5 to 42 cm). No whole echo converts to exactly 42 cm; the longest
   * accepted one, 2470 us, gives a value below 0.05, which `%.1f` prints as 0.0.
   */
  lemma FillEchoWindow(duration: int)
    ensures FillEvent(duration).payload.v == DEFAULT_FILL_LEVEL || 30 <= duration <= 2470
    ensures 30 <= duration <= 2470 ==> FillEvent(duration).payload.v < 100.0
    ensures 0.0 <= FillEvent(2470).payload.v < 0.05
  {
    AcceptedEchoWindow(duration);
    Beyond(duration, 42);
    AcceptedEchoWindow(2470);
    EchoToCmIsLinear(2470);
  }

  // ---------------------------------------------------------------------------
  // Broker reconnection and the scheduler tick, over the sketch's globals

  datatype State = State(
    lastFillPublishTime: U32,
    lastProximityCheckTime: U32,
    firstReadingSent: bool,
    isLidOpen: bool,
    connected: bool)

  /** The globals at boot: stamps 0, nothing seeded, lid closed, no session. */
  const Boot: State := State(0, 0, false, false, false)

  /**
   * What one pass of `loop()` reads from the hardware: the counter, the answers
   * to up to three `connect` calls, whether `mqttClient.loop()` keeps the session,
   * the proximity echoes in order and the fill echo.
   */
  datatype Inputs = Inputs(
    now: U32,
    connectOutcomes: seq<bool>,
    serviceOk: bool,
    proximityEchoes: seq<int>,
    fillEcho: int)

  /** The environment supplies enough: three connect answers, and three accepted readings when the check runs. */
  predicate Supplied(s: State, inp: Inputs)
  {
    && |inp.connectOutcomes| >= MAX_CONNECT_ATTEMPTS
    && (Due(inp.now, s.lastProximityCheckTime, PROXIMITY_CHECK_INTERVAL) ==>
          |Accepted(inp.proximityEchoes)| >= 3)
  }

  datatype Outcome = Outcome(next: State, out: seq<Event>)

  /** The retained pair published on the first connection: the default fill and the current lid state. */
  function SeedEvents(isLidOpen: bool): seq<Event>
  {
    [Publish(TOPIC_FILL_LEVEL, OneDecimal(DEFAULT_FILL_LEVEL), true),
     Publish(TOPIC_LID_STATE, Text(LidPayload(isLidOpen)), true)]
  }

  /**
   * `reconnectMQTT`: on a connection, the first one of the process lifetime
   * publishes the seed and latches `firstReadingSent`, whatever the publishes
   * return; later connections publish nothing.
   */
  function Reconnect(s: State, outcomes: seq<bool>): (r: Outcome)
    requires |outcomes| >= MAX_CONNECT_ATTEMPTS
    ensures r.next.connected <==> s.connected || Connects(outcomes)
    ensures r.next.firstReadingSent <==> s.firstReadingSent || (!s.connected && Connects(outcomes))
    ensures r.out == if !s.connected && Connects(outcomes) && !s.firstReadingSent
                     then SeedEvents(s.isLidOpen) else []
    ensures r.next.(connected := s.connected, firstReadingSent := s.firstReadingSent) == s
  {
    if s.connected || !Connects(outcomes) then Outcome(s, [])
    else if s.firstReadingSent then Outcome(s.(connected := true), [])
    else Outcome(s.(connected := true, firstReadingSent := true), SeedEvents(s.isLidOpen))
  }

  /** The proximity task of `loop()`: when 200 ms have passed, stamp and run the lid check. */
  function ProximityTask(s: State, inp: Inputs): (r: Outcome)
    requires Due(inp.now, s.lastProximityCheckTime, PROXIMITY_CHECK_INTERVAL) ==>
               |Accepted(inp.proximityEchoes)| >= 3
  {
    if Due(inp.now, s.lastProximityCheckTime, PROXIMITY_CHECK_INTERVAL) then
      var lid := LidTransition(s.isLidOpen, ProximityAverage(inp.proximityEchoes));
      Outcome(s.(lastProximityCheckTime := inp.now, isLidOpen := lid.open), lid.out)
    else
      Outcome(s, [])
  }

  /** The fill task of `loop()`: when 10 s have passed, stamp and publish the fill level. */
  function FillTask(s: State, inp: Inputs): (r: Outcome)
  {
    if Due(inp.now, s.lastFillPublishTime, FILL_PUBLISH_INTERVAL) then
      Outcome(s.(lastFillPublishTime := inp.now), [FillEvent(inp.fillEcho)])
    else
      Outcome(s, [])
  }

  /**
   * One pass of `loop()`: reconnect if needed, service the session, then the
   * proximity task, then the fill task, both against the same `millis()`.
   * Each task moves only its own stamp.
   */
  function Step(s: State, inp: Inputs): (r: Outcome)
    requires Supplied(s, inp)
    ensures r.next.lastProximityCheckTime ==
      if Due(inp.now, s.lastProximityCheckTime, PROXIMITY_CHECK_INTERVAL) then inp.now
      else s.lastProximityCheckTime
    ensures r.next.lastFillPublishTime ==
      if Due(inp.now, s.lastFillPublishTime, FILL_PUBLISH_INTERVAL) then inp.now
      else s.lastFillPublishTime
    ensures r.next.isLidOpen ==
      if Due(inp.now, s.lastProximityCheckTime, PROXIMITY_CHECK_INTERVAL)
      then ProximityAverage(inp.proximityEchoes) < LID_PROXIMITY_THRESHOLD
      else s.isLidOpen
    ensures r.next.connected <==> (s.connected || Connects(inp.connectOutcomes)) && inp.serviceOk
  {
    var rc := Reconnect(s, inp.connectOutcomes);
    var serviced := rc.next.(connected := rc.next.connected && inp.serviceOk);
    var proximity := ProximityTask(serviced, inp);
    var fill := FillTask(proximity.next, inp);
    Outcome(fill.next, rc.out + proximity.out + fill.out)
  }

  /** The first connection of the process lifetime happens in this step. */
  predicate FirstConnect(s: State, inp: Inputs)
  {
    !s.connected && !s.firstReadingSent && Connects(inp.connectOutcomes)
  }

  lemma ReconnectCounts(s: State, outcomes: seq<bool>)
    requires |outcomes| >= MAX_CONNECT_ATTEMPTS
    ensures var r := Reconnect(s, outcomes);
      && Commands(r.out) == 0
      && Publishes(r.out, TOPIC_FILL_LEVEL, false) == 0
      && Publishes(r.out, TOPIC_LID_STATE, false) == 0
      && Publishes(r.out, TOPIC_FILL_LEVEL, true) == (if r.out == [] then 0 else 1)
      && Publishes(r.out, TOPIC_LID_STATE, true) == (if r.out == [] then 0 else 1)
  {
    DistinctLiterals();
    var a := Publish(TOPIC_FILL_LEVEL, OneDecimal(DEFAULT_FILL_LEVEL), true);
    var b := Publish(TOPIC_LID_STATE, Text(LidPayload(s.isLidOpen)), true);
    assert SeedEvents(s.isLidOpen) == [a] + [b];
    CountsOfConcat([a], [b]);
    CountsOfSingle(a);
    CountsOfSingle(b);
  }

  lemma ProximityTaskCounts(s: State, inp: Inputs)
    requires Due(inp.now, s.lastProximityCheckTime, PROXIMITY_CHECK_INTERVAL) ==>
               |Accepted(inp.proximityEchoes)| >= 3
    ensures var r := ProximityTask(s, inp);
      && Commands(r.out) == (if r.next.isLidOpen != s.isLidOpen then 1 else 0)
      && Publishes(r.out, TOPIC_LID_STATE, false) == (if r.next.isLidOpen != s.isLidOpen then 1 else 0)
      && Publishes(r.out, TOPIC_LID_STATE, true) == 0
      && Publishes(r.out, TOPIC_FILL_LEVEL, false) == 0
      && Publishes(r.out, TOPIC_FILL_LEVEL, true) == 0
  {
    if Due(inp.now, s.lastProximityCheckTime, PROXIMITY_CHECK_INTERVAL) {
      LidTransitionCounts(s.isLidOpen, ProximityAverage(inp.proximityEchoes));
    }
  }

  lemma FillTaskCounts(s: State, inp: Inputs)
    ensures var r := FillTask(s, inp);
      && Commands(r.out) == 0
      && Publishes(r.out, TOPIC_FILL_LEVEL, false) ==
           (if Due(inp.now, s.lastFillPublishTime, FILL_PUBLISH_INTERVAL) then 1 else 0)
      && Publishes(r.out, TOPIC_FILL_LEVEL, true) == 0
      && Publishes(r.out, TOPIC_LID_STATE, false) == 0
      && Publishes(r.out, TOPIC_LID_STATE, true) == 0
  {
    DistinctLiterals();
    CountsOfSingle(FillEvent(inp.fillEcho));
  }

  /** The reconnect phase publishes only the retained seed, whose fill value is the default. */
  lemma ReconnectEvents(s: State, outcomes: seq<bool>)
    requires |outcomes| >= MAX_CONNECT_ATTEMPTS
    ensures forall e :: e in Reconnect(s, outcomes).out ==>
      e.Publish? && e.retained && (e.topic == TOPIC_FILL_LEVEL ==> e.payload == OneDecimal(DEFAULT_FILL_LEVEL))
  {
    DistinctLiterals();
  }

  /** The proximity phase publishes only the non-retained lid state it ends in. */
  lemma ProximityTaskEvents(s: State, inp: Inputs)
    requires Due(inp.now, s.lastProximityCheckTime, PROXIMITY_CHECK_INTERVAL) ==>
               |Accepted(inp.proximityEchoes)| >= 3
    ensures var r := ProximityTask(s, inp);
      forall e :: e in r.out && e.Publish? ==>
        e.topic == TOPIC_LID_STATE && !e.retained && e.payload == Text(LidPayload(r.next.isLidOpen))
  {
    if Due(inp.now, s.lastProximityCheckTime, PROXIMITY_CHECK_INTERVAL) {
      var lid := LidTransition(s.isLidOpen, ProximityAverage(inp.proximityEchoes));
      assert lid.out == [lid.out[0]] + lid.out[1..];
    }
  }

  /**
   * What one tick emits, counted: one lid command and one non-retained lid
   * publish exactly on a lid transition; one non-retained fill publish exactly
   * when the fill gate is due; retained publishes only at the first connection
   * of the process lifetime, and then one per topic.
   */
  lemma StepCounts(s: State, inp: Inputs)
    requires Supplied(s, inp)
    ensures var r := Step(s, inp);
      && Commands(r.out) == (if r.next.isLidOpen != s.isLidOpen then 1 else 0)
      && Publishes(r.out, TOPIC_FILL_LEVEL, false) ==
           (if Due(inp.now, s.lastFillPublishTime, FILL_PUBLISH_INTERVAL) then 1 else 0)
      && Publishes(r.out, TOPIC_LID_STATE, false) == (if r.next.isLidOpen != s.isLidOpen then 1 else 0)
      && Publishes(r.out, TOPIC_FILL_LEVEL, true) == (if FirstConnect(s, inp) then 1 else 0)
      && Publishes(r.out, TOPIC_LID_STATE, true) == (if FirstConnect(s, inp) then 1 else 0)
  {
    StepLidCounts(s, inp);
    StepFillCount(s, inp);
    StepRetainedCount(s, inp, TOPIC_FILL_LEVEL);
    StepRetainedCount(s, inp, TOPIC_LID_STATE);
  }

  /** The lid half of `StepCounts`: commands and non-retained lid publishes. */
  lemma StepLidCounts(s: State, inp: Inputs)
    requires Supplied(s, inp)
    ensures var r := Step(s, inp);
      && Commands(r.out) == (if r.next.isLidOpen != s.isLidOpen then 1 else 0)
      && Publishes(r.out, TOPIC_LID_STATE, false) == (if r.next.isLidOpen != s.isLidOpen then 1 else 0)
  {
    var rc := Reconnect(s, inp.connectOutcomes);
    var serviced := rc.next.(connected := rc.next.connected && inp.serviceOk);
    var proximity := ProximityTask(serviced, inp);
    var fill := FillTask(proximity.next, inp);
    ReconnectCounts(s, inp.connectOutcomes);
    ProximityTaskCounts(serviced, inp);
    FillTaskCounts(proximity.next, inp);
    assert Step(s, inp) == Outcome(fill.next, rc.out + proximity.out + fill.out);
    assert serviced.isLidOpen == s.isLidOpen && fill.next.isLidOpen == proximity.next.isLidOpen;
    CommandsOfThree(rc.out, proximity.out, fill.out);
    PublishesOfThree(rc.out, proximity.out, fill.out, TOPIC_LID_STATE, false);
  }

  /** The fill half of `StepCounts`: one non-retained fill publish exactly when its gate is due. */
  lemma StepFillCount(s: State, inp: Inputs)
    requires Supplied(s, inp)
    ensures Publishes(Step(s, inp).out, TOPIC_FILL_LEVEL, false) ==
            if Due(inp.now, s.lastFillPublishTime, FILL_PUBLISH_INTERVAL) then 1 else 0
  {
    var rc := Reconnect(s, inp.connectOutcomes);
    var serviced := rc.next.(connected := rc.next.connected && inp.serviceOk);
    var proximity := ProximityTask(serviced, inp);
    var fill := FillTask(proximity.next, inp);
    ReconnectCounts(s, inp.connectOutcomes);
    ProximityTaskCounts(serviced, inp);
    FillTaskCounts(proximity.next, inp);
    assert Step(s, inp).out == rc.out + proximity.out + fill.out;
    assert proximity.next.lastFillPublishTime == s.lastFillPublishTime;
    PublishesOfThree(rc.out, proximity.out, fill.out, TOPIC_FILL_LEVEL, false);
  }

  /** The retained part of `StepCounts`: one retained publish per topic exactly on the first connection. */
  lemma StepRetainedCount(s: State, inp: Inputs, topic: string)
    requires Supplied(s, inp)
    requires topic == TOPIC_FILL_LEVEL || topic == TOPIC_LID_STATE
    ensures Publishes(Step(s, inp).out, topic, true) == if FirstConnect(s, inp) then 1 else 0
  {
    var rc := Reconnect(s, inp.connectOutcomes);
    var serviced := rc.next.(connected := rc.next.connected && inp.serviceOk);
    var proximity := ProximityTask(serviced, inp);
    var fill := FillTask(proximity.next, inp);
    ReconnectCounts(s, inp.connectOutcomes);
    ProximityTaskCounts(serviced, inp);
    FillTaskCounts(proximity.next, inp);
    assert Step(s, inp).out == rc.out + proximity.out + fill.out;
    assert rc.out != [] <==> FirstConnect(s, inp);
    PublishesOfThree(rc.out, proximity.out, fill.out, topic, true);
  }

  /**
   * The fill task runs after the proximity task: when its gate is due, its
   * publish is the last thing the tick does.
   */
  lemma FillPublishEndsTick(s: State, inp: Inputs)
    requires Supplied(s, inp)
    ensures var r := Step(s, inp);
      Due(inp.now, s.lastFillPublishTime, FILL_PUBLISH_INTERVAL) ==>
        |r.out| > 0 && r.out[|r.out| - 1] == FillEvent(inp.fillEcho)
  {
    var rc := Reconnect(s, inp.connectOutcomes);
    var serviced := rc.next.(connected := rc.next.connected && inp.serviceOk);
    var proximity := ProximityTask(serviced, inp);
    var fill := FillTask(proximity.next, inp);
    assert Step(s, inp).out == (rc.out + proximity.out) + fill.out;
    assert proximity.next.lastFillPublishTime == s.lastFillPublishTime;
  }

  /** Reconnecting sends no protocol line (`D:`, `O:1`, `O:0`). */
  lemma ReconnectSerialTraffic(s: State, outcomes: seq<bool>)
    requires |outcomes| >= MAX_CONNECT_ATTEMPTS
    ensures SerialTraffic(Reconnect(s, outcomes).out) == []
  {
    var out := Reconnect(s, outcomes).out;
    if out != [] {
      assert out == [out[0]] + [out[1]];
      SerialTrafficOfConcat([out[0]], [out[1]]);
    }
  }

  /** The proximity task sends the `D:` line, then the command on a lid change. */
  lemma ProximityTaskSerialTraffic(s: State, inp: Inputs)
    requires Due(inp.now, s.lastProximityCheckTime, PROXIMITY_CHECK_INTERVAL) ==>
               |Accepted(inp.proximityEchoes)| >= 3
    ensures var r := ProximityTask(s, inp);
      SerialTraffic(r.out) ==
        if Due(inp.now, s.lastProximityCheckTime, PROXIMITY_CHECK_INTERVAL) then
          [SerialDistance(ProximityAverage(inp.proximityEchoes))]
          + (if r.next.isLidOpen != s.isLidOpen then [Command(r.next.isLidOpen)] else [])
        else []
  {
    if Due(inp.now, s.lastProximityCheckTime, PROXIMITY_CHECK_INTERVAL) {
      var avg := ProximityAverage(inp.proximityEchoes);
      var lid := LidTransition(s.isLidOpen, avg);
      if lid.open != s.isLidOpen {
        var tail := [Publish(TOPIC_LID_STATE, Text(LidPayload(lid.open)), false)];
        assert lid.out == [SerialDistance(avg)] + ([Command(lid.open)] + tail);
        SerialTrafficOfConcat([SerialDistance(avg)], [Command(lid.open)] + tail);
        SerialTrafficOfConcat([Command(lid.open)], tail);
      }
    }
  }

  /**
   * The protocol lines of a tick: none when the proximity gate is not
   * due; otherwise exactly one `D:` line carrying the average, followed by the
   * lid command when, and only when, the lid changes state.
   */
  lemma StepSerialTraffic(s: State, inp: Inputs)
    requires Supplied(s, inp)
    ensures var r := Step(s, inp);
      SerialTraffic(r.out) ==
        if Due(inp.now, s.lastProximityCheckTime, PROXIMITY_CHECK_INTERVAL) then
          [SerialDistance(ProximityAverage(inp.proximityEchoes))]
          + (if r.next.isLidOpen != s.isLidOpen then [Command(r.next.isLidOpen)] else [])
        else []
  {
    var rc := Reconnect(s, inp.connectOutcomes);
    var serviced := rc.next.(connected := rc.next.connected && inp.serviceOk);
    var proximity := ProximityTask(serviced, inp);
    var fill := FillTask(proximity.next, inp);
    assert Step(s, inp) == Outcome(fill.next, rc.out + proximity.out + fill.out);
    assert serviced.isLidOpen == s.isLidOpen && fill.next.isLidOpen == proximity.next.isLidOpen;
    assert serviced.lastProximityCheckTime == s.lastProximityCheckTime;
    ReconnectSerialTraffic(s, inp.connectOutcomes);
    ProximityTaskSerialTraffic(serviced, inp);
    assert SerialTraffic(fill.out) == [];
    SerialTrafficOfConcat(rc.out + proximity.out, fill.out);
    SerialTrafficOfConcat(rc.out, proximity.out);
  }

  /** Every lid publish outside seeding reports the lid state the tick ends in. */
  lemma StepLidPublishMirrorsState(s: State, inp: Inputs)
    requires Supplied(s, inp)
    ensures forall e :: e in Step(s, inp).out && e.Publish? && e.topic == TOPIC_LID_STATE && !e.retained ==>
      e.payload == Text(LidPayload(Step(s, inp).next.isLidOpen))
  {
    var rc := Reconnect(s, inp.connectOutcomes);
    var serviced := rc.next.(connected := rc.next.connected && inp.serviceOk);
    var proximity := ProximityTask(serviced, inp);
    var fill := FillTask(proximity.next, inp);
    assert Step(s, inp) == Outcome(fill.next, rc.out + proximity.out + fill.out);
    assert fill.next.isLidOpen == proximity.next.isLidOpen;
    ReconnectEvents(s, inp.connectOutcomes);
    ProximityTaskEvents(serviced, inp);
    DistinctLiterals();
    forall e | e in rc.out + proximity.out + fill.out && e.Publish? && e.topic == TOPIC_LID_STATE && !e.retained
      ensures e.payload == Text(LidPayload(proximity.next.isLidOpen))
    {
      assert e !in rc.out && e !in fill.out;
    }
  }

  /** Every fill publish carries a value in [0, 100]. */
  lemma StepFillInRange(s: State, inp: Inputs)
    requires Supplied(s, inp)
    ensures forall e :: e in Step(s, inp).out && e.Publish? && e.topic == TOPIC_FILL_LEVEL ==>
      e.payload.OneDecimal? && 0.0 <= e.payload.v <= 100.0
  {
    var rc := Reconnect(s, inp.connectOutcomes);
    var serviced := rc.next.(connected := rc.next.connected && inp.serviceOk);
    var proximity := ProximityTask(serviced, inp);
    var fill := FillTask(proximity.next, inp);
    assert Step(s, inp) == Outcome(fill.next, rc.out + proximity.out + fill.out);
    ReconnectEvents(s, inp.connectOutcomes);
    ProximityTaskEvents(serviced, inp);
    DistinctLiterals();
    forall e | e in rc.out + proximity.out + fill.out && e.Publish? && e.topic == TOPIC_FILL_LEVEL
      ensures e.payload.OneDecimal? && 0.0 <= e.payload.v <= 100.0
    {
      if e !in rc.out && e !in proximity.out {
        assert e == FillEvent(inp.fillEcho);
      }
    }
  }

  /** Since the latch is set unconditionally, a live session always implies a seeded broker. */
  predicate Seeded(s: State)
  {
    s.connected ==> s.firstReadingSent
  }

  lemma StepKeepsSeeded(s: State, inp: Inputs)
    requires Supplied(s, inp) && Seeded(s)
    ensures Seeded(Step(s, inp).next)
    ensures s.firstReadingSent ==> Step(s, inp).next.firstReadingSent
  {
  }

  /** Consecutive ticks, each supplied with what it needs. */
  predicate RunSupplied(s: State, ins: seq<Inputs>)
    decreases |ins|
  {
    ins == [] || (Supplied(s, ins[0]) && RunSupplied(Step(s, ins[0]).next, ins[1..]))
  }

  function Run(s: State, ins: seq<Inputs>): (r: Outcome)
    requires RunSupplied(s, ins)
    decreases |ins|
  {
    if ins == [] then Outcome(s, [])
    else
      var first := Step(s, ins[0]);
      var rest := Run(first.next, ins[1..]);
      Outcome(rest.next, first.out + rest.out)
  }

  /**
   * Over any run of ticks, each topic gets exactly one retained publish if the
   * latch was set during the run, and none otherwise.
   */
  lemma {:induction false} RetainedOncePerLifetime(s: State, ins: seq<Inputs>, topic: string)
    requires RunSupplied(s, ins)
    requires topic == TOPIC_FILL_LEVEL || topic == TOPIC_LID_STATE
    ensures Publishes(Run(s, ins).out, topic, true) ==
            if Run(s, ins).next.firstReadingSent && !s.firstReadingSent then 1 else 0
    decreases |ins|
  {
    if ins != [] {
      var first := Step(s, ins[0]);
      StepCounts(s, ins[0]);
      StepKeepsLatch(s, ins[0]);
      RetainedOncePerLifetime(first.next, ins[1..], topic);
      RunKeepsLatch(first.next, ins[1..]);
      PublishesOfConcat(first.out, Run(first.next, ins[1..]).out, topic, true);
    }
  }

  lemma StepKeepsLatch(s: State, inp: Inputs)
    requires Supplied(s, inp)
    ensures s.firstReadingSent ==> Step(s, inp).next.firstReadingSent
    ensures Step(s, inp).next.firstReadingSent && !s.firstReadingSent <==> FirstConnect(s, inp)
  {
  }

  /** `firstReadingSent` is never cleared. */
  lemma {:induction false} RunKeepsLatch(s: State, ins: seq<Inputs>)
    requires RunSupplied(s, ins)
    ensures s.firstReadingSent ==> Run(s, ins).next.firstReadingSent
    decreases |ins|
  {
    if ins != [] {
      StepKeepsLatch(s, ins[0]);
      RunKeepsLatch(Step(s, ins[0]).next, ins[1..]);
    }
  }

  // ---------------------------------------------------------------------------
  // The sketch's globals and its functions

  class Node {
    var lastFillPublishTime: U32
    var lastProximityCheckTime: U32
    var firstReadingSent: bool
    var isLidOpen: bool
    var connected: bool      // what `mqttClient.connected()` reports
    var log: seq<Event>

    function Snapshot(): State
      reads this
    {
      State(lastFillPublishTime, lastProximityCheckTime, firstReadingSent, isLidOpen, connected)
    }

    constructor ()
      ensures Snapshot() == Boot && log == []
    {
      lastFillPublishTime, lastProximityCheckTime := 0, 0;
      firstReadingSent, isLidOpen, connected := false, false, false;
      log := [];
    }

    method PublishFillLevel(fillPercentage: real, retained: bool)
      modifies this`log
      ensures log == old(log) + [Publish(TOPIC_FILL_LEVEL, OneDecimal(fillPercentage), retained)]
    {
      log := log + [Publish(TOPIC_FILL_LEVEL, OneDecimal(fillPercentage), retained)];
    }

    method PublishLidState(isOpen: bool, retained: bool)
      modifies this`log
      ensures log == old(log) + [Publish(TOPIC_LID_STATE, Text(LidPayload(isOpen)), retained)]
    {
      log := log + [Publish(TOPIC_LID_STATE, Text(LidPayload(isOpen)), retained)];
    }

    /** `reconnectMQTT`; `outcomes[i]` answers the i-th `connect` call. Returns the failed attempts. */
    method ReconnectMqtt(outcomes: seq<bool>) returns (failures: nat)
      requires |outcomes| >= MAX_CONNECT_ATTEMPTS
      modifies this
      ensures Snapshot() == Reconnect(old(Snapshot()), outcomes).next
      ensures log == old(log) + Reconnect(old(Snapshot()), outcomes).out
      ensures failures == if old(connected) then 0 else FailuresBeforeConnect(outcomes, MAX_CONNECT_ATTEMPTS)
    {
      var retry := 0;
      while !connected && retry < MAX_CONNECT_ATTEMPTS
        invariant 0 <= retry <= MAX_CONNECT_ATTEMPTS
        invariant forall i :: 0 <= i < retry ==> !outcomes[i]
        invariant old(connected) ==> retry == 0
        invariant !connected ==> Snapshot() == old(Snapshot()) && log == old(log)
        invariant connected && !old(connected) ==> retry < MAX_CONNECT_ATTEMPTS && outcomes[retry]
        invariant connected ==> Snapshot() == Reconnect(old(Snapshot()), outcomes).next
        invariant connected ==> log == old(log) + Reconnect(old(Snapshot()), outcomes).out
      {
        // the client id gets a random suffix here; it is only a label
        if outcomes[retry] {
          connected := true;
          if !firstReadingSent {
            PublishFillLevel(DEFAULT_FILL_LEVEL, true);
            PublishLidState(isLidOpen, true);
            firstReadingSent := true;
          }
        } else {
          retry := retry + 1;
        }
      }
      failures := retry;
    }

    /** `checkProximityAndControlLid`; returns the averaged distance it decided on. */
    method CheckProximityAndControlLid(echoes: seq<int>) returns (avgDistance: real)
      requires |Accepted(echoes)| >= 3
      modifies this`isLidOpen, this`log
      ensures avgDistance == ProximityAverage(echoes)
      ensures isLidOpen == LidTransition(old(isLidOpen), avgDistance).open
      ensures log == old(log) + LidTransition(old(isLidOpen), avgDistance).out
    {
      var used;
      avgDistance, used := AverageProximity(echoes);
      log := log + [SerialDistance(avgDistance)];
      if avgDistance < LID_PROXIMITY_THRESHOLD && !isLidOpen {
        log := log + [SerialLine(OPEN_COMMAND)];
        isLidOpen := true;
        PublishLidState(isLidOpen, false);
      } else if avgDistance >= LID_PROXIMITY_THRESHOLD && isLidOpen {
        log := log + [SerialLine(CLOSE_COMMAND)];
        isLidOpen := false;
        PublishLidState(isLidOpen, false);
      }
    }

    /** `measureAndPublishFillLevel` on the fill echo. */
    method MeasureAndPublishFillLevel(fillEcho: int)
      modifies this`log
      ensures log == old(log) + [FillEvent(fillEcho)]
    {
      var currentHeight := MeasureDistance(fillEcho);
      if currentHeight <= 0.0 || currentHeight > BIN_HEIGHT {
        PublishFillLevel(DEFAULT_FILL_LEVEL, false);
        return;
      }
      var fillPercentage := (BIN_HEIGHT - currentHeight) / BIN_HEIGHT * 100.0;
      if fillPercentage < 0.0 { fillPercentage := 0.0; }
      if fillPercentage > 100.0 { fillPercentage := 100.0; }
      PublishFillLevel(fillPercentage, false);
    }

    /** Lines 72-75 of `loop()`: reconnect when the session is down, then `mqttClient.loop()`. */
    method ServiceBroker(inp: Inputs)
      requires |inp.connectOutcomes| >= MAX_CONNECT_ATTEMPTS
      modifies this
      ensures Snapshot() == Reconnect(old(Snapshot()), inp.connectOutcomes).next.(
                              connected := Reconnect(old(Snapshot()), inp.connectOutcomes).next.connected && inp.serviceOk)
      ensures log == old(log) + Reconnect(old(Snapshot()), inp.connectOutcomes).out
    {
      if !connected {
        var _ := ReconnectMqtt(inp.connectOutcomes);
      }
      connected := connected && inp.serviceOk;   // mqttClient.loop() may find the session gone
    }

    /** Lines 82-85 of `loop()`. */
    method RunProximityTask(inp: Inputs)
      requires Due(inp.now, lastProximityCheckTime, PROXIMITY_CHECK_INTERVAL) ==>
                 |Accepted(inp.proximityEchoes)| >= 3
      modifies this
      ensures Snapshot() == ProximityTask(old(Snapshot()), inp).next
      ensures log == old(log) + ProximityTask(old(Snapshot()), inp).out
    {
      if Due(inp.now, lastProximityCheckTime, PROXIMITY_CHECK_INTERVAL) {
        lastProximityCheckTime := inp.now;
        var _ := CheckProximityAndControlLid(inp.proximityEchoes);
      }
    }

    /** Lines 88-91 of `loop()`. */
    method RunFillTask(inp: Inputs)
      modifies this
      ensures Snapshot() == FillTask(old(Snapshot()), inp).next
      ensures log == old(log) + FillTask(old(Snapshot()), inp).out
    {
      if Due(inp.now, lastFillPublishTime, FILL_PUBLISH_INTERVAL) {
        lastFillPublishTime := inp.now;
        MeasureAndPublishFillLevel(inp.fillEcho);
      }
    }

    /** One pass of `loop()`: both tasks see the same `millis()` value `inp.now`. */
    method Loop(inp: Inputs)
      requires Supplied(Snapshot(), inp)
      modifies this
      ensures Snapshot() == Step(old(Snapshot()), inp).next
      ensures log == old(log) + Step(old(Snapshot()), inp).out
    {
      ghost var s0, log0 := Snapshot(), log;
      ghost var rc := Reconnect(s0, inp.connectOutcomes);
      ghost var serviced := rc.next.(connected := rc.next.connected && inp.serviceOk);
      ghost var proximity := ProximityTask(serviced, inp);
      ghost var fill := FillTask(proximity.next, inp);
      ServiceBroker(inp);
      RunProximityTask(inp);
      RunFillTask(inp);
      AppendThree(log0, rc.out, proximity.out, fill.out);
    }
  }
}
