/**
 * The fill-only controller (FillLevel.c): it services the broker and every
 * 10 s measures, and publishes, how full a 6 cm bin is. Unlike the combined
 * controller it accepts any positive distance, seeds only the fill topic, and
 * latches `firstReadingSent` only once the seed publish reports success.
 */
module FillLevel {
  import opened Clock
  import opened Broker
  import opened Ranger
  import Fill

  const BIN_HEIGHT: real := 6.0
  const DEFAULT_FILL_LEVEL: real := 10.0
  const PUBLISH_INTERVAL: nat := 10000
  const MAX_DISTANCE: real := 400.0

  /**
   * `measureDistance`: the sentinel on a timeout or a distance outside
   * (0, 400] cm, else the distance itself.
   */
  function MeasureDistance(duration: int): (d: real)
    ensures d == INVALID <==> !(1 <= duration <= 23529)
    ensures d != INVALID ==> 0.0 < d <= MAX_DISTANCE
  {
    NotPositive(duration);
    Beyond(duration, 400);
    var distance := EchoToCm(duration);
    if duration == 0 then INVALID
    else if distance <= 0.0 || distance > MAX_DISTANCE then INVALID
    else distance
  }

  /** An accepted reading is the echo converted to centimetres. */
  lemma AcceptedEchoWindow(duration: int)
    ensures MeasureDistance(duration) == if 1 <= duration <= 23529 then EchoToCm(duration) else INVALID
  {
  }

  /** `measureAndPublishFillLevel` on a fill echo: the one publish it makes. */
  function FillEvent(duration: int): (e: Event)
    ensures e.Publish? && e.topic == TOPIC_FILL_LEVEL && !e.retained && e.payload.OneDecimal?
    ensures 0.0 <= e.payload.v <= 100.0
    ensures var d := MeasureDistance(duration);
      (d <= 0.0 || d > BIN_HEIGHT ==> e.payload.v == DEFAULT_FILL_LEVEL) &&
      (0.0 < d <= BIN_HEIGHT ==> e.payload.v == (BIN_HEIGHT - d) / BIN_HEIGHT * 100.0)
  {
    Fill.FillPercentageInRange(BIN_HEIGHT, DEFAULT_FILL_LEVEL, MeasureDistance(duration));
    Publish(TOPIC_FILL_LEVEL,
            OneDecimal(Fill.FillPercentage(BIN_HEIGHT, DEFAULT_FILL_LEVEL, MeasureDistance(duration))),
            false)
  }

  /**
   * In microseconds: the default is published unless the echo is 1 to 352 us
   * long (up to 6 cm), and every such echo gives a value below 100.
   */
  lemma FillEchoWindow(duration: int)
    ensures FillEvent(duration).payload.v == DEFAULT_FILL_LEVEL || 1 <= duration <= 352
    ensures 1 <= duration <= 352 ==> FillEvent(duration).payload.v < 100.0
  {
    AcceptedEchoWindow(duration);
    Beyond(duration, 6);
  }

  datatype State = State(lastPublishTime: U32, firstReadingSent: bool, connected: bool)

  const Boot: State := State(0, false, false)

  /**
   * What one pass of `loop()` reads from the hardware: the counter, the answers
   * to up to three `connect` calls, whether the seed publish (if made) succeeds,
   * whether `mqttClient.loop()` keeps the session, and the two echoes a
   * publishing tick takes: the one only displayed and the one published.
   */
  datatype Inputs = Inputs(
    now: U32,
    connectOutcomes: seq<bool>,
    seedPublishOk: bool,
    serviceOk: bool,
    displayEcho: int,
    fillEcho: int)

  datatype Outcome = Outcome(next: State, out: seq<Event>)

  const SEED: Event := Publish(TOPIC_FILL_LEVEL, OneDecimal(DEFAULT_FILL_LEVEL), true)

  /**
   * `reconnectMQTT`: a connection made while `firstReadingSent` is clear
   * publishes the retained default, and the latch is set only when that
   * publish reports success.
   */
  function Reconnect(s: State, outcomes: seq<bool>, seedPublishOk: bool): (r: Outcome)
    requires |outcomes| >= MAX_CONNECT_ATTEMPTS
    ensures r.next.connected <==> s.connected || Connects(outcomes)
    ensures r.out == if !s.connected && Connects(outcomes) && !s.firstReadingSent then [SEED] else []
    ensures r.next.firstReadingSent <==> s.firstReadingSent || (r.out != [] && seedPublishOk)
    ensures r.next.lastPublishTime == s.lastPublishTime
  {
    if s.connected || !Connects(outcomes) then Outcome(s, [])
    else if s.firstReadingSent then Outcome(s.(connected := true), [])
    else Outcome(s.(connected := true, firstReadingSent := seedPublishOk), [SEED])
  }

  /** The publish task of `loop()`: when 10 s have passed, stamp, read once for display, then publish. */
  function PublishTask(s: State, inp: Inputs): (r: Outcome)
  {
    if Due(inp.now, s.lastPublishTime, PUBLISH_INTERVAL) then
      Outcome(s.(lastPublishTime := inp.now), [FillEvent(inp.fillEcho)])
    else
      Outcome(s, [])
  }

  /** One pass of `loop()`. */
  function Step(s: State, inp: Inputs): (r: Outcome)
    requires |inp.connectOutcomes| >= MAX_CONNECT_ATTEMPTS
    ensures r.next.lastPublishTime ==
      if Due(inp.now, s.lastPublishTime, PUBLISH_INTERVAL) then inp.now else s.lastPublishTime
    ensures r.next.connected <==> (s.connected || Connects(inp.connectOutcomes)) && inp.serviceOk
    // The publish task runs after the broker is serviced: its publish ends the tick.
    ensures Due(inp.now, s.lastPublishTime, PUBLISH_INTERVAL) ==>
      |r.out| > 0 && r.out[|r.out| - 1] == FillEvent(inp.fillEcho)
  {
    var rc := Reconnect(s, inp.connectOutcomes, inp.seedPublishOk);
    var serviced := rc.next.(connected := rc.next.connected && inp.serviceOk);
    var publish := PublishTask(serviced, inp);
    Outcome(publish.next, rc.out + publish.out)
  }

  /**
   * A tick publishes the fill level once non-retained exactly when its gate is
   * due, and the retained seed exactly when it connects while the latch is
   * clear; never anything on another topic, nor a lid command.
   */
  lemma StepCounts(s: State, inp: Inputs)
    requires |inp.connectOutcomes| >= MAX_CONNECT_ATTEMPTS
    ensures var r := Step(s, inp);
      && Commands(r.out) == 0
      && Publishes(r.out, TOPIC_FILL_LEVEL, false) ==
           (if Due(inp.now, s.lastPublishTime, PUBLISH_INTERVAL) then 1 else 0)
      && Publishes(r.out, TOPIC_FILL_LEVEL, true) ==
           (if !s.connected && !s.firstReadingSent && Connects(inp.connectOutcomes) then 1 else 0)
      && Publishes(r.out, TOPIC_LID_STATE, false) == 0
      && Publishes(r.out, TOPIC_LID_STATE, true) == 0
  {
    var rc := Reconnect(s, inp.connectOutcomes, inp.seedPublishOk);
    var serviced := rc.next.(connected := rc.next.connected && inp.serviceOk);
    var publish := PublishTask(serviced, inp);
    assert Step(s, inp).out == rc.out + publish.out;
    DistinctLiterals();
    CountsOfSingle(SEED);
    CountsOfSingle(FillEvent(inp.fillEcho));
    CountsOfConcat(rc.out, publish.out);
  }

  /** The published value depends only on the second echo; the displayed one is discarded. */
  lemma StepIgnoresDisplayedEcho(s: State, inp: Inputs, other: int)
    requires |inp.connectOutcomes| >= MAX_CONNECT_ATTEMPTS
    ensures Step(s, inp.(displayEcho := other)) == Step(s, inp)
  {
  }

  /** The latch is never cleared, and once set no seed is published again. */
  lemma LatchIsFinal(s: State, inp: Inputs)
    requires |inp.connectOutcomes| >= MAX_CONNECT_ATTEMPTS && s.firstReadingSent
    ensures Step(s, inp).next.firstReadingSent
    ensures forall e :: e in Step(s, inp).out ==> e.Publish? && !e.retained
  {
  }

  /**
   * A connection whose seed publish fails leaves the latch clear, so the next
   * connection, after the session drops, publishes the seed again.
   */
  lemma SeedRetriedAfterFailedPublish(s: State, first: seq<bool>, again: seq<bool>, ok: bool)
    requires !s.connected && !s.firstReadingSent
    requires |first| >= MAX_CONNECT_ATTEMPTS && Connects(first)
    requires |again| >= MAX_CONNECT_ATTEMPTS && Connects(again)
    ensures var connected := Reconnect(s, first, false);
      && connected.out == [SEED]
      && !connected.next.firstReadingSent
      && Reconnect(connected.next.(connected := false), again, ok).out == [SEED]
  {
  }

  // ---------------------------------------------------------------------------
  // The sketch's globals and its functions

  class Node {
    var lastPublishTime: U32
    var firstReadingSent: bool
    var connected: bool      // what `mqttClient.connected()` reports
    var log: seq<Event>

    function Snapshot(): State
      reads this
    {
      State(lastPublishTime, firstReadingSent, connected)
    }

    constructor ()
      ensures Snapshot() == Boot && log == []
    {
      lastPublishTime := 0;
      firstReadingSent, connected := false, false;
      log := [];
    }

    /** `publishFillLevel`; `retained` defaults to false in the source. */
    method PublishFillLevel(fillPercentage: real, retained: bool)
      modifies this`log
      ensures log == old(log) + [Publish(TOPIC_FILL_LEVEL, OneDecimal(fillPercentage), retained)]
    {
      log := log + [Publish(TOPIC_FILL_LEVEL, OneDecimal(fillPercentage), retained)];
    }

    /** `reconnectMQTT`; `outcomes[i]` answers the i-th `connect` call. Returns the failed attempts. */
    method ReconnectMqtt(outcomes: seq<bool>, seedPublishOk: bool) returns (failures: nat)
      requires |outcomes| >= MAX_CONNECT_ATTEMPTS
      modifies this
      ensures Snapshot() == Reconnect(old(Snapshot()), outcomes, seedPublishOk).next
      ensures log == old(log) + Reconnect(old(Snapshot()), outcomes, seedPublishOk).out
      ensures failures == if old(connected) then 0 else FailuresBeforeConnect(outcomes, MAX_CONNECT_ATTEMPTS)
    {
      var retry := 0;
      while !connected && retry < MAX_CONNECT_ATTEMPTS
        invariant 0 <= retry <= MAX_CONNECT_ATTEMPTS
        invariant forall i :: 0 <= i < retry ==> !outcomes[i]
        invariant old(connected) ==> retry == 0
        invariant !connected ==> Snapshot() == old(Snapshot()) && log == old(log)
        invariant connected && !old(connected) ==> retry < MAX_CONNECT_ATTEMPTS && outcomes[retry]
        invariant connected ==> Snapshot() == Reconnect(old(Snapshot()), outcomes, seedPublishOk).next
        invariant connected ==> log == old(log) + Reconnect(old(Snapshot()), outcomes, seedPublishOk).out
      {
        // the client id gets a random suffix here; it is only a label
        if outcomes[retry] {
          connected := true;
          if !firstReadingSent {
            PublishFillLevel(DEFAULT_FILL_LEVEL, true);
            var success := seedPublishOk;   // what mqttClient.publish reported
            if success {
              firstReadingSent := true;
            }
          }
        } else {
          retry := retry + 1;
        }
      }
      failures := retry;
    }

    /** `measureAndPublishFillLevel` on the fill echo; the publish result is ignored. */
    method MeasureAndPublishFillLevel(fillEcho: int)
      modifies this`log
      ensures log == old(log) + [FillEvent(fillEcho)]
    {
      var currentHeight := MeasureDistance(fillEcho);
      if currentHeight <= 0.0 || currentHeight > BIN_HEIGHT {
        PublishFillLevel(DEFAULT_FILL_LEVEL, false);
        return;
      }
      var fillPercentage := (BIN_HEIGHT - currentHeight) / BIN_HEIGHT * 100.0;
      if fillPercentage < 0.0 { fillPercentage := 0.0; }
      if fillPercentage > 100.0 { fillPercentage := 100.0; }
      PublishFillLevel(fillPercentage, false);
    }

    /** Lines 46-49 of `loop()`: reconnect when the session is down, then `mqttClient.loop()`. */
    method ServiceBroker(inp: Inputs)
      requires |inp.connectOutcomes| >= MAX_CONNECT_ATTEMPTS
      modifies this
      ensures Snapshot() == Reconnect(old(Snapshot()), inp.connectOutcomes, inp.seedPublishOk).next.(
        connected := Reconnect(old(Snapshot()), inp.connectOutcomes, inp.seedPublishOk).next.connected && inp.serviceOk)
      ensures log == old(log) + Reconnect(old(Snapshot()), inp.connectOutcomes, inp.seedPublishOk).out
    {
      if !connected {
        var _ := ReconnectMqtt(inp.connectOutcomes, inp.seedPublishOk);
      }
      connected := connected && inp.serviceOk;   // mqttClient.loop() may find the session gone
    }

    /** Lines 52-63 of `loop()`. */
    method RunPublishTask(inp: Inputs)
      modifies this
      ensures Snapshot() == PublishTask(old(Snapshot()), inp).next
      ensures log == old(log) + PublishTask(old(Snapshot()), inp).out
    {
      if Due(inp.now, lastPublishTime, PUBLISH_INTERVAL) {
        lastPublishTime := inp.now;
        var distance := MeasureDistance(inp.displayEcho);   // only shown on the console
        MeasureAndPublishFillLevel(inp.fillEcho);
      }
    }

    /** One pass of `loop()`. */
    method Loop(inp: Inputs)
      requires |inp.connectOutcomes| >= MAX_CONNECT_ATTEMPTS
      modifies this
      ensures Snapshot() == Step(old(Snapshot()), inp).next
      ensures log == old(log) + Step(old(Snapshot()), inp).out
    {
      ServiceBroker(inp);
      RunPublishTask(inp);
    }
  }
}
