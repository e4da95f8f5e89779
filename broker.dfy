/**
 * What the sketches emit, as an append-only log of events, and the part of the
 * broker reconnect policy the two networked sketches share.
 *
 * The log keeps only the protocol: lines on the serial link to the lid peer
 * (`D:<distance>`, `O:1`, `O:0`) and calls to `mqttClient.publish` with their
 * topic, payload and retained flag. Console debug text is not logged.
 */
module Broker {

  const TOPIC_FILL_LEVEL: string := "smartdustbin/filllevel"
  const TOPIC_LID_STATE: string := "smartdustbin/lidstate"

  /** `reconnectMQTT` gives up after this many failed `connect` calls. */
  const MAX_CONNECT_ATTEMPTS: nat := 3

  /**
   * A publish payload: a literal string, or a number the source formats
   * with `snprintf("%.1f")` (the formatting itself is abstracted away).
   */
  datatype Payload = Text(s: string) | OneDecimal(v: real)

  datatype Event =
    | SerialDistance(value: real)   // "D:" followed by Serial.println(value)
    | SerialLine(text: string)      // a literal line such as "O:1"
    | Publish(topic: string, payload: Payload, retained: bool)

  const OPEN_COMMAND: string := "O:1"
  const CLOSE_COMMAND: string := "O:0"

  /** The serial command that drives the lid peer to the given state. */
  function Command(open: bool): (e: Event)
    ensures IsCommand(e)
    ensures open <==> e == SerialLine(OPEN_COMMAND)
    ensures !open <==> e == SerialLine(CLOSE_COMMAND)
  {
    SerialLine(if open then OPEN_COMMAND else CLOSE_COMMAND)
  }

  predicate IsCommand(e: Event)
  {
    e == SerialLine(OPEN_COMMAND) || e == SerialLine(CLOSE_COMMAND)
  }

  /** Number of lid commands in a log. */
  function Commands(out: seq<Event>): nat
  {
    if out == [] then 0
    else (if IsCommand(out[0]) then 1 else 0) + Commands(out[1..])
  }

  predicate IsPublishOn(e: Event, topic: string, retained: bool)
  {
    e.Publish? && e.topic == topic && e.retained == retained
  }

  /** Number of publishes on `topic` whose retained flag is `retained`. */
  function Publishes(out: seq<Event>, topic: string, retained: bool): nat
  {
    if out == [] then 0
    else (if IsPublishOn(out[0], topic, retained) then 1 else 0)
         + Publishes(out[1..], topic, retained)
  }

  /**
   * The protocol lines of a log (`D:`, `O:1`, `O:0`), in the order sent; the
   * console text that shares the serial port is not part of the log.
   */
  function SerialTraffic(out: seq<Event>): seq<Event>
  {
    if out == [] then []
    else (if out[0].Publish? then [] else [out[0]]) + SerialTraffic(out[1..])
  }

  lemma {:induction false} SerialTrafficOfConcat(a: seq<Event>, b: seq<Event>)
    ensures SerialTraffic(a + b) == SerialTraffic(a) + SerialTraffic(b)
  {
    if a == [] {
      assert a + b == b;
    } else {
      assert (a + b)[1..] == a[1..] + b;
      SerialTrafficOfConcat(a[1..], b);
    }
  }

  lemma {:induction false} CommandsOfConcat(a: seq<Event>, b: seq<Event>)
    ensures Commands(a + b) == Commands(a) + Commands(b)
  {
    if a == [] {
      assert a + b == b;
    } else {
      assert (a + b)[1..] == a[1..] + b;
      CommandsOfConcat(a[1..], b);
    }
  }

  lemma {:induction false} PublishesOfConcat(a: seq<Event>, b: seq<Event>, topic: string, retained: bool)
    ensures Publishes(a + b, topic, retained) == Publishes(a, topic, retained) + Publishes(b, topic, retained)
  {
    if a == [] {
      assert a + b == b;
    } else {
      assert (a + b)[1..] == a[1..] + b;
      PublishesOfConcat(a[1..], b, topic, retained);
    }
  }

  lemma CommandsOfThree(a: seq<Event>, b: seq<Event>, c: seq<Event>)
    ensures Commands(a + b + c) == Commands(a) + Commands(b) + Commands(c)
  {
    CommandsOfConcat(a + b, c);
    CommandsOfConcat(a, b);
  }

  lemma PublishesOfThree(a: seq<Event>, b: seq<Event>, c: seq<Event>, topic: string, retained: bool)
    ensures Publishes(a + b + c, topic, retained) ==
            Publishes(a, topic, retained) + Publishes(b, topic, retained) + Publishes(c, topic, retained)
  {
    PublishesOfConcat(a + b, c, topic, retained);
    PublishesOfConcat(a, b, topic, retained);
  }

  /** Appending two pieces to a log one by one appends their concatenation. */
  lemma AppendTwo(log: seq<Event>, a: seq<Event>, b: seq<Event>)
    ensures log + a + b == log + (a + b)
  {
  }

  /** Appending three pieces to a log one by one appends their concatenation. */
  lemma AppendThree(log: seq<Event>, a: seq<Event>, b: seq<Event>, c: seq<Event>)
    ensures log + a + b + c == log + (a + b + c)
  {
  }

  /** The counts a tick's lemmas need, over a concatenation: commands, and each topic both ways. */
  lemma CountsOfConcat(a: seq<Event>, b: seq<Event>)
    ensures Commands(a + b) == Commands(a) + Commands(b)
    ensures Publishes(a + b, TOPIC_FILL_LEVEL, false) ==
            Publishes(a, TOPIC_FILL_LEVEL, false) + Publishes(b, TOPIC_FILL_LEVEL, false)
    ensures Publishes(a + b, TOPIC_FILL_LEVEL, true) ==
            Publishes(a, TOPIC_FILL_LEVEL, true) + Publishes(b, TOPIC_FILL_LEVEL, true)
    ensures Publishes(a + b, TOPIC_LID_STATE, false) ==
            Publishes(a, TOPIC_LID_STATE, false) + Publishes(b, TOPIC_LID_STATE, false)
    ensures Publishes(a + b, TOPIC_LID_STATE, true) ==
            Publishes(a, TOPIC_LID_STATE, true) + Publishes(b, TOPIC_LID_STATE, true)
  {
    CommandsOfConcat(a, b);
    PublishesOfConcat(a, b, TOPIC_FILL_LEVEL, false);
    PublishesOfConcat(a, b, TOPIC_FILL_LEVEL, true);
    PublishesOfConcat(a, b, TOPIC_LID_STATE, false);
    PublishesOfConcat(a, b, TOPIC_LID_STATE, true);
  }

  lemma CountsOfSingle(e: Event)
    ensures Commands([e]) == if IsCommand(e) then 1 else 0
    ensures forall topic: string, retained: bool ::
      Publishes([e], topic, retained) == if IsPublishOn(e, topic, retained) then 1 else 0
  {
    assert [e][1..] == [];
  }

  /** The two topics, and the two commands, are distinct strings. */
  lemma DistinctLiterals()
    ensures TOPIC_FILL_LEVEL != TOPIC_LID_STATE
    ensures OPEN_COMMAND != CLOSE_COMMAND
  {
    assert TOPIC_FILL_LEVEL[13] != TOPIC_LID_STATE[13];
    assert OPEN_COMMAND[2] != CLOSE_COMMAND[2];
  }

  /**
   * How many `connect` calls fail before one succeeds, with at most `budget`
   * calls; `outcomes[i]` is the broker's answer to the i-th call.
   */
  function FailuresBeforeConnect(outcomes: seq<bool>, budget: nat): (n: nat)
    ensures n <= budget && n <= |outcomes|
    ensures forall i :: 0 <= i < n ==> !outcomes[i]
    ensures n < budget && n < |outcomes| ==> outcomes[n]
    decreases budget
  {
    if budget == 0 || outcomes == [] then 0
    else if outcomes[0] then 0
    else 1 + FailuresBeforeConnect(outcomes[1..], budget - 1)
  }

  /** One call of `reconnectMQTT` ends connected: fewer than three attempts failed. */
  predicate Connects(outcomes: seq<bool>)
  {
    FailuresBeforeConnect(outcomes, MAX_CONNECT_ATTEMPTS) < MAX_CONNECT_ATTEMPTS
  }

  /** A call connects exactly when one of its first three attempts succeeds. */
  lemma ConnectsIffAnAttemptSucceeds(outcomes: seq<bool>)
    requires |outcomes| >= MAX_CONNECT_ATTEMPTS
    ensures Connects(outcomes) <==> exists i :: 0 <= i < MAX_CONNECT_ATTEMPTS && outcomes[i]
  {
    var n := FailuresBeforeConnect(outcomes, MAX_CONNECT_ATTEMPTS);
    if Connects(outcomes) {
      assert outcomes[n];
    }
  }
}
