/**
 * The proximity-only controller (sensor.c): every pass of `loop()` takes three
 * integer distance samples, averages them with integer division, reports the
 * average on serial at most once a second, and drives the lid peer with
 * edge-triggered `O:1` / `O:0` commands. All its arithmetic is on `long`.
 */
module Sensor {
  import opened Clock
  import opened Broker

  const PROXIMITY_THRESHOLD: int := 50
  const DISTANCE_UPDATE_INTERVAL: nat := 1000

  /** C's `/` on integers: the quotient truncated toward zero. */
  function TruncDiv(a: int, b: int): (q: int)
    requires b > 0
    ensures a >= 0 ==> q * b <= a < (q + 1) * b
    ensures a < 0 ==> (q - 1) * b < a <= q * b
  {
    if a >= 0 then a / b else -((-a) / b)
  }

  /**
   * `measure()`: `dist = (duration / 2) / 29.1` with `duration` and `dist` of
   * type `long`. The first division truncates; the second is in floating
   * point, and storing the quotient back into `dist` truncates it. Dividing
   * by 29.1 is multiplying by 10 and dividing by 291, exactly.
   */
  function SampleDistance(duration: int): int
  {
    TruncDiv(TruncDiv(duration, 2) * 10, 291)
  }

  /**
   * For a real echo the stored sample is the floating-point quotient
   * `(duration / 2) / 29.1` truncated to a whole number of centimetres.
   */
  lemma SampleIsTruncatedQuotient(duration: int)
    requires duration >= 0
    ensures var q := TruncDiv(duration, 2) as real / 29.1;
      SampleDistance(duration) as real <= q < SampleDistance(duration) as real + 1.0
  {
    var half := TruncDiv(duration, 2);
    var n := TruncDiv(half * 10, 291);
    assert half >= 0;
    assert n * 291 <= half * 10 < (n + 1) * 291;
    assert half as real / 29.1 == (half * 10) as real / 291.0;
  }

  /** `(aver[0] + aver[1] + aver[2]) / 3` on `long`s. */
  function Average(a0: int, a1: int, a2: int): (avg: int)
    ensures var lo := if a0 <= a1 && a0 <= a2 then a0 else if a1 <= a2 then a1 else a2;
            var hi := if a0 >= a1 && a0 >= a2 then a0 else if a1 >= a2 then a1 else a2;
            lo <= avg <= hi
  {
    TruncDiv(a0 + a1 + a2, 3)
  }

  /** The distance one pass of `loop()` decides on, from its three echoes. */
  function LoopDistance(echoes: seq<int>): int
    requires |echoes| == 3
  {
    Average(SampleDistance(echoes[0]), SampleDistance(echoes[1]), SampleDistance(echoes[2]))
  }

  /** For a real echo (never negative) the sample is below 50 cm exactly when the echo is under 2910 us. */
  lemma NearIffShortEcho(duration: int)
    requires duration >= 0
    ensures SampleDistance(duration) < PROXIMITY_THRESHOLD <==> duration < 2910
  {
    var half := TruncDiv(duration, 2);
    assert half * 2 <= duration < half * 2 + 2;
  }

  datatype Decision = Decision(open: bool, out: seq<Event>)

  /** The lid part of `loop()`: at most one command, and only when the state flips. */
  function LidDecision(isOpen: bool, dist: int): (r: Decision)
    ensures r.open <==> dist < PROXIMITY_THRESHOLD
    ensures r.out == if r.open != isOpen then [Command(r.open)] else []
  {
    if dist < PROXIMITY_THRESHOLD && !isOpen then Decision(true, [SerialLine(OPEN_COMMAND)])
    else if dist >= PROXIMITY_THRESHOLD && isOpen then Decision(false, [SerialLine(CLOSE_COMMAND)])
    else Decision(isOpen, [])
  }

  datatype State = State(isOpen: bool, lastDistanceUpdate: U32)

  const Boot: State := State(false, 0)

  /**
   * What one pass of `loop()` reads: three echo durations, and the two values
   * of `millis()` it takes, one in the test and one for the new stamp.
   */
  datatype Inputs = Inputs(echoes: seq<int>, nowCheck: U32, nowStamp: U32)

  datatype Outcome = Outcome(next: State, out: seq<Event>)

  /** One pass of `loop()`: maybe a `D:` line, then maybe a lid command. */
  function Step(s: State, inp: Inputs): (r: Outcome)
    requires |inp.echoes| == 3
    ensures r.next.isOpen <==> LoopDistance(inp.echoes) < PROXIMITY_THRESHOLD
    ensures r.next.lastDistanceUpdate ==
      if DueStrictly(inp.nowCheck, s.lastDistanceUpdate, DISTANCE_UPDATE_INTERVAL) then inp.nowStamp
      else s.lastDistanceUpdate
  {
    var dist := LoopDistance(inp.echoes);
    var report := DueStrictly(inp.nowCheck, s.lastDistanceUpdate, DISTANCE_UPDATE_INTERVAL);
    var lid := LidDecision(s.isOpen, dist);
    Outcome(State(lid.open, if report then inp.nowStamp else s.lastDistanceUpdate),
            (if report then [SerialDistance(dist as real)] else []) + lid.out)
  }

  /**
   * A pass emits a `D:` line exactly when more than 1000 ms passed since the
   * last one, and a lid command exactly when the lid state flips (so at most
   * one); it never publishes anything. The pass's whole output is that line,
   * if any, followed by that command, if any.
   */
  lemma StepOutput(s: State, inp: Inputs)
    requires |inp.echoes| == 3
    ensures var r := Step(s, inp);
      r.out == (if DueStrictly(inp.nowCheck, s.lastDistanceUpdate, DISTANCE_UPDATE_INTERVAL)
                then [SerialDistance(LoopDistance(inp.echoes) as real)] else [])
               + (if r.next.isOpen != s.isOpen then [Command(r.next.isOpen)] else [])
    ensures var r := Step(s, inp);
      && (r.out != [] && r.out[0] == SerialDistance(LoopDistance(inp.echoes) as real) <==>
            DueStrictly(inp.nowCheck, s.lastDistanceUpdate, DISTANCE_UPDATE_INTERVAL))
      && Commands(r.out) == (if r.next.isOpen != s.isOpen then 1 else 0)
      && forall e :: e in r.out ==> !e.Publish?
  {
    var dist := LoopDistance(inp.echoes);
    var line: seq<Event> := if DueStrictly(inp.nowCheck, s.lastDistanceUpdate, DISTANCE_UPDATE_INTERVAL)
                            then [SerialDistance(dist as real)] else [];
    var lid := LidDecision(s.isOpen, dist);
    CommandsOfConcat(line, lid.out);
    CountsOfSingle(SerialDistance(dist as real));
    if lid.out != [] {
      CountsOfSingle(lid.out[0]);
    }
  }

  /**
   * No reading is rejected: three `pulseIn` timeouts (echo 0) average to 0 cm,
   * which is "near", so a closed lid opens.
   */
  lemma TimeoutsOpenTheLid(last: U32, nowCheck: U32, nowStamp: U32)
    ensures var r := Step(State(false, last), Inputs([0, 0, 0], nowCheck, nowStamp));
      r.next.isOpen && Commands(r.out) == 1 && r.out[|r.out| - 1] == SerialLine(OPEN_COMMAND)
  {
    StepOutput(State(false, last), Inputs([0, 0, 0], nowCheck, nowStamp));
  }

  /** A distance of exactly 50 cm counts as far: the lid closes or stays closed. */
  lemma FiftyIsOnTheClosedSide(isOpen: bool)
    ensures !LidDecision(isOpen, PROXIMITY_THRESHOLD).open
  {
  }

  // ---------------------------------------------------------------------------
  // The sketch's globals and its functions

  class Node {
    var duration: int
    var dist: int
    const aver: array<int>
    var isOpen: bool
    var lastDistanceUpdate: U32   // the `static` local of loop()
    var log: seq<Event>

    ghost predicate Valid()
      reads this
    {
      aver.Length == 3
    }

    function Snapshot(): State
      reads this
    {
      State(isOpen, lastDistanceUpdate)
    }

    constructor ()
      ensures Valid() && fresh(aver) && aver[..] == [0, 0, 0]
      ensures Snapshot() == Boot && log == []
    {
      duration, dist := 0, 0;
      aver := new int[3](_ => 0);
      isOpen, lastDistanceUpdate := false, 0;
      log := [];
    }

    /** `measure()`: one echo into the globals `duration` and `dist`. */
    method Measure(echo: int)
      modifies this`duration, this`dist
      ensures duration == echo && dist == SampleDistance(echo)
    {
      duration := echo;
      dist := TruncDiv(TruncDiv(duration, 2) * 10, 291);
    }

    /** The sampling loop of `loop()`: three `measure()` calls, each stored in `aver`. */
    method TakeSamples(echoes: seq<int>)
      requires Valid() && |echoes| == 3
      modifies this`duration, this`dist, aver
      ensures aver[..] == [SampleDistance(echoes[0]), SampleDistance(echoes[1]), SampleDistance(echoes[2])]
      ensures duration == echoes[2]
    {
      for i := 0 to 3
        invariant forall j :: 0 <= j < i ==> aver[j] == SampleDistance(echoes[j])
        invariant 0 < i ==> duration == echoes[i - 1]
      {
        Measure(echoes[i]);
        aver[i] := dist;
      }
    }

    /** One pass of `loop()`; `inp.echoes` are the three `pulseIn` results in order. */
    method Loop(inp: Inputs)
      requires Valid() && |inp.echoes| == 3
      modifies this, aver
      ensures Valid()
      ensures aver[..] == [SampleDistance(inp.echoes[0]), SampleDistance(inp.echoes[1]), SampleDistance(inp.echoes[2])]
      ensures duration == inp.echoes[2] && dist == LoopDistance(inp.echoes)
      ensures Snapshot() == Step(old(Snapshot()), inp).next
      ensures log == old(log) + Step(old(Snapshot()), inp).out
    {
      ghost var s0, log0 := Snapshot(), log;
      TakeSamples(inp.echoes);
      dist := TruncDiv(aver[0] + aver[1] + aver[2], 3);
      assert dist == LoopDistance(inp.echoes);
      ghost var report := DueStrictly(inp.nowCheck, lastDistanceUpdate, DISTANCE_UPDATE_INTERVAL);
      ghost var line: seq<Event> := if report then [SerialDistance(dist as real)] else [];
      ghost var lid := LidDecision(isOpen, dist);
      assert Step(s0, inp) == Outcome(State(lid.open, if report then inp.nowStamp else s0.lastDistanceUpdate),
                                      line + lid.out);
      if DueStrictly(inp.nowCheck, lastDistanceUpdate, DISTANCE_UPDATE_INTERVAL) {
        log := log + [SerialDistance(dist as real)];
        lastDistanceUpdate := inp.nowStamp;
      }
      assert log == old(log) + line;
      if dist < PROXIMITY_THRESHOLD && !isOpen {
        log := log + [SerialLine(OPEN_COMMAND)];
        isOpen := true;
      } else if dist >= PROXIMITY_THRESHOLD && isOpen {
        log := log + [SerialLine(CLOSE_COMMAND)];
        isOpen := false;
      }
      assert log == log0 + line + lid.out;
      AppendTwo(log0, line, lid.out);
    }
  }
}
