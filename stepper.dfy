/** The stepper-motor sequencer: single-coil (wave) stepping over an
    8-row half-step coil table, and a write-through cache of the last value
    sent to each of the six motor pins, in front of the PWM actuator.

    The actuator (`pwm.writeChannel`, `pwm.setPin`) is modelled as the list
    of calls made to it. */
module StepperMotor {

  datatype Option<T> = None | Some(value: T)

  datatype Direction = Forward | Backward

  /** The PWM channels wired to one winding of the motor. */
  datatype Pin = Pin(pwm: int, in2: int, in1: int)

  /** Motor port M1 of the driver board. */
  const M1: Pin := Pin(8, 9, 10)
  /** Motor port M2 of the driver board. */
  const M2: Pin := Pin(13, 12, 11)

  /** The six pins the sequencer drives, named as in the coil state. */
  datatype Key = PWMA | PWMB | AIN2 | BIN1 | AIN1 | BIN2

  /** A coil state: the two duty values and the four direction pins. */
  datatype State = State(pwmA: int, pwmB: int, ain2: int, bin1: int, ain1: int, bin2: int)

  /** One call to the actuator. */
  datatype ActuatorCall =
    | WriteChannel(channel: int, on: int, off: real)
    | SetPin(channel: int, value: int)

  /** The half-step coil table; columns are AIN2, BIN1, AIN1, BIN2. */
  const STEP2COILS: seq<seq<int>> := [
    [1, 0, 0, 0],
    [1, 1, 0, 0],
    [0, 1, 0, 0],
    [0, 1, 1, 0],
    [0, 0, 1, 0],
    [0, 0, 1, 1],
    [0, 0, 0, 1],
    [1, 0, 0, 1]
  ]

  /** Every row of the coil table has one entry per direction pin. */
  lemma CoilRowsComplete()
    ensures forall i :: 0 <= i < |STEP2COILS| ==> |STEP2COILS[i]| == 4
  {
  }

  /** The duty value single stepping puts on both windings: 255 * 16. */
  const FULL_DUTY: int := 255 * 16

  /** The order in which a pulse writes the pins. */
  const PULSE_ORDER: seq<Key> := [PWMA, PWMB, AIN2, BIN1, AIN1, BIN2]

  // ---------------------------------------------------------------------
  // Step arithmetic

  /** JavaScript's `a % b`: the remainder of division truncated toward
      zero, so it takes the sign of the dividend. */
  function JsRem(a: int, b: int): (r: int)
    requires b > 0
    ensures a >= 0 ==> 0 <= r < b
    ensures a < 0 ==> -b < r <= 0
    ensures a == b * (if a >= 0 then a / b else -((-a) / b)) + r
  {
    if a >= 0 then a % b else -((-a) % b)
  }

  /** The microstep settings the sequencer supports. */
  predicate ValidMicrosteps(m: int)
  {
    m == 8 || m == 16
  }

  /** The step position is a whole step (a multiple of the microsteps)
      within one electrical cycle of four whole steps. */
  predicate StepInvariant(currentStep: int, m: int)
  {
    m > 0 && 0 <= currentStep < 4 * m && currentStep % m == 0
  }

  /** The new step position after `single(dir)`: move by one whole step,
      floor to a whole step with the truncating remainder, then wrap into
      one cycle. */
  function Advance(currentStep: int, m: int, dir: Direction): (next: int)
    requires m > 0
    ensures ValidMicrosteps(m) && currentStep >= 0 ==> StepInvariant(next, m)
  {
    var moved := if dir == Forward then currentStep + m else currentStep - m;
    var floored := moved - JsRem(moved, m);
    var next := JsRem(floored + m * 4, m * 4);
    if ValidMicrosteps(m) && currentStep >= 0 then
      FloorToWholeStep(moved, m);
      WrapIntoCycle(floored, m);
      next
    else
      next
  }

  /** Flooring with the truncating remainder yields a multiple of the
      microsteps, and from a position no lower than one whole step below
      zero it stays there. */
  lemma FloorToWholeStep(moved: int, m: int)
    requires ValidMicrosteps(m) && moved >= -m
    ensures var floored := moved - JsRem(moved, m); floored >= -m && floored % m == 0
  {
    if m == 8 {
      assert moved - JsRem(moved, 8) >= -8 && (moved - JsRem(moved, 8)) % 8 == 0;
    } else {
      assert moved - JsRem(moved, 16) >= -16 && (moved - JsRem(moved, 16)) % 16 == 0;
    }
  }

  /** Adding one cycle and wrapping a whole step no lower than -m lands on
      a whole step within one cycle. */
  lemma WrapIntoCycle(floored: int, m: int)
    requires ValidMicrosteps(m) && floored >= -m && floored % m == 0
    ensures StepInvariant(JsRem(floored + m * 4, m * 4), m)
  {
    if m == 8 {
      WrapIntoCycle8(floored);
    } else {
      WrapIntoCycle16(floored);
    }
  }

  /** `WrapIntoCycle` with 8 microsteps. */
  lemma WrapIntoCycle8(floored: int)
    requires floored >= -8 && floored % 8 == 0
    ensures StepInvariant(JsRem(floored + 32, 32), 8)
  {
    var k := floored / 8 + 4;
    assert floored + 32 == 8 * k;
    assert (8 * k) % 32 == 8 * (k % 4);
  }

  /** `WrapIntoCycle` with 16 microsteps. */
  lemma WrapIntoCycle16(floored: int)
    requires floored >= -16 && floored % 16 == 0
    ensures StepInvariant(JsRem(floored + 64, 64), 16)
  {
    var k := floored / 16 + 4;
    assert floored + 64 == 16 * k;
    assert (16 * k) % 64 == 16 * (k % 4);
  }

  /** Where `single` lands from any non-negative position, whole step or
      not: forward goes to the whole step after the one at or below the
      position; backward goes to the whole step before it, except from
      strictly inside the first whole step, where the truncating remainder
      floors the negative intermediate position up to 0. */
  lemma AdvanceClosedForm(cs: int, m: int)
    requires ValidMicrosteps(m) && cs >= 0
    ensures Advance(cs, m, Forward) == ((cs / m + 1) % 4) * m
    ensures Advance(cs, m, Backward) == if 0 < cs < m then 0 else ((cs / m + 3) % 4) * m
  {
    if m == 8 {
      AdvanceForwardClosed8(cs);
      AdvanceBackwardClosed8(cs);
    } else {
      AdvanceForwardClosed16(cs);
      AdvanceBackwardClosed16(cs);
    }
  }

  /** `AdvanceClosedForm` forward, with 8 microsteps. */
  lemma AdvanceForwardClosed8(cs: int)
    requires cs >= 0
    ensures Advance(cs, 8, Forward) == ((cs / 8 + 1) % 4) * 8
  {
    var q := cs / 8;
    assert Advance(cs, 8, Forward) == JsRem((cs + 8) - JsRem(cs + 8, 8) + 32, 32);
    assert (cs + 8) - JsRem(cs + 8, 8) + 32 == 8 * (q + 5);
    CycleOfWholeSteps(q + 5, 8);
    assert 8 * ((q + 5) % 4) == ((q + 1) % 4) * 8;
  }

  /** `AdvanceClosedForm` backward, with 8 microsteps. */
  lemma AdvanceBackwardClosed8(cs: int)
    requires cs >= 0
    ensures Advance(cs, 8, Backward) == if 0 < cs < 8 then 0 else ((cs / 8 + 3) % 4) * 8
  {
    if cs == 0 {
      assert Advance(cs, 8, Backward) == 24;
    } else if cs < 8 {
      assert JsRem(cs - 8, 8) == cs - 8;
    } else {
      AdvanceBackwardLater8(cs);
    }
  }

  /** Backward from at least one whole step, with 8 microsteps. */
  lemma AdvanceBackwardLater8(cs: int)
    requires cs >= 8
    ensures Advance(cs, 8, Backward) == ((cs / 8 + 3) % 4) * 8
  {
    var q := cs / 8;
    assert Advance(cs, 8, Backward) == JsRem((cs - 8) - JsRem(cs - 8, 8) + 32, 32);
    assert (cs - 8) - JsRem(cs - 8, 8) + 32 == 8 * (q + 3);
    CycleOfWholeSteps(q + 3, 8);
    assert 8 * ((q + 3) % 4) == ((q + 3) % 4) * 8;
  }

  /** `AdvanceClosedForm` forward, with 16 microsteps. */
  lemma AdvanceForwardClosed16(cs: int)
    requires cs >= 0
    ensures Advance(cs, 16, Forward) == ((cs / 16 + 1) % 4) * 16
  {
    var q := cs / 16;
    assert Advance(cs, 16, Forward) == JsRem((cs + 16) - JsRem(cs + 16, 16) + 64, 64);
    assert (cs + 16) - JsRem(cs + 16, 16) + 64 == 16 * (q + 5);
    CycleOfWholeSteps(q + 5, 16);
    assert 16 * ((q + 5) % 4) == ((q + 1) % 4) * 16;
  }

  /** `AdvanceClosedForm` backward, with 16 microsteps. */
  lemma AdvanceBackwardClosed16(cs: int)
    requires cs >= 0
    ensures Advance(cs, 16, Backward) == if 0 < cs < 16 then 0 else ((cs / 16 + 3) % 4) * 16
  {
    if cs == 0 {
      assert Advance(cs, 16, Backward) == 48;
    } else if cs < 16 {
      assert JsRem(cs - 16, 16) == cs - 16;
    } else {
      AdvanceBackwardLater16(cs);
    }
  }

  /** Backward from at least one whole step, with 16 microsteps. */
  lemma AdvanceBackwardLater16(cs: int)
    requires cs >= 16
    ensures Advance(cs, 16, Backward) == ((cs / 16 + 3) % 4) * 16
  {
    var q := cs / 16;
    assert Advance(cs, 16, Backward) == JsRem((cs - 16) - JsRem(cs - 16, 16) + 64, 64);
    assert (cs - 16) - JsRem(cs - 16, 16) + 64 == 16 * (q + 3);
    CycleOfWholeSteps(q + 3, 16);
    assert 16 * ((q + 3) % 4) == ((q + 3) % 4) * 16;
  }

  /** Wrapping `k` whole steps into one cycle keeps `k % 4` of them. */
  lemma CycleOfWholeSteps(k: nat, m: int)
    requires ValidMicrosteps(m)
    ensures (m * k) % (m * 4) == m * (k % 4)
  {
    if m == 8 {
      assert 8 * k == 32 * (k / 4) + 8 * (k % 4);
    } else {
      assert 16 * k == 64 * (k / 4) + 16 * (k % 4);
    }
  }

  /** Where the truncating remainder matters. Position 8 is reachable: one
      forward step with 8 microsteps, then `microsteps` switched to 16. A
      backward step from there moves to -8, which the truncating remainder
      floors towards zero, to 0; a floor-style remainder would have floored
      it to -16 and wrapped it to 48. Positions 11 and 27 (set directly)
      behave the same way. */
  lemma TruncationFloorsTowardZero()
    ensures Advance(8, 16, Backward) == 0
    ensures var moved := 8 - 16; (moved - moved % 16 + 64) % 64 == 48
    ensures Advance(11, 16, Backward) == 0
    ensures Advance(27, 16, Backward) == 0
    ensures Advance(11, 16, Forward) == 16
    ensures var moved := 11 - 16; (moved - moved % 16 + 64) % 64 == 48
  {
  }

  /** Switching from 8 to 16 microsteps after three forward steps leaves the
      position at 24, between the whole steps 16 and 32. From there a
      backward step skips 16 and lands on 0, while a forward step lands on
      32: the two directions move by different amounts. */
  lemma SwitchedMicrostepsSkipsAStep()
    ensures Advance(Advance(Advance(0, 8, Forward), 8, Forward), 8, Forward) == 24
    ensures Advance(24, 16, Backward) == 0
    ensures Advance(24, 16, Forward) == 32
  {
    AdvanceTableForward8();
    AdvanceClosedForm(24, 16);
  }

  /** `Math.floor(currentStep / (microsteps / 2))`: the row of the coil table. */
  function CoilIndex(currentStep: int, m: int): (row: int)
    requires ValidMicrosteps(m)
    ensures (m / 2) * row <= currentStep < (m / 2) * (row + 1)
  {
    currentStep / (m / 2)
  }

  /** The four whole-step positions of one electrical cycle. */
  predicate WholeStep(currentStep: int, m: int)
  {
    currentStep == 0 || currentStep == m || currentStep == 2 * m || currentStep == 3 * m
  }

  /** A position that satisfies the invariant is one of the four whole steps. */
  lemma WholeSteps(currentStep: int, m: int)
    requires ValidMicrosteps(m) && StepInvariant(currentStep, m)
    ensures WholeStep(currentStep, m)
  {
  }

  /** The invariant holds exactly at the four whole steps. */
  lemma WholeStepMeaning(currentStep: int, m: int)
    requires ValidMicrosteps(m)
    ensures StepInvariant(currentStep, m) <==> WholeStep(currentStep, m)
  {
    if StepInvariant(currentStep, m) {
      WholeSteps(currentStep, m);
    }
  }

  /** The forward moves of `single` from each whole step with 8 microsteps. */
  lemma AdvanceTableForward8()
    ensures Advance(0, 8, Forward) == 8 && Advance(8, 8, Forward) == 16
    ensures Advance(16, 8, Forward) == 24 && Advance(24, 8, Forward) == 0
  {
  }

  /** The backward moves of `single` from each whole step with 8 microsteps. */
  lemma AdvanceTableBackward8()
    ensures Advance(0, 8, Backward) == 24 && Advance(8, 8, Backward) == 0
    ensures Advance(16, 8, Backward) == 8 && Advance(24, 8, Backward) == 16
  {
  }

  /** The forward moves of `single` from each whole step with 16 microsteps. */
  lemma AdvanceTableForward16()
    ensures Advance(0, 16, Forward) == 16 && Advance(16, 16, Forward) == 32
    ensures Advance(32, 16, Forward) == 48 && Advance(48, 16, Forward) == 0
  {
  }

  /** The backward moves of `single` from each whole step with 16 microsteps. */
  lemma AdvanceTableBackward16()
    ensures Advance(0, 16, Backward) == 48 && Advance(16, 16, Backward) == 0
    ensures Advance(32, 16, Backward) == 16 && Advance(48, 16, Backward) == 32
  {
  }

  /** Under the invariant, single stepping moves exactly one whole step
      around the cycle of four, in either direction, and keeps the
      invariant. */
  lemma AdvanceOneWholeStep(currentStep: int, m: int)
    requires ValidMicrosteps(m) && StepInvariant(currentStep, m)
    ensures Advance(currentStep, m, Forward) == if currentStep == 3 * m then 0 else currentStep + m
    ensures Advance(currentStep, m, Backward) == if currentStep == 0 then 3 * m else currentStep - m
    ensures StepInvariant(Advance(currentStep, m, Forward), m)
    ensures StepInvariant(Advance(currentStep, m, Backward), m)
  {
    WholeSteps(currentStep, m);
    AdvanceTableForward8();
    AdvanceTableBackward8();
    AdvanceTableForward16();
    AdvanceTableBackward16();
  }

  /** A step forward followed by a step backward (or the other way round)
      returns to the starting position. */
  lemma ForwardBackwardInverse(currentStep: int, m: int)
    requires ValidMicrosteps(m) && StepInvariant(currentStep, m)
    ensures Advance(Advance(currentStep, m, Forward), m, Backward) == currentStep
    ensures Advance(Advance(currentStep, m, Backward), m, Forward) == currentStep
  {
    WholeSteps(currentStep, m);
    AdvanceTableForward8();
    AdvanceTableBackward8();
    AdvanceTableForward16();
    AdvanceTableBackward16();
  }

  /** Stepping has period four: four forward steps return to the start, and
      fewer than four do not. */
  lemma ForwardPeriodFour(currentStep: int, m: int)
    requires ValidMicrosteps(m) && StepInvariant(currentStep, m)
    ensures var p1 := Advance(currentStep, m, Forward);
            var p2 := Advance(p1, m, Forward);
            var p3 := Advance(p2, m, Forward);
            Advance(p3, m, Forward) == currentStep &&
            p1 != currentStep && p2 != currentStep && p3 != currentStep
  {
    WholeSteps(currentStep, m);
    AdvanceTableForward8();
    AdvanceTableBackward8();
    AdvanceTableForward16();
    AdvanceTableBackward16();
  }

  /** Under the invariant the table row is even and within the table: single
      stepping only ever uses the single-coil rows. */
  lemma CoilIndexEvenInRange(currentStep: int, m: int)
    requires ValidMicrosteps(m) && StepInvariant(currentStep, m)
    ensures 0 <= CoilIndex(currentStep, m) < |STEP2COILS|
    ensures CoilIndex(currentStep, m) % 2 == 0
    ensures CoilIndex(currentStep, m) == 2 * (currentStep / m)
  {
    WholeSteps(currentStep, m);
  }

  /** Exactly one of the four direction pins is energised. */
  predicate OneCoilEnergised(s: State)
  {
    0 <= s.ain2 <= 1 && 0 <= s.bin1 <= 1 && 0 <= s.ain1 <= 1 && 0 <= s.bin2 <= 1 &&
    s.ain2 + s.bin1 + s.ain1 + s.bin2 == 1
  }

  /** The coil state `single` returns for a step position. */
  function StateAt(currentStep: int, m: int): (s: State)
    requires ValidMicrosteps(m) && StepInvariant(currentStep, m)
    ensures s.pwmA == s.pwmB == FULL_DUTY && 0 <= FULL_DUTY < 4096
    ensures OneCoilEnergised(s)
    ensures s.ain2 == 1 <==> currentStep == 0
    ensures s.bin1 == 1 <==> currentStep == m
    ensures s.ain1 == 1 <==> currentStep == 2 * m
    ensures s.bin2 == 1 <==> currentStep == 3 * m
  {
    CoilIndexEvenInRange(currentStep, m);
    WholeSteps(currentStep, m);
    var coils := STEP2COILS[CoilIndex(currentStep, m)];
    State(FULL_DUTY, FULL_DUTY, coils[0], coils[1], coils[2], coils[3])
  }

  /** From position 0 with 16 microsteps a forward step lands on 16 and
      energises BIN1 alone. */
  lemma SingleForwardFromZero()
    ensures Advance(0, 16, Forward) == 16
    ensures StateAt(16, 16) == State(4080, 4080, 0, 1, 0, 0)
  {
    AdvanceTableForward16();
  }

  /** From position 0 with 16 microsteps a backward step wraps to 48 and
      energises BIN2 alone. */
  lemma SingleBackwardFromZero()
    ensures Advance(0, 16, Backward) == 48
    ensures StateAt(48, 16) == State(4080, 4080, 0, 0, 0, 1)
  {
    AdvanceTableBackward16();
  }

  // ---------------------------------------------------------------------
  // Pins and the write-through cache

  /** Is `key` one of the pins of the first winding (PWMA, AIN2, AIN1)? */
  predicate OnWindingA(key: Key)
  {
    key == PWMA || key == AIN2 || key == AIN1
  }

  /** `getPinNumber`: the channel wired to a pin. */
  function PinNumber(w1: Pin, w2: Pin, key: Key): int
  {
    match key
    case PWMA => w1.pwm
    case AIN2 => w1.in2
    case AIN1 => w1.in1
    case PWMB => w2.pwm
    case BIN2 => w2.in2
    case BIN1 => w2.in1
  }

  /** The A pins are channels of the first winding, the B pins channels of
      the second, and the two duty pins are PWM channels. */
  lemma PinNumberWindings(w1: Pin, w2: Pin, key: Key)
    ensures var channel := PinNumber(w1, w2, key);
            (OnWindingA(key) ==> channel == w1.pwm || channel == w1.in2 || channel == w1.in1) &&
            (!OnWindingA(key) ==> channel == w2.pwm || channel == w2.in2 || channel == w2.in1) &&
            (IsDutyPin(key) ==> channel == w1.pwm || channel == w2.pwm)
  {
  }

  /** With the default wiring (ports M1 and M2) every pin has its own
      channel, and all of them are channels of the 16-channel controller. */
  lemma DefaultWiringDistinct(k1: Key, k2: Key)
    ensures 0 <= PinNumber(M1, M2, k1) < 16
    ensures PinNumber(M1, M2, k1) == PinNumber(M1, M2, k2) <==> k1 == k2
  {
  }

  /** The value an actuator call sends. */
  function CallValue(c: ActuatorCall): real
  {
    match c
    case WriteChannel(_, _, off) => off
    case SetPin(_, v) => v as real
  }

  /** The value last sent to `channel`, if any. */
  function LastSent(calls: seq<ActuatorCall>, channel: int): Option<real>
  {
    if calls == [] then None
    else if calls[|calls| - 1].channel == channel then Some(CallValue(calls[|calls| - 1]))
    else LastSent(calls[..|calls| - 1], channel)
  }

  /** Nothing was sent to `channel` exactly when no call addresses it, and
      otherwise the value sent is that of the latest call to it. */
  lemma {:induction false} LastSentIsLatest(calls: seq<ActuatorCall>, channel: int)
    ensures LastSent(calls, channel).None? <==> forall i :: 0 <= i < |calls| ==> calls[i].channel != channel
    ensures LastSent(calls, channel).Some? ==>
              exists i :: 0 <= i < |calls| && calls[i].channel == channel &&
                LastSent(calls, channel).value == CallValue(calls[i]) &&
                forall j :: i < j < |calls| ==> calls[j].channel != channel
    decreases |calls|
  {
    if calls != [] {
      var n := |calls| - 1;
      var prefix := calls[..n];
      if calls[n].channel != channel {
        LastSentIsLatest(prefix, channel);
        assert forall i :: 0 <= i < n ==> calls[i] == prefix[i];
      }
    }
  }

  lemma LastSentAppend(calls: seq<ActuatorCall>, c: ActuatorCall, channel: int)
    ensures LastSent(calls + [c], channel) ==
            if c.channel == channel then Some(CallValue(c)) else LastSent(calls, channel)
  {
    assert (calls + [c])[..|calls|] == calls;
  }

  /** The cache entry of pin `k` agrees with the actuator: it holds the value
      last sent to the pin's channel, and a pin without an entry has never
      been sent anything. */
  ghost predicate CoherentAt(cache: map<Key, real>, calls: seq<ActuatorCall>, w1: Pin, w2: Pin, k: Key)
  {
    LastSent(calls, PinNumber(w1, w2, k)) == if k in cache then Some(cache[k]) else None
  }

  /** Every cache entry agrees with the actuator. */
  ghost predicate Coherent(cache: map<Key, real>, calls: seq<ActuatorCall>, w1: Pin, w2: Pin)
  {
    CoherentAt(cache, calls, w1, w2, PWMA) && CoherentAt(cache, calls, w1, w2, PWMB) &&
    CoherentAt(cache, calls, w1, w2, AIN2) && CoherentAt(cache, calls, w1, w2, BIN1) &&
    CoherentAt(cache, calls, w1, w2, AIN1) && CoherentAt(cache, calls, w1, w2, BIN2)
  }

  /** One call to pin `pin`'s channel, stored in `pin`'s entry, keeps the
      entry of pin `k` coherent. */
  lemma SendKeepsCoherentAt(cache: map<Key, real>, calls: seq<ActuatorCall>, pin: Key, c: ActuatorCall, k: Key)
    requires CoherentAt(cache, calls, M1, M2, k) && c.channel == PinNumber(M1, M2, pin)
    ensures CoherentAt(cache[pin := CallValue(c)], calls + [c], M1, M2, k)
  {
    LastSentAppend(calls, c, PinNumber(M1, M2, k));
    DefaultWiringDistinct(k, pin);
  }

  /** One call to a pin's channel, stored in that pin's cache entry, keeps
      the whole cache coherent with the actuator. */
  lemma SendKeepsCoherent(cache: map<Key, real>, calls: seq<ActuatorCall>, pin: Key, c: ActuatorCall)
    requires Coherent(cache, calls, M1, M2) && c.channel == PinNumber(M1, M2, pin)
    ensures Coherent(cache[pin := CallValue(c)], calls + [c], M1, M2)
  {
    SendKeepsCoherentAt(cache, calls, pin, c, PWMA);
    SendKeepsCoherentAt(cache, calls, pin, c, PWMB);
    SendKeepsCoherentAt(cache, calls, pin, c, AIN2);
    SendKeepsCoherentAt(cache, calls, pin, c, BIN1);
    SendKeepsCoherentAt(cache, calls, pin, c, AIN1);
    SendKeepsCoherentAt(cache, calls, pin, c, BIN2);
  }

  /** The calls a lazy write makes: one call, unless the cache already holds
      exactly the new value. */
  function LazyCalls(cache: map<Key, real>, pin: Key, v: real, call: ActuatorCall): (calls: seq<ActuatorCall>)
    ensures calls == [] <==> pin in cache && cache[pin] == v
    ensures calls != [] ==> calls == [call]
  {
    if pin !in cache || cache[pin] != v then [call] else []
  }

  /** Writing the same value twice: the second write makes no call. */
  lemma LazyWriteTwice(cache: map<Key, real>, pin: Key, v: real, again: ActuatorCall)
    ensures LazyCalls(cache[pin := v], pin, v, again) == []
  {
  }

  /** Skipping a call is safe: from a coherent cache, a lazy write leaves
      the cache coherent with the pin's new value, so the actuator holds the
      new value on the pin's channel whether or not a call was made. */
  lemma LazyWriteKeepsCoherence(cache: map<Key, real>, calls: seq<ActuatorCall>, pin: Key, v: real, call: ActuatorCall)
    requires Coherent(cache, calls, M1, M2)
    requires call.channel == PinNumber(M1, M2, pin) && CallValue(call) == v
    ensures Coherent(cache[pin := v], calls + LazyCalls(cache, pin, v, call), M1, M2)
    ensures LastSent(calls + LazyCalls(cache, pin, v, call), PinNumber(M1, M2, pin)) == Some(v)
  {
    var after := calls + LazyCalls(cache, pin, v, call);
    var updated := cache[pin := v];
    if LazyCalls(cache, pin, v, call) == [] {
      assert after == calls;
      assert updated == cache;
    } else {
      SendKeepsCoherent(cache, calls, pin, call);
      LastSentAppend(calls, call, PinNumber(M1, M2, pin));
    }
  }

  /** `newState * this.current`: a duty value scaled by the throttle. */
  function Throttled(newState: int, current: real): (duty: real)
    ensures current == 1.0 ==> duty == newState as real
    ensures current == 0.0 ==> duty == 0.0
  {
    newState as real * current
  }

  /** A throttle between 0 and 1 only ever lowers a non-negative duty value:
      the current decrements the maximum duty cycle. */
  lemma ThrottleNeverRaisesDuty(newState: int, current: real)
    requires newState >= 0 && 0.0 <= current <= 1.0
    ensures 0.0 <= Throttled(newState, current) <= newState as real
  {
    var n := newState as real;
    assert n * current == n - n * (1.0 - current);
    assert 0.0 <= n * (1.0 - current);
  }

  /** Is `key` one of the two winding duty pins (written via writeChannel)? */
  predicate IsDutyPin(key: Key)
  {
    key == PWMA || key == PWMB
  }

  /** The cached value a pulse to `s` leaves for `key`: duty values are
      scaled by the current throttle, direction pins are stored as given. */
  function Target(s: State, current: real, key: Key): real
  {
    match key
    case PWMA => Throttled(s.pwmA, current)
    case PWMB => Throttled(s.pwmB, current)
    case AIN2 => s.ain2 as real
    case BIN1 => s.bin1 as real
    case AIN1 => s.ain1 as real
    case BIN2 => s.bin2 as real
  }

  /** The actuator call a pulse to `s` makes for `key` when it makes one. */
  function CallFor(s: State, current: real, w1: Pin, w2: Pin, key: Key): (c: ActuatorCall)
    ensures c.channel == PinNumber(w1, w2, key)
    ensures CallValue(c) == Target(s, current, key)
    ensures c.WriteChannel? <==> IsDutyPin(key)
    ensures c.WriteChannel? ==> c.on == 0
  {
    match key
    case PWMA => WriteChannel(PinNumber(w1, w2, key), 0, Throttled(s.pwmA, current))
    case PWMB => WriteChannel(PinNumber(w1, w2, key), 0, Throttled(s.pwmB, current))
    case AIN2 => SetPin(PinNumber(w1, w2, key), s.ain2)
    case BIN1 => SetPin(PinNumber(w1, w2, key), s.bin1)
    case AIN1 => SetPin(PinNumber(w1, w2, key), s.ain1)
    case BIN2 => SetPin(PinNumber(w1, w2, key), s.bin2)
  }

  /** The calls `lazyPWM(pin, newState)` makes against cache `cache`. */
  function LazyPwmCalls(cache: map<Key, real>, pin: Key, newState: int, current: real, w1: Pin, w2: Pin): seq<ActuatorCall>
  {
    LazyCalls(cache, pin, Throttled(newState, current), WriteChannel(PinNumber(w1, w2, pin), 0, Throttled(newState, current)))
  }

  /** `lazyPWM` makes at most one call, none exactly when the cache already
      holds the throttled value, and that call writes the throttled value to
      the pin's channel with on-tick 0. */
  lemma LazyPwmCallsMeaning(cache: map<Key, real>, pin: Key, newState: int, current: real, w1: Pin, w2: Pin)
    ensures var calls := LazyPwmCalls(cache, pin, newState, current, w1, w2);
            |calls| <= 1 &&
            (calls == [] <==> pin in cache && cache[pin] == Throttled(newState, current)) &&
            forall c :: c in calls ==> c.WriteChannel? && c.channel == PinNumber(w1, w2, pin) &&
                                       c.on == 0 && c.off == Throttled(newState, current)
  {
  }

  /** The calls `lazyPin(pin, newState)` makes against cache `cache`. */
  function LazyPinCalls(cache: map<Key, real>, pin: Key, newState: int, w1: Pin, w2: Pin): seq<ActuatorCall>
  {
    LazyCalls(cache, pin, newState as real, SetPin(PinNumber(w1, w2, pin), newState))
  }

  /** `lazyPin` makes at most one call, none exactly when the cache already
      holds the value, and that call sets the pin's channel to the value. */
  lemma LazyPinCallsMeaning(cache: map<Key, real>, pin: Key, newState: int, w1: Pin, w2: Pin)
    ensures var calls := LazyPinCalls(cache, pin, newState, w1, w2);
            |calls| <= 1 &&
            (calls == [] <==> pin in cache && cache[pin] == newState as real) &&
            forall c :: c in calls ==> c.SetPin? && c.channel == PinNumber(w1, w2, pin) && c.value == newState
  {
  }

  /** The cache after a pulse to `s`: every pin holds its target, whatever
      the cache held before. */
  function PulseCache(cache: map<Key, real>, s: State, current: real): (after: map<Key, real>)
    ensures forall k: Key :: k in after && after[k] == Target(s, current, k)
    ensures after.Keys == cache.Keys + {PWMA, PWMB, AIN2, BIN1, AIN1, BIN2}
  {
    var after := cache[PWMA := Throttled(s.pwmA, current)][PWMB := Throttled(s.pwmB, current)]
                      [AIN2 := s.ain2 as real][BIN1 := s.bin1 as real]
                      [AIN1 := s.ain1 as real][BIN2 := s.bin2 as real];
    assert forall k: Key :: k in after && after[k] == Target(s, current, k) by {
      forall k: Key ensures k in after && after[k] == Target(s, current, k) {
        if k.PWMA? {} else if k.PWMB? {} else if k.AIN2? {} else if k.BIN1? {} else if k.AIN1? {} else {}
      }
    }
    after
  }

  /** The calls of a pulse to `s`: the six lazy writes in pulse order, each
      against the cache the previous one left. */
  function PulseCalls(cache: map<Key, real>, s: State, current: real, w1: Pin, w2: Pin): (calls: seq<ActuatorCall>)
    ensures |calls| <= 6
    ensures cache == map[] ==> |calls| == 6
  {
    var c1 := cache[PWMA := Throttled(s.pwmA, current)];
    var c2 := c1[PWMB := Throttled(s.pwmB, current)];
    var c3 := c2[AIN2 := s.ain2 as real];
    var c4 := c3[BIN1 := s.bin1 as real];
    var c5 := c4[AIN1 := s.ain1 as real];
    LazyPwmCalls(cache, PWMA, s.pwmA, current, w1, w2) + LazyPwmCalls(c1, PWMB, s.pwmB, current, w1, w2)
      + LazyPinCalls(c2, AIN2, s.ain2, w1, w2) + LazyPinCalls(c3, BIN1, s.bin1, w1, w2)
      + LazyPinCalls(c4, AIN1, s.ain1, w1, w2) + LazyPinCalls(c5, BIN2, s.bin2, w1, w2)
  }

  /** The calls a lazy write of `key` towards coil state `s` makes when it
      is decided against `cache`. */
  function LazyFor(cache: map<Key, real>, s: State, current: real, w1: Pin, w2: Pin, key: Key): seq<ActuatorCall>
  {
    LazyCalls(cache, key, Target(s, current, key), CallFor(s, current, w1, w2, key))
  }

  /** Each pin is written once per pulse, so every lazy write of a pulse is
      decided against the entry the pulse started with. */
  lemma PulseCallsPerPin(cache: map<Key, real>, s: State, current: real, w1: Pin, w2: Pin)
    ensures PulseCalls(cache, s, current, w1, w2) ==
            LazyFor(cache, s, current, w1, w2, PWMA) + LazyFor(cache, s, current, w1, w2, PWMB)
              + LazyFor(cache, s, current, w1, w2, AIN2) + LazyFor(cache, s, current, w1, w2, BIN1)
              + LazyFor(cache, s, current, w1, w2, AIN1) + LazyFor(cache, s, current, w1, w2, BIN2)
  {
    var c1 := cache[PWMA := Throttled(s.pwmA, current)];
    var c2 := c1[PWMB := Throttled(s.pwmB, current)];
    var c3 := c2[AIN2 := s.ain2 as real];
    var c4 := c3[BIN1 := s.bin1 as real];
    var c5 := c4[AIN1 := s.ain1 as real];
    assert LazyPwmCalls(cache, PWMA, s.pwmA, current, w1, w2) == LazyFor(cache, s, current, w1, w2, PWMA);
    assert LazyPwmCalls(c1, PWMB, s.pwmB, current, w1, w2) == LazyFor(cache, s, current, w1, w2, PWMB);
    assert LazyPinCalls(c2, AIN2, s.ain2, w1, w2) == LazyFor(cache, s, current, w1, w2, AIN2);
    assert LazyPinCalls(c3, BIN1, s.bin1, w1, w2) == LazyFor(cache, s, current, w1, w2, BIN1);
    assert LazyPinCalls(c4, AIN1, s.ain1, w1, w2) == LazyFor(cache, s, current, w1, w2, AIN1);
    assert LazyPinCalls(c5, BIN2, s.bin2, w1, w2) == LazyFor(cache, s, current, w1, w2, BIN2);
  }

  /** A pulse makes at most one call per pin, each to that pin's channel
      with its target value. */
  lemma PulseCallsTargets(cache: map<Key, real>, s: State, current: real, w1: Pin, w2: Pin)
    ensures var calls := PulseCalls(cache, s, current, w1, w2);
            |calls| <= 6 &&
            forall c :: c in calls ==> exists k: Key :: c == CallFor(s, current, w1, w2, k) && CallValue(c) == Target(s, current, k)
  {
    PulseCallsPerPin(cache, s, current, w1, w2);
    var ks := [PWMA, PWMB, AIN2, BIN1, AIN1, BIN2];
    var calls := PulseCalls(cache, s, current, w1, w2);
    assert calls == LazyFor(cache, s, current, w1, w2, ks[0]) + LazyFor(cache, s, current, w1, w2, ks[1])
      + LazyFor(cache, s, current, w1, w2, ks[2]) + LazyFor(cache, s, current, w1, w2, ks[3])
      + LazyFor(cache, s, current, w1, w2, ks[4]) + LazyFor(cache, s, current, w1, w2, ks[5]);
    forall c | c in calls
      ensures exists k: Key :: c == CallFor(s, current, w1, w2, k) && CallValue(c) == Target(s, current, k)
    {
      var i :| 0 <= i < 6 && c in LazyFor(cache, s, current, w1, w2, ks[i]);
      assert c == CallFor(s, current, w1, w2, ks[i]);
    }
  }

  /** Pulsing the same state twice: the second pulse makes no call. */
  lemma PulseTwiceIsSilent(cache: map<Key, real>, s: State, current: real, w1: Pin, w2: Pin)
    ensures PulseCalls(PulseCache(cache, s, current), s, current, w1, w2) == []
  {
    PulseCallsPerPin(PulseCache(cache, s, current), s, current, w1, w2);
  }

  /** The first pulse of a fresh sequencer writes all six pins, in the order
      PWMA, PWMB, AIN2, BIN1, AIN1, BIN2. */
  lemma FirstPulseWritesAll(s: State, current: real, w1: Pin, w2: Pin)
    ensures PulseCalls(map[], s, current, w1, w2) ==
            seq(6, i requires 0 <= i < 6 => CallFor(s, current, w1, w2, PULSE_ORDER[i]))
  {
    PulseCallsPerPin(map[], s, current, w1, w2);
  }

  /** Six successive appends add their concatenation. */
  lemma AppendSix<T>(t0: seq<T>, t1: seq<T>, t2: seq<T>, t3: seq<T>, t4: seq<T>, t5: seq<T>, t6: seq<T>,
                     a: seq<T>, b: seq<T>, c: seq<T>, d: seq<T>, e: seq<T>, f: seq<T>)
    requires t1 == t0 + a && t2 == t1 + b && t3 == t2 + c && t4 == t3 + d && t5 == t4 + e && t6 == t5 + f
    ensures t6 == t0 + (a + b + c + d + e + f)
  {
    assert t6 == t0 + a + b + c + d + e + f;
  }

  // ---------------------------------------------------------------------
  // The sequencer

  class Stepper {
    const w1: Pin
    const w2: Pin
    var currentStep: int
    var microsteps: int
    /** Throttle multiplier applied to duty values. */
    var current: real
    /** True while a pulse is writing the pins. */
    var pulsing: bool
    /** The last value written to each pin. */
    var state: map<Key, real>
    /** Every call made to the actuator, oldest first. */
    var calls: seq<ActuatorCall>
    /** How many actuator calls were made while `pulsing` was false. */
    ghost var callsWhileIdle: nat

    /** The position is never negative; it need not be a whole step, since
        `microsteps` is a public field a caller may switch between 8 and 16,
        and `single` floors back onto a whole step. Every cache entry agrees
        with the actuator. */
    ghost predicate Valid()
      reads this
    {
      w1 == M1 && w2 == M2 &&
      ValidMicrosteps(microsteps) && currentStep >= 0 &&
      Coherent(state, calls, w1, w2)
    }

    /** A sequencer on motor ports M1 and M2, at step 0, 16 microsteps, full
        current, with an empty cache. */
    constructor ()
      ensures Valid()
      ensures currentStep == 0 && microsteps == 16 && current == 1.0 && !pulsing
      ensures state == map[] && calls == [] && callsWhileIdle == 0
    {
      w1, w2 := M1, M2;
      currentStep, microsteps, current, pulsing := 0, 16, 1.0, false;
      state, calls := map[], [];
      callsWhileIdle := 0;
    }

    /** Makes one actuator call and keeps the cache coherent by storing
        `pin`'s new value. */
    method Send(pin: Key, c: ActuatorCall)
      requires Valid() && c.channel == PinNumber(w1, w2, pin)
      modifies this`state, this`calls, this`callsWhileIdle
      ensures Valid()
      ensures state == old(state)[pin := CallValue(c)]
      ensures calls == old(calls) + [c]
      ensures callsWhileIdle == old(callsWhileIdle) + (if pulsing then 0 else 1)
    {
      calls := calls + [c];
      if !pulsing {
        callsWhileIdle := callsWhileIdle + 1;
      }
      SendKeepsCoherent(state, old(calls), pin, c);
      state := state[pin := CallValue(c)];
    }

    /** `lazyPWM(pin, newState)`: writes duty `newState * current` to the
        pin's channel (on-tick 0) unless the cache already holds it. */
    method LazyPwm(pin: Key, newState: int)
      requires Valid()
      modifies this`state, this`calls, this`callsWhileIdle
      ensures Valid()
      ensures state == old(state)[pin := Throttled(newState, current)]
      ensures calls == old(calls) + LazyPwmCalls(old(state), pin, newState, current, w1, w2)
      ensures pulsing ==> callsWhileIdle == old(callsWhileIdle)
    {
      var throttledState := Throttled(newState, current);
      if pin !in state || state[pin] != throttledState {
        Send(pin, WriteChannel(PinNumber(w1, w2, pin), 0, throttledState));
      } else {
        assert state == state[pin := throttledState];
      }
    }

    /** `lazyPin(pin, newState)`: sets the pin to `newState` unless the cache
        already holds it. */
    method LazyPin(pin: Key, newState: int)
      requires Valid()
      modifies this`state, this`calls, this`callsWhileIdle
      ensures Valid()
      ensures state == old(state)[pin := newState as real]
      ensures calls == old(calls) + LazyPinCalls(old(state), pin, newState, w1, w2)
      ensures pulsing ==> callsWhileIdle == old(callsWhileIdle)
    {
      if pin !in state || state[pin] != newState as real {
        Send(pin, SetPin(PinNumber(w1, w2, pin), newState));
      } else {
        assert state == state[pin := newState as real];
      }
    }

    /** `pulse(newState)`: raises `pulsing`, lazily writes the six pins in
        order, and lowers `pulsing` again. Every call it makes is made while
        `pulsing` is raised. */
    method Pulse(newState: State)
      requires Valid()
      modifies this`pulsing, this`state, this`calls, this`callsWhileIdle
      ensures Valid() && !pulsing
      ensures state == PulseCache(old(state), newState, current)
      ensures calls == old(calls) + PulseCalls(old(state), newState, current, w1, w2)
      ensures callsWhileIdle == old(callsWhileIdle)
    {
      pulsing := true;
      ghost var c0, t0 := state, calls;
      LazyPwm(PWMA, newState.pwmA);
      ghost var c1, t1 := state, calls;
      LazyPwm(PWMB, newState.pwmB);
      ghost var c2, t2 := state, calls;
      LazyPin(AIN2, newState.ain2);
      ghost var c3, t3 := state, calls;
      LazyPin(BIN1, newState.bin1);
      ghost var c4, t4 := state, calls;
      LazyPin(AIN1, newState.ain1);
      ghost var c5, t5 := state, calls;
      LazyPin(BIN2, newState.bin2);
      AppendSix(t0, t1, t2, t3, t4, t5, calls,
                LazyPwmCalls(c0, PWMA, newState.pwmA, current, w1, w2),
                LazyPwmCalls(c1, PWMB, newState.pwmB, current, w1, w2),
                LazyPinCalls(c2, AIN2, newState.ain2, w1, w2), LazyPinCalls(c3, BIN1, newState.bin1, w1, w2),
                LazyPinCalls(c4, AIN1, newState.ain1, w1, w2), LazyPinCalls(c5, BIN2, newState.bin2, w1, w2));
      pulsing := false;
    }

    /** `single(dir)`: moves as `Advance` does (one whole step in direction
        `dir` from a whole step; see `AdvanceClosedForm` for any other
        position) and returns the coil state for the new position. */
    method Single(dir: Direction) returns (s: State)
      requires Valid()
      modifies this`currentStep
      ensures Valid() && StepInvariant(currentStep, microsteps)
      ensures currentStep == Advance(old(currentStep), microsteps, dir)
      ensures s == StateAt(currentStep, microsteps)
    {
      var m := microsteps;
      ghost var start := currentStep;
      if dir == Forward {
        currentStep := currentStep + m;
      } else {
        currentStep := currentStep - m;
      }
      ghost var moved := currentStep;
      currentStep := currentStep - JsRem(currentStep, m);
      ghost var floored := currentStep;
      currentStep := currentStep + m * 4;
      currentStep := JsRem(currentStep, m * 4);
      assert currentStep == JsRem(floored + m * 4, m * 4);
      assert currentStep == Advance(start, m, dir);
      CoilIndexEvenInRange(currentStep, m);
      CoilRowsComplete();
      var coils := STEP2COILS[currentStep / (m / 2)];
      s := State(255 * 16, 255 * 16, coils[0], coils[1], coils[2], coils[3]);
    }
  }
}
