/**
 * Duty-cycle generation (adc.c): the split of a modulation period into on-
 * and off-time from a 10-bit potentiometer reading, the busy-wait delay, and
 * one software PWM period over the LED bits of PORTD and PORTB.
 *
 * The reading itself (`adc_read`, a hardware conversion) is an input here.
 * The handlers of module Interrupts may run between any two statements of a
 * period; the schedule of those deliveries is an input as well.
 */
module Adc {
  import opened Header
  import opened Interrupts

  /** `uint16_t`. */
  type uint16 = x: int | 0 <= x < 0x1_0000

  /** The largest value a 10-bit conversion returns. */
  const ADC_MAX := 1023

  /** What `adc_read` returns: a 10-bit conversion result. */
  type AdcReading = s: int | 0 <= s <= ADC_MAX

  /** The two values `adc_get_pwm_values` stores through its out-pointers. */
  datatype PwmTimes = PwmTimes(onUs: uint16, offUs: uint16)

  /** The exact value of `period_us * (reading / 1023.0)`. */
  function ExactOnTime(reading: AdcReading, periodUs: uint16): real {
    (periodUs as real) * ((reading as real) / 1023.0)
  }

  /**
   * adc_get_pwm_values for a given reading: the on-time is the period times
   * the duty cycle `reading / 1023`, plus one half, truncated to an integer
   * (rounding half up); the off-time is what remains of the period. Computed
   * here with integers: `(2 * p * s + 1023) / 2046` is the floor of
   * `p * s / 1023 + 1/2`.
   */
  function PwmValues(reading: AdcReading, periodUs: uint16): (r: PwmTimes)
    ensures r.onUs + r.offUs == periodUs
    ensures r.onUs <= periodUs
    ensures r.onUs as real <= ExactOnTime(reading, periodUs) + 0.5 < r.onUs as real + 1.0
  {
    OnTimeBounds(reading, periodUs);
    var on := (2 * periodUs * reading + 1023) / 2046;
    PwmTimes(on, periodUs - on)
  }

  /** The integer on-time formula is the floor of the exact product plus one half,
      and it never exceeds the period. */
  lemma OnTimeBounds(reading: AdcReading, periodUs: uint16)
    ensures var on := (2 * periodUs * reading + 1023) / 2046;
      0 <= on <= periodUs &&
      on as real <= ExactOnTime(reading, periodUs) + 0.5 < on as real + 1.0
  {
    var n := 2 * periodUs * reading + 1023;
    var on := n / 2046;
    assert 2046 * on <= n < 2046 * on + 2046;
    assert periodUs * reading <= periodUs * 1023 by {
      MulMonotone(periodUs, reading, 1023);
    }
    var x := (periodUs * reading) as real;
    assert ExactOnTime(reading, periodUs) == x / 1023.0;
    assert 2046.0 * (on as real) <= 2.0 * x + 1023.0 < 2046.0 * (on as real) + 2046.0;
  }

  lemma MulMonotone(a: nat, b: nat, c: nat)
    requires b <= c
    ensures a * b <= a * c
  {
  }

  /** The rounding relation of PwmValues pins the on-time down: it is the only
      integer that is at most the exact product plus one half and more than that
      sum minus one. */
  lemma OnTimeIsRoundHalfUp(reading: AdcReading, periodUs: uint16, k: int)
    requires k as real <= ExactOnTime(reading, periodUs) + 0.5 < k as real + 1.0
    ensures k == PwmValues(reading, periodUs).onUs
  {
  }

  /** Reading 0 keeps the LEDs off for the whole period; reading 1023 keeps
      them on for the whole period. */
  lemma FullScaleReadings(periodUs: uint16)
    ensures PwmValues(0, periodUs) == PwmTimes(0, periodUs)
    ensures PwmValues(ADC_MAX, periodUs) == PwmTimes(periodUs, 0)
  {
    assert 2 * periodUs * ADC_MAX + 1023 == 2046 * periodUs + 1023;
  }

  /** A higher reading never gives a shorter on-time. */
  lemma OnTimeMonotone(s1: AdcReading, s2: AdcReading, periodUs: uint16)
    requires s1 <= s2
    ensures PwmValues(s1, periodUs).onUs <= PwmValues(s2, periodUs).onUs
    ensures PwmValues(s1, periodUs).offUs >= PwmValues(s2, periodUs).offUs
  {
    MulMonotone(periodUs, s1, s2);
    DivMonotone(2 * periodUs * s1 + 1023, 2 * periodUs * s2 + 1023);
  }

  lemma DivMonotone(a: nat, b: nat)
    requires a <= b
    ensures a / 2046 <= b / 2046
  {
  }

  /** The off-time for a reading is the on-time for the complementary reading:
      the split is symmetric. This holds exactly because `2 * p * s + 1023` is
      odd, so the exact on-time is never halfway between two integers. */
  lemma OffTimeMirrorsOnTime(reading: AdcReading, periodUs: uint16)
    ensures PwmValues(reading, periodUs).offUs == PwmValues(ADC_MAX - reading, periodUs).onUs
  {
    var x := periodUs * reading;
    var n := 2 * periodUs * reading + 1023;
    var m := 2 * periodUs * (ADC_MAX - reading) + 1023;
    Distribute(periodUs, reading);
    assert n == 2 * x + 1023 && m == 2046 * periodUs - 2 * x + 1023;
    var q, r := n / 2046, n % 2046;
    assert n == 2046 * q + r && 0 <= r < 2046;
    assert r % 2 == 1;
    assert m == 2046 * (periodUs - q) + (2046 - r);
    DivBy2046(m, periodUs - q, 2046 - r);
  }

  lemma Distribute(p: int, s: int)
    ensures 2 * p * s == 2 * (p * s)
    ensures 2 * p * (ADC_MAX - s) == 2046 * p - 2 * (p * s)
  {
  }

  lemma DivBy2046(n: int, q: int, r: int)
    requires n == 2046 * q + r && 0 <= r < 2046
    ensures n / 2046 == q
  {
  }

  /** The split of a 1000 us period at mid-scale and at three quarters of full scale. */
  lemma ReferenceSplits()
    ensures PwmValues(511, 1000) == PwmTimes(500, 500)
    ensures PwmValues(512, 1000) == PwmTimes(500, 500)
    ensures PwmValues(768, 1000) == PwmTimes(751, 249)
  {
  }

  // ---------------------------------------------------------------------------
  // Busy-wait delay

  /** delay_us: counts `i` from 0 up to the requested time, one `_delay_us(1)`
      per step; the result is the final count, that is the number of steps. */
  method DelayUs(delayTimeUs: uint16) returns (iterations: nat)
    ensures iterations == delayTimeUs
  {
    var i: uint16 := 0;
    while i < delayTimeUs
      invariant i <= delayTimeUs
    {
      i := i + 1;  // _delay_us(1)
    }
    iterations := i as nat;
  }

  // ---------------------------------------------------------------------------
  // One modulation period

  /** The statements of pwm_run at which pending interrupts are serviced:
      batch k runs just before statement k (0: the sampling, 1..5: the
      enable tests of LED1..LED5, 6: the on-time delay, 7..11: the clears of
      LED1..LED5, 12: the off-time delay). */
  const PWM_RUN_STEPS := 13

  /** The batch of deliveries before statement `k`; none when the schedule is shorter. */
  function Pending(irqs: seq<seq<Irq>>, k: nat): seq<Irq> {
    if k < |irqs| then irqs[k] else []
  }

  /** The flags once the batches before statements 0 .. k-1 have been serviced. */
  function FlagsAt(f: EnableFlags, irqs: seq<seq<Irq>>, k: nat): EnableFlags {
    if k == 0 then f else ServeAll(FlagsAt(f, irqs, k - 1), Pending(irqs, k - 1))
  }

  lemma FlagsAtStep(f: EnableFlags, irqs: seq<seq<Irq>>, k: nat)
    ensures FlagsAt(f, irqs, k + 1) == ServeAll(FlagsAt(f, irqs, k), Pending(irqs, k))
  {
  }

  /** The deliveries of a sequence of batches, batch after batch. */
  function Flatten(batches: seq<seq<Irq>>): seq<Irq> {
    if batches == [] then [] else Flatten(batches[..|batches| - 1]) + batches[|batches| - 1]
  }

  /** All deliveries serviced before statement `k`, in the order they ran. */
  function Delivered(irqs: seq<seq<Irq>>, k: nat): seq<Irq> {
    Flatten(if k <= |irqs| then irqs[..k] else irqs)
  }

  /** Servicing the batches one statement at a time has the effect of servicing
      all of them in one run. */
  lemma {:induction false} FlagsAtIsServeAll(f: EnableFlags, irqs: seq<seq<Irq>>, k: nat)
    ensures FlagsAt(f, irqs, k) == ServeAll(f, Delivered(irqs, k))
  {
    if k > 0 {
      FlagsAtIsServeAll(f, irqs, k - 1);
      if k <= |irqs| {
        assert irqs[..k][..k - 1] == irqs[..k - 1];
        assert Delivered(irqs, k) == Delivered(irqs, k - 1) + irqs[k - 1];
        ServeAllAppend(f, Delivered(irqs, k - 1), irqs[k - 1]);
      } else {
        assert irqs[..|irqs|] == irqs;
        assert Delivered(irqs, k) == Delivered(irqs, k - 1);
      }
    }
  }

  /** The register value of `port` given the values of PORTD and PORTB. */
  function RegisterOf(port: Port, portD: bv8, portB: bv8): bv8 {
    if port == PortD then portD else portB
  }

  /** The value each enable test of pwm_run reads: LEDk's flag as it stands
      just before statement k. The five reads happen at different instants, so
      this need not be the flags at any single moment. */
  function SampledFlags(f: EnableFlags, irqs: seq<seq<Irq>>): EnableFlags {
    EnableFlags(FlagsAt(f, irqs, 2).led1, FlagsAt(f, irqs, 3).led2, FlagsAt(f, irqs, 4).led3,
                FlagsAt(f, irqs, 5).led4, FlagsAt(f, irqs, 6).led5)
  }

  /** `if (enabled) set(reg, b);` */
  function SetIfEnabled(reg: bv8, b: BitIndex, enabled: Bool): bv8 {
    if enabled.IsTrue() then SetBit(reg, b) else reg
  }

  /** PORTD and PORTB after the five enable tests, given the values they read. */
  function OnPhaseD(portD: bv8, s: EnableFlags): bv8 {
    SetIfEnabled(SetIfEnabled(portD, LED1, s.led1), LED2, s.led2)
  }

  function OnPhaseB(portB: bv8, s: EnableFlags): bv8 {
    SetIfEnabled(SetIfEnabled(SetIfEnabled(portB, LED3, s.led3), LED4, s.led4), LED5, s.led5)
  }

  /** PORTD and PORTB after the five unconditional clears. */
  function OffPhaseD(portD: bv8): bv8 {
    ClearBit(ClearBit(portD, LED1), LED2)
  }

  function OffPhaseB(portB: bv8): bv8 {
    ClearBit(ClearBit(ClearBit(portB, LED3), LED4), LED5)
  }

  /** After the on-phase an LED bit is 1 exactly when it was 1 before or its
      flag read true; a disabled LED's bit is not written. No other bit changes. */
  lemma OnPhaseBits(portD: bv8, portB: bv8, s: EnableFlags)
    ensures forall led: Led ::
      IsSet(RegisterOf(LedPort(led), OnPhaseD(portD, s), OnPhaseB(portB, s)), LedBit(led)) <==>
        IsSet(RegisterOf(LedPort(led), portD, portB), LedBit(led)) || s.Get(led).IsTrue()
    ensures forall j: BitIndex :: !IsLedBit(PortD, j) ==> IsSet(OnPhaseD(portD, s), j) == IsSet(portD, j)
    ensures forall j: BitIndex :: !IsLedBit(PortB, j) ==> IsSet(OnPhaseB(portB, s), j) == IsSet(portB, j)
  {
    OnPhaseDBits(portD, s);
    OnPhaseBBits(portB, s);
    forall led: Led
      ensures IsSet(RegisterOf(LedPort(led), OnPhaseD(portD, s), OnPhaseB(portB, s)), LedBit(led)) <==>
                IsSet(RegisterOf(LedPort(led), portD, portB), LedBit(led)) || s.Get(led).IsTrue()
    {
      if led <= 2 {
        assert IsSet(OnPhaseD(portD, s), LedBit(led)) <==> IsSet(portD, LedBit(led)) || s.Get(led).IsTrue();
      } else {
        assert IsSet(OnPhaseB(portB, s), LedBit(led)) <==> IsSet(portB, LedBit(led)) || s.Get(led).IsTrue();
      }
    }
  }

  lemma OnPhaseDBits(portD: bv8, s: EnableFlags)
    ensures forall j: BitIndex :: IsSet(OnPhaseD(portD, s), j) <==>
      IsSet(portD, j) || (j == LED1 && s.led1.IsTrue()) || (j == LED2 && s.led2.IsTrue())
  {
  }

  lemma OnPhaseBBits(portB: bv8, s: EnableFlags)
    ensures forall j: BitIndex :: IsSet(OnPhaseB(portB, s), j) <==>
      IsSet(portB, j) || (j == LED3 && s.led3.IsTrue()) || (j == LED4 && s.led4.IsTrue()) ||
      (j == LED5 && s.led5.IsTrue())
  {
  }

  /** After the off-phase every LED bit is 0 and every other bit is unchanged. */
  lemma OffPhaseBits(portD: bv8, portB: bv8)
    ensures forall j: BitIndex :: IsSet(OffPhaseD(portD), j) <==> IsSet(portD, j) && !IsLedBit(PortD, j)
    ensures forall j: BitIndex :: IsSet(OffPhaseB(portB), j) <==> IsSet(portB, j) && !IsLedBit(PortB, j)
    ensures LedsOff(OffPhaseD(portD), OffPhaseB(portB))
  {
    
  }

  /** The clears of the off-phase undo whatever the on-phase set: the registers
      at the end of a period do not depend on the flags. */
  lemma OffPhaseAbsorbsOnPhase(portD: bv8, portB: bv8, s: EnableFlags)
    ensures OffPhaseD(OnPhaseD(portD, s)) == OffPhaseD(portD)
    ensures OffPhaseB(OnPhaseB(portB, s)) == OffPhaseB(portB)
  {
    OnPhaseBits(portD, portB, s);
    OffPhaseBits(portD, portB);
    OffPhaseBits(OnPhaseD(portD, s), OnPhaseB(portB, s));
    BitsDetermineValue(OffPhaseD(OnPhaseD(portD, s)), OffPhaseD(portD));
    BitsDetermineValue(OffPhaseB(OnPhaseB(portB, s)), OffPhaseB(portB));
  }

  /** A second off-phase changes nothing. */
  lemma OffPhaseIdempotent(portD: bv8, portB: bv8)
    ensures OffPhaseD(OffPhaseD(portD)) == OffPhaseD(portD)
    ensures OffPhaseB(OffPhaseB(portB)) == OffPhaseB(portB)
  {
    OffPhaseBits(portD, portB);
    OffPhaseBits(OffPhaseD(portD), OffPhaseB(portB));
    BitsDetermineValue(OffPhaseD(OffPhaseD(portD)), OffPhaseD(portD));
    BitsDetermineValue(OffPhaseB(OffPhaseB(portB)), OffPhaseB(portB));
  }

  /** No LED output bit is 1 on either port. */
  predicate LedsOff(portD: bv8, portB: bv8) {
    forall led: Led :: !IsSet(RegisterOf(LedPort(led), portD, portB), LedBit(led))
  }

  /**
   * pwm_run(POT1, period_us) with `reading` the value `adc_read` returns and
   * `irqs` the interrupts delivered during the period. It returns the
   * iteration counts of its two delays and, as ghost values, PORTD and PORTB
   * as they stand during the on-time delay.
   *
   * The on-phase sets each LED bit whose flag, read at that LED's own test,
   * is true (SampledFlags) and writes no other bit; the off-phase clears the
   * five LED bits whatever the flags are. The flags end as servicing the
   * period's deliveries in order leaves them.
   */
  method PwmRun(mcu: Mcu, reading: AdcReading, periodUs: uint16, irqs: seq<seq<Irq>>)
    returns (onIterations: nat, offIterations: nat, ghost onPortD: bv8, ghost onPortB: bv8)
    modifies mcu
    ensures onIterations == PwmValues(reading, periodUs).onUs
    ensures offIterations == PwmValues(reading, periodUs).offUs
    ensures onPortD == OnPhaseD(old(mcu.portD), SampledFlags(old(mcu.Flags()), irqs))
    ensures onPortB == OnPhaseB(old(mcu.portB), SampledFlags(old(mcu.Flags()), irqs))
    ensures mcu.portD == OffPhaseD(old(mcu.portD)) && mcu.portB == OffPhaseB(old(mcu.portB))
    ensures mcu.Flags() == ServeAll(old(mcu.Flags()), Delivered(irqs, PWM_RUN_STEPS))
  {
    ghost var f0 := mcu.Flags();

    ServePending(mcu, Pending(irqs, 0));
    FlagsAtStep(f0, irqs, 0);
    var times := PwmValues(reading, periodUs);

    ghost var sampled := OnPhase(mcu, irqs, f0);
    ServePending(mcu, Pending(irqs, 6));
    FlagsAtStep(f0, irqs, 6);
    onPortD, onPortB := mcu.portD, mcu.portB;
    onIterations := DelayUs(times.onUs);

    OffPhase(mcu, irqs, f0);
    OffPhaseAbsorbsOnPhase(old(mcu.portD), old(mcu.portB), SampledFlags(f0, irqs));
    ServePending(mcu, Pending(irqs, 12));
    FlagsAtStep(f0, irqs, 12);
    offIterations := DelayUs(times.offUs);
    FlagsAtIsServeAll(f0, irqs, PWM_RUN_STEPS);
  }

  /** Statements 1 to 5 of pwm_run, `if (ledk_enabled) set(PORTx, LEDk);`
      for k = 1 .. 5, each preceded by the interrupts delivered before it.
      `sampled` collects the five values the tests read. */
  method OnPhase(mcu: Mcu, irqs: seq<seq<Irq>>, ghost f0: EnableFlags) returns (ghost sampled: EnableFlags)
    requires mcu.Flags() == FlagsAt(f0, irqs, 1)
    modifies mcu
    ensures sampled == SampledFlags(f0, irqs)
    ensures mcu.portD == OnPhaseD(old(mcu.portD), sampled)
    ensures mcu.portB == OnPhaseB(old(mcu.portB), sampled)
    ensures mcu.Flags() == FlagsAt(f0, irqs, 6)
  {
    ServePending(mcu, Pending(irqs, 1));
    FlagsAtStep(f0, irqs, 1);
    ghost var e1 := mcu.led1Enabled;
    TestAndSet(mcu, PortD, LED1, mcu.led1Enabled);

    ServePending(mcu, Pending(irqs, 2));
    FlagsAtStep(f0, irqs, 2);
    ghost var e2 := mcu.led2Enabled;
    TestAndSet(mcu, PortD, LED2, mcu.led2Enabled);

    ServePending(mcu, Pending(irqs, 3));
    FlagsAtStep(f0, irqs, 3);
    ghost var e3 := mcu.led3Enabled;
    TestAndSet(mcu, PortB, LED3, mcu.led3Enabled);

    ServePending(mcu, Pending(irqs, 4));
    FlagsAtStep(f0, irqs, 4);
    ghost var e4 := mcu.led4Enabled;
    TestAndSet(mcu, PortB, LED4, mcu.led4Enabled);

    ServePending(mcu, Pending(irqs, 5));
    FlagsAtStep(f0, irqs, 5);
    ghost var e5 := mcu.led5Enabled;
    TestAndSet(mcu, PortB, LED5, mcu.led5Enabled);

    sampled := EnableFlags(e1, e2, e3, e4, e5);
  }

  /** One statement `if (ledk_enabled) set(PORTx, LEDk);` of the on-phase:
      the LED bit `b` of `port` is set when `enabled` is true, and the other
      register is not written. */
  method TestAndSet(mcu: Mcu, port: Port, b: BitIndex, enabled: Bool)
    modifies mcu`portD, mcu`portB
    ensures mcu.Register(port) == SetIfEnabled(old(mcu.Register(port)), b, enabled)
    ensures port == PortD ==> mcu.portB == old(mcu.portB)
    ensures port == PortB ==> mcu.portD == old(mcu.portD)
  {
    if enabled.IsTrue() {
      mcu.Set(port, b);
    }
  }

  /** Statements 7 to 11 of pwm_run, `clr(PORTx, LEDk);` for k = 1 .. 5,
      each preceded by the interrupts delivered before it. */
  method OffPhase(mcu: Mcu, irqs: seq<seq<Irq>>, ghost f0: EnableFlags)
    requires mcu.Flags() == FlagsAt(f0, irqs, 7)
    modifies mcu
    ensures mcu.portD == OffPhaseD(old(mcu.portD)) && mcu.portB == OffPhaseB(old(mcu.portB))
    ensures mcu.Flags() == FlagsAt(f0, irqs, 12)
  {
    ServePending(mcu, Pending(irqs, 7));
    FlagsAtStep(f0, irqs, 7);
    mcu.Clr(PortD, LED1);
    ServePending(mcu, Pending(irqs, 8));
    FlagsAtStep(f0, irqs, 8);
    mcu.Clr(PortD, LED2);
    ServePending(mcu, Pending(irqs, 9));
    FlagsAtStep(f0, irqs, 9);
    mcu.Clr(PortB, LED3);
    ServePending(mcu, Pending(irqs, 10));
    FlagsAtStep(f0, irqs, 10);
    mcu.Clr(PortB, LED4);
    ServePending(mcu, Pending(irqs, 11));
    FlagsAtStep(f0, irqs, 11);
    mcu.Clr(PortB, LED5);
  }
}
