/**
 * The firmware's main program (main.c, setup.c): after setup every enable
 * flag is false, and then `pwm_run(POT1, 1000)` runs period after period.
 * The loop is modelled for a finite number of periods: one potentiometer
 * reading per period, and for each period the interrupt deliveries that
 * arrive during it.
 */
module MainLoop {
  import opened Header
  import opened Interrupts
  import opened Adc

  /** The period main passes to pwm_run, in microseconds. */
  const PERIOD_US: uint16 := 1000

  /** The deliveries arriving during period `i`; none when the schedule is shorter. */
  function PeriodIrqs(schedule: seq<seq<seq<Irq>>>, i: nat): seq<seq<Irq>> {
    if i < |schedule| then schedule[i] else []
  }

  /** The flags after the first `n` periods, period by period. */
  function FlagsAfter(f: EnableFlags, schedule: seq<seq<seq<Irq>>>, n: nat): EnableFlags {
    if n == 0 then f
    else ServeAll(FlagsAfter(f, schedule, n - 1), Delivered(PeriodIrqs(schedule, n - 1), PWM_RUN_STEPS))
  }

  /** How many deliveries of the first `n` periods targeted channel `led`. */
  function TargetedCount(schedule: seq<seq<seq<Irq>>>, n: nat, led: Led): nat {
    if n == 0 then 0
    else TargetedCount(schedule, n - 1, led) + TargetCount(Delivered(PeriodIrqs(schedule, n - 1), PWM_RUN_STEPS), led)
  }

  /** The total on-time of the periods with these readings. */
  function OnTimeTotal(readings: seq<AdcReading>): nat {
    if readings == [] then 0
    else OnTimeTotal(readings[..|readings| - 1]) + PwmValues(readings[|readings| - 1], PERIOD_US).onUs
  }

  /**
   * `while (1) pwm_run(POT1, 1000);` for |readings| periods. Returns how many
   * one-microsecond delay steps the periods spent with the LEDs on and with
   * them off. Every period lasts exactly 1000 steps. After at least one
   * period every LED bit is 0 and every other bit is as it was; the flags are
   * as the interrupts of all periods left them.
   */
  method RunPeriods(mcu: Mcu, readings: seq<AdcReading>, schedule: seq<seq<seq<Irq>>>)
    returns (onSteps: nat, offSteps: nat)
    modifies mcu
    ensures onSteps == OnTimeTotal(readings)
    ensures onSteps + offSteps == |readings| * PERIOD_US
    ensures |readings| == 0 ==> mcu.portD == old(mcu.portD) && mcu.portB == old(mcu.portB)
    ensures |readings| > 0 ==> mcu.portD == OffPhaseD(old(mcu.portD)) && mcu.portB == OffPhaseB(old(mcu.portB))
    ensures mcu.Flags() == FlagsAfter(old(mcu.Flags()), schedule, |readings|)
  {
    onSteps, offSteps := 0, 0;
    var i := 0;
    while i < |readings|
      invariant 0 <= i <= |readings|
      invariant onSteps == OnTimeTotal(readings[..i])
      invariant onSteps + offSteps == i * PERIOD_US
      invariant i == 0 ==> mcu.portD == old(mcu.portD) && mcu.portB == old(mcu.portB)
      invariant i > 0 ==> mcu.portD == OffPhaseD(old(mcu.portD)) && mcu.portB == OffPhaseB(old(mcu.portB))
      invariant mcu.Flags() == FlagsAfter(old(mcu.Flags()), schedule, i)
    {
      var on, off, _, _ := PwmRun(mcu, readings[i], PERIOD_US, PeriodIrqs(schedule, i));
      OffPhaseIdempotent(old(mcu.portD), old(mcu.portB));
      assert readings[..i + 1][..i] == readings[..i];
      onSteps, offSteps := onSteps + on, offSteps + off;
      i := i + 1;
    }
    assert readings[..i] == readings;
  }

  /** After `n` periods a channel's flag is its flag at the start negated
      once per delivery that targeted it during those periods. */
  lemma {:induction false} FlagsAfterParity(f: EnableFlags, schedule: seq<seq<seq<Irq>>>, n: nat, led: Led)
    ensures FlagsAfter(f, schedule, n).Get(led) ==
              if TargetedCount(schedule, n, led) % 2 == 1 then f.Get(led).Not() else f.Get(led)
  {
    if n > 0 {
      FlagsAfterParity(f, schedule, n - 1, led);
      ParityStep(f, FlagsAfter(f, schedule, n - 1), Delivered(PeriodIrqs(schedule, n - 1), PWM_RUN_STEPS),
                 TargetedCount(schedule, n - 1, led), led);
    }
  }

  /** One more run of deliveries adds its count of targeting deliveries to the parity. */
  lemma ParityStep(f: EnableFlags, g: EnableFlags, irqs: seq<Irq>, count: nat, led: Led)
    requires g.Get(led) == if count % 2 == 1 then f.Get(led).Not() else f.Get(led)
    ensures ServeAll(g, irqs).Get(led) ==
              if (count + TargetCount(irqs, led)) % 2 == 1 then f.Get(led).Not() else f.Get(led)
  {
    ServeAllParity(g, irqs, led);
    BoolValues(f.Get(led));
  }

  /** Starting from setup's flags, channel `led` is enabled after `n` periods
      exactly when an odd number of the deliveries so far targeted it, that
      is, read its button's pin bit as 1 with no earlier button's bit at 1. */
  lemma EnabledIffOddTargets(schedule: seq<seq<seq<Irq>>>, n: nat, led: Led)
    ensures FlagsAfter(ALL_DISABLED, schedule, n).Get(led) == True <==> TargetedCount(schedule, n, led) % 2 == 1
  {
    FlagsAfterParity(ALL_DISABLED, schedule, n, led);
    BoolValues(ALL_DISABLED.Get(led));
  }

  /** The whole on-time of a run never exceeds its length. */
  lemma {:induction false} OnTimeTotalBounded(readings: seq<AdcReading>)
    ensures OnTimeTotal(readings) <= |readings| * PERIOD_US
  {
    if readings != [] {
      OnTimeTotalBounded(readings[..|readings| - 1]);
    }
  }

  /** The port writes of setup (init_ports): starting from reset, the pull-up
      bit of each button is set in its port's output register, and nothing else. */
  method Setup() returns (mcu: Mcu)
    ensures fresh(mcu)
    ensures mcu.Flags() == ALL_DISABLED
    ensures forall port: Port, j: BitIndex :: IsSet(mcu.Register(port), j) <==> IsButtonBit(port, j)
  {
    mcu := new Mcu();
    mcu.Set(PortD, BUTTON1);
    mcu.Set(PortD, BUTTON2);
    mcu.Set(PortB, BUTTON3);
    mcu.Set(PortB, BUTTON4);
    mcu.Set(PortB, BUTTON5);
  }

  /**
   * The firmware from reset: setup, then |readings| periods. At the end every
   * LED is off, the two output registers hold exactly the button pull-up
   * bits, and each channel is enabled exactly when an odd number of the
   * deliveries so far targeted it (its pin bit read 1 and no pin bit before
   * it in priority order did).
   */
  method Firmware(readings: seq<AdcReading>, schedule: seq<seq<seq<Irq>>>)
    returns (mcu: Mcu, onSteps: nat, offSteps: nat)
    ensures onSteps + offSteps == |readings| * PERIOD_US
    ensures LedsOff(mcu.portD, mcu.portB)
    ensures forall led: Led :: IsSet(RegisterOf(LedPort(led), mcu.portD, mcu.portB), ButtonBit(led))
    ensures forall port: Port, j: BitIndex :: IsSet(mcu.Register(port), j) <==> IsButtonBit(port, j)
    ensures forall led: Led :: mcu.Flags().Get(led) == True <==>
              TargetedCount(schedule, |readings|, led) % 2 == 1
  {
    mcu := Setup();
    ghost var d0, b0 := mcu.portD, mcu.portB;
    onSteps, offSteps := RunPeriods(mcu, readings, schedule);
    OffPhaseBits(d0, b0);
    forall led: Led
      ensures !IsSet(RegisterOf(LedPort(led), mcu.portD, mcu.portB), LedBit(led))
      ensures IsSet(RegisterOf(LedPort(led), mcu.portD, mcu.portB), ButtonBit(led))
      ensures mcu.Flags().Get(led) == True <==> TargetedCount(schedule, |readings|, led) % 2 == 1
    {
      PinMapDisjoint(led, led);
      EnabledIffOddTargets(schedule, |readings|, led);
    }
    PinMapDisjoint(1, 1);
  }
}
