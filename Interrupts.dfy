/**
 * The two pin-change interrupt handlers (interuppts.c). Each reads its
 * port's pin-input byte and negates at most one enable flag, the first one in
 * a fixed priority order whose button bit reads 1. A handler runs atomically:
 * it is modelled as one transition of the flags, applied between two steps
 * of the modulation loop.
 */
module Interrupts {
  import opened Header

  /** The transition of ISR(PCINT2_vect) on the pin-input byte PIND. */
  function Pcint2(pind: bv8, f: EnableFlags): (r: EnableFlags)
    ensures r.led3 == f.led3 && r.led4 == f.led4 && r.led5 == f.led5
    ensures Changed(f, r) <= {1, 2} && |Changed(f, r)| <= 1
  {
    if Read(pind, BUTTON1) != 0 then
      ToggleChangesOne(f, 1);
      f.Toggle(1)
    else if Read(pind, BUTTON2) != 0 then
      ToggleChangesOne(f, 2);
      f.Toggle(2)
    else
      FlagsExtensional(f, f);
      f
  }

  /** The transition of ISR(PCINT0_vect) on the pin-input byte PINB. */
  function Pcint0(pinb: bv8, f: EnableFlags): (r: EnableFlags)
    ensures r.led1 == f.led1 && r.led2 == f.led2
    ensures Changed(f, r) <= {3, 4, 5} && |Changed(f, r)| <= 1
  {
    if Read(pinb, BUTTON3) != 0 then
      ToggleChangesOne(f, 3);
      f.Toggle(3)
    else if Read(pinb, BUTTON4) != 0 then
      ToggleChangesOne(f, 4);
      f.Toggle(4)
    else if Read(pinb, BUTTON5) != 0 then
      ToggleChangesOne(f, 5);
      f.Toggle(5)
    else
      FlagsExtensional(f, f);
      f
  }

  /** ISR(PCINT2_vect): BUTTON1 before BUTTON2. */
  method Pcint2Isr(mcu: Mcu, pind: bv8)
    modifies mcu`led1Enabled, mcu`led2Enabled
    ensures mcu.Flags() == Pcint2(pind, old(mcu.Flags()))
  {
    if Read(pind, BUTTON1) != 0 {
      mcu.led1Enabled := mcu.led1Enabled.Not();
    } else if Read(pind, BUTTON2) != 0 {
      mcu.led2Enabled := mcu.led2Enabled.Not();
    }
  }

  /** ISR(PCINT0_vect): BUTTON3 before BUTTON4 before BUTTON5. */
  method Pcint0Isr(mcu: Mcu, pinb: bv8)
    modifies mcu`led3Enabled, mcu`led4Enabled, mcu`led5Enabled
    ensures mcu.Flags() == Pcint0(pinb, old(mcu.Flags()))
  {
    if Read(pinb, BUTTON3) != 0 {
      mcu.led3Enabled := mcu.led3Enabled.Not();
    } else if Read(pinb, BUTTON4) != 0 {
      mcu.led4Enabled := mcu.led4Enabled.Not();
    } else if Read(pinb, BUTTON5) != 0 {
      mcu.led5Enabled := mcu.led5Enabled.Not();
    }
  }

  /** PCINT2 negates exactly the flag of the first set button in the order
      BUTTON1, BUTTON2, and nothing when neither bit is set. */
  lemma Pcint2Priority(pind: bv8, f: EnableFlags)
    ensures IsSet(pind, BUTTON1) ==> Pcint2(pind, f) == f.Toggle(1)
    ensures !IsSet(pind, BUTTON1) && IsSet(pind, BUTTON2) ==> Pcint2(pind, f) == f.Toggle(2)
    ensures !IsSet(pind, BUTTON1) && !IsSet(pind, BUTTON2) ==> Pcint2(pind, f) == f
    ensures Changed(f, Pcint2(pind, f)) ==
              if IsSet(pind, BUTTON1) then {1}
              else if IsSet(pind, BUTTON2) then {2}
              else {}
  {
    if IsSet(pind, BUTTON1) {
      ToggleChangesOne(f, 1);
    } else if IsSet(pind, BUTTON2) {
      ToggleChangesOne(f, 2);
    } else {
      FlagsExtensional(f, f);
    }
  }

  /** PCINT0 negates exactly the flag of the first set button in the order
      BUTTON3, BUTTON4, BUTTON5, and nothing when none of them is set. */
  lemma Pcint0Priority(pinb: bv8, f: EnableFlags)
    ensures IsSet(pinb, BUTTON3) ==> Pcint0(pinb, f) == f.Toggle(3)
    ensures !IsSet(pinb, BUTTON3) && IsSet(pinb, BUTTON4) ==> Pcint0(pinb, f) == f.Toggle(4)
    ensures !IsSet(pinb, BUTTON3) && !IsSet(pinb, BUTTON4) && IsSet(pinb, BUTTON5) ==>
              Pcint0(pinb, f) == f.Toggle(5)
    ensures !IsSet(pinb, BUTTON3) && !IsSet(pinb, BUTTON4) && !IsSet(pinb, BUTTON5) ==>
              Pcint0(pinb, f) == f
    ensures Changed(f, Pcint0(pinb, f)) ==
              if IsSet(pinb, BUTTON3) then {3}
              else if IsSet(pinb, BUTTON4) then {4}
              else if IsSet(pinb, BUTTON5) then {5}
              else {}
  {
    if IsSet(pinb, BUTTON3) {
      ToggleChangesOne(f, 3);
    } else if IsSet(pinb, BUTTON4) {
      ToggleChangesOne(f, 4);
    } else if IsSet(pinb, BUTTON5) {
      ToggleChangesOne(f, 5);
    } else {
      FlagsExtensional(f, f);
    }
  }

  /** Running a handler twice on the same pin byte restores the flags. */
  lemma HandlersAreInvolutions(pin: bv8, f: EnableFlags)
    ensures Pcint2(pin, Pcint2(pin, f)) == f
    ensures Pcint0(pin, Pcint0(pin, f)) == f
  {
    ToggleChangesOne(f, 1);
    ToggleChangesOne(f, 2);
    ToggleChangesOne(f, 3);
    ToggleChangesOne(f, 4);
    ToggleChangesOne(f, 5);
  }

  // ---------------------------------------------------------------------------
  // Interrupt delivery

  /** One interrupt delivery: which vector fired and the pin byte its handler reads. */
  datatype Irq = Pcint2Irq(pind: bv8) | Pcint0Irq(pinb: bv8)

  /** The effect of one delivery on the flags. */
  function Serve(f: EnableFlags, irq: Irq): EnableFlags {
    match irq
    case Pcint2Irq(pind) => Pcint2(pind, f)
    case Pcint0Irq(pinb) => Pcint0(pinb, f)
  }

  /** The effect of deliveries serviced one after another, in order. */
  function ServeAll(f: EnableFlags, irqs: seq<Irq>): EnableFlags
    decreases |irqs|
  {
    if irqs == [] then f else ServeAll(Serve(f, irqs[0]), irqs[1..])
  }

  /** Services `irqs` one handler at a time, as the hardware does between two
      instructions of the main program. */
  method ServePending(mcu: Mcu, irqs: seq<Irq>)
    modifies mcu`led1Enabled, mcu`led2Enabled, mcu`led3Enabled, mcu`led4Enabled, mcu`led5Enabled
    ensures mcu.Flags() == ServeAll(old(mcu.Flags()), irqs)
    decreases |irqs|
  {
    if irqs != [] {
      match irqs[0] {
        case Pcint2Irq(pind) => Pcint2Isr(mcu, pind);
        case Pcint0Irq(pinb) => Pcint0Isr(mcu, pinb);
      }
      ServePending(mcu, irqs[1..]);
    }
  }

  /** The channel a delivery targets: the first button of its port, in
      priority order, whose pin bit reads 1. With the pull-ups on, an idle
      button reads 1, so this is a statement about pin levels, not presses.
      Which channel that is depends only on the pin byte. */
  predicate Targets(irq: Irq, led: Led) {
    match irq
    case Pcint2Irq(p) =>
      (led == 1 && IsSet(p, BUTTON1)) ||
      (led == 2 && !IsSet(p, BUTTON1) && IsSet(p, BUTTON2))
    case Pcint0Irq(p) =>
      (led == 3 && IsSet(p, BUTTON3)) ||
      (led == 4 && !IsSet(p, BUTTON3) && IsSet(p, BUTTON4)) ||
      (led == 5 && !IsSet(p, BUTTON3) && !IsSet(p, BUTTON4) && IsSet(p, BUTTON5))
  }

  /** A delivery negates the flag of the channel it targets and no other one,
      and it targets at most one channel. */
  lemma ServeNegatesTarget(f: EnableFlags, irq: Irq, led: Led)
    ensures Serve(f, irq).Get(led) == if Targets(irq, led) then f.Get(led).Not() else f.Get(led)
    ensures forall other: Led :: Targets(irq, led) && Targets(irq, other) ==> other == led
  {
    match irq
    case Pcint2Irq(p) => Pcint2Priority(p, f);
    case Pcint0Irq(p) => Pcint0Priority(p, f);
  }

  /** How many of `irqs` target `led`. */
  function TargetCount(irqs: seq<Irq>, led: Led): nat
    decreases |irqs|
  {
    if irqs == [] then 0
    else (if Targets(irqs[0], led) then 1 else 0) + TargetCount(irqs[1..], led)
  }

  /** After a run of deliveries, a channel's flag is its old value negated once
      per delivery that targeted it: it changed exactly when that count is odd. */
  lemma {:induction false} ServeAllParity(f: EnableFlags, irqs: seq<Irq>, led: Led)
    ensures ServeAll(f, irqs).Get(led) ==
              if TargetCount(irqs, led) % 2 == 1 then f.Get(led).Not() else f.Get(led)
    decreases |irqs|
  {
    if irqs != [] {
      var g := Serve(f, irqs[0]);
      ServeNegatesTarget(f, irqs[0], led);
      ServeAllParity(g, irqs[1..], led);
      BoolValues(f.Get(led));
    }
  }

  /** Serving two runs of deliveries one after the other is serving their concatenation. */
  lemma {:induction false} ServeAllAppend(f: EnableFlags, a: seq<Irq>, b: seq<Irq>)
    ensures ServeAll(f, a + b) == ServeAll(ServeAll(f, a), b)
    decreases |a|
  {
    if a == [] {
      assert a + b == b;
    } else {
      assert (a + b)[0] == a[0];
      assert (a + b)[1..] == a[1..] + b;
      ServeAllAppend(Serve(f, a[0]), a[1..], b);
    }
  }
}
