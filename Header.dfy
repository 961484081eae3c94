/**
 * The shared declarations of the dimmer firmware (header.h): the bit helpers
 * `set`, `clr` and `read` on 8-bit I/O registers, the pin map that places five
 * LEDs and five buttons on ports D and B, the firmware's own two-valued `bool`
 * enumeration, and the five global enable flags together with the two output
 * registers the core writes.
 */
module Header {

  /** A bit position in an 8-bit AVR register. Positions are bit vectors
      themselves, so that shifting by one needs no conversion from `int`. */
  type BitIndex = b: bv8 | b < 8

  /** Bit `b` of `reg` is 1. */
  predicate IsSet(reg: bv8, b: BitIndex) {
    (reg >> b) & 1 == 1
  }

  /** The value `reg | (1 << b)` that the macro `set(reg, b)` stores back into `reg`. */
  function SetBit(reg: bv8, b: BitIndex): (r: bv8)
    ensures IsSet(r, b)
    ensures forall j: BitIndex :: j != b ==> IsSet(r, j) == IsSet(reg, j)
  {
    reg | (1 << b)
  }

  /** The value `reg & ~(1 << b)` that the macro `clr(reg, b)` stores back into `reg`. */
  function ClearBit(reg: bv8, b: BitIndex): (r: bv8)
    ensures !IsSet(r, b)
    ensures forall j: BitIndex :: j != b ==> IsSet(r, j) == IsSet(reg, j)
  {
    reg & !(1 << b)
  }

  /** The macro `read(reg, b)`, `reg & (1 << b)`: nonzero exactly when bit `b` is 1,
      and then it is that bit's mask. */
  function Read(reg: bv8, b: BitIndex): (r: bv8)
    ensures r != 0 <==> IsSet(reg, b)
    ensures r == 0 || r == 1 << b
  {
    reg & (1 << b)
  }

  /** Setting a bit twice is setting it once. */
  lemma SetIdempotent(reg: bv8, b: BitIndex)
    ensures SetBit(SetBit(reg, b), b) == SetBit(reg, b)
  {
  }

  /** Clearing a bit twice is clearing it once. */
  lemma ClearIdempotent(reg: bv8, b: BitIndex)
    ensures ClearBit(ClearBit(reg, b), b) == ClearBit(reg, b)
  {
  }

  /** Clearing a bit right after setting it leaves it 0, and undoes the set
      whenever the bit was 0 before. */
  lemma ClearAfterSet(reg: bv8, b: BitIndex)
    ensures !IsSet(ClearBit(SetBit(reg, b), b), b)
    ensures ClearBit(SetBit(reg, b), b) == ClearBit(reg, b)
    ensures !IsSet(reg, b) ==> ClearBit(SetBit(reg, b), b) == reg
  {
  }

  /** The register value is determined by its eight bits. */
  lemma BitsDetermineValue(x: bv8, y: bv8)
    requires forall j: BitIndex :: IsSet(x, j) == IsSet(y, j)
    ensures x == y
  {
    assert IsSet(x, 0) == IsSet(y, 0) && IsSet(x, 1) == IsSet(y, 1);
    assert IsSet(x, 2) == IsSet(y, 2) && IsSet(x, 3) == IsSet(y, 3);
    assert IsSet(x, 4) == IsSet(y, 4) && IsSet(x, 5) == IsSet(y, 5);
    assert IsSet(x, 6) == IsSet(y, 6) && IsSet(x, 7) == IsSet(y, 7);
  }

  // ---------------------------------------------------------------------------
  // Pin map

  /** The two digital I/O ports the firmware uses. */
  datatype Port = PortB | PortD

  const LED1: BitIndex := 6     // PORTD6
  const LED2: BitIndex := 7     // PORTD7
  const LED3: BitIndex := 0     // PORTB0
  const LED4: BitIndex := 1     // PORTB1
  const LED5: BitIndex := 2     // PORTB2

  const BUTTON1: BitIndex := 2  // PORTD2
  const BUTTON2: BitIndex := 3  // PORTD3
  const BUTTON3: BitIndex := 3  // PORTB3
  const BUTTON4: BitIndex := 4  // PORTB4
  const BUTTON5: BitIndex := 5  // PORTB5

  /** Analog input A0 (PORTC0), the potentiometer. */
  const POT1: BitIndex := 0

  /** One of the five channels; channel k is LEDk, toggled by BUTTONk. */
  type Led = k: int | 1 <= k <= 5 witness 1

  /** The port of a channel's LED and of its button: channels 1 and 2 are on
      port D, channels 3 to 5 on port B. */
  function LedPort(led: Led): Port {
    if led <= 2 then PortD else PortB
  }

  function LedBit(led: Led): BitIndex {
    if led == 1 then LED1
    else if led == 2 then LED2
    else if led == 3 then LED3
    else if led == 4 then LED4
    else LED5
  }

  function ButtonBit(led: Led): BitIndex {
    if led == 1 then BUTTON1
    else if led == 2 then BUTTON2
    else if led == 3 then BUTTON3
    else if led == 4 then BUTTON4
    else BUTTON5
  }

  /** Bit `j` of `port` drives an LED. */
  predicate IsLedBit(port: Port, j: BitIndex) {
    if port == PortD then j == LED1 || j == LED2 else j == LED3 || j == LED4 || j == LED5
  }

  /** Bit `j` of `port` reads a button (and holds its pull-up in the PORT register). */
  predicate IsButtonBit(port: Port, j: BitIndex) {
    if port == PortD then j == BUTTON1 || j == BUTTON2 else j == BUTTON3 || j == BUTTON4 || j == BUTTON5
  }

  /** The LED bits of a port are exactly the LED bits of its channels, and the
      same for buttons: port D has LEDs on bits 6, 7 and buttons on bits 2, 3;
      port B has LEDs on bits 0, 1, 2 and buttons on bits 3, 4, 5. */
  lemma PinMapBits(port: Port, j: BitIndex)
    ensures IsLedBit(port, j) <==> exists led: Led :: LedPort(led) == port && LedBit(led) == j
    ensures IsButtonBit(port, j) <==> exists led: Led :: LedPort(led) == port && ButtonBit(led) == j
    ensures IsLedBit(PortD, j) <==> j == 6 || j == 7
    ensures IsButtonBit(PortD, j) <==> j == 2 || j == 3
    ensures IsLedBit(PortB, j) <==> 0 <= j <= 2
    ensures IsButtonBit(PortB, j) <==> 3 <= j <= 5
  {
    if port == PortD {
      if j == 6 || j == 7 { assert LedBit((j - 5) as int) == j; }
      if j == 2 || j == 3 { assert ButtonBit((j - 1) as int) == j; }
    } else {
      if 0 <= j <= 2 { assert LedBit((j + 3) as int) == j; }
      if 3 <= j <= 5 { assert ButtonBit(j as int) == j; }
    }
  }

  /** On each port no bit is both an LED bit and a button bit; no two channels
      share an LED bit or a button bit. */
  lemma PinMapDisjoint(a: Led, b: Led)
    ensures forall port: Port, j: BitIndex :: !(IsLedBit(port, j) && IsButtonBit(port, j))
    ensures IsLedBit(LedPort(a), LedBit(a)) && IsButtonBit(LedPort(a), ButtonBit(a))
    ensures LedPort(a) == LedPort(b) && a != b ==> LedBit(a) != LedBit(b) && ButtonBit(a) != ButtonBit(b)
  {
  }

  // ---------------------------------------------------------------------------
  // The firmware's bool enumeration

  /** `typedef enum { false, true } bool`. */
  datatype Bool = False | True {

    /** The enumerator's integer value. */
    function Value(): int {
      if this == False then 0 else 1
    }

    /** `x` used as a condition (`if (x)`): the value is nonzero. */
    predicate IsTrue() {
      Value() != 0
    }

    /** `x = !x`: C's `!` yields 1 for a zero operand and 0 otherwise, and that
        integer is stored back as an enumerator. */
    function Not(): (r: Bool)
      ensures r.Value() == (if Value() == 0 then 1 else 0)
      ensures r != this
    {
      if Value() == 0 then True else False
    }
  }

  /** The enumeration has exactly the two values 0 and 1, and `!` swaps them. */
  lemma BoolValues(b: Bool)
    ensures b == False || b == True
    ensures False.Value() == 0 && True.Value() == 1
    ensures b.IsTrue() <==> b == True
    ensures False.Not() == True && True.Not() == False
    ensures b.Not().Not() == b
  {
  }

  // ---------------------------------------------------------------------------
  // The global enable flags and the output registers

  /** A snapshot of the five globals `led1_enabled` .. `led5_enabled`. */
  datatype EnableFlags = EnableFlags(led1: Bool, led2: Bool, led3: Bool, led4: Bool, led5: Bool) {

    function Get(led: Led): Bool {
      if led == 1 then led1
      else if led == 2 then led2
      else if led == 3 then led3
      else if led == 4 then led4
      else led5
    }

    /** `ledk_enabled = !ledk_enabled` for channel `led`. */
    function Toggle(led: Led): (r: EnableFlags)
      ensures r.Get(led) == Get(led).Not()
      ensures forall other: Led :: other != led ==> r.Get(other) == Get(other)
    {
      if led == 1 then this.(led1 := led1.Not())
      else if led == 2 then this.(led2 := led2.Not())
      else if led == 3 then this.(led3 := led3.Not())
      else if led == 4 then this.(led4 := led4.Not())
      else this.(led5 := led5.Not())
    }
  }

  /** The channels whose flag differs between two snapshots. */
  function Changed(f: EnableFlags, g: EnableFlags): set<Led> {
    set led: Led | 1 <= led <= 5 && f.Get(led) != g.Get(led)
  }

  /** Snapshots are equal exactly when no channel differs. */
  lemma FlagsExtensional(f: EnableFlags, g: EnableFlags)
    ensures f == g <==> Changed(f, g) == {}
  {
    if Changed(f, g) == {} {
      forall led: Led
        ensures f.Get(led) == g.Get(led)
      {
        assert led !in Changed(f, g);
      }
      assert f.Get(1) == g.Get(1) && f.Get(2) == g.Get(2) && f.Get(3) == g.Get(3);
      assert f.Get(4) == g.Get(4) && f.Get(5) == g.Get(5);
    }
  }

  /** Toggling changes exactly the toggled channel, and toggling twice is the identity. */
  lemma ToggleChangesOne(f: EnableFlags, led: Led)
    ensures Changed(f, f.Toggle(led)) == {led}
    ensures f.Toggle(led).Toggle(led) == f
  {
    BoolValues(f.Get(led));
  }

  /** Every flag is `false` at start (setup.c). */
  const ALL_DISABLED := EnableFlags(False, False, False, False, False)

  /**
   * The state the core shares: the output registers PORTD and PORTB, which
   * hold both the LED outputs and the buttons' pull-up bits, and the five
   * `volatile` enable globals, written by the interrupt handlers and read by
   * the modulation loop.
   */
  class Mcu {
    var portD: bv8
    var portB: bv8
    var led1Enabled: Bool
    var led2Enabled: Bool
    var led3Enabled: Bool
    var led4Enabled: Bool
    var led5Enabled: Bool

    /** The state at reset: PORTD and PORTB read 0, and every enable global
        holds its initializer `false`. */
    constructor ()
      ensures portD == 0 && portB == 0
      ensures Flags() == ALL_DISABLED
    {
      portD, portB := 0, 0;
      led1Enabled, led2Enabled, led3Enabled, led4Enabled, led5Enabled := False, False, False, False, False;
    }

    /** The current values of the five enable globals. */
    function Flags(): EnableFlags
      reads this
    {
      EnableFlags(led1Enabled, led2Enabled, led3Enabled, led4Enabled, led5Enabled)
    }

    /** The output register of `port`. */
    function Register(port: Port): bv8
      reads this
    {
      if port == PortD then portD else portB
    }

    /** `set(PORTx, b)` on the output register of `port`, in place; the other
        register is not written. */
    method Set(port: Port, b: BitIndex)
      modifies `portD, `portB
      ensures Register(port) == SetBit(old(Register(port)), b)
      ensures port == PortD ==> portB == old(portB)
      ensures port == PortB ==> portD == old(portD)
    {
      if port == PortD {
        portD := SetBit(portD, b);
      } else {
        portB := SetBit(portB, b);
      }
    }

    /** `clr(PORTx, b)` on the output register of `port`, in place; the other
        register is not written. */
    method Clr(port: Port, b: BitIndex)
      modifies `portD, `portB
      ensures Register(port) == ClearBit(old(Register(port)), b)
      ensures port == PortD ==> portB == old(portB)
      ensures port == PortB ==> portD == old(portD)
    {
      if port == PortD {
        portD := ClearBit(portD, b);
      } else {
        portB := ClearBit(portB, b);
      }
    }
  }
}
