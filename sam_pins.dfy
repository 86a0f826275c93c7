// The pin layer of the SAM family: a port's list of pin-change interrupts,
// the mode and peripheral selection of setModes (with the clock gating that
// follows it), the decoding of pin-interrupt options in setInterrupts, and
// the prescaler of a clock-output pin. A port's registers are fields of a
// class, each 32-bit register the set of pins whose bit is set; a write-only
// set/clear register is modelled by its effect on the status register it
// drives.

module SamPins {

  import opened Wrappers
  import opened Chains

  // ---------------------------------------------------------------- pin-change interrupt lists

  /** _pinChangeInterrupt: a pin mask, its handler (not modelled) and the link to the next entry. */
  class PinChangeInterrupt {
    const mask: set<Pin>
    var next: PinChangeInterrupt?

    /**
     * The constructor links the new entry at the tail of the port's list,
     * or makes it the head of an empty list.
     */
    constructor (mask: set<Pin>, port: InterruptList)
      requires port.Linked()
      modifies port`first, port`entries, port.entries`next
      ensures this.mask == mask && next == null
      ensures port.Linked() && port.entries == old(port.entries) + [this]
    {
      this.mask := mask;
      next := null;
      new;
      port.Append(this);
    }
  }

  /** A port's static _firstInterrupt and the entries reachable from it. */
  class InterruptList {
    var first: PinChangeInterrupt?
    /** The entries in link order. */
    ghost var entries: seq<PinChangeInterrupt>

    ghost predicate Linked()
      reads this`first, this`entries, entries`next
    {
      Distinct(entries)
      && (if entries == [] then first == null
          else first == entries[0] && entries[|entries| - 1].next == null)
      && forall i :: 0 <= i < |entries| - 1 ==> entries[i].next == entries[i + 1]
    }

    constructor ()
      ensures Linked() && entries == []
    {
      first := null;
      entries := [];
    }

    /** The walk to the tail shared by the constructor and addInterrupt. */
    method Append(e: PinChangeInterrupt)
      requires Linked() && e !in entries && e.next == null
      modifies this`first, this`entries, entries`next
      ensures Linked() && entries == old(entries) + [e]
    {
      if first == null {
        first := e;
        entries := [e];
        return;
      }
      var i := first;
      var k := 0;
      while i.next != null
        invariant 0 <= k < |entries| && i == entries[k]
        invariant i.next == if k + 1 < |entries| then entries[k + 1] else null
        decreases |entries| - k
      {
        i := i.next;
        k := k + 1;
      }
      i.next := e;
      entries := entries + [e];
    }

    /**
     * addInterrupt: the entry becomes the head of an empty list or is
     * linked after the tail; its own next pointer is left as it was, and
     * nothing checks that it is not listed already.
     */
    method AddInterrupt(e: PinChangeInterrupt)
      requires Linked()
      modifies this`first, this`entries, entries`next
      ensures e.next == null && e !in old(entries) ==> Linked() && entries == old(entries) + [e]
      ensures old(entries) == [] ==> first == e
      ensures old(entries) != [] ==> old(entries)[|old(entries)| - 1].next == e && first == old(first)
    {
      if first == null {
        first := e;
        if e.next == null {
          entries := [e];
        }
        return;
      }
      ghost var es := entries;
      var i := first;
      var k := 0;
      while i.next != null
        invariant 0 <= k < |entries| && i == entries[k]
        invariant i.next == if k + 1 < |entries| then entries[k + 1] else null
        decreases |entries| - k
      {
        i := i.next;
        k := k + 1;
      }
      assert i == es[|es| - 1];
      i.next := e;
      if e.next == null && e !in entries {
        entries := entries + [e];
      }
    }
  }

  // ---------------------------------------------------------------- modes and peripheral selection

  /** PinMode: the values setModes acts on. */
  datatype PinMode = Unchanged | Output | Input | PeripheralA | PeripheralB | PeripheralC | PeripheralD

  /** A pin's bit number in its port's 32-bit registers. */
  type Pin = i: nat | i < 32

  /** The two peripheral-select registers, PIO_ABCDSR[0] and PIO_ABCDSR[1], as the pins whose bit is set. */
  datatype Select = Select(sr0: set<Pin>, sr1: set<Pin>)

  /** The peripheral a pin is routed to, read from its bits of the two select registers. */
  function Selected(s: Select, pin: Pin): PinMode
  {
    match (pin in s.sr1, pin in s.sr0)
    case (false, false) => PeripheralA
    case (false, true) => PeripheralB
    case (true, false) => PeripheralC
    case (true, true) => PeripheralD
  }

  predicate IsPeripheral(mode: PinMode)
  {
    mode.PeripheralA? || mode.PeripheralB? || mode.PeripheralC? || mode.PeripheralD?
  }

  /**
   * The select registers after setModes: a peripheral mode sets or clears
   * the pins' bit in each register by the truth table (A 00, B 01, C 10,
   * D 11 as SR1 SR0); any other mode leaves them.
   */
  function Route(s: Select, mode: PinMode, mask: set<Pin>): Select
  {
    match mode
    case PeripheralA => Select(s.sr0 - mask, s.sr1 - mask)
    case PeripheralB => Select(s.sr0 + mask, s.sr1 - mask)
    case PeripheralC => Select(s.sr0 - mask, s.sr1 + mask)
    case PeripheralD => Select(s.sr0 + mask, s.sr1 + mask)
    case _ => s
  }

  /** Every pin of the mask reads back the peripheral it was routed to. */
  lemma RouteSelects(s: Select, mode: PinMode, mask: set<Pin>, pin: Pin)
    requires IsPeripheral(mode) && pin in mask
    ensures Selected(Route(s, mode, mask), pin) == mode
  {
  }

  /** Pins outside the mask keep their peripheral, whatever the mode. */
  lemma RouteKeepsOthers(s: Select, mode: PinMode, mask: set<Pin>, pin: Pin)
    requires pin !in mask
    ensures Selected(Route(s, mode, mask), pin) == Selected(s, pin)
  {
  }

  /** The mode getMode reads for a pin from PIO_OSR. */
  function ModeOf(osr: set<Pin>, pin: Pin): PinMode
  {
    if pin in osr then Output else Input
  }

  /**
   * getMode reads back what setModes wrote: a pin made an output reads
   * Output, one made an input reads Input, and a peripheral choice leaves
   * the reading as it was.
   */
  lemma ModeReadsBack(osr: set<Pin>, mask: set<Pin>, pin: Pin)
    requires pin in mask
    ensures ModeOf(osr + mask, pin) == Output
    ensures ModeOf(osr - mask, pin) == Input
  {
  }

  /** Every one of the port's 32 pins is in the set: its register reads 0xffffffff. */
  predicate AllPins(r: set<Pin>)
  {
    forall p: nat :: p < 32 ==> p in r
  }

  /**
   * A port's registers, each 32-bit register as the set of pins whose bit
   * is set; a write to a set/clear register adds its mask to, or removes it
   * from, the status register it drives.
   */
  class Port {
    /** PIO_OSR: the pins driven as outputs. */
    var osr: set<Pin>
    /** PIO_PSR: the pins under the PIO controller (not a peripheral). */
    var psr: set<Pin>
    var abcdsr0: set<Pin>
    var abcdsr1: set<Pin>
    /** The port's peripheral clock. */
    var clockEnabled: bool
    /** PIO_AIMMR, PIO_ELSR and PIO_FRLHSR: additional modes, level (not edge), rising/high. */
    var aimmr: set<Pin>
    var elsr: set<Pin>
    var frlhsr: set<Pin>
    /** PIO_IMR and the port's NVIC line. */
    var imr: set<Pin>
    var priority: Option<nat>
    var nvicEnabled: bool

    /** A port whose registers hold the given values. */
    constructor (osr: set<Pin>, psr: set<Pin>, select: Select, detection: Detection, imr: set<Pin>)
      ensures this.osr == osr && this.psr == psr && Select(abcdsr0, abcdsr1) == select
      ensures Detection(aimmr, elsr, frlhsr) == detection && this.imr == imr
      ensures priority == None && !nvicEnabled && !clockEnabled
    {
      this.osr, this.psr, abcdsr0, abcdsr1 := osr, psr, select.sr0, select.sr1;
      clockEnabled := false;
      aimmr, elsr, frlhsr, this.imr := detection.aimmr, detection.elsr, detection.frlhsr, imr;
      priority, nvicEnabled := None, false;
    }

    /**
     * setModes: outputs and inputs go to the PIO controller; a peripheral
     * choice writes its two select bits and hands the pins to the
     * peripheral. The clock is then disabled iff every pin is an output.
     */
    method SetModes(mode: PinMode, mask: set<Pin>)
      modifies this`osr, this`psr, this`abcdsr0, this`abcdsr1, this`clockEnabled
      ensures mode == Output ==> osr == old(osr) + mask && psr == old(psr) + mask
      ensures mode == Input ==> osr == old(osr) - mask && psr == old(psr) + mask
      ensures IsPeripheral(mode) ==> osr == old(osr) && psr == old(psr) - mask
      ensures mode == Unchanged ==> osr == old(osr) && psr == old(psr)
      ensures Select(abcdsr0, abcdsr1) == Route(Select(old(abcdsr0), old(abcdsr1)), mode, mask)
      ensures clockEnabled <==> !AllPins(osr)
    {
      match mode {
        case Output =>
          osr := osr + mask;
          psr := psr + mask;
        case Input =>
          osr := osr - mask;
          psr := psr + mask;
        case PeripheralA =>
          abcdsr1 := abcdsr1 - mask;
          abcdsr0 := abcdsr0 - mask;
          psr := psr - mask;
        case PeripheralB =>
          abcdsr1 := abcdsr1 - mask;
          abcdsr0 := abcdsr0 + mask;
          psr := psr - mask;
        case PeripheralC =>
          abcdsr1 := abcdsr1 + mask;
          abcdsr0 := abcdsr0 - mask;
          psr := psr - mask;
        case PeripheralD =>
          abcdsr1 := abcdsr1 + mask;
          abcdsr0 := abcdsr0 + mask;
          psr := psr - mask;
        case Unchanged =>
      }
      clockEnabled := exists p: nat | p < 32 :: p !in osr;
    }

    /** getMode of one pin: Output or Input, never a peripheral. */
    function GetMode(pin: Pin): (m: PinMode)
      reads this`osr
      ensures m == Output || m == Input
    {
      ModeOf(osr, pin)
    }

    /**
     * setInterrupts: anything but Off masks the pins, configures the
     * additional mode from the decoded options, picks the priority and
     * unmasks the pins; Off masks them and turns the port's line off only
     * when no interrupt is pending (`isrClear`).
     */
    method SetInterrupts(interrupts: bv32, mask: set<Pin>, isrClear: bool)
      modifies this`aimmr, this`elsr, this`frlhsr, this`imr, this`priority, this`nvicEnabled
      ensures interrupts != Off ==>
        && Detection(aimmr, elsr, frlhsr) == Configure(Detection(old(aimmr), old(elsr), old(frlhsr)), Decode(interrupts), mask)
        && imr == old(imr) + mask && nvicEnabled
        && priority == (if PinPriority(interrupts).Some? then PinPriority(interrupts) else old(priority))
      ensures interrupts == Off ==>
        && imr == old(imr) - mask && aimmr == old(aimmr) && elsr == old(elsr) && frlhsr == old(frlhsr)
        && priority == old(priority) && nvicEnabled == (old(nvicEnabled) && !isrClear)
    {
      if interrupts != Off {
        imr := imr - mask;
        var d := Decode(interrupts);
        if d.Additional? {
          aimmr := aimmr + mask;
          if d.detect == Some(Edge) {
            elsr := elsr - mask;
          } else if d.detect == Some(Level) {
            elsr := elsr + mask;
          }
          if d.risingOrHigh {
            frlhsr := frlhsr + mask;
          } else {
            frlhsr := frlhsr - mask;
          }
        } else {
          aimmr := aimmr - mask;
        }
        var p := PinPriority(interrupts);
        if p.Some? {
          priority := p;
        }
        nvicEnabled := true;
        imr := imr + mask;
      } else {
        imr := imr - mask;
        if isrClear {
          nvicEnabled := false;
        }
      }
    }
  }

  // ---------------------------------------------------------------- pin interrupt options

  /** PinInterruptOptions. */
  const Off: bv32 := 0
  const OnChange: bv32 := 1
  const OnRisingEdge: bv32 := 2
  const OnFallingEdge: bv32 := 4
  const OnLowLevel: bv32 := 6
  const OnHighLevel: bv32 := 8
  const AdditionalMask: bv32 := 0x0e
  const TypeMask: bv32 := 0x1f
  const PriorityMask: bv32 := 0x3e0

  datatype Detect = Edge | Level

  /**
   * How setInterrupts configures a pin: both edges (the default), or an
   * additional mode with an optional edge/level choice and a polarity.
   */
  datatype Decoded = Default | Additional(detect: Option<Detect>, risingOrHigh: bool)

  /** The decoding of the options' type bits, as setInterrupts makes it. */
  function Decode(interrupts: bv32): Decoded
  {
    var t := interrupts & TypeMask;
    if interrupts & AdditionalMask == 0 then Default
    else Additional(
      if t == OnRisingEdge || t == OnFallingEdge then Some(Edge)
      else if t == OnHighLevel || t == OnLowLevel then Some(Level)
      else None,
      t == OnRisingEdge || t == OnHighLevel)
  }

  /** PIO_AIMMR, PIO_ELSR and PIO_FRLHSR: additional modes, level (not edge), rising/high. */
  datatype Detection = Detection(aimmr: set<Pin>, elsr: set<Pin>, frlhsr: set<Pin>)

  /**
   * The detection registers after setInterrupts: an additional mode is
   * enabled for the pins, with edge or level and the polarity as decoded
   * (an undecided detection keeps its old register bit); the default
   * disables the additional mode.
   */
  function Configure(d: Detection, dec: Decoded, mask: set<Pin>): Detection
  {
    match dec
    case Default => d.(aimmr := d.aimmr - mask)
    case Additional(detect, risingOrHigh) =>
      Detection(
        d.aimmr + mask,
        if detect == Some(Edge) then d.elsr - mask
        else if detect == Some(Level) then d.elsr + mask
        else d.elsr,
        if risingOrHigh then d.frlhsr + mask else d.frlhsr - mask)
  }

  /** What a pin's interrupt fires on. */
  datatype Trigger = AnyEdge | RisingEdge | FallingEdge | LowLevel | HighLevel

  /** The controller's reading of one pin's detection bits. */
  function PinTrigger(d: Detection, pin: Pin): Trigger
  {
    if pin !in d.aimmr then AnyEdge
    else if pin !in d.elsr then (if pin in d.frlhsr then RisingEdge else FallingEdge)
    else (if pin in d.frlhsr then HighLevel else LowLevel)
  }

  /** The trigger an option's type bits ask for, when they name exactly one. */
  function Requested(interrupts: bv32): Option<Trigger>
  {
    var t := interrupts & TypeMask;
    if t == OnChange then Some(AnyEdge)
    else if t == OnRisingEdge then Some(RisingEdge)
    else if t == OnFallingEdge then Some(FallingEdge)
    else if t == OnLowLevel then Some(LowLevel)
    else if t == OnHighLevel then Some(HighLevel)
    else None
  }

  /**
   * Every pin of the mask ends up firing on the trigger its options ask
   * for, whatever the registers held before and whatever priority bits
   * come with the request.
   */
  lemma ConfigureHonoursRequest(d: Detection, interrupts: bv32, mask: set<Pin>, pin: Pin)
    requires Requested(interrupts).Some? && pin in mask
    ensures PinTrigger(Configure(d, Decode(interrupts), mask), pin) == Requested(interrupts).value
  {
  }

  /** Pins outside the mask keep their trigger. */
  lemma ConfigureKeepsOthers(d: Detection, dec: Decoded, mask: set<Pin>, pin: Pin)
    requires pin !in mask
    ensures PinTrigger(Configure(d, dec, mask), pin) == PinTrigger(d, pin)
  {
  }

  /**
   * A pin-change request combined with an edge is additional but matches
   * no type: it writes neither edge nor level and selects falling/low.
   */
  lemma ChangeWithEdgeIsFalling()
    ensures Decode(OnChange | OnRisingEdge) == Additional(None, false)
  {
  }

  /** The NVIC priority setInterrupts chooses for a port: 0 to 4, the highest flag winning. */
  function PinPriority(interrupts: bv32): (r: Option<nat>)
    ensures r.None? <==> interrupts & PriorityMask == 0
    ensures r.Some? ==> r.value <= 4
    ensures r == Some(0) <==> interrupts & 0x20 != 0
  {
    if interrupts & PriorityMask == 0 then None
    else if interrupts & 0x20 != 0 then Some(0)
    else if interrupts & 0x40 != 0 then Some(1)
    else if interrupts & 0x80 != 0 then Some(2)
    else if interrupts & 0x100 != 0 then Some(3)
    else Some(4)
  }

  // ---------------------------------------------------------------- clock output prescaler

  /** The core clock, a 32-bit value. */
  type Clock = c: nat | c < 0x1_0000_0000

  /** The clock shifted right by k (0 to 6): the output of the 2^k divider. */
  function Shr(clock: Clock, k: nat): (r: nat)
    requires k <= 6
    ensures r <= clock
  {
    match k
    case 0 => clock
    case 1 => clock / 2
    case 2 => clock / 4
    case 3 => clock / 8
    case 4 => clock / 16
    case 5 => clock / 32
    case _ => clock / 64
  }

  /** One more halving never gives a larger frequency. */
  lemma ShrStep(clock: Clock, k: nat)
    requires k < 6
    ensures Shr(clock, k + 1) <= Shr(clock, k)
  {
  }

  /** A larger shift never gives a larger frequency. */
  lemma {:induction false} ShrMonotone(clock: Clock, j: nat, k: nat)
    requires j <= k <= 6
    ensures Shr(clock, k) <= Shr(clock, j)
    decreases k - j
  {
    if j < k {
      ShrStep(clock, j);
      ShrMonotone(clock, j + 1, k);
    }
  }

  /**
   * The clock-output pin's prescaler as written, as the exponent k of
   * the 2^k divider: each of k = 1..6 in turn replaces the choice when the
   * core clock shifted right by k is below the target.
   */
  method PrescalerAsWritten(clock: Clock, target: Clock) returns (k: nat)
    ensures k == PrescalerChain(clock, target, 6)
  {
    k := 0;
    if clock / 2 < target { k := 1; }
    if clock / 4 < target { k := 2; }
    if clock / 8 < target { k := 3; }
    if clock / 16 < target { k := 4; }
    if clock / 32 < target { k := 5; }
    if clock / 64 < target { k := 6; }
  }

  /** The choice after the tests for 1..n: the last k whose test held, or 0. */
  function PrescalerChain(clock: Clock, target: Clock, n: nat): (k: nat)
    requires n <= 6
    ensures k <= n
    ensures k > 0 ==> Shr(clock, k) < target
    ensures forall j: nat :: k < j <= n ==> Shr(clock, j) >= target
  {
    if n == 0 then 0
    else if Shr(clock, n) < target then n
    else PrescalerChain(clock, target, n - 1)
  }

  /**
   * The tests are monotone, so the choice as written is always 1 or 64:
   * 64 as soon as the target exceeds the clock over 64, else 1.
   */
  lemma {:induction false} PrescalerAsWrittenExtremes(clock: Clock, target: Clock)
    ensures PrescalerChain(clock, target, 6) == if Shr(clock, 6) < target then 6 else 0
  {
    var k := PrescalerChain(clock, target, 6);
    if k > 0 {
      ShrMonotone(clock, k, 6);
    }
  }

  /** A 12 MHz clock asked for 12 MHz is divided by 64, and asked for 100 kHz is not divided. */
  lemma PrescalerAsWrittenInverted()
    ensures PrescalerChain(12_000_000, 12_000_000, 6) == 6
    ensures PrescalerChain(12_000_000, 100_000, 6) == 0
  {
    PrescalerAsWrittenExtremes(12_000_000, 12_000_000);
    PrescalerAsWrittenExtremes(12_000_000, 100_000);
  }

  /**
   * The prescaler evidently intended, searched from divider 2^k upwards:
   * the smallest divider whose output is at or below the target, or 64
   * when none is.
   */
  function Prescaler(clock: Clock, target: Clock, k: nat := 0): (r: nat)
    requires k <= 6
    ensures k <= r <= 6
    ensures r < 6 ==> Shr(clock, r) <= target
    ensures forall j: nat :: k <= j < r ==> Shr(clock, j) > target
    decreases 6 - k
  {
    if k == 6 || Shr(clock, k) <= target then k
    else Prescaler(clock, target, k + 1)
  }

  /**
   * The intended choice never divides more than needed: every output at
   * or below the target lies at the chosen divider or beyond, so the
   * chosen output is the largest one not above the target.
   */
  lemma {:induction false} PrescalerIsLargestBelow(clock: Clock, target: Clock, j: nat)
    requires j <= 6 && Shr(clock, j) <= target
    ensures Prescaler(clock, target) <= j
    ensures Shr(clock, j) <= Shr(clock, Prescaler(clock, target))
  {
    ShrMonotone(clock, Prescaler(clock, target), j);
  }

  /** A 12 MHz clock asked for 12 MHz is not divided, and asked for 100 kHz is divided by 64. */
  lemma PrescalerExamples()
    ensures Prescaler(12_000_000, 12_000_000) == 0
    ensures Prescaler(12_000_000, 100_000) == 6
  {
  }
}
