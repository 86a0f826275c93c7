// The SAM SPI peripheral driver: the chip-select register values that
// setChannel and setChannelOptions build, the interrupt-cause decoding,
// startTransfer's use of the DMA, and the chip-select multiplexer's
// computeCsValue. The peripheral clock and the DMA's answers are
// parameters; the registers are fields holding the values written.

module SamSpi {

  import opened Wrappers
  import MotateCommon

  const Modulus32: int := 0x1_0000_0000

  type Uint32 = n: int | 0 <= n < Modulus32

  // ---------------------------------------------------------------- the baud divider

  /** The largest serial clock divider SCBR holds. */
  const DividerMax: nat := 255

  /** The divider pulled into 1..255. */
  function Clamp(x: nat): (d: nat)
    ensures 1 <= d <= DividerMax
    ensures 1 <= x <= DividerMax ==> d == x
  {
    if x > DividerMax then DividerMax else if x < 1 then 1 else x
  }

  /** The divider as written: the peripheral clock over the baud, rounded down, clamped. */
  function DividerAsWritten(clock: Uint32, baud: Uint32): nat
    requires 0 < baud
  {
    Clamp(clock / baud)
  }

  /**
   * Rounded down, the divider makes the serial clock clock / d at least the
   * baud asked for whenever the divider is in range: the rate is never
   * below the request, so it can only be too fast.
   */
  lemma DividerAsWrittenAtOrAbove(clock: Uint32, baud: Uint32)
    requires 0 < baud && baud <= clock && clock / baud <= DividerMax
    ensures var d := DividerAsWritten(clock, baud);
      d * baud <= clock && clock < (d + 1) * baud
  {
    var q := clock / baud;
    assert clock == q * baud + clock % baud;
    assert (q + 1) * baud == q * baud + baud;
  }

  /** 120 MHz asked for 50 MHz: the divider is 2, a 60 MHz serial clock. */
  lemma DividerAsWrittenTooFast()
    ensures DividerAsWritten(120_000_000, 50_000_000) == 2
    ensures 120_000_000 > 2 * 50_000_000
  {
  }

  /** The divider rounded up, so the serial clock is the fastest not above the baud. */
  function Divider(clock: Uint32, baud: Uint32): nat
    requires 0 < baud
  {
    Clamp((clock + baud - 1) / baud)
  }

  /**
   * The corrected divider: within range, clock / d is at most the baud and
   * one step less would exceed it; out of range, the nearest end of 1..255.
   */
  lemma DividerAtOrBelow(clock: Uint32, baud: Uint32)
    requires 0 < baud
    ensures var d := Divider(clock, baud);
      && 1 <= d <= DividerMax
      && (clock <= DividerMax * baud ==> clock <= d * baud)
      && (1 < d && clock <= DividerMax * baud ==> (d - 1) * baud < clock)
      && (clock > DividerMax * baud ==> d == DividerMax)
  {
    var q := (clock + baud - 1) / baud;
    var r := (clock + baud - 1) % baud;
    assert clock + baud - 1 == q * baud + r;
    assert (q - 1) * baud == q * baud - baud;
    assert (q + 1) * baud == q * baud + baud;
  }

  // ---------------------------------------------------------------- the delays

  /** The uint32_t product a * b. */
  function Mul32(a: Uint32, b: Uint32): (r: Uint32)
    ensures a * b < Modulus32 ==> r == a * b
  {
    var p: nat := a * b;
    p % Modulus32
  }

  /** A delay in peripheral clock cycles as written: the nanosecond-cycle product in 32 bits, in tenths, rounded. */
  function DelayAsWritten(ns: Uint32, clock: Uint32): nat
  {
    (Mul32(ns, clock) / 100_000_000 + 5) / 10
  }

  /** The delay with the product taken in full. */
  function Delay(ns: nat, clock: nat): nat
  {
    (ns * clock / 100_000_000 + 5) / 10
  }

  /**
   * The delay is the nearest whole number of cycles: the product in tenths
   * of a cycle, rounded down, is within five tenths of ten times the result.
   */
  lemma DelayNearest(ns: nat, clock: nat)
    ensures var r := Delay(ns, clock);
      var tenths := ns * clock / 100_000_000;
      10 * r <= tenths + 5 < 10 * r + 10
  {
  }

  /** Below the 32-bit overflow the delay as written is the full one. */
  lemma DelayAsWrittenExactBelowOverflow(ns: Uint32, clock: Uint32)
    requires ns * clock < Modulus32
    ensures DelayAsWritten(ns, clock) == Delay(ns, clock)
  {
  }

  /** 1000 ns at 120 MHz is 120 cycles, but the 32-bit product wraps to give 4. */
  lemma DelayAsWrittenWraps()
    ensures Delay(1000, 120_000_000) == 120
    ensures DelayAsWritten(1000, 120_000_000) == 4
  {
    assert 1000 * 120_000_000 == 120_000_000_000;
    assert 120_000_000_000 % Modulus32 == 4_035_883_008;
  }

  /** The register fields hold eight bits; the masks of the field macros keep the low byte. */
  function Field8(v: nat): (f: nat)
    ensures f < 0x100 && (v < 0x100 ==> f == v)
  {
    v % 0x100
  }

  // ---------------------------------------------------------------- the channel options

  /** SPIMode: the polarity and phase bits and the four-bit word-size field at bits 2..5. */
  type Options = bv16

  const PolarityReversed: Options := 0x1
  const ClockPhaseReversed: Options := 0x2
  const BitsMask: Options := 0x3C

  /** The BITS field of SPI_CSR: 0 for 8-bit words, 1..8 for 9..16-bit words. */
  function BitsField(options: Options): (f: nat)
  {
    var requested := ((options & BitsMask) >> 2) as nat;
    if 1 <= requested <= 8 then requested else 0
  }

  /** The word size is the requested 9..16 bits, and 8 bits for every other field value. */
  lemma BitsMeaning(options: Options)
    ensures var requested := ((options & BitsMask) >> 2) as nat;
      && BitsField(options) <= 8
      && (9 <= 8 + requested <= 16 ==> 8 + BitsField(options) == 8 + requested)
      && (requested == 0 || requested > 8 ==> 8 + BitsField(options) == 8)
  {
  }

  /** One SPI_CSR register. */
  datatype ChannelOptions = ChannelOptions(
    cpol: bool,
    ncpha: bool,
    csnaat: bool,
    csaat: bool,
    bits: nat,
    scbr: nat,
    dlybs: nat,
    dlybct: nat)

  const ResetOptions := ChannelOptions(false, false, false, false, 0, 0, 0, 0)

  /**
   * The SPI_CSR value setChannelOptions builds from zero: divider, polarity,
   * phase, word size, the two channel delays and CSAAT.
   */
  function NewOptions(clock: Uint32, baud: Uint32, options: Options, csToSck: Uint32, betweenWords: Uint32): ChannelOptions
    requires 0 < baud
  {
    ChannelOptions(
      cpol := options & PolarityReversed != 0,
      ncpha := options & ClockPhaseReversed == 0,
      csnaat := false,
      csaat := true,
      bits := BitsField(options),
      scbr := Divider(clock, baud),
      dlybs := Field8(Delay(csToSck, clock)),
      dlybct := Field8(Delay(betweenWords, clock)))
  }

  /**
   * CPOL iff the polarity is reversed, NCPHA iff the phase is not, chip
   * select kept active after the transfer, and a divider in 1..255.
   */
  lemma NewOptionsMeaning(clock: Uint32, baud: Uint32, options: Options, csToSck: Uint32, betweenWords: Uint32)
    requires 0 < baud
    ensures var o := NewOptions(clock, baud, options, csToSck, betweenWords);
      && (o.cpol <==> options & PolarityReversed != 0)
      && (o.ncpha <==> options & ClockPhaseReversed == 0)
      && o.csaat && !o.csnaat
      && 1 <= o.scbr <= DividerMax && o.scbr == Divider(clock, baud)
      && o.dlybs < 0x100 && o.dlybct < 0x100 && o.bits <= 8
  {
    DividerAtOrBelow(clock, baud);
  }

  /** The SPI mode's polarity and phase are independent: the four modes give four distinct CPOL/NCPHA pairs. */
  lemma ModesDistinct(a: Options, b: Options, clock: Uint32, baud: Uint32)
    requires 0 < baud
    requires a & 3 != b & 3
    ensures var oa := NewOptions(clock, baud, a, 0, 0);
      var ob := NewOptions(clock, baud, b, 0, 0);
      (oa.cpol, oa.ncpha) != (ob.cpol, ob.ncpha)
  {
  }

  // ---------------------------------------------------------------- getInterruptCause

  /**
   * getInterruptCause: TxReady and RxReady each need both the mask bit and
   * the status bit; the transfer-done flags come from the DMA.
   */
  function InterruptCause(imrTdre: bool, srTdre: bool, imrRdrf: bool, srRdrf: bool,
                          dmaTxEmpty: bool, dmaRxFull: bool): (r: MotateCommon.InterruptType)
  {
    var a := if imrTdre && srTdre then MotateCommon.WithFlag(MotateCommon.Unknown, MotateCommon.TxReady) else MotateCommon.Unknown;
    var b := if imrRdrf && srRdrf then MotateCommon.WithFlag(a, MotateCommon.RxReady) else a;
    var c := if dmaTxEmpty then MotateCommon.WithFlag(b, MotateCommon.TxTransferDone) else b;
    if dmaRxFull then MotateCommon.WithFlag(c, MotateCommon.RxTransferDone) else c
  }

  /** Each flag of the cause is set exactly when its sources say so, and no other flag is. */
  lemma InterruptCauseMeaning(imrTdre: bool, srTdre: bool, imrRdrf: bool, srRdrf: bool, dmaTxEmpty: bool, dmaRxFull: bool)
    ensures var r := InterruptCause(imrTdre, srTdre, imrRdrf, srRdrf, dmaTxEmpty, dmaRxFull);
      && (MotateCommon.IsSet(r, MotateCommon.TxReady) <==> imrTdre && srTdre)
      && (MotateCommon.IsSet(r, MotateCommon.RxReady) <==> imrRdrf && srRdrf)
      && (MotateCommon.IsSet(r, MotateCommon.TxTransferDone) <==> dmaTxEmpty)
      && (MotateCommon.IsSet(r, MotateCommon.RxTransferDone) <==> dmaRxFull)
      && !MotateCommon.IsSet(r, MotateCommon.TxDone) && !MotateCommon.IsSet(r, MotateCommon.TxError)
      && !MotateCommon.IsSet(r, MotateCommon.RxDone) && !MotateCommon.IsSet(r, MotateCommon.RxError)
  {
    assert !MotateCommon.IsSet(MotateCommon.Unknown, MotateCommon.TxReady);
    assert forall e :: !MotateCommon.IsSet(MotateCommon.Unknown, e);
  }

  // ---------------------------------------------------------------- the chip-select multiplexer

  /** The csNumber of the pins wired to cs bits 0..3 (a missing pin counts as 0). */
  datatype CsPins = CsPins(pin0: nat, pin1: nat, pin2: nat, pin3: nat)
  {
    /** Every chip-select pin drives one of the four peripheral chip-select lines. */
    predicate Valid() { pin0 < 4 && pin1 < 4 && pin2 < 4 && pin3 < 4 }

    predicate Distinct() { pin0 != pin1 && pin0 != pin2 && pin0 != pin3 && pin1 != pin2 && pin1 != pin3 && pin2 != pin3 }

    function Pin(i: nat): nat
      requires i < 4
    {
      if i == 0 then pin0 else if i == 1 then pin1 else if i == 2 then pin2 else pin3
    }
  }

  function BitMask(i: nat): bv8
    requires i < 8
  {
    (1 as bv8) << i
  }

  predicate HasBit(v: bv8, i: nat)
    requires i < 8
  {
    v & BitMask(i) != 0
  }

  /** computeCsValue: bit i of cs selects the line of pin i. */
  function CsValue(cs: bv8, pins: CsPins): (v: bv8)
    requires pins.Valid()
    ensures v < 16
  {
    var a: bv8 := if HasBit(cs, 0) then BitMask(pins.pin0) else 0;
    var b := if HasBit(cs, 1) then a | BitMask(pins.pin1) else a;
    var c := if HasBit(cs, 2) then b | BitMask(pins.pin2) else b;
    if HasBit(cs, 3) then c | BitMask(pins.pin3) else c
  }

  /** Line j is driven exactly when some selected bit's pin is line j. */
  lemma CsValueBits(cs: bv8, pins: CsPins, j: nat)
    requires pins.Valid() && j < 8
    ensures HasBit(CsValue(cs, pins), j) <==>
      || (HasBit(cs, 0) && pins.pin0 == j) || (HasBit(cs, 1) && pins.pin1 == j)
      || (HasBit(cs, 2) && pins.pin2 == j) || (HasBit(cs, 3) && pins.pin3 == j)
  {
  }

  /** The cs bits read back from the line value through the pins. */
  function DecodeCs(v: bv8, pins: CsPins): (cs: bv8)
    requires pins.Valid()
    ensures cs < 16
  {
    (if HasBit(v, pins.pin0) then 1 else 0) | (if HasBit(v, pins.pin1) then 2 else 0)
    | (if HasBit(v, pins.pin2) then 4 else 0) | (if HasBit(v, pins.pin3) then 8 else 0)
  }

  /** With four distinct pins, the line value gives back the cs number's four bits. */
  lemma {:induction false} CsRoundTrip(cs: bv8, pins: CsPins)
    requires pins.Valid() && pins.Distinct()
    ensures DecodeCs(CsValue(cs, pins), pins) == cs & 0xF
  {
    var v := CsValue(cs, pins);
    CsValueBits(cs, pins, pins.pin0);
    CsValueBits(cs, pins, pins.pin1);
    CsValueBits(cs, pins, pins.pin2);
    CsValueBits(cs, pins, pins.pin3);
    LowNibble(cs);
  }

  lemma LowNibble(cs: bv8)
    ensures cs & 0xF == (if HasBit(cs, 0) then 1 else 0) | (if HasBit(cs, 1) then 2 else 0)
                       | (if HasBit(cs, 2) then 4 else 0) | (if HasBit(cs, 3) then 8 else 0)
  {
  }

  /** Distinct pins give distinct cs numbers 0..15 distinct line values. */
  lemma CsValueInjective(cs: bv8, other: bv8, pins: CsPins)
    requires pins.Valid() && pins.Distinct() && cs & 0xF != other & 0xF
    ensures CsValue(cs, pins) != CsValue(other, pins)
  {
    CsRoundTrip(cs, pins);
    CsRoundTrip(other, pins);
  }

  /** SPIChipSelect: the line value and the register number it shares its settings through. */
  datatype ChipSelect = ChipSelect(csValue: bv8, csNumber: bv8)

  function GetCs(cs: bv8, pins: CsPins): (r: ChipSelect)
    requires pins.Valid()
    ensures r.csValue == CsValue(cs, pins)
    ensures r.csNumber < 4
  {
    var v := CsValue(cs, pins);
    ChipSelect(v, v >> 2)
  }

  /** Chip selects whose lines differ only in lines 0 and 1 share one SPI_CSR register. */
  lemma CsNumberShared(a: bv8, b: bv8, pins: CsPins)
    requires pins.Valid()
    requires CsValue(a, pins) & 0xC == CsValue(b, pins) & 0xC
    ensures GetCs(a, pins).csNumber == GetCs(b, pins).csNumber
  {
    var va, vb := CsValue(a, pins), CsValue(b, pins);
    assert va >> 2 == (va & 0xC) >> 2;
    assert vb >> 2 == (vb & 0xC) >> 2;
  }

  // ---------------------------------------------------------------- the peripheral

  /** A transfer requested from the DMA: whether a buffer was given (else one dummy byte repeats) and its size. */
  datatype DmaRequest = RxRequest(hasBuffer: bool, size: nat) | TxRequest(hasBuffer: bool, size: nat)

  /** The NVIC priority setInterrupts picks: the highest priority flag wins. */
  function PriorityLevel(interrupts: MotateCommon.InterruptType): (r: Option<nat>)
    ensures r.Some? ==> r.value <= 4
    ensures r.None? <==> forall p :: !MotateCommon.HasBits(interrupts, MotateCommon.PriorityMask(p))
  {
    if MotateCommon.HasBits(interrupts, MotateCommon.PriorityMask(MotateCommon.Highest)) then Some(0)
    else if MotateCommon.HasBits(interrupts, MotateCommon.PriorityMask(MotateCommon.High)) then Some(1)
    else if MotateCommon.HasBits(interrupts, MotateCommon.PriorityMask(MotateCommon.Medium)) then Some(2)
    else if MotateCommon.HasBits(interrupts, MotateCommon.PriorityMask(MotateCommon.Low)) then Some(3)
    else if MotateCommon.HasBits(interrupts, MotateCommon.PriorityMask(MotateCommon.Lowest)) then Some(4)
    else None
  }

  /** _SPIHardware: SPI_CSR[0..3], the mode register's fields, the interrupt enables and the DMA calls made. */
  class SpiHardware {
    var csr: seq<ChannelOptions>
    var dlybcs: nat
    var pcs: nat
    var usingDecoder: bool
    var enabled: bool
    var txReadyIrq: bool
    var rxReadyIrq: bool
    var dmaTxDoneIrq: bool
    var dmaRxDoneIrq: bool
    var priority: Option<nat>
    var nvicEnabled: bool
    var dmaInterrupts: MotateCommon.InterruptType
    var dmaEnabled: bool
    var requests: seq<DmaRequest>

    ghost predicate Valid()
      reads this
    {
      |csr| == 4
    }

    /** The constructor's software reset: the peripheral disabled, every register cleared. */
    constructor()
      ensures Valid() && !enabled && csr == [ResetOptions, ResetOptions, ResetOptions, ResetOptions]
      ensures requests == [] && !nvicEnabled && !dmaEnabled
    {
      csr := [ResetOptions, ResetOptions, ResetOptions, ResetOptions];
      dlybcs, pcs := 0, 0;
      usingDecoder, enabled := false, false;
      txReadyIrq, rxReadyIrq, dmaTxDoneIrq, dmaRxDoneIrq := false, false, false, false;
      priority, nvicEnabled := None, false;
      dmaInterrupts, dmaEnabled := MotateCommon.Off, false;
      requests := [];
    }

    /** setUsingCSDecoder: PCSDEC follows the argument. */
    method SetUsingCsDecoder(decoder: bool)
      modifies this
      ensures usingDecoder == decoder
      ensures csr == old(csr) && pcs == old(pcs) && enabled == old(enabled) && requests == old(requests)
    {
      usingDecoder := decoder;
    }

    /**
     * setChannel: the channel's chip select stays active after the transfer
     * (CSAAT) or is released (CSNAAT), never both; its other settings are
     * kept; PCS selects the channel and the peripheral is enabled.
     */
    method SetChannel(channel: nat, deassertAfter: bool) returns (ok: bool)
      requires Valid() && channel < 4
      modifies this
      ensures Valid() && ok && enabled && pcs == channel
      ensures csr == old(csr)[channel := old(csr)[channel].(csaat := !deassertAfter, csnaat := deassertAfter)]
      ensures dlybcs == old(dlybcs) && usingDecoder == old(usingDecoder) && requests == old(requests)
    {
      var hold := csr[channel];
      hold := hold.(csaat := false, csnaat := false);
      if deassertAfter {
        hold := hold.(csnaat := true);
      } else {
        hold := hold.(csaat := true);
      }
      csr := csr[channel := hold];
      pcs := channel;
      enabled := true;
      ok := true;
    }

    /**
     * setChannelOptions: the channel's SPI_CSR is replaced by NewOptions and
     * the mode register's DLYBCS takes the chip-select gap; no other
     * channel changes.
     */
    method SetChannelOptions(channel: nat, baud: Uint32, options: Options, betweenCs: Uint32,
                             csToSck: Uint32, betweenWords: Uint32, clock: Uint32)
      requires Valid() && channel < 4 && 0 < baud
      modifies this
      ensures Valid() && csr == old(csr)[channel := NewOptions(clock, baud, options, csToSck, betweenWords)]
      ensures dlybcs == Field8(Delay(betweenCs, clock))
      ensures pcs == old(pcs) && enabled == old(enabled) && requests == old(requests)
    {
      var divider := Divider(clock, baud);
      var o := ResetOptions.(scbr := divider);
      if options & PolarityReversed != 0 {
        o := o.(cpol := true);
      }
      if options & ClockPhaseReversed == 0 {
        o := o.(ncpha := true);
      }
      o := o.(bits := BitsField(options));
      dlybcs := Field8(Delay(betweenCs, clock));
      o := o.(dlybs := Field8(Delay(csToSck, clock)));
      o := o.(dlybct := Field8(Delay(betweenWords, clock)));
      o := o.(csaat := true);
      csr := csr[channel := o];
    }

    /**
     * setInterrupts: with any flag, TDRE and RDRF follow their flags, the
     * DMA's done interrupts theirs, the highest priority flag given sets the
     * NVIC priority and the interrupt is enabled; Off disables it.
     */
    method SetInterrupts(interrupts: MotateCommon.InterruptType)
      modifies this
      ensures interrupts == MotateCommon.Off ==>
        !nvicEnabled && txReadyIrq == old(txReadyIrq) && rxReadyIrq == old(rxReadyIrq)
        && dmaTxDoneIrq == old(dmaTxDoneIrq) && dmaRxDoneIrq == old(dmaRxDoneIrq) && priority == old(priority)
      ensures interrupts != MotateCommon.Off ==>
        && nvicEnabled
        && (txReadyIrq <==> MotateCommon.IsSet(interrupts, MotateCommon.TxReady))
        && (rxReadyIrq <==> MotateCommon.IsSet(interrupts, MotateCommon.RxReady))
        && (dmaRxDoneIrq <==> MotateCommon.IsSet(interrupts, MotateCommon.RxTransferDone))
        && (dmaTxDoneIrq <==> MotateCommon.IsSet(interrupts, MotateCommon.TxTransferDone))
        && priority == (if PriorityLevel(interrupts).Some? then PriorityLevel(interrupts) else old(priority))
      ensures csr == old(csr) && requests == old(requests) && enabled == old(enabled)
    {
      if interrupts != MotateCommon.Off {
        txReadyIrq := MotateCommon.IsSet(interrupts, MotateCommon.TxReady);
        rxReadyIrq := MotateCommon.IsSet(interrupts, MotateCommon.RxReady);
        dmaRxDoneIrq := MotateCommon.IsSet(interrupts, MotateCommon.RxTransferDone);
        dmaTxDoneIrq := MotateCommon.IsSet(interrupts, MotateCommon.TxTransferDone);
        var level := PriorityLevel(interrupts);
        if level.Some? {
          priority := level;
        }
        nvicEnabled := true;
      } else {
        nvicEnabled := false;
      }
    }

    /**
     * startTransfer: the DMA's interrupts are turned off; the receive side
     * is requested (a missing buffer repeats a dummy byte), and a refused
     * receive buffer fails at once; then the transmit side. The transfer
     * is under way iff the receive buffer was accepted, or, without one,
     * the transmit buffer was; only then are the DMA and the peripheral
     * enabled, with the DMA's receive-done interrupt.
     */
    method StartTransfer(hasTx: bool, hasRx: bool, size: nat, rxAccepts: bool, txAccepts: bool) returns (ok: bool)
      modifies this
      ensures ok <==> if hasRx then rxAccepts else hasTx && txAccepts
      ensures requests == old(requests) + [RxRequest(hasRx, size)]
                          + (if hasRx && !rxAccepts then [] else [TxRequest(hasTx, size)])
      ensures dmaInterrupts == (if ok then MotateCommon.Mask(MotateCommon.RxTransferDone) else MotateCommon.Off)
      ensures dmaEnabled == (old(dmaEnabled) || ok) && enabled == (old(enabled) || ok)
      ensures csr == old(csr) && pcs == old(pcs) && dlybcs == old(dlybcs)
    {
      var rxIsSetup, txIsSetup := false, false;
      dmaInterrupts := MotateCommon.Off;
      requests := requests + [RxRequest(hasRx, size)];
      if hasRx {
        rxIsSetup := rxAccepts;
      }
      if hasRx && !rxIsSetup {
        ok := false;
      } else {
        requests := requests + [TxRequest(hasTx, size)];
        if hasTx {
          txIsSetup := txAccepts;
        }
        if rxIsSetup || txIsSetup {
          dmaInterrupts := MotateCommon.Mask(MotateCommon.RxTransferDone);
          dmaEnabled := true;
          enabled := true;
        }
        ok := rxIsSetup || txIsSetup;
      }
    }
  }
}
