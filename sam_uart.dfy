// The SAM USART and UART drivers of the common SAM layer: the baud divisor
// and mode register that setOptions writes, the interrupt enables of
// setInterrupts and the masked cause of getInterruptCause, writeByte, flush,
// and the pausing of transmit transfers. Register reads (status, mask, CTS)
// and the DMA's answers are parameters; the registers written are fields.

module SamUart {

  import opened Wrappers
  import MotateCommon
  import MotateUart
  import SamSpi

  type Uint32 = SamSpi.Uint32

  // ---------------------------------------------------------------- options

  /** The UARTMode option bits. */
  const EvenParity: bv16 := 0x01
  const OddParity: bv16 := 0x02
  const TwoStopBits: bv16 := 0x04
  const As9Bit: bv16 := 0x08
  const RtsCtsFlowControl: bv16 := 0x20

  predicate Has(options: bv16, flag: bv16)
  {
    options & flag != 0
  }

  // ---------------------------------------------------------------- the baud divisor

  /**
   * The USART's clock divisor CD: the peripheral clock over 16 times the
   * baud, computed in tenths and rounded, each product in 32 bits.
   */
  function UsartDivisor(clock: Uint32, baud: Uint32): nat
    requires SamSpi.Mul32(16, baud) != 0
  {
    (SamSpi.Mul32(clock, 10) / SamSpi.Mul32(16, baud) + 5) / 10
  }

  /** The UART's clock divisor CD: the peripheral clock over 16 times the baud, rounded down. */
  function UartDivisor(clock: Uint32, baud: Uint32): nat
    requires SamSpi.Mul32(16, baud) != 0
  {
    clock / SamSpi.Mul32(16, baud)
  }

  /**
   * While the products fit 32 bits, the USART's divisor is the clock over
   * 16 times the baud rounded to the nearest integer in tenths: it is the
   * UART's rounded-down divisor, plus one exactly when the first decimal of
   * the quotient is 5 or more.
   */
  lemma UsartDivisorRounds(clock: Uint32, baud: Uint32)
    requires 0 < baud && 16 * baud < SamSpi.Modulus32 && clock * 10 < SamSpi.Modulus32
    ensures var d, u := 16 * baud, clock / (16 * baud);
      && UartDivisor(clock, baud) == u
      && UsartDivisor(clock, baud) == (if (10 * (clock % d)) / d >= 5 then u + 1 else u)
  {
    var d := 16 * baud;
    assert SamSpi.Mul32(16, baud) == d && SamSpi.Mul32(clock, 10) == 10 * clock;
    RoundedTenths(clock, d);
  }

  /** Rounding a quotient in tenths adds one exactly when its first decimal is 5 or more. */
  lemma RoundedTenths(c: nat, d: int)
    requires 0 < d
    ensures ((10 * c) / d + 5) / 10 == if (10 * (c % d)) / d >= 5 then c / d + 1 else c / d
  {
    var u, f := c / d, (10 * (c % d)) / d;
    TenthsDigit(c, d);
    DivUnique(10 * u + f + 5, 10, u + (f + 5) / 10, (f + 5) % 10);
  }

  /** The quotient in tenths is ten times the quotient plus the first decimal digit. */
  lemma TenthsDigit(c: nat, d: int)
    requires 0 < d
    ensures 0 <= (10 * (c % d)) / d < 10
    ensures (10 * c) / d == 10 * (c / d) + (10 * (c % d)) / d
  {
    var u, r := c / d, c % d;
    var f, g := (10 * r) / d, (10 * r) % d;
    DivBelow(10 * r, d, 10);
    assert 10 * c == (10 * u + f) * d + g by {
      assert c == u * d + r;
      assert 10 * r == f * d + g;
      assert (10 * u + f) * d == 10 * (u * d) + f * d;
    }
    DivUnique(10 * c, d, 10 * u + f, g);
  }

  /** Division's quotient and remainder are the only ones. */
  lemma DivUnique(x: int, d: int, q: int, s: int)
    requires 0 < d && 0 <= s < d && x == q * d + s
    ensures x / d == q
  {
    var k := x / d - q;
    assert k * d == x / d * d - q * d;
    assert k * d == s - x % d;
    MulScales(k, d);
  }

  /** A value below `k` times the divisor has a quotient below `k`. */
  lemma DivBelow(x: nat, d: int, k: nat)
    requires 0 < d && x < k * d
    ensures x / d < k
  {
    var q := x / d;
    assert (q - k) * d == q * d - k * d;
    MulScales(q - k, d);
  }

  /** A nonzero multiple of `d` is at least `d` away from zero. */
  lemma MulScales(k: int, d: int)
    requires 0 < d
    ensures k >= 1 ==> k * d >= d
    ensures k <= -1 ==> k * d <= -d
  {
  }

  // ---------------------------------------------------------------- the mode register

  /** US_MR's USART_MODE, NBSTOP, CHRL and PAR values, as the enumerations of the driver give them. */
  const ModeNormal: nat := 0x0
  const ModeHwHandshaking: nat := 0x2
  const Stop1Bit: nat := 0x0
  const Stop2Bit: nat := 0x2
  const Chars8Bit: nat := 0x3
  const ParityEven: nat := 0x0
  const ParityOdd: nat := 0x1
  const ParityNone: nat := 0x4

  /** The fields of US_MR that setOptions writes. */
  datatype ModeRegister = ModeRegister(usartMode: nat, over: bool, nbStop: nat, mode9: bool, chrl: nat, par: nat)

  /** The mode register after setOptions (the UART has a parity field only). */
  function SetMode(mr: ModeRegister, options: bv16): ModeRegister
  {
    var mode := if Has(options, RtsCtsFlowControl) then ModeHwHandshaking else ModeNormal;
    var stop := if Has(options, TwoStopBits) then Stop2Bit else Stop1Bit;
    var chrl := if Has(options, As9Bit) then mr.chrl else Chars8Bit;
    var par := if Has(options, EvenParity) then ParityEven
               else if Has(options, OddParity) then ParityOdd
               else ParityNone;
    ModeRegister(mode, false, stop, Has(options, As9Bit), chrl, par)
  }

  /**
   * Hardware handshaking iff RTS/CTS is asked for, two stop bits iff asked
   * for, 9-bit characters iff asked for (otherwise 8-bit, and a 9-bit mode
   * keeps the old character length), even parity if asked for, else odd if
   * asked for, else none, and 16x oversampling.
   */
  lemma SetModeMeaning(mr: ModeRegister, options: bv16)
    ensures var r := SetMode(mr, options);
      && (r.usartMode == ModeHwHandshaking <==> Has(options, RtsCtsFlowControl))
      && (r.usartMode == ModeNormal <==> !Has(options, RtsCtsFlowControl))
      && (r.nbStop == Stop2Bit <==> Has(options, TwoStopBits))
      && (r.mode9 <==> Has(options, As9Bit))
      && (r.chrl == if Has(options, As9Bit) then mr.chrl else Chars8Bit)
      && (r.par == ParityEven <==> Has(options, EvenParity))
      && (r.par == ParityOdd <==> !Has(options, EvenParity) && Has(options, OddParity))
      && (r.par == ParityNone <==> !Has(options, EvenParity) && !Has(options, OddParity))
      && !r.over
  {
  }

  /** Setting the same options twice leaves the register as setting them once. */
  lemma SetModeIdempotent(mr: ModeRegister, options: bv16)
    ensures SetMode(SetMode(mr, options), options) == SetMode(mr, options)
  {
  }

  // ---------------------------------------------------------------- the interrupt cause

  /** The TXRDY, RXRDY and CTSIC bits of a status register or of the interrupt mask. */
  datatype StatusBits = StatusBits(txRdy: bool, rxRdy: bool, ctsic: bool)

  /**
   * getInterruptCause: a flag for a status bit only when the interrupt mask
   * has it enabled too; the transfer-done flags come from the DMA.
   * `hasCts` is false for the UART, which has no CTS line.
   */
  function Cause(imr: StatusBits, csr: StatusBits, dmaTxEmpty: bool, dmaRxFull: bool, hasCts: bool): (c: MotateUart.Cause)
  {
    MotateUart.Cause(imr.txRdy && csr.txRdy, imr.rxRdy && csr.rxRdy, dmaTxEmpty, dmaRxFull,
                     hasCts && imr.ctsic && csr.ctsic)
  }

  /** The interrupt enables setInterrupts and the setInterrupt... members leave. */
  datatype Enables = Enables(imr: StatusBits, dmaTxDone: bool, dmaRxDone: bool, nvic: bool)

  /**
   * setInterrupts: any value but Off enables RXRDY iff OnRxDone is given,
   * TXRDY iff OnTxDone is, the DMA's done interrupts likewise, and the
   * peripheral's interrupt; Off only disables the latter.
   */
  function EnablesAfter(e: Enables, interrupts: MotateCommon.InterruptType): Enables
  {
    if interrupts != MotateCommon.Off then
      Enables(e.imr.(txRdy := MotateCommon.IsSet(interrupts, MotateCommon.TxDone),
                     rxRdy := MotateCommon.IsSet(interrupts, MotateCommon.RxDone)),
              MotateCommon.IsSet(interrupts, MotateCommon.TxTransferDone),
              MotateCommon.IsSet(interrupts, MotateCommon.RxTransferDone), true)
    else e.(nvic := false)
  }

  /**
   * After setInterrupts with anything but Off, a ready flag is reported
   * only when it was asked for and its status bit is set; a flag not asked
   * for is never reported, whatever the status register says.
   */
  lemma CauseFollowsEnables(e: Enables, interrupts: MotateCommon.InterruptType, csr: StatusBits,
                            dmaTxEmpty: bool, dmaRxFull: bool, hasCts: bool)
    requires interrupts != MotateCommon.Off
    ensures var c := Cause(EnablesAfter(e, interrupts).imr, csr, dmaTxEmpty, dmaRxFull, hasCts);
      && (c.txReady <==> MotateCommon.IsSet(interrupts, MotateCommon.TxDone) && csr.txRdy)
      && (c.rxReady <==> MotateCommon.IsSet(interrupts, MotateCommon.RxDone) && csr.rxRdy)
      && (c.ctsChanged <==> hasCts && e.imr.ctsic && csr.ctsic)
      && c.txTransferDone == dmaTxEmpty && c.rxTransferDone == dmaRxFull
  {
  }

  /** A status bit whose interrupt is masked is never reported, whatever the status. */
  lemma MaskedNeverReported(imr: StatusBits, csr: StatusBits, dmaTxEmpty: bool, dmaRxFull: bool, hasCts: bool)
    ensures var c := Cause(imr, csr, dmaTxEmpty, dmaRxFull, hasCts);
      && (!imr.txRdy ==> !c.txReady) && (!imr.rxRdy ==> !c.rxReady) && (!imr.ctsic ==> !c.ctsChanged)
      && (c.txReady ==> csr.txRdy) && (c.rxReady ==> csr.rxRdy) && (c.ctsChanged ==> csr.ctsic)
  {
  }

  // ---------------------------------------------------------------- flush

  /**
   * The USART's flush loop condition as written, `!US_CSR & US_CSR_TXEMPTY`:
   * the logical not binds first, so the status word becomes 0 or 1 before
   * the mask is applied.
   */
  function FlushWaitsAsWritten(csr: bv32, txEmpty: bv32): bool
  {
    (if csr == 0 then 1 else 0) & txEmpty != 0
  }

  /** US_CSR_TXEMPTY and UART_SR_TXEMPTY: bit 9 of the status register. */
  const TxEmpty: bv32 := 0x200

  /** Whichever the status, the loop as written never waits: TXEMPTY is not bit 0. */
  lemma FlushAsWrittenNeverWaits(csr: bv32)
    ensures !FlushWaitsAsWritten(csr, TxEmpty)
  {
  }

  /** A busy transmitter (status 0): the loop as written goes on, the intended test waits. */
  lemma FlushAsWrittenSkipsBusy()
    ensures !FlushWaitsAsWritten(0, TxEmpty) && FlushWaits(0)
  {
  }

  /** The test the UART's flush makes and the USART's intends: wait while TXEMPTY is clear. */
  predicate FlushWaits(csr: bv32)
  {
    csr & TxEmpty == 0
  }

  /**
   * How many successive status readings a flush makes before it returns:
   * up to the first that shows TXEMPTY, or all of them when none does.
   */
  function ReadingsUntilEmpty(statuses: seq<bv32>): (n: nat)
    ensures n <= |statuses|
    ensures forall j :: 0 <= j < n ==> FlushWaits(statuses[j])
    ensures n < |statuses| ==> !FlushWaits(statuses[n])
  {
    if |statuses| == 0 || !FlushWaits(statuses[0]) then 0
    else 1 + ReadingsUntilEmpty(statuses[1..])
  }

  /**
   * The wait of a flush: reads the status register (`statuses`, one
   * element per reading) while the transmitter is not empty.
   */
  method WaitTxEmpty(statuses: seq<bv32>) returns (readings: nat)
    ensures readings == ReadingsUntilEmpty(statuses)
  {
    readings := 0;
    while readings < |statuses| && FlushWaits(statuses[readings])
      invariant readings <= |statuses|
      invariant readings + ReadingsUntilEmpty(statuses[readings..]) == ReadingsUntilEmpty(statuses)
    {
      assert statuses[readings..][1..] == statuses[readings + 1..];
      readings := readings + 1;
    }
  }

  // ---------------------------------------------------------------- the USART

  class UsartHardware {
    var enabled: bool
    var mode: ModeRegister
    var divisor: nat
    var enables: Enables
    var txPaused: bool
    var dmaTxEnabled: bool
    /** Characters written to THR, oldest first. */
    var sent: seq<char>

    /**
     * The peripheral after init: transmitter and receiver disabled, every
     * interrupt source masked, the peripheral's interrupt enabled at low
     * priority, nothing sent.
     */
    constructor ()
      ensures !enabled && !txPaused && sent == []
      ensures enables == Enables(StatusBits(false, false, false), false, false, true)
    {
      enabled, txPaused, dmaTxEnabled := false, false, false;
      mode := ModeRegister(ModeNormal, false, Stop1Bit, false, Chars8Bit, ParityNone);
      divisor := 0;
      var masked := Enables(StatusBits(false, false, false), false, false, false);
      enables := EnablesAfter(masked, MotateCommon.PriorityMask(MotateCommon.Low));
      sent := [];
    }

    /** setOptions: the rounded divisor and the mode register written, the peripheral enabled again. */
    method SetOptions(clock: Uint32, baud: Uint32, options: bv16)
      requires SamSpi.Mul32(16, baud) != 0
      modifies this
      ensures divisor == UsartDivisor(clock, baud) && mode == SetMode(old(mode), options) && enabled
      ensures enables == old(enables) && txPaused == old(txPaused) && sent == old(sent)
      ensures dmaTxEnabled == old(dmaTxEnabled)
    {
      enabled := false;
      divisor := UsartDivisor(clock, baud);
      mode := SetMode(mode, options);
      enabled := true;
    }

    method SetInterrupts(interrupts: MotateCommon.InterruptType)
      modifies this
      ensures enables == EnablesAfter(old(enables), interrupts)
      ensures enabled == old(enabled) && mode == old(mode) && txPaused == old(txPaused) && sent == old(sent)
      ensures dmaTxEnabled == old(dmaTxEnabled)
    {
      enables := EnablesAfter(enables, interrupts);
    }

    /** getInterruptCause on the status register `csr` and the DMA's answers. */
    method InterruptCause(csr: StatusBits, dmaTxEmpty: bool, dmaRxFull: bool) returns (c: MotateUart.Cause)
      ensures c == Cause(enables.imr, csr, dmaTxEmpty, dmaRxFull, true)
    {
      c := Cause(enables.imr, csr, dmaTxEmpty, dmaRxFull, true);
    }

    /** writeByte: the character goes to THR when TXRDY is set, and the answer is -1 either way. */
    method WriteByte(txReady: bool, value: char) returns (r: int)
      modifies this
      ensures r == -1
      ensures sent == old(sent) + (if txReady then [value] else [])
      ensures enabled == old(enabled) && mode == old(mode) && enables == old(enables)
      ensures txPaused == old(txPaused) && dmaTxEnabled == old(dmaTxEnabled)
    {
      if txReady {
        sent := sent + [value];
      }
      r := -1;
    }

    /**
     * flush, with the intended wait (the one written never waits, see
     * FlushAsWrittenNeverWaits): the status is read until the transmitter
     * is empty, then the pause is lifted.
     */
    method Flush(statuses: seq<bv32>) returns (readings: nat)
      modifies this
      ensures readings == ReadingsUntilEmpty(statuses) && !txPaused
      ensures enabled == old(enabled) && mode == old(mode) && enables == old(enables)
      ensures sent == old(sent) && dmaTxEnabled == old(dmaTxEnabled)
    {
      readings := WaitTxEmpty(statuses);
      txPaused := false;
    }

    /** isConnected: CTS is active low. */
    method IsConnected(ctsHigh: bool) returns (connected: bool)
      ensures connected <==> !ctsHigh
    {
      connected := !ctsHigh;
    }

    method PauseTx()
      modifies this
      ensures txPaused && !dmaTxEnabled
      ensures enabled == old(enabled) && mode == old(mode) && enables == old(enables) && sent == old(sent)
    {
      txPaused := true;
      dmaTxEnabled := false;
    }

    method ResumeTx()
      modifies this
      ensures !txPaused && dmaTxEnabled
      ensures enabled == old(enabled) && mode == old(mode) && enables == old(enables) && sent == old(sent)
    {
      txPaused := false;
      dmaTxEnabled := true;
    }

    /** getTXTransferPosition: null while paused, otherwise the DMA's position. */
    method TxTransferPosition(dmaPosition: nat) returns (position: nat)
      ensures position == if txPaused then 0 else dmaPosition
    {
      position := if txPaused then 0 else dmaPosition;
    }
  }

  // ---------------------------------------------------------------- the UART

  class UartHardware {
    var enabled: bool
    var divisor: nat
    var par: nat
    var enables: Enables
    var txPaused: bool
    var dmaTxEnabled: bool
    /** Characters written to THR, oldest first. */
    var sent: seq<char>
    /** Transmit transfers handed to the DMA, as (buffer, length). */
    var txRequests: seq<(nat, nat)>

    /** The peripheral after init, as the USART's. */
    constructor ()
      ensures !enabled && !txPaused && sent == [] && txRequests == []
      ensures enables == Enables(StatusBits(false, false, false), false, false, true)
    {
      enabled, txPaused, dmaTxEnabled := false, false, false;
      divisor, par := 0, ParityNone;
      var masked := Enables(StatusBits(false, false, false), false, false, false);
      enables := EnablesAfter(masked, MotateCommon.PriorityMask(MotateCommon.Low));
      sent, txRequests := [], [];
    }

    /**
     * setInterrupts: as the USART's, except that the transfer-done
     * interrupts are handed to the PDC's setInterrupts, which stops both.
     */
    method SetInterrupts(interrupts: MotateCommon.InterruptType)
      modifies this
      ensures interrupts != MotateCommon.Off ==>
        enables == EnablesAfter(old(enables), interrupts).(dmaTxDone := false, dmaRxDone := false)
      ensures interrupts == MotateCommon.Off ==> enables == old(enables).(nvic := false)
      ensures enabled == old(enabled) && par == old(par) && txPaused == old(txPaused) && sent == old(sent)
      ensures dmaTxEnabled == old(dmaTxEnabled) && txRequests == old(txRequests)
    {
      enables := EnablesAfter(enables, interrupts);
      if interrupts != MotateCommon.Off {
        enables := enables.(dmaTxDone := false, dmaRxDone := false);
      }
    }

    /**
     * setOptions: the rounded-down divisor and the parity; flow control,
     * stop bits and 9-bit mode are not available on the UART.
     */
    method SetOptions(clock: Uint32, baud: Uint32, options: bv16)
      requires SamSpi.Mul32(16, baud) != 0
      modifies this
      ensures divisor == UartDivisor(clock, baud) && enabled
      ensures par == SetMode(ModeRegister(ModeNormal, false, Stop1Bit, false, Chars8Bit, ParityNone), options).par
      ensures enables == old(enables) && txPaused == old(txPaused) && sent == old(sent)
      ensures dmaTxEnabled == old(dmaTxEnabled) && txRequests == old(txRequests)
    {
      enabled := false;
      divisor := UartDivisor(clock, baud);
      par := if Has(options, EvenParity) then ParityEven
             else if Has(options, OddParity) then ParityOdd
             else ParityNone;
      enabled := true;
    }

    /** writeByte: the wait for TXRDY is not modelled; the character goes to THR and the answer is 1. */
    method WriteByte(value: char) returns (r: int)
      modifies this
      ensures r == 1 && sent == old(sent) + [value]
      ensures enabled == old(enabled) && enables == old(enables) && txPaused == old(txPaused)
      ensures dmaTxEnabled == old(dmaTxEnabled) && txRequests == old(txRequests)
    {
      sent := sent + [value];
      r := 1;
    }

    /** flush: the status is read until the transmitter is empty; nothing else changes. */
    method Flush(statuses: seq<bv32>) returns (readings: nat)
      ensures readings == ReadingsUntilEmpty(statuses)
    {
      readings := WaitTxEmpty(statuses);
    }

    /** isConnected: the UART has no CTS line and always answers true. */
    method IsConnected() returns (connected: bool)
      ensures connected
    {
      connected := true;
    }

    /** getInterruptCause: as the USART's, without a CTS line. */
    method InterruptCause(csr: StatusBits, dmaTxEmpty: bool, dmaRxFull: bool) returns (c: MotateUart.Cause)
      ensures c == Cause(enables.imr, csr, dmaTxEmpty, dmaRxFull, false) && !c.ctsChanged
    {
      c := Cause(enables.imr, csr, dmaTxEmpty, dmaRxFull, false);
    }

    method PauseTx()
      modifies this
      ensures txPaused && !dmaTxEnabled
      ensures enabled == old(enabled) && enables == old(enables) && sent == old(sent) && txRequests == old(txRequests)
    {
      txPaused := true;
      dmaTxEnabled := false;
    }

    method ResumeTx()
      modifies this
      ensures !txPaused && dmaTxEnabled
      ensures enabled == old(enabled) && enables == old(enables) && sent == old(sent) && txRequests == old(txRequests)
    {
      txPaused := false;
      dmaTxEnabled := true;
    }

    /**
     * startTXTransfer: refused while paused, without asking the DMA;
     * otherwise the DMA is asked and its answer returned.
     */
    method StartTxTransfer(buffer: nat, length: nat, dmaAccepts: bool) returns (ok: bool)
      modifies this
      ensures ok <==> !old(txPaused) && dmaAccepts
      ensures txRequests == old(txRequests) + (if old(txPaused) then [] else [(buffer, length)])
      ensures enabled == old(enabled) && enables == old(enables) && sent == old(sent)
      ensures txPaused == old(txPaused) && dmaTxEnabled == old(dmaTxEnabled)
    {
      if txPaused {
        ok := false;
      } else {
        txRequests := txRequests + [(buffer, length)];
        ok := dmaAccepts;
      }
    }
  }
}
