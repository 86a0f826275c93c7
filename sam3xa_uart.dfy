// The SAM3X USART driver and its UART front end: setOptions, the interrupt
// enables and the unmasked interrupt cause, the PDC's two-slot receive and
// transmit starts, flushRead, isConnected, and the blocking read and write
// loops. Status-register readings (TXRDY, the bytes received) are
// parameters, one element per reading; the registers written are fields.

module Sam3xaUart {

  import opened Wrappers
  import SamDma
  import SamSpi
  import SamUart

  type Uint32 = SamDma.Uint32

  // ---------------------------------------------------------------- interrupt values

  /** UARTInterrupt of this driver; OnTxDone is OnTxReady and OnRxDone is OnRxReady. */
  const Off: bv16 := 0
  const OnTxReady: bv16 := 0x002
  const OnRxReady: bv16 := 0x004
  const OnTxTransferDone: bv16 := 0x008
  const OnRxTransferDone: bv16 := 0x010
  const PriorityHighest: bv16 := 0x020
  const PriorityHigh: bv16 := 0x040
  const PriorityMedium: bv16 := 0x080
  const PriorityLow: bv16 := 0x100
  const PriorityLowest: bv16 := 0x200
  const OnCtsChanged: bv16 := 0x400

  /**
   * The NVIC priority setInterrupts chooses: the highest priority flag
   * present wins, and without one the priority is left as it was.
   */
  function NvicPriority(interrupts: bv16): (r: Option<nat>)
    ensures r == Some(0) <==> interrupts & PriorityHighest != 0
    ensures r == Some(3) <==> interrupts & PriorityHighest == 0 && interrupts & PriorityHigh != 0
    ensures r == Some(15) <==> interrupts & (PriorityHighest | PriorityHigh | PriorityMedium | PriorityLow) == 0
                               && interrupts & PriorityLowest != 0
    ensures r.None? <==> interrupts & (PriorityHighest | PriorityHigh | PriorityMedium | PriorityLow | PriorityLowest) == 0
  {
    if interrupts & PriorityHighest != 0 then Some(0)
    else if interrupts & PriorityHigh != 0 then Some(3)
    else if interrupts & PriorityMedium != 0 then Some(7)
    else if interrupts & PriorityLow != 0 then Some(11)
    else if interrupts & PriorityLowest != 0 then Some(15)
    else None
  }

  /** The interrupt mask bits the driver sets and clears. */
  datatype Mask = Mask(txRdy: bool, rxRdy: bool, endTx: bool, endRx: bool, ctsic: bool)

  /** US_CSR's bits that the driver reads. */
  datatype Status = Status(txRdy: bool, endTx: bool, rxRdy: bool, endRx: bool, ctsic: bool, cts: bool)

  /**
   * getInterruptCause: every status bit that is set gives its flag, whether
   * or not its interrupt is enabled.
   */
  function InterruptCause(csr: Status): (r: bv16)
    ensures (r & OnTxReady != 0) == csr.txRdy
    ensures (r & OnTxTransferDone != 0) == csr.endTx
    ensures (r & OnRxReady != 0) == csr.rxRdy
    ensures (r & OnRxTransferDone != 0) == csr.endRx
    ensures (r & OnCtsChanged != 0) == csr.ctsic
    ensures r & !(OnTxReady | OnRxReady | OnTxTransferDone | OnRxTransferDone | OnCtsChanged) == 0
  {
    (if csr.txRdy then OnTxReady else Off)
    | (if csr.endTx then OnTxTransferDone else Off)
    | (if csr.rxRdy then OnRxReady else Off)
    | (if csr.endRx then OnRxTransferDone else Off)
    | (if csr.ctsic then OnCtsChanged else Off)
  }

  /** The cause carries no priority bit, so it never reads as a priority request. */
  lemma CauseHasNoPriority(csr: Status)
    ensures NvicPriority(InterruptCause(csr)).None?
  {
  }

  // ---------------------------------------------------------------- two-slot transfers

  /**
   * startRXTransfer and startTXTransfer: a channel whose counter is 0 takes
   * the buffer in its current slot and is enabled; otherwise a free next
   * slot takes it; otherwise the start is refused. No length is refused.
   */
  function StartTwoSlot(c: SamDma.Channel, buffer: Uint32, length: Uint32): SamDma.Outcome
  {
    if c.count == 0 then SamDma.Outcome(c.(ptr := buffer, count := length, enabled := true), true)
    else if c.nextCount == 0 then SamDma.Outcome(c.(nextPtr := buffer, nextCount := length), true)
    else SamDma.Outcome(c, false)
  }

  /**
   * A start succeeds iff one of the two counters is 0; the current slot is
   * preferred, the other slot is kept, and a refused start changes nothing.
   */
  lemma StartTwoSlotMeaning(c: SamDma.Channel, buffer: Uint32, length: Uint32)
    ensures var o := StartTwoSlot(c, buffer, length);
      && (o.ok <==> c.count == 0 || c.nextCount == 0)
      && (o.ok ==> SamDma.Queued(o.channel, buffer, length))
      && (c.count == 0 ==> o.channel.nextPtr == c.nextPtr && o.channel.nextCount == c.nextCount && o.channel.enabled)
      && (c.count != 0 ==> o.channel.ptr == c.ptr && o.channel.count == c.count && o.channel.enabled == c.enabled)
      && (!o.ok ==> o.channel == c)
      && o.channel.doneIrq == c.doneIrq
  {
  }

  /**
   * For a non-empty buffer, the start is the common PDC driver's legacy
   * start with a next slot and interrupts left alone.
   */
  lemma StartTwoSlotIsPdcStart(c: SamDma.Channel, buffer: Uint32, length: Uint32)
    requires length != 0
    ensures StartTwoSlot(c, buffer, length) == SamDma.StartSlot(c, buffer, length, false, true, false)
  {
  }

  /** An empty buffer is accepted and enables an idle channel, where the common PDC driver refuses it. */
  lemma StartTwoSlotAcceptsEmpty(c: SamDma.Channel, buffer: Uint32)
    requires c.count == 0
    ensures StartTwoSlot(c, buffer, 0).ok && StartTwoSlot(c, buffer, 0).channel.enabled
    ensures !SamDma.StartSlot(c, buffer, 0, false, true, false).ok
  {
  }

  // ---------------------------------------------------------------- isConnected

  /** isConnected as written: the level of the CTS input. */
  function ConnectedAsWritten(ctsHigh: bool): bool
  {
    ctsHigh
  }

  /** CTS is active low: with CTS high (the peer not ready) the driver as written reports a connection. */
  lemma ConnectedAsWrittenInverted()
    ensures ConnectedAsWritten(true) && !Connected(true)
    ensures !ConnectedAsWritten(false) && Connected(false)
  {
  }

  /** The intended test, as in the common SAM driver: connected iff CTS is low. */
  predicate Connected(ctsHigh: bool)
  {
    !ctsHigh
  }

  // ---------------------------------------------------------------- blocking read

  /** The 16-bit signed counter `to_read` starts from the unsigned length. */
  function Int16(length: nat): (r: int)
    requires length < 0x1_0000
    ensures -0x8000 <= r < 0x8000
    ensures r % 0x1_0000 == length
  {
    if length < 0x8000 then length else length - 0x1_0000
  }

  /**
   * What read stores: the readings that carry a byte (readByte's answers
   * that are not -1), the first `want` of them.
   */
  function Filled(readings: seq<int>, want: int): (r: seq<int>)
    ensures |r| <= |readings|
    ensures want <= 0 ==> r == []
    ensures want > 0 ==> |r| <= want
    ensures forall k :: 0 <= k < |r| ==> r[k] >= 0
  {
    if want <= 0 || |readings| == 0 then []
    else if readings[0] >= 0 then [readings[0]] + Filled(readings[1..], want - 1)
    else Filled(readings[1..], want)
  }

  /** With a byte at every reading, read stores the first `want` readings as they came. */
  lemma {:induction false} FilledAllReady(readings: seq<int>, want: nat)
    requires want <= |readings|
    requires forall k :: 0 <= k < |readings| ==> readings[k] >= 0
    ensures Filled(readings, want) == readings[..want]
  {
    if want > 0 {
      FilledAllReady(readings[1..], want - 1);
      assert readings[1..][..want - 1] == readings[1..want];
      assert readings[..want] == [readings[0]] + readings[1..want];
    }
  }

  /** Readings without a byte change nothing: only the bytes, in order, are stored. */
  lemma {:induction false} FilledSkipsEmpty(readings: seq<int>, want: int)
    ensures Filled([-1] + readings, want) == Filled(readings, want)
  {
    if want > 0 {
      assert ([-1] + readings)[1..] == readings;
    }
  }

  /**
   * read(buffer, length): readByte is called until `length` bytes are
   * stored, the counter being 16-bit signed; `readings` are readByte's
   * answers in order. It answers the count stored; `waiting` tells that
   * the readings ran out first, where the original keeps waiting.
   */
  method Read(length: nat, readings: seq<int>) returns (stored: seq<int>, total: int, waiting: bool)
    requires length < 0x1_0000
    ensures stored == Filled(readings, Int16(length)) && total == |stored|
    ensures waiting <==> total < Int16(length)
  {
    var toRead := Int16(length);
    stored, total := [], 0;
    var i := 0;
    while toRead > 0 && i < |readings|
      invariant 0 <= i <= |readings|
      invariant total == |stored| && toRead == Int16(length) - total
      invariant stored + Filled(readings[i..], toRead) == Filled(readings, Int16(length))
    {
      var ret := readings[i];
      assert readings[i..][1..] == readings[i + 1..];
      assert Filled(readings[i..], toRead)
          == if ret >= 0 then [ret] + Filled(readings[i + 1..], toRead - 1) else Filled(readings[i + 1..], toRead);
      if ret >= 0 {
        stored := stored + [ret];
        total := total + 1;
        toRead := toRead - 1;
      }
      i := i + 1;
    }
    assert Filled(readings[i..], toRead) == [];
    waiting := total < Int16(length);
  }

  /** A length of 0x8000 or more makes the signed counter negative: nothing is read. */
  lemma LongReadReadsNothing(length: nat, readings: seq<int>)
    requires 0x8000 <= length < 0x1_0000
    ensures Filled(readings, Int16(length)) == []
  {
  }

  // ---------------------------------------------------------------- write loops

  /** The characters a write loop sends: its first byte once per attempt that finds TXRDY set. */
  function Repeated(first: char, ready: seq<bool>): (r: seq<char>)
    ensures |r| <= |ready|
    ensures forall k :: 0 <= k < |r| ==> r[k] == first
  {
    if |ready| == 0 then []
    else Repeated(first, ready[..|ready| - 1]) + (if ready[|ready| - 1] then [first] else [])
  }

  /**
   * The attempts of a write loop: writeByte answers -1 on every attempt,
   * so the loop never advances; it stops after the first attempt unless
   * `again` (auto-flush with a length to go), when it retries for as long
   * as there are readings of TXRDY (`ready`).
   */
  method SendAttempts(first: char, again: bool, ready: seq<bool>) returns (out: seq<char>, attempts: nat)
    requires |ready| > 0
    ensures attempts == if again then |ready| else 1
    ensures out == Repeated(first, ready[..attempts])
  {
    out, attempts := [], 0;
    while attempts < |ready| && (attempts == 0 || again)
      invariant attempts <= |ready|
      invariant !again ==> attempts <= 1
      invariant out == Repeated(first, ready[..attempts])
    {
      assert ready[..attempts + 1][..attempts] == ready[..attempts];
      if ready[attempts] {
        out := out + [first];
      }
      attempts := attempts + 1;
    }
  }

  class UsartHardware {
    var enabled: bool
    var mode: SamUart.ModeRegister
    var divisor: nat
    var mask: Mask
    var nvicEnabled: bool
    var priority: Option<nat>
    var rx: SamDma.Channel
    var tx: SamDma.Channel
    /** Characters written to US_THR, oldest first. */
    var sent: seq<char>

    /** After init: transmitter and receiver reset and disabled, nothing sent. */
    constructor ()
      ensures !enabled && sent == [] && !nvicEnabled
      ensures rx == SamDma.Idle(false) && tx == SamDma.Idle(false)
    {
      enabled, nvicEnabled, priority := false, false, None;
      mode := SamUart.ModeRegister(SamUart.ModeNormal, false, SamUart.Stop1Bit, false, SamUart.Chars8Bit, SamUart.ParityNone);
      divisor := 0;
      mask := Mask(false, false, false, false, false);
      rx, tx := SamDma.Idle(false), SamDma.Idle(false);
      sent := [];
    }

    /**
     * setOptions: CD rounded from the core clock, the mode register as the
     * common SAM driver writes it, and the peripheral enabled again.
     */
    method SetOptions(clock: Uint32, baud: Uint32, options: bv16)
      requires SamSpi.Mul32(16, baud) != 0
      modifies this
      ensures divisor == SamUart.UsartDivisor(clock, baud) && mode == SamUart.SetMode(old(mode), options) && enabled
      ensures mask == old(mask) && nvicEnabled == old(nvicEnabled) && priority == old(priority)
      ensures rx == old(rx) && tx == old(tx) && sent == old(sent)
    {
      enabled := false;
      divisor := SamUart.UsartDivisor(clock, baud);
      mode := SamUart.SetMode(mode, options);
      enabled := true;
    }

    /**
     * setInterrupts: anything but Off sets each of the four enables iff
     * its flag is given, picks the priority and enables the peripheral's
     * interrupt; Off only disables the latter. The CTS enable is kept.
     */
    method SetInterrupts(interrupts: bv16)
      modifies this
      ensures interrupts != Off ==>
        && mask == Mask(interrupts & OnTxReady != 0, interrupts & OnRxReady != 0,
                        interrupts & OnTxTransferDone != 0, interrupts & OnRxTransferDone != 0, old(mask).ctsic)
        && nvicEnabled
        && priority == (if NvicPriority(interrupts).Some? then NvicPriority(interrupts) else old(priority))
      ensures interrupts == Off ==> mask == old(mask) && !nvicEnabled && priority == old(priority)
      ensures enabled == old(enabled) && mode == old(mode) && divisor == old(divisor)
      ensures rx == old(rx) && tx == old(tx) && sent == old(sent)
    {
      if interrupts != Off {
        mask := Mask(interrupts & OnTxReady != 0, interrupts & OnRxReady != 0,
                     interrupts & OnTxTransferDone != 0, interrupts & OnRxTransferDone != 0, mask.ctsic);
        var p := NvicPriority(interrupts);
        if p.Some? {
          priority := p;
        }
        nvicEnabled := true;
      } else {
        nvicEnabled := false;
      }
    }

    /** writeByte: the character goes to US_THR when TXRDY is set, and the answer is -1 either way. */
    method WriteByte(txReady: bool, value: char) returns (r: int)
      modifies this
      ensures r == -1 && sent == old(sent) + (if txReady then [value] else [])
      ensures enabled == old(enabled) && mode == old(mode) && divisor == old(divisor) && mask == old(mask)
      ensures nvicEnabled == old(nvicEnabled) && priority == old(priority) && rx == old(rx) && tx == old(tx)
    {
      if txReady {
        sent := sent + [value];
      }
      r := -1;
    }

    /** flushRead: both receive counters cleared, so nothing is left to read. */
    method FlushRead()
      modifies this
      ensures rx == SamDma.Flushed(old(rx))
      ensures enabled == old(enabled) && mode == old(mode) && divisor == old(divisor) && mask == old(mask)
      ensures nvicEnabled == old(nvicEnabled) && priority == old(priority) && tx == old(tx) && sent == old(sent)
    {
      rx := rx.(nextCount := 0);
      rx := rx.(count := 0);
    }

    /** isConnected, with the intended polarity (see ConnectedAsWrittenInverted). */
    method IsConnected(ctsHigh: bool) returns (connected: bool)
      ensures connected == Connected(ctsHigh)
    {
      connected := !ctsHigh;
    }

    method StartRxTransfer(buffer: Uint32, length: Uint32) returns (ok: bool)
      modifies this
      ensures SamDma.Outcome(rx, ok) == StartTwoSlot(old(rx), buffer, length)
      ensures enabled == old(enabled) && mode == old(mode) && divisor == old(divisor) && mask == old(mask)
      ensures nvicEnabled == old(nvicEnabled) && priority == old(priority) && tx == old(tx) && sent == old(sent)
    {
      if rx.count == 0 {
        rx := rx.(ptr := buffer, count := length, enabled := true);
        ok := true;
      } else if rx.nextCount == 0 {
        rx := rx.(nextPtr := buffer, nextCount := length);
        ok := true;
      } else {
        ok := false;
      }
    }

    method StartTxTransfer(buffer: Uint32, length: Uint32) returns (ok: bool)
      modifies this
      ensures SamDma.Outcome(tx, ok) == StartTwoSlot(old(tx), buffer, length)
      ensures enabled == old(enabled) && mode == old(mode) && divisor == old(divisor) && mask == old(mask)
      ensures nvicEnabled == old(nvicEnabled) && priority == old(priority) && rx == old(rx) && sent == old(sent)
    {
      if tx.count == 0 {
        tx := tx.(ptr := buffer, count := length, enabled := true);
        ok := true;
      } else if tx.nextCount == 0 {
        tx := tx.(nextPtr := buffer, nextCount := length);
        ok := true;
      } else {
        ok := false;
      }
    }

    /**
     * write(data, length, autoFlush): nothing for an empty string; otherwise
     * the first character is offered on every attempt and never counted,
     * so 0 is answered. With auto-flush and a length the loop never ends
     * (`hung`); the readings of TXRDY bound it here.
     */
    method Write(data: seq<char>, length: nat, autoFlush: bool, ready: seq<bool>) returns (written: int, hung: bool)
      requires |data| > 0 && |ready| > 0
      modifies this
      ensures written == 0
      ensures hung <==> autoFlush && length != 0
      ensures length == 0 && data[0] == '\0' ==> sent == old(sent)
      ensures !(length == 0 && data[0] == '\0') ==>
        sent == old(sent) + Repeated(data[0], if hung then ready else ready[..1])
      ensures enabled == old(enabled) && mode == old(mode) && divisor == old(divisor) && mask == old(mask)
      ensures nvicEnabled == old(nvicEnabled) && priority == old(priority) && rx == old(rx) && tx == old(tx)
    {
      written := 0;
      hung := autoFlush && length != 0;
      if !(length == 0 && data[0] == '\0') {
        var out, attempts := SendAttempts(data[0], hung, ready);
        assert attempts == |ready| ==> ready[..attempts] == ready;
        sent := sent + out;
      }
    }

    /**
     * write(Buffer, length, autoFlush): the oldest byte is offered on every
     * attempt and never popped or counted, so the buffer keeps its bytes
     * and 0 is answered; an empty buffer sends nothing.
     */
    method WriteBuffer(buffer: seq<char>, length: nat, autoFlush: bool, ready: seq<bool>) returns (written: int, hung: bool)
      requires |ready| > 0
      modifies this
      ensures written == 0
      ensures hung <==> |buffer| > 0 && autoFlush && length != 0
      ensures |buffer| == 0 ==> sent == old(sent)
      ensures |buffer| > 0 ==> sent == old(sent) + Repeated(buffer[0], if hung then ready else ready[..1])
      ensures enabled == old(enabled) && mode == old(mode) && divisor == old(divisor) && mask == old(mask)
      ensures nvicEnabled == old(nvicEnabled) && priority == old(priority) && rx == old(rx) && tx == old(tx)
    {
      written := 0;
      hung := |buffer| > 0 && autoFlush && length != 0;
      if |buffer| > 0 {
        var out, attempts := SendAttempts(buffer[0], hung, ready);
        assert attempts == |ready| ==> ready[..attempts] == ready;
        sent := sent + out;
      }
    }
  }
}
