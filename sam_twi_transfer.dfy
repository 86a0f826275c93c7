// The transfer state machine of the SAM TWIHS driver: startTransfer arms a
// read or a write, and prehandleInterrupt moves it along on each interrupt.
// A read of three or more bytes hands all but the last two to the DMA and
// reads those two by hand; a write sends its first byte by hand, hands all
// but the last to the DMA and sends the last one by hand with a STOP.
//
// The peripheral is an input: the status bits the driver polls, the byte in
// the receive holding register and whether the DMA accepts a request. What
// the driver does to it is recorded: interrupt enables, START/STOP commands,
// the buffer positions it hands to the transmitter (one at a time through
// THR, or as a DMA range) and the positions it fills on receive (one at a
// time from RHR, or as a DMA range).

module SamTwiTransfer {

  import opened Wrappers
  import opened SamTwi

  datatype TwiState =
    | Idle
    | TXReadyToSendFirstByte
    | TXSendingFirstByte
    | TXDMAStarted
    | TXWaitingForTXReady1
    | TXWaitingForTXReady2
    | TXError
    | RXReadyToReadFirstByte
    | RXReadingFirstByte
    | RXDMAStarted
    | RXWaitingForRXReady
    | RXWaitingForLastChar
    | RXError

  predicate IsTx(s: TwiState)
  {
    s.TXReadyToSendFirstByte? || s.TXSendingFirstByte? || s.TXDMAStarted?
    || s.TXWaitingForTXReady1? || s.TXWaitingForTXReady2? || s.TXError?
  }

  /** What the driver writes to TWIHS_CR. */
  datatype Command = StartCondition | StopCondition | StartAndStop

  /** The enabled interrupts: TWIHS_IMR's RXRDY, TXRDY, TXCOMP and NACK, and the DMA's done interrupts. */
  datatype Irqs = Irqs(rxReady: bool, txReady: bool, txDone: bool, nack: bool, dmaRxDone: bool, dmaTxDone: bool)

  const NoIrqs := Irqs(false, false, false, false, false, false)

  /** The hardware as one call sees it: isRxReady(), isTxReady(), TWIHS_RHR and the DMA's answer. */
  datatype Hardware = Hardware(rxReadyNow: bool, txReadyNow: bool, rhr: Byte, dmaAccepts: bool)

  /**
   * The driver's state and what it has done to the peripheral. `threshold`
   * is the size above which a write sends its first byte on its own: 2 as
   * written, 1 where the write path is corrected. `pos` is how far
   * local_buffer_ptr_ has moved into the buffer, `size` is local_buffer_size_,
   * `base` the buffer's address.
   */
  datatype Transfer = Transfer(
    threshold: nat,
    state: TwiState,
    base: nat,
    length: nat,
    pos: nat,
    size: nat,
    buffer: seq<Byte>,
    filled: seq<nat>,
    readMode: bool,
    irqs: Irqs,
    commands: seq<Command>,
    handed: seq<nat>)

  /** The driver as constructed: Idle, with no buffer. */
  function Fresh(threshold: nat): Transfer
  {
    Transfer(threshold, Idle, 0, 0, 0, 0, [], [], false, NoIrqs, [], [])
  }

  /** The positions lo, lo + 1, ..., hi - 1. */
  function Range(lo: nat, hi: nat): (r: seq<nat>)
    requires lo <= hi
    ensures |r| == hi - lo
    decreases hi - lo
  {
    if lo == hi then [] else Range(lo, hi - 1) + [hi - 1]
  }

  lemma {:induction false} RangeSplit(lo: nat, mid: nat, hi: nat)
    requires lo <= mid <= hi
    ensures Range(lo, mid) + Range(mid, hi) == Range(lo, hi)
    decreases hi - mid
  {
    if mid < hi {
      RangeSplit(lo, mid, hi - 1);
      assert Range(lo, mid) + Range(mid, hi) == (Range(lo, mid) + Range(mid, hi - 1)) + [hi - 1];
    }
  }

  lemma RangeStep(lo: nat, hi: nat)
    requires lo <= hi
    ensures Range(lo, hi) + [hi] == Range(lo, hi + 1)
  {
  }

  /** The position of the byte a write sends by hand with the STOP. */
  function LastPos(threshold: nat, length: nat): nat
    requires length > 0
  {
    if threshold == 2 && length == 2 then 0 else length - 1
  }

  /** The positions a finished write has handed to the transmitter. */
  function Sent(threshold: nat, length: nat): seq<nat>
    requires length > 0
  {
    Range(0, LastPos(threshold, length) + 1)
  }

  /** What each state knows about the position, the remaining size and the work done so far. */
  ghost predicate WellFormed(m: Transfer)
  {
    && (m.threshold == 1 || m.threshold == 2)
    && |m.buffer| == m.length < 0x10000
    && match m.state
       case Idle => true
       case TXReadyToSendFirstByte =>
         0 < m.length && m.pos == 0 && m.size == m.length && m.handed == []
       case TXSendingFirstByte =>
         m.threshold < m.length && m.pos == 1 && m.size == m.length - 1 && m.handed == [0]
       case TXDMAStarted =>
         m.threshold < m.length && 3 <= m.length && m.pos == m.length - 1 && m.size == 1
         && m.handed == Range(0, m.pos)
       case TXWaitingForTXReady1 =>
         0 < m.length && m.pos == LastPos(m.threshold, m.length) && m.handed == Range(0, m.pos)
       case TXWaitingForTXReady2 =>
         0 < m.length && m.handed == Sent(m.threshold, m.length)
       case RXReadingFirstByte =>
         2 < m.length && 2 <= m.size && m.pos + m.size == m.length && m.filled == Range(0, m.pos)
       case RXDMAStarted =>
         2 < m.length && m.pos == m.length - 2 && m.filled == Range(0, m.pos)
       case RXWaitingForRXReady =>
         2 <= m.length && m.pos == m.length - 2 && m.filled == Range(0, m.pos)
       case RXWaitingForLastChar =>
         1 <= m.length && m.pos == m.length - 1 && m.filled == Range(0, m.pos)
       case _ => false
  }

  // ---------------------------------------------------------------- startTransfer

  /**
   * startTransfer: refused for a missing buffer, a busy driver or size 0.
   * A read sets MREAD, sends START (START and STOP for one byte) and waits
   * for RXRDY; a write waits for TXRDY. Both enable the NACK interrupt and
   * stop the DMA's interrupts.
   */
  function Start(m: Transfer, hasBuffer: bool, base: nat, data: seq<Byte>, isRx: bool): (r: (bool, Transfer))
    requires WellFormed(m) && |data| < 0x10000
    ensures r.0 <==> hasBuffer && m.state == Idle && |data| > 0
    ensures !r.0 ==> r.1 == m
    ensures WellFormed(r.1)
    ensures r.0 ==> r.1.buffer == data && r.1.base == base && r.1.pos == 0 && r.1.threshold == m.threshold
    ensures r.0 ==> r.1.commands == m.commands + (if !isRx then [] else if |data| == 1 then [StartAndStop] else [StartCondition])
    ensures r.0 && isRx ==>
      && r.1.readMode && r.1.irqs.rxReady && r.1.irqs.nack
      && r.1.state == (if |data| == 1 then RXWaitingForLastChar
                       else if |data| > 2 then RXReadingFirstByte else RXWaitingForRXReady)
    ensures r.0 && !isRx ==> r.1.state == TXReadyToSendFirstByte && r.1.irqs.txReady && r.1.irqs.nack
  {
    if !hasBuffer || m.state != Idle || |data| == 0 then (false, m)
    else if isRx then (true, Reading(Armed(m, base, data)))
    else (true, Writing(Armed(m, base, data)))
  }

  /** The buffer taken on: position 0, nothing filled or handed over yet, the DMA's interrupts stopped. */
  function Armed(m: Transfer, base: nat, data: seq<Byte>): Transfer
  {
    m.(base := base, length := |data|, pos := 0, size := |data|, buffer := data, filled := [], handed := [],
       irqs := m.irqs.(dmaRxDone := false, dmaTxDone := false))
  }

  /** A read: MREAD, START (with STOP for a single byte), and the state by size. */
  function Reading(m: Transfer): Transfer
  {
    var command := if m.size == 1 then StartAndStop else StartCondition;
    var state := if m.size == 1 then RXWaitingForLastChar
                 else if m.size > 2 then RXReadingFirstByte else RXWaitingForRXReady;
    m.(state := state, readMode := true, commands := m.commands + [command],
       irqs := m.irqs.(rxReady := true, nack := true))
  }

  /** A write waits for TXRDY. */
  function Writing(m: Transfer): Transfer
  {
    m.(state := TXReadyToSendFirstByte, irqs := m.irqs.(txReady := true, nack := true))
  }

  // ---------------------------------------------------------------- prehandleInterrupt

  /** The interrupt cause as prehandleInterrupt leaves it so far, and whether it has returned. */
  datatype Progress = Progress(m: Transfer, cause: Cause, done: bool)

  predicate Failed(cause: Cause)
  {
    cause.nack || cause.rxError || cause.txError
  }

  /**
   * How a transfer can end: with an error or NACK reported, or with its
   * transfer-done flag and all its positions handed over (a write) or
   * filled (a read).
   */
  predicate Concluded(p: Progress, tx: bool)
  {
    || Failed(p.cause)
    || (tx && p.cause.txTransferDone && 0 < p.m.length && p.m.handed == Sent(p.m.threshold, p.m.length))
    || (!tx && p.cause.rxTransferDone && p.m.filled == Range(0, p.m.length))
  }

  /**
   * What every step of prehandleInterrupt keeps: the invariant, the
   * driver's configuration and the buffer's length, the direction of the
   * transfer; once it has returned, or is Idle, nothing changes; and a
   * transfer that becomes Idle has concluded.
   */
  ghost predicate Advances(p: Progress, r: Progress)
  {
    && WellFormed(r.m)
    && r.m.threshold == p.m.threshold && r.m.length == p.m.length
    && (p.done || p.m.state == Idle ==> r == p)
    && (r.m.state != Idle ==> IsTx(r.m.state) == IsTx(p.m.state))
    && (p.m.state != Idle && r.m.state == Idle ==> Concluded(r, IsTx(p.m.state)))
  }

  /** RXReadingFirstByte on RXRDY: a misaligned byte is read by hand, then the DMA takes all but the last two. */
  function RxFirstByte(p: Progress, hw: Hardware): Progress
    requires WellFormed(p.m)
  {
    var m := p.m;
    if p.done || m.state != RXReadingFirstByte || !p.cause.rxReady then p
    else if m.size > 2 then
      var c := p.cause.(rxReady := false);
      var quiet := m.irqs.(rxReady := false);
      if (m.base + m.pos) % 4 != 0 then
        Progress(m.(irqs := quiet, buffer := m.buffer[m.pos := hw.rhr], filled := m.filled + [m.pos],
                    pos := m.pos + 1, size := m.size - 1), c, true)
      else if !hw.dmaAccepts then
        Progress(m.(irqs := quiet, state := Idle), c.(rxError := true), true)
      else
        Progress(m.(irqs := quiet.(dmaRxDone := true), state := RXDMAStarted,
                    filled := m.filled + Range(m.pos, m.pos + m.size - 2), pos := m.pos + m.size - 2), c, false)
    else
      Progress(m.(state := if m.size == 2 then RXWaitingForRXReady else RXWaitingForLastChar,
                  commands := if m.size == 1 then m.commands + [StopCondition] else m.commands), p.cause, false)
  }

  /** RXDMAStarted on the DMA's transfer-done: wait for the next-to-last byte. */
  function RxDmaDone(p: Progress, hw: Hardware): Progress
  {
    var m := p.m;
    if p.done || m.state != RXDMAStarted || !p.cause.rxTransferDone then p
    else
      var m' := m.(state := RXWaitingForRXReady, irqs := m.irqs.(dmaRxDone := false));
      if !hw.rxReadyNow then Progress(m'.(irqs := m'.irqs.(rxReady := true)), p.cause.(rxTransferDone := false), true)
      else Progress(m', p.cause.(rxTransferDone := false), false)
  }

  /** RXWaitingForRXReady with a byte in: send STOP, then read the next-to-last byte. */
  function RxNextToLast(p: Progress, hw: Hardware): Progress
    requires WellFormed(p.m)
  {
    var m := p.m;
    if p.done || m.state != RXWaitingForRXReady || !(hw.rxReadyNow || p.cause.rxReady) then p
    else
      Progress(m.(state := RXWaitingForLastChar, commands := m.commands + [StopCondition],
                  irqs := m.irqs.(rxReady := true), buffer := m.buffer[m.pos := hw.rhr],
                  filled := m.filled + [m.pos], pos := m.pos + 1),
               p.cause.(rxReady := false), true)
  }

  /** RXWaitingForLastChar on RXRDY: read the last byte and report the read done. */
  function RxLastChar(p: Progress, hw: Hardware): Progress
    requires WellFormed(p.m)
  {
    var m := p.m;
    if p.done || m.state != RXWaitingForLastChar || !p.cause.rxReady then p
    else
      Progress(m.(state := Idle, irqs := m.irqs.(rxReady := false, nack := false),
                  buffer := m.buffer[m.pos := hw.rhr], filled := m.filled + [m.pos]),
               p.cause.(rxReady := false, rxTransferDone := true), true)
  }

  /** TXReadyToSendFirstByte on TXRDY: clear MREAD; above the threshold, send the first byte by hand. */
  function TxFirstByte(p: Progress): Progress
  {
    var m := p.m;
    if p.done || m.state != TXReadyToSendFirstByte || !p.cause.txReady then p
    else if m.size > m.threshold then
      Progress(m.(readMode := false, state := TXSendingFirstByte, handed := m.handed + [m.pos],
                  pos := m.pos + 1, size := m.size - 1), p.cause.(txReady := false), true)
    else
      Progress(m.(readMode := false, state := TXWaitingForTXReady1), p.cause, false)
  }

  /** TXSendingFirstByte on TXRDY: the DMA takes all but the last byte, or only the last is left. */
  function TxSendingFirstByte(p: Progress, hw: Hardware): Progress
  {
    var m := p.m;
    if p.done || m.state != TXSendingFirstByte || !p.cause.txReady then p
    else if m.size > 1 then
      var armed := m.irqs.(nack := true);
      if !hw.dmaAccepts then
        Progress(m.(irqs := armed, state := Idle), p.cause.(txError := true), true)
      else
        Progress(m.(irqs := armed.(dmaTxDone := true), handed := m.handed + Range(m.pos, m.pos + m.size - 1),
                    pos := m.pos + m.size - 1, size := 1, state := TXDMAStarted), p.cause, false)
    else
      Progress(m.(state := TXWaitingForTXReady1, irqs := m.irqs.(txReady := true)), p.cause, false)
  }

  /** TXDMAStarted on TXCOMP or the DMA's transfer-done: wait for TXRDY to send the last byte. */
  function TxDmaDone(p: Progress, hw: Hardware): Progress
  {
    var m := p.m;
    if p.done || m.state != TXDMAStarted || !(p.cause.txDone || p.cause.txTransferDone) then p
    else
      var m' := m.(state := TXWaitingForTXReady1, irqs := m.irqs.(dmaTxDone := false));
      var c := p.cause.(txDone := false, txTransferDone := false);
      if !hw.txReadyNow then Progress(m'.(irqs := m'.irqs.(txReady := true)), c, true)
      else Progress(m', c, false)
  }

  /** TXWaitingForTXReady1 swallows TXCOMP and the DMA's transfer-done. */
  function TxSwallowDone(p: Progress): Progress
  {
    if p.done || p.m.state != TXWaitingForTXReady1 || !(p.cause.txDone || p.cause.txTransferDone) then p
    else Progress(p.m, p.cause.(txDone := false, txTransferDone := false), false)
  }

  /** TXWaitingForTXReady1 when the transmitter is ready: write the last byte to THR and send STOP. */
  function TxLastByte(p: Progress, hw: Hardware): Progress
  {
    var m := p.m;
    if p.done || m.state != TXWaitingForTXReady1 || !(hw.txReadyNow || p.cause.txReady) then p
    else
      Progress(m.(handed := m.handed + [m.pos], commands := m.commands + [StopCondition],
                  state := TXWaitingForTXReady2, irqs := m.irqs.(txReady := true)),
               p.cause.(txReady := false), true)
  }

  /** TXWaitingForTXReady2 on TXRDY: the STOP went out; report the write done. */
  function TxFinish(p: Progress): Progress
  {
    var m := p.m;
    if p.done || m.state != TXWaitingForTXReady2 || !p.cause.txReady then p
    else
      Progress(m.(state := Idle, irqs := m.irqs.(txReady := false, txDone := false, nack := false)),
               p.cause.(txTransferDone := true), false)
  }

  /** The cases after the error and spurious-interrupt checks, in the order the driver tries them. */
  function Cases(p: Progress, hw: Hardware): Progress
    requires WellFormed(p.m)
  {
    RxFirstByteAdvances(p, hw);
    var p1 := RxFirstByte(p, hw);
    RxDmaDoneAdvances(p1, hw);
    var p2 := RxDmaDone(p1, hw);
    RxNextToLastAdvances(p2, hw);
    var p3 := RxNextToLast(p2, hw);
    RxLastCharAdvances(p3, hw);
    TxCases(RxLastChar(p3, hw), hw)
  }

  function TxCases(p: Progress, hw: Hardware): Progress
  {
    TxFinish(TxLastByte(TxSwallowDone(TxDmaDone(TxSendingFirstByte(TxFirstByte(p), hw), hw)), hw))
  }

  // Each case keeps the invariant and concludes any transfer it ends.

  lemma CasesAdvances(p: Progress, hw: Hardware)
    requires WellFormed(p.m)
    ensures Advances(p, Cases(p, hw))
  {
    RxFirstByteAdvances(p, hw);
    var p1 := RxFirstByte(p, hw);
    RxDmaDoneAdvances(p1, hw);
    var p2 := RxDmaDone(p1, hw);
    AdvancesTrans(p, p1, p2);
    RxNextToLastAdvances(p2, hw);
    var p3 := RxNextToLast(p2, hw);
    AdvancesTrans(p, p2, p3);
    RxLastCharAdvances(p3, hw);
    var p4 := RxLastChar(p3, hw);
    AdvancesTrans(p, p3, p4);
    TxCasesAdvances(p4, hw);
    AdvancesTrans(p, p4, TxCases(p4, hw));
  }

  lemma TxCasesAdvances(p: Progress, hw: Hardware)
    requires WellFormed(p.m)
    ensures Advances(p, TxCases(p, hw))
  {
    TxFirstByteAdvances(p);
    var p5 := TxFirstByte(p);
    TxSendingFirstByteAdvances(p5, hw);
    var p6 := TxSendingFirstByte(p5, hw);
    AdvancesTrans(p, p5, p6);
    TxDmaDoneAdvances(p6, hw);
    var p7 := TxDmaDone(p6, hw);
    AdvancesTrans(p, p6, p7);
    TxSwallowDoneAdvances(p7);
    var p8 := TxSwallowDone(p7);
    AdvancesTrans(p, p7, p8);
    TxLastByteAdvances(p8, hw);
    var p9 := TxLastByte(p8, hw);
    AdvancesTrans(p, p8, p9);
    TxFinishAdvances(p9);
    AdvancesTrans(p, p9, TxFinish(p9));
  }

  lemma RxFirstByteAdvances(p: Progress, hw: Hardware)
    requires WellFormed(p.m)
    ensures Advances(p, RxFirstByte(p, hw))
  {
    var m := p.m;
    if !p.done && m.state == RXReadingFirstByte && p.cause.rxReady && m.size > 2 {
      if (m.base + m.pos) % 4 != 0 {
        RxMisalignedAdvances(p, hw);
      } else if hw.dmaAccepts {
        RxDmaStartAdvances(p, hw);
      }
    }
  }

  lemma RxMisalignedAdvances(p: Progress, hw: Hardware)
    requires WellFormed(p.m) && !p.done && p.m.state == RXReadingFirstByte && p.cause.rxReady && p.m.size > 2
    requires (p.m.base + p.m.pos) % 4 != 0
    ensures Advances(p, RxFirstByte(p, hw))
  {
    RangeStep(0, p.m.pos);
  }

  lemma RxDmaStartAdvances(p: Progress, hw: Hardware)
    requires WellFormed(p.m) && !p.done && p.m.state == RXReadingFirstByte && p.cause.rxReady && p.m.size > 2
    requires (p.m.base + p.m.pos) % 4 == 0 && hw.dmaAccepts
    ensures Advances(p, RxFirstByte(p, hw))
  {
    RangeSplit(0, p.m.pos, p.m.pos + p.m.size - 2);
  }

  lemma RxDmaDoneAdvances(p: Progress, hw: Hardware)
    requires WellFormed(p.m)
    ensures Advances(p, RxDmaDone(p, hw))
  {
  }

  lemma RxNextToLastAdvances(p: Progress, hw: Hardware)
    requires WellFormed(p.m)
    ensures Advances(p, RxNextToLast(p, hw))
  {
    RangeStep(0, p.m.pos);
  }

  lemma RxLastCharAdvances(p: Progress, hw: Hardware)
    requires WellFormed(p.m)
    ensures Advances(p, RxLastChar(p, hw))
  {
    RangeStep(0, p.m.pos);
  }

  lemma TxFirstByteAdvances(p: Progress)
    requires WellFormed(p.m)
    ensures Advances(p, TxFirstByte(p))
  {
  }

  lemma TxSendingFirstByteAdvances(p: Progress, hw: Hardware)
    requires WellFormed(p.m)
    ensures Advances(p, TxSendingFirstByte(p, hw))
  {
    var m := p.m;
    if m.size > 1 {
      RangeSplit(0, m.pos, m.pos + m.size - 1);
    }
  }

  lemma TxDmaDoneAdvances(p: Progress, hw: Hardware)
    requires WellFormed(p.m)
    ensures Advances(p, TxDmaDone(p, hw))
  {
  }

  lemma TxSwallowDoneAdvances(p: Progress)
    requires WellFormed(p.m)
    ensures Advances(p, TxSwallowDone(p))
  {
  }

  lemma TxLastByteAdvances(p: Progress, hw: Hardware)
    requires WellFormed(p.m)
    ensures Advances(p, TxLastByte(p, hw))
  {
    RangeStep(0, p.m.pos);
  }

  lemma TxFinishAdvances(p: Progress)
    requires WellFormed(p.m)
    ensures Advances(p, TxFinish(p))
  {
  }

  lemma AdvancesTrans(p: Progress, q: Progress, r: Progress)
    requires Advances(p, q) && Advances(q, r)
    ensures Advances(p, r)
  {
  }

  /**
   * prehandleInterrupt: a DMA error or a NACK stops everything and leaves
   * the cause for the handler; an interrupt while Idle is swallowed;
   * otherwise the state machine takes its steps. A transfer that ends here
   * ends with an error reported or with all its bytes accounted for.
   */
  function Prehandle(m: Transfer, cause: Cause, hw: Hardware): (r: Progress)
    requires WellFormed(m)
    ensures WellFormed(r.m) && r.m.threshold == m.threshold && r.m.length == m.length
    ensures Failed(cause) ==> r.m.state == Idle && r.m.irqs == NoIrqs && r.cause == cause
    ensures m.state == Idle && !Failed(cause) ==>
      r.m.state == Idle && r.cause == NoCause && !r.m.irqs.rxReady && !r.m.irqs.txReady && !r.m.irqs.txDone
    ensures r.m.state != Idle ==> m.state != Idle && IsTx(r.m.state) == IsTx(m.state)
    ensures m.state != Idle && r.m.state == Idle ==> Concluded(r, IsTx(m.state))
  {
    if Failed(cause) then Progress(m.(state := Idle, irqs := NoIrqs), cause, true)
    else if m.state == Idle then
      Progress(m.(irqs := m.irqs.(rxReady := false, txReady := false, txDone := false,
                                  dmaRxDone := false, dmaTxDone := false)), NoCause, true)
    else
      CasesAdvances(Progress(m, cause, false), hw);
      Cases(Progress(m, cause, false), hw)
  }

  /**
   * handleInterrupts after getInterruptCause: prehandle, then hand the cause
   * to the handler only when something is left and the driver is Idle.
   * Returns the new state and the causes delivered (none or one).
   */
  function Handle(m: Transfer, cause: Cause, hw: Hardware): (r: (Transfer, seq<Cause>))
    requires WellFormed(m)
    ensures WellFormed(r.0) && r.0.threshold == m.threshold && r.0.length == m.length
    ensures Failed(cause) ==> r.1 == [cause]
    ensures m.state == Idle && !Failed(cause) ==> r.1 == []
    ensures m.state != Idle && r.0.state == Idle ==>
      |r.1| == 1 && Reported(r.1[0], IsTx(m.state))
  {
    var p := Prehandle(m, cause, hw);
    var delivered := if p.cause != NoCause && p.m.state == Idle then [p.cause] else [];
    assert m.state != Idle && p.m.state == Idle ==> delivered == [p.cause] && Reported(p.cause, IsTx(m.state)) by {
      if m.state != Idle && p.m.state == Idle {
        ConcludedReported(p, IsTx(m.state));
      }
    }
    (p.m, delivered)
  }

  predicate Reported(cause: Cause, tx: bool)
  {
    Failed(cause) || (if tx then cause.txTransferDone else cause.rxTransferDone)
  }

  lemma ConcludedReported(p: Progress, tx: bool)
    requires Concluded(p, tx)
    ensures p.cause != NoCause && Reported(p.cause, tx)
  {
  }

  const TxReadyOnly := NoCause.(txReady := true)
  const TxDmaDoneOnly := NoCause.(txTransferDone := true)
  const RxReadyOnly := NoCause.(rxReady := true)
  /** What the handler sees when a write ends: TXRDY and the transfer done. */
  const WriteDone := NoCause.(txReady := true, txTransferDone := true)
  /** What the handler sees when a read ends. */
  const ReadDone := NoCause.(rxTransferDone := true)

  /** A sequence of interrupts, each with its cause; returns the final state and all causes delivered. */
  function Run(m: Transfer, events: seq<Cause>, hw: Hardware): (r: (Transfer, seq<Cause>))
    requires WellFormed(m)
    ensures WellFormed(r.0) && r.0.threshold == m.threshold && r.0.length == m.length
    ensures |r.1| <= |events|
    decreases |events|
  {
    if events == [] then (m, [])
    else
      var step := Handle(m, events[0], hw);
      var rest := Run(step.0, events[1..], hw);
      (rest.0, step.1 + rest.1)
  }

  /** The interrupts a write of n bytes takes when the transmitter and the DMA keep up. */
  function WriteEvents(threshold: nat, n: nat): seq<Cause>
  {
    if n <= threshold then [TxReadyOnly, TxReadyOnly]
    else if n == 2 then [TxReadyOnly, TxReadyOnly, TxReadyOnly]
    else [TxReadyOnly, TxReadyOnly, TxDmaDoneOnly, TxReadyOnly]
  }

  // One interrupt in each state of a transfer the hardware keeps up with.

  lemma TxFirstByteStep(m: Transfer, hw: Hardware)
    requires WellFormed(m) && m.state == TXReadyToSendFirstByte
    ensures var h := Handle(m, TxReadyOnly, hw);
      h.1 == [] && h.0.state == (if m.size > m.threshold then TXSendingFirstByte else TXWaitingForTXReady2)
  {
  }

  lemma TxSecondByteStep(m: Transfer, hw: Hardware)
    requires WellFormed(m) && m.state == TXSendingFirstByte && hw.dmaAccepts
    ensures var h := Handle(m, TxReadyOnly, hw);
      h.1 == [] && h.0.state == (if m.size > 1 then TXDMAStarted else TXWaitingForTXReady2)
  {
    if m.size > 1 {
      TxDmaStartStep(m, hw);
    } else {
      TxOnlyLastStep(m, hw);
    }
  }

  lemma TxDmaStartStep(m: Transfer, hw: Hardware)
    requires WellFormed(m) && m.state == TXSendingFirstByte && hw.dmaAccepts && m.size > 1
    ensures var h := Handle(m, TxReadyOnly, hw);
      h.1 == [] && h.0.state == TXDMAStarted
  {
  }

  lemma TxOnlyLastStep(m: Transfer, hw: Hardware)
    requires WellFormed(m) && m.state == TXSendingFirstByte && m.size == 1
    ensures var h := Handle(m, TxReadyOnly, hw);
      h.1 == [] && h.0.state == TXWaitingForTXReady2
  {
  }

  /** The DMA's write-done with TXRDY already set: the last byte goes to THR with the STOP, and TXRDY is awaited. */
  lemma TxDmaDoneStep(m: Transfer, hw: Hardware)
    requires WellFormed(m) && m.state == TXDMAStarted && hw.txReadyNow
    ensures var h := Handle(m, TxDmaDoneOnly, hw);
      && h.1 == [] && h.0.state == TXWaitingForTXReady2
      && h.0.handed == m.handed + [m.pos] && h.0.commands == m.commands + [StopCondition]
      && h.0.irqs.txReady && !h.0.irqs.dmaTxDone
  {
  }

  lemma TxFinishStep(m: Transfer, hw: Hardware)
    requires WellFormed(m) && m.state == TXWaitingForTXReady2
    ensures var h := Handle(m, TxReadyOnly, hw);
      h.1 == [WriteDone] && h.0.state == Idle && h.0.handed == Sent(m.threshold, m.length)
  {
  }

  lemma RxFirstByteStep(m: Transfer, hw: Hardware)
    requires WellFormed(m) && m.state == RXReadingFirstByte && m.size > 2
    requires (m.base + m.pos) % 4 == 0 && hw.dmaAccepts
    ensures var h := Handle(m, RxReadyOnly, hw);
      && h.1 == [] && h.0.state == RXDMAStarted && h.0.pos == m.pos + m.size - 2
      && h.0.buffer == m.buffer && h.0.commands == m.commands
  {
  }

  lemma RxDmaDoneStep(m: Transfer, hw: Hardware)
    requires WellFormed(m) && m.state == RXDMAStarted && hw.rxReadyNow
    ensures var h := Handle(m, ReadDone, hw);
      && h.1 == [] && h.0.state == RXWaitingForLastChar && h.0.pos == m.pos + 1
      && h.0.buffer == m.buffer[m.pos := hw.rhr] && h.0.commands == m.commands + [StopCondition]
  {
  }

  lemma RxLastCharStep(m: Transfer, hw: Hardware)
    requires WellFormed(m) && m.state == RXWaitingForLastChar
    ensures var h := Handle(m, RxReadyOnly, hw);
      && h.1 == [ReadDone] && h.0.state == Idle && h.0.filled == Range(0, m.length)
      && h.0.buffer == m.buffer[m.pos := hw.rhr] && h.0.commands == m.commands
  {
  }

  /** A step that delivers nothing, followed by the rest of the run. */
  lemma RunQuietStep(m: Transfer, next: Transfer, events: seq<Cause>, hw: Hardware)
    requires WellFormed(m) && WellFormed(next) && events != []
    requires Handle(m, events[0], hw).0 == next && Handle(m, events[0], hw).1 == []
    ensures Run(m, events, hw) == Run(next, events[1..], hw)
  {
    var rest := Run(next, events[1..], hw);
    assert [] + rest.1 == rest.1;
  }

  /** The last step of a run. */
  lemma RunLastStep(m: Transfer, event: Cause, hw: Hardware)
    requires WellFormed(m)
    ensures Run(m, [event], hw) == Handle(m, event, hw)
  {
    assert [event][1..] == [];
    assert Handle(m, event, hw).1 + [] == Handle(m, event, hw).1;
  }

  /** A write that has ended: Idle, having handed over Sent, with WriteDone delivered. */
  ghost predicate WriteEnded(r: (Transfer, seq<Cause>))
  {
    r.0.state == Idle && 0 < r.0.length && r.0.handed == Sent(r.0.threshold, r.0.length) && r.1 == [WriteDone]
  }

  lemma WriteEndsOnTxReady(m: Transfer, hw: Hardware)
    requires WellFormed(m) && m.state == TXWaitingForTXReady2
    ensures WriteEnded(Run(m, [TxReadyOnly], hw))
  {
    TxFinishStep(m, hw);
    RunLastStep(m, TxReadyOnly, hw);
  }

  lemma WriteEndsAfterDma(m: Transfer, hw: Hardware)
    requires WellFormed(m) && m.state == TXDMAStarted && hw.txReadyNow
    ensures WriteEnded(Run(m, [TxDmaDoneOnly, TxReadyOnly], hw))
  {
    TxDmaDoneStep(m, hw);
    var next := Handle(m, TxDmaDoneOnly, hw).0;
    RunQuietStep(m, next, [TxDmaDoneOnly, TxReadyOnly], hw);
    assert [TxDmaDoneOnly, TxReadyOnly][1..] == [TxReadyOnly];
    WriteEndsOnTxReady(next, hw);
  }

  lemma WriteEndsAfterFirstByte(m: Transfer, hw: Hardware)
    requires WellFormed(m) && m.state == TXSendingFirstByte && hw.txReadyNow && hw.dmaAccepts
    ensures var rest := if m.size > 1 then [TxReadyOnly, TxDmaDoneOnly, TxReadyOnly] else [TxReadyOnly, TxReadyOnly];
      WriteEnded(Run(m, rest, hw))
  {
    var rest := if m.size > 1 then [TxReadyOnly, TxDmaDoneOnly, TxReadyOnly] else [TxReadyOnly, TxReadyOnly];
    TxSecondByteStep(m, hw);
    var next := Handle(m, TxReadyOnly, hw).0;
    RunQuietStep(m, next, rest, hw);
    if m.size > 1 {
      assert rest[1..] == [TxDmaDoneOnly, TxReadyOnly];
      WriteEndsAfterDma(next, hw);
    } else {
      assert rest[1..] == [TxReadyOnly];
      WriteEndsOnTxReady(next, hw);
    }
  }

  /** From TXReadyToSendFirstByte, the interrupts WriteEvents names end the write. */
  lemma {:induction false} WriteEnds(m: Transfer, hw: Hardware)
    requires WellFormed(m) && m.state == TXReadyToSendFirstByte && hw.txReadyNow && hw.dmaAccepts
    ensures WriteEnded(Run(m, WriteEvents(m.threshold, m.length), hw))
  {
    var events := WriteEvents(m.threshold, m.length);
    TxFirstByteStep(m, hw);
    var next := Handle(m, TxReadyOnly, hw).0;
    RunQuietStep(m, next, events, hw);
    if m.length <= m.threshold {
      assert events[1..] == [TxReadyOnly];
      WriteEndsOnTxReady(next, hw);
    } else {
      assert next.size == m.length - 1;
      WriteEndsAfterFirstByte(next, hw);
    }
  }

  /**
   * With the first byte sent on its own from two bytes on, a write hands
   * every byte of the buffer to the transmitter, in order and once each,
   * and reports TxTransferDone as it ends.
   */
  lemma WriteSendsBuffer(m: Transfer, base: nat, data: seq<Byte>, hw: Hardware)
    requires WellFormed(m) && m.state == Idle && m.threshold == 1
    requires 0 < |data| < 0x10000 && hw.txReadyNow && hw.dmaAccepts
    ensures var started := Start(m, true, base, data, false).1;
      var r := Run(started, WriteEvents(1, |data|), hw);
      r.0.state == Idle && r.0.handed == Range(0, |data|) && r.1 == [WriteDone]
  {
    var started := Start(m, true, base, data, false).1;
    assert started.length == |data| && started.threshold == 1;
    WriteEnds(started, hw);
  }

  /**
   * As written, a two-byte write never sends its second byte: TXRDY finds
   * size 2 not above 2, writes byte 0 to THR with the STOP, and the next
   * TXRDY reports the write done.
   */
  lemma TwoByteWriteSendsOneByte(m: Transfer, base: nat, data: seq<Byte>, hw: Hardware)
    requires WellFormed(m) && m.state == Idle && m.threshold == 2 && |data| == 2
    ensures var started := Start(m, true, base, data, false).1;
      var r := Run(started, WriteEvents(2, 2), hw);
      r.0.state == Idle && r.0.handed == [0] && r.1 == [WriteDone]
  {
    var started := Start(m, true, base, data, false).1;
    assert started.length == 2 && started.threshold == 2;
    TxFirstByteStep(started, hw);
    var next := Handle(started, TxReadyOnly, hw).0;
    RunQuietStep(started, next, WriteEvents(2, 2), hw);
    WriteEndsOnTxReady(next, hw);
  }

  /** From RXDMAStarted, the DMA's transfer-done and one RXRDY end the read. */
  lemma ReadEndsAfterDma(m: Transfer, hw: Hardware)
    requires WellFormed(m) && m.state == RXDMAStarted && hw.rxReadyNow
    ensures var r := Run(m, [ReadDone, RxReadyOnly], hw);
      && r.0.state == Idle && r.0.filled == Range(0, m.length) && r.1 == [ReadDone]
      && r.0.buffer == m.buffer[m.pos := hw.rhr][m.pos + 1 := hw.rhr]
      && r.0.commands == m.commands + [StopCondition]
  {
    RxDmaDoneStep(m, hw);
    var next := Handle(m, ReadDone, hw).0;
    RunQuietStep(m, next, [ReadDone, RxReadyOnly], hw);
    RxLastCharStep(next, hw);
    assert [ReadDone, RxReadyOnly][1..] == [RxReadyOnly];
    RunLastStep(next, RxReadyOnly, hw);
  }

  /** A read that has ended: Idle, every position filled, ReadDone delivered. */
  ghost predicate ReadEnded(r: (Transfer, seq<Cause>))
  {
    r.0.state == Idle && r.0.filled == Range(0, r.0.length) && r.1 == [ReadDone]
  }

  /** From RXReadingFirstByte at an aligned start, the three interrupts end the read. */
  lemma ReadEndsFromStart(m: Transfer, events: seq<Cause>, hw: Hardware)
    requires WellFormed(m) && m.state == RXReadingFirstByte && m.pos == 0 && m.size == m.length
    requires m.base % 4 == 0 && hw.rxReadyNow && hw.dmaAccepts
    requires events == [RxReadyOnly, ReadDone, RxReadyOnly]
    ensures var r := Run(m, events, hw);
      && ReadEnded(r) && r.0.buffer == m.buffer[m.length - 2 := hw.rhr][m.length - 1 := hw.rhr]
      && r.0.commands == m.commands + [StopCondition]
  {
    RxFirstByteStep(m, hw);
    var next := Handle(m, RxReadyOnly, hw).0;
    assert next.pos == m.length - 2 && next.length == m.length;
    RunQuietStep(m, next, events, hw);
    assert events[1..] == [ReadDone, RxReadyOnly];
    ReadEndsAfterDma(next, hw);
  }

  /**
   * A read of three or more bytes into an aligned buffer: the DMA is given
   * all but the last two positions, the driver reads those two from RHR,
   * and RxTransferDone is reported once the buffer is full.
   */
  lemma ReadFillsBuffer(m: Transfer, base: nat, data: seq<Byte>, hw: Hardware)
    requires WellFormed(m) && m.state == Idle
    requires 3 <= |data| < 0x10000 && base % 4 == 0 && hw.rxReadyNow && hw.dmaAccepts
    ensures var started := Start(m, true, base, data, true).1;
      var r := Run(started, [RxReadyOnly, ReadDone, RxReadyOnly], hw);
      && r.0.state == Idle && r.0.filled == Range(0, |data|) && r.1 == [ReadDone]
      && r.0.buffer == data[|data| - 2 := hw.rhr][|data| - 1 := hw.rhr]
      && r.0.commands == m.commands + [StartCondition, StopCondition]
  {
    ReadStarts(m, base, data);
    ReadEndsFromStart(Start(m, true, base, data, true).1, [RxReadyOnly, ReadDone, RxReadyOnly], hw);
  }

  lemma ReadStarts(m: Transfer, base: nat, data: seq<Byte>)
    requires WellFormed(m) && m.state == Idle && 3 <= |data| < 0x10000
    ensures var started := Start(m, true, base, data, true).1;
      && started.state == RXReadingFirstByte && started.buffer == data && started.base == base
      && started.pos == 0 && started.size == started.length == |data|
      && started.commands == m.commands + [StartCondition]
  {
  }

  /**
   * A misaligned read start reads one byte by hand and returns with RXRDY's
   * interrupt already disabled and no DMA started: only a NACK can still
   * interrupt, so the read waits in RXReadingFirstByte.
   */
  lemma MisalignedReadSilencesRxReady(m: Transfer, hw: Hardware)
    requires WellFormed(m) && m.state == RXReadingFirstByte && m.size > 2 && (m.base + m.pos) % 4 != 0
    ensures var h := Handle(m, RxReadyOnly, hw);
      && h.1 == [] && h.0.state == RXReadingFirstByte && h.0.pos == m.pos + 1
      && h.0.irqs == m.irqs.(rxReady := false)
  {
  }

  // ---------------------------------------------------------------- the driver object

  /**
   * TWIHardware_: the driver's fields, updated in place. The buffer is the
   * caller's array, written through on receive. `threshold` is as in
   * Transfer; the address, mode and clock registers are recorded as the
   * driver last wrote them.
   */
  class TwiHardware {
    const threshold: nat
    var state: TwiState
    var buffer: array<Byte>
    var bufferAddress: nat
    var pos: nat
    var size: nat
    var filled: seq<nat>
    var readMode: bool
    var irqs: Irqs
    var commands: seq<Command>
    var handed: seq<nat>
    var addressRegisters: AddressRegisters
    var masterEnabled: bool
    var internalAddressValue: nat
    var internalAddressToSend: nat
    var clock: ClockRegisters

    /** The transfer state the fields hold. */
    ghost function Model(): Transfer
      reads this, buffer
    {
      Transfer(threshold, state, bufferAddress, buffer.Length, pos, size, buffer[..], filled,
               readMode, irqs, commands, handed)
    }

    ghost predicate Valid()
      reads this, buffer
    {
      WellFormed(Model())
    }

    /** The constructor's soft reset: Idle, master mode disabled, no buffer. */
    constructor(threshold: nat)
      requires threshold == 1 || threshold == 2
      ensures Valid() && Model() == Fresh(threshold)
      ensures !masterEnabled && internalAddressValue == 0
    {
      this.threshold := threshold;
      state := Idle;
      buffer := new Byte[0];
      bufferAddress, pos, size := 0, 0, 0;
      filled, handed, commands := [], [], [];
      readMode := false;
      irqs := NoIrqs;
      addressRegisters := AddressRegisters(0, 0, 0);
      masterEnabled := false;
      internalAddressValue, internalAddressToSend := 0, 0;
      clock := ClockRegisters(0, 0, 0);
    }

    /**
     * setAddress: packs the addresses into MMR and IADR (which clears MREAD),
     * zeroes the internal-address bookkeeping and enables master mode; a
     * 10-bit address with more than two internal-address bytes changes nothing.
     */
    method SetAddress(address: DeviceAddress, internal: InternalAddress) returns (ok: bool)
      modifies this
      ensures ok <==> PackAddress(address, internal).Some?
      ensures !ok ==> unchanged(this)
      ensures ok ==> addressRegisters == PackAddress(address, internal).value && masterEnabled
                     && internalAddressValue == 0 && internalAddressToSend == 0
                     && Model() == old(Model()).(readMode := false) && clock == old(clock)
    {
      var packed := PackAddress(address, internal);
      if packed.None? {
        ok := false;
      } else {
        addressRegisters := packed.value;
        readMode := false;
        internalAddressValue, internalAddressToSend := 0, 0;
        masterEnabled := true;
        ok := true;
      }
    }

    /**
     * setSpeed with the fast-mode divider corrected: above 400 kHz nothing
     * changes; above 384 kHz the low period is fixed and both dividers share
     * one CKDIV; below, one divider serves both periods.
     */
    method SetSpeed(speed: Uint32, periphClock: Uint32)
      requires 0 < speed
      modifies this
      ensures speed > FastModeSpeed ==> clock == old(clock)
      ensures LowLevelTimeLimit < speed <= FastModeSpeed ==> clock == FastClock(periphClock, speed)
      ensures speed <= LowLevelTimeLimit ==> clock == SlowClock(periphClock, speed)
      ensures Model() == old(Model()) && addressRegisters == old(addressRegisters)
      ensures masterEnabled == old(masterEnabled)
    {
      if speed > FastModeSpeed {
        return;
      }
      if speed > LowLevelTimeLimit {
        var cldiv, k1 := ScaleDivider(FastLowDivider(periphClock), 0);
        var hi := FastHighDivider(periphClock, speed);
        QuotientNonneg(hi, Pow2(k1));
        var chdiv, ckdiv := ScaleDivider(hi / Pow2(k1), k1);
        QuotientNonneg(cldiv, Pow2(ckdiv - k1));
        cldiv := cldiv / Pow2(ckdiv - k1);
        clock := ClockRegisters(cldiv % 0x100, chdiv % 0x100, ckdiv);
      } else {
        var divider, ckdiv := ScaleDivider(SlowDivider(periphClock, speed), 0);
        clock := ClockRegisters(divider % 0x100, divider % 0x100, ckdiv);
      }
    }

    /** startTransfer on the caller's array, which lives at `address`; a null array is refused. */
    method StartTransfer(data: array?<Byte>, address: nat, isRx: bool) returns (ok: bool)
      requires Valid() && (data != null ==> data.Length < 0x10000)
      modifies this
      ensures (ok, Model()) == Start(old(Model()), data != null, address, if data == null then [] else data[..], isRx)
      ensures Valid()
      ensures ok ==> buffer == data
    {
      ok := data != null && state == Idle && data.Length > 0;
      if ok {
        Arm(data, address, isRx);
      }
    }

    /** The accepted branch of startTransfer. */
    method Arm(data: array<Byte>, address: nat, isRx: bool)
      requires Valid() && state == Idle && 0 < data.Length < 0x10000
      modifies this
      ensures Model() == Start(old(Model()), true, address, data[..], isRx).1
      ensures buffer == data
    {
      TakeBuffer(data, address);
      if isRx {
        BeginRead();
      } else {
        state := TXReadyToSendFirstByte;
        irqs := irqs.(txReady := true, nack := true);
      }
    }

    method TakeBuffer(data: array<Byte>, address: nat)
      modifies this
      ensures Model() == Armed(old(Model()), address, data[..]) && buffer == data
    {
      buffer, bufferAddress, pos, size := data, address, 0, data.Length;
      filled, handed := [], [];
      irqs := irqs.(dmaRxDone := false, dmaTxDone := false);
    }

    method BeginRead()
      modifies this
      ensures Model() == Reading(old(Model())) && buffer == old(buffer)
    {
      readMode := true;
      if size == 1 {
        commands := commands + [StartAndStop];
        state := RXWaitingForLastChar;
      } else if size > 2 {
        commands := commands + [StartCondition];
        state := RXReadingFirstByte;
      } else {
        commands := commands + [StartCondition];
        state := RXWaitingForRXReady;
      }
      irqs := irqs.(rxReady := true, nack := true);
    }

    /**
     * prehandleInterrupt on the fields: the error and spurious-interrupt
     * checks, then each case in turn. Returns the cause as left for the
     * handler.
     */
    method PrehandleInterrupt(cause: Cause, hw: Hardware) returns (left: Cause)
      requires Valid()
      modifies this, buffer
      ensures buffer == old(buffer)
      ensures var p := Prehandle(old(Model()), cause, hw); Model() == p.m && left == p.cause
    {
      if Failed(cause) {
        irqs := NoIrqs;
        state := Idle;
        left := cause;
      } else if state == Idle {
        irqs := irqs.(rxReady := false, txReady := false, txDone := false, dmaRxDone := false, dmaTxDone := false);
        left := NoCause;
      } else {
        left := CasesOnFields(cause, hw);
      }
    }

    method CasesOnFields(cause: Cause, hw: Hardware) returns (left: Cause)
      requires Valid()
      modifies this, buffer
      ensures buffer == old(buffer)
      ensures var p := Cases(Progress(old(Model()), cause, false), hw); Model() == p.m && left == p.cause
    {
      ghost var p0 := Progress(Model(), cause, false);
      var done: bool;
      left, done := RxFirstByteCase(cause, false, hw);
      RxFirstByteAdvances(p0, hw);
      ghost var p1 := Progress(Model(), left, done);
      left, done := RxDmaDoneCase(left, done, hw);
      RxDmaDoneAdvances(p1, hw);
      ghost var p2 := Progress(Model(), left, done);
      left, done := RxNextToLastCase(left, done, hw);
      RxNextToLastAdvances(p2, hw);
      left, done := RxLastCharCase(left, done, hw);
      left := TxCasesOnFields(left, done, hw);
    }

    method TxCasesOnFields(cause: Cause, done: bool, hw: Hardware) returns (left: Cause)
      modifies this
      ensures buffer == old(buffer)
      ensures var p := TxCases(Progress(old(Model()), cause, done), hw); Model() == p.m && left == p.cause
    {
      var done' := done;
      left := cause;
      left, done' := TxFirstByteCase(left, done');
      left, done' := TxSendingFirstByteCase(left, done', hw);
      left, done' := TxDmaDoneCase(left, done', hw);
      left, done' := TxSwallowDoneCase(left, done');
      left, done' := TxLastByteCase(left, done', hw);
      left, done' := TxFinishCase(left, done');
    }

    method RxFirstByteCase(cause: Cause, done: bool, hw: Hardware) returns (cause': Cause, done': bool)
      requires Valid()
      modifies this, buffer
      ensures buffer == old(buffer)
      ensures Progress(Model(), cause', done') == RxFirstByte(Progress(old(Model()), cause, done), hw)
    {
      cause', done' := cause, done;
      if !done && state == RXReadingFirstByte && cause.rxReady {
        if size > 2 && (bufferAddress + pos) % 4 != 0 {
          cause', done' := RxReadUnaligned(cause, hw);
        } else if size > 2 {
          cause', done' := RxStartDma(cause, hw);
        } else {
          state := if size == 2 then RXWaitingForRXReady else RXWaitingForLastChar;
          commands := if size == 1 then commands + [StopCondition] else commands;
        }
      }
    }

    /** RXReadingFirstByte with more than two bytes to read, at a misaligned position: one byte by hand. */
    method RxReadUnaligned(cause: Cause, hw: Hardware) returns (cause': Cause, done': bool)
      requires Valid() && state == RXReadingFirstByte && cause.rxReady && size > 2
      requires (bufferAddress + pos) % 4 != 0
      modifies this, buffer
      ensures buffer == old(buffer)
      ensures Progress(Model(), cause', done') == RxFirstByte(Progress(old(Model()), cause, false), hw)
    {
      cause' := cause.(rxReady := false);
      irqs := irqs.(rxReady := false);
      ReadNextByte(hw.rhr);
      size := size - 1;
      done' := true;
    }

    /** RXReadingFirstByte with more than two bytes to read, aligned: the DMA takes all but the last two. */
    method RxStartDma(cause: Cause, hw: Hardware) returns (cause': Cause, done': bool)
      requires Valid() && state == RXReadingFirstByte && cause.rxReady && size > 2
      requires (bufferAddress + pos) % 4 == 0
      modifies this
      ensures buffer == old(buffer)
      ensures Progress(Model(), cause', done') == RxFirstByte(Progress(old(Model()), cause, false), hw)
    {
      cause', done' := cause.(rxReady := false), false;
      irqs := irqs.(rxReady := false);
      state := RXDMAStarted;
      if !hw.dmaAccepts {
        state := Idle;
        cause' := cause'.(rxError := true);
        done' := true;
      } else {
        irqs := irqs.(dmaRxDone := true);
        filled := filled + Range(pos, pos + size - 2);
        pos := pos + size - 2;
      }
    }

    method RxDmaDoneCase(cause: Cause, done: bool, hw: Hardware) returns (cause': Cause, done': bool)
      modifies this
      ensures buffer == old(buffer)
      ensures Progress(Model(), cause', done') == RxDmaDone(Progress(old(Model()), cause, done), hw)
    {
      cause', done' := cause, done;
      if !done && state == RXDMAStarted && cause.rxTransferDone {
        cause' := cause'.(rxTransferDone := false);
        state := RXWaitingForRXReady;
        irqs := irqs.(dmaRxDone := false);
        if !hw.rxReadyNow {
          irqs := irqs.(rxReady := true);
          done' := true;
        }
      }
    }

    method RxNextToLastCase(cause: Cause, done: bool, hw: Hardware) returns (cause': Cause, done': bool)
      requires Valid()
      modifies this, buffer
      ensures buffer == old(buffer)
      ensures Progress(Model(), cause', done') == RxNextToLast(Progress(old(Model()), cause, done), hw)
    {
      cause', done' := cause, done;
      if !done && state == RXWaitingForRXReady && (hw.rxReadyNow || cause.rxReady) {
        cause' := cause'.(rxReady := false);
        commands := commands + [StopCondition];
        state := RXWaitingForLastChar;
        irqs := irqs.(rxReady := true);
        ReadNextByte(hw.rhr);
        done' := true;
      }
    }

    /** *local_buffer_ptr_++ = RHR. */
    method ReadNextByte(rhr: Byte)
      requires pos < buffer.Length
      modifies this, buffer
      ensures buffer == old(buffer)
      ensures Model() == old(Model()).(buffer := old(buffer[..])[old(pos) := rhr], filled := old(filled) + [old(pos)],
                                       pos := old(pos) + 1)
    {
      buffer[pos] := rhr;
      filled := filled + [pos];
      pos := pos + 1;
    }

    method RxLastCharCase(cause: Cause, done: bool, hw: Hardware) returns (cause': Cause, done': bool)
      requires Valid()
      modifies this, buffer
      ensures buffer == old(buffer)
      ensures Progress(Model(), cause', done') == RxLastChar(Progress(old(Model()), cause, done), hw)
    {
      cause', done' := cause, done;
      if !done && state == RXWaitingForLastChar && cause.rxReady {
        ghost var before := buffer[..];
        cause' := cause'.(rxReady := false, rxTransferDone := true);
        buffer[pos] := hw.rhr;
        assert buffer[..] == before[pos := hw.rhr];
        filled := filled + [pos];
        state := Idle;
        irqs := irqs.(rxReady := false, nack := false);
        done' := true;
      }
    }

    method TxFirstByteCase(cause: Cause, done: bool) returns (cause': Cause, done': bool)
      modifies this
      ensures buffer == old(buffer)
      ensures Progress(Model(), cause', done') == TxFirstByte(Progress(old(Model()), cause, done))
    {
      cause', done' := cause, done;
      if !done && state == TXReadyToSendFirstByte && cause.txReady {
        readMode := false;
        if size > threshold {
          cause' := cause'.(txReady := false);
          state := TXSendingFirstByte;
          handed := handed + [pos];
          pos, size := pos + 1, size - 1;
          done' := true;
        } else {
          state := TXWaitingForTXReady1;
        }
      }
    }

    method TxSendingFirstByteCase(cause: Cause, done: bool, hw: Hardware) returns (cause': Cause, done': bool)
      modifies this
      ensures buffer == old(buffer)
      ensures Progress(Model(), cause', done') == TxSendingFirstByte(Progress(old(Model()), cause, done), hw)
    {
      cause', done' := cause, done;
      if !done && state == TXSendingFirstByte && cause.txReady {
        if size > 1 {
          cause', done' := TxStartDma(cause, hw);
        } else {
          state := TXWaitingForTXReady1;
          irqs := irqs.(txReady := true);
        }
      }
    }

    /** TXSendingFirstByte with more than one byte left: the DMA takes all but the last. */
    method TxStartDma(cause: Cause, hw: Hardware) returns (cause': Cause, done': bool)
      requires state == TXSendingFirstByte && cause.txReady && size > 1
      modifies this
      ensures buffer == old(buffer)
      ensures Progress(Model(), cause', done') == TxSendingFirstByte(Progress(old(Model()), cause, false), hw)
    {
      cause', done' := cause, false;
      irqs := irqs.(nack := true);
      if !hw.dmaAccepts {
        state := Idle;
        cause' := cause'.(txError := true);
        done' := true;
      } else {
        irqs := irqs.(dmaTxDone := true);
        handed := handed + Range(pos, pos + size - 1);
        pos, size := pos + size - 1, 1;
        state := TXDMAStarted;
      }
    }

    method TxDmaDoneCase(cause: Cause, done: bool, hw: Hardware) returns (cause': Cause, done': bool)
      modifies this
      ensures buffer == old(buffer)
      ensures Progress(Model(), cause', done') == TxDmaDone(Progress(old(Model()), cause, done), hw)
    {
      cause', done' := cause, done;
      if !done && state == TXDMAStarted && (cause.txDone || cause.txTransferDone) {
        cause' := cause'.(txDone := false, txTransferDone := false);
        state := TXWaitingForTXReady1;
        irqs := irqs.(dmaTxDone := false);
        if !hw.txReadyNow {
          irqs := irqs.(txReady := true);
          done' := true;
        }
      }
    }

    method TxSwallowDoneCase(cause: Cause, done: bool) returns (cause': Cause, done': bool)
      ensures Progress(Model(), cause', done') == TxSwallowDone(Progress(Model(), cause, done))
    {
      cause', done' := cause, done;
      if !done && state == TXWaitingForTXReady1 && (cause.txDone || cause.txTransferDone) {
        cause' := cause'.(txDone := false, txTransferDone := false);
      }
    }

    method TxLastByteCase(cause: Cause, done: bool, hw: Hardware) returns (cause': Cause, done': bool)
      modifies this
      ensures buffer == old(buffer)
      ensures Progress(Model(), cause', done') == TxLastByte(Progress(old(Model()), cause, done), hw)
    {
      cause', done' := cause, done;
      if !done && state == TXWaitingForTXReady1 && (hw.txReadyNow || cause.txReady) {
        cause' := cause'.(txReady := false);
        handed := handed + [pos];
        commands := commands + [StopCondition];
        state := TXWaitingForTXReady2;
        irqs := irqs.(txReady := true);
        done' := true;
      }
    }

    method TxFinishCase(cause: Cause, done: bool) returns (cause': Cause, done': bool)
      modifies this
      ensures buffer == old(buffer)
      ensures Progress(Model(), cause', done') == TxFinish(Progress(old(Model()), cause, done))
    {
      cause', done' := cause, done;
      if !done && state == TXWaitingForTXReady2 && cause.txReady {
        cause' := cause'.(txTransferDone := true);
        state := Idle;
        irqs := irqs.(txReady := false, txDone := false, nack := false);
      }
    }

    /**
     * handleInterrupts: read the cause, prehandle it, and deliver what is
     * left to the handler only when it is not empty and the driver is Idle.
     * Returns the causes delivered (none or one).
     */
    method HandleInterrupts(hint: MotateCommon.InterruptType, sr: TwiStatus, imrTxComplete: bool, hw: Hardware)
      returns (delivered: seq<Cause>)
      requires Valid()
      modifies this, buffer
      ensures Valid() && buffer == old(buffer)
      ensures (Model(), delivered) == Handle(old(Model()), TwiInterruptCause(hint, sr, imrTxComplete), hw)
    {
      var cause := TwiInterruptCause(hint, sr, imrTxComplete);
      var left := PrehandleInterrupt(cause, hw);
      if left == NoCause || state != Idle {
        delivered := [];
      } else {
        delivered := [left];
      }
    }
  }
}
