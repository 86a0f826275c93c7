// The flow control of the buffered UART hardware on the XMega and the
// KL05Z (_BufferedUARTHardware, the same code on both chips): RTS/CTS and
// XON/XOFF, the TX-ready interrupt that drains the transmit buffer, the
// receive path that fills the receive buffer and throttles the peer, and
// the resume delay after a CTS change. The buffers, the CTS pin level, the
// SysTick value and the bytes the data register yields are inputs; what
// the driver does with them is state.

module BufferedUart {

  import SamSpi
  import MotateUart
  import XMegaUart
  import Kl05zUart

  type Uint32 = SamSpi.Uint32
  type Byte = MotateUart.Byte
  type Flags = bv16

  const XOn: Byte := 0x11
  const XOff: Byte := 0x13

  // UARTMode, the same bits on both chips
  const RtsCtsFlowControl: Flags := 1 << 5
  const XonXoffFlowControl: Flags := 1 << 6

  /**
   * What the template arguments fix: whether the CTS pin can interrupt,
   * whether there is an RTS pin, and whether init arms TX ready (the XMega
   * asks for it, the KL05Z does not).
   */
  datatype Config = Config(ctsIsIrqPin: bool, rtsPinPresent: bool, txReadyAtInit: bool)

  /**
   * The driver's state: the two flow-control modes, the XON/XOFF flags, the
   * RTS pin level, the TX-ready, RX-ready and CTS-change interrupt
   * enables, the resume delay and its deadline, the bytes handed to the
   * data register and the values written into the receive buffer.
   */
  datatype State = State(
    rtsCts: bool, xonXoff: bool,
    canSendFlag: bool, startStop: Byte, startStopSent: bool,
    rtsHigh: bool, txReady: bool, rxReady: bool, ctsOnChange: bool,
    delayAfterResume: Uint32, delayUntil: Uint32,
    sent: seq<Byte>, received: seq<int>)

  /** The member initialisers: no flow control, a delay of 3, XON already sent. */
  const Fresh: State := State(false, false, true, XOn, true, false, false, false, false, 3, 0, [], [])

  /**
   * What holds of every reachable state: the control byte is XON or XOFF,
   * none is pending without XON/XOFF, and RTS/CTS is on only where the pins
   * allow it.
   */
  predicate Inv(c: Config, s: State)
  {
    && (s.startStop == XOn || s.startStop == XOff)
    && (!s.xonXoff ==> s.startStopSent)
    && (s.rtsCts ==> c.ctsIsIrqPin && c.rtsPinPresent)
  }

  lemma FreshInv(c: Config)
    ensures Inv(c, Fresh)
  {
  }

  /** init: RX ready on, TX ready as the chip's request leaves it. */
  function InitOf(c: Config, s: State): (r: State)
    ensures r.rxReady && (r.txReady <==> c.txReadyAtInit)
    ensures r == s.(rxReady := r.rxReady, txReady := r.txReady)
    ensures Inv(c, s) ==> Inv(c, r)
  {
    s.(rxReady := true, txReady := c.txReadyAtInit)
  }

  /** The XMega's init request arms TX ready at the low level; the KL05Z's leaves it off. */
  lemma InitRequests(x: XMegaUart.IntCtrl, e: Kl05zUart.Enables)
    ensures var r := XMegaUart.WithInterrupts(x, XMegaUart.OnRxReady | XMegaUart.OnTxReady | XMegaUart.PriorityLow);
      r.rxc == XMegaUart.Lo && r.dre == XMegaUart.Lo
    ensures var r := Kl05zUart.WithEnables(e, Kl05zUart.OnRxReady | 0x200);
      r.rie && !r.tie
  {
    assert XMegaUart.LevelOf(XMegaUart.OnRxReady | XMegaUart.OnTxReady | XMegaUart.PriorityLow) == XMegaUart.Lo;
  }

  /** canSend: CTS low under RTS/CTS, else the XON/XOFF flag, else always. */
  function CanSendOf(s: State, ctsHigh: bool): bool
  {
    if s.rtsCts then !ctsHigh
    else if s.xonXoff then s.canSendFlag
    else true
  }

  /** isConnected: CTS low, or true when CTS cannot interrupt. */
  function IsConnected(c: Config, ctsHigh: bool): (r: bool)
    ensures r <==> !c.ctsIsIrqPin || !ctsHigh
  {
    if !c.ctsIsIrqPin then true else !ctsHigh
  }

  /** Under RTS/CTS, being allowed to send and being connected are the same. */
  lemma CanSendMeansConnected(c: Config, s: State, ctsHigh: bool)
    requires Inv(c, s) && s.rtsCts
    ensures CanSendOf(s, ctsHigh) == IsConnected(c, ctsHigh)
  {
  }

  /** Without RTS/CTS or XON/XOFF, sending is always allowed. */
  lemma NoFlowControlAlwaysSends(s: State, ctsHigh: bool)
    requires !s.rtsCts && !s.xonXoff
    ensures CanSendOf(s, ctsHigh)
  {
  }

  /**
   * setOptions: RTS/CTS when asked for and both pins allow it, then TX
   * ready set to !canSend() and the CTS pin interrupt on change; XON/XOFF
   * when asked for, and when not, no control byte pending.
   */
  function SetOptionsOf(c: Config, s: State, options: Flags, ctsHigh: bool): (r: State)
    ensures r.rtsCts <==> options & RtsCtsFlowControl != 0 && c.ctsIsIrqPin && c.rtsPinPresent
    ensures r.xonXoff <==> options & XonXoffFlowControl != 0
    ensures r.rtsCts ==> r.ctsOnChange && r.txReady == ctsHigh
    ensures !r.rtsCts ==> r.ctsOnChange == s.ctsOnChange && r.txReady == s.txReady
    ensures r.startStopSent == (s.startStopSent || !r.xonXoff)
    ensures r.startStop == s.startStop && r.canSendFlag == s.canSendFlag && r.rtsHigh == s.rtsHigh
    ensures r.sent == s.sent && r.received == s.received && r.delayUntil == s.delayUntil
    ensures Inv(c, s) ==> Inv(c, r)
  {
    var rtsCts := options & RtsCtsFlowControl != 0 && c.ctsIsIrqPin && c.rtsPinPresent;
    var xonXoff := options & XonXoffFlowControl != 0;
    s.(rtsCts := rtsCts,
       txReady := if rtsCts then !CanSendOf(s.(rtsCts := true), ctsHigh) else s.txReady,
       ctsOnChange := rtsCts || s.ctsOnChange,
       xonXoff := xonXoff,
       startStopSent := s.startStopSent || !xonXoff)
  }

  /**
   * Under RTS/CTS setOptions arms TX ready exactly when the peer holds CTS
   * high, the opposite of what writeByte and a CTS change arm.
   */
  lemma SetOptionsArmsWhenBlocked(c: Config, s: State, options: Flags, ctsHigh: bool)
    requires options & RtsCtsFlowControl != 0 && c.ctsIsIrqPin && c.rtsPinPresent
    ensures var r := SetOptionsOf(c, s, options, ctsHigh);
      r.txReady == !CanSendOf(r, ctsHigh) && WriteByteOf(r, ctsHigh).txReady == CanSendOf(r, ctsHigh)
  {
  }

  /**
   * stopRx: RTS high under RTS/CTS; under XON/XOFF, unless XOFF is already
   * the control byte, XOFF becomes pending and TX ready is armed to send it.
   */
  function StopRxOf(s: State): (r: State)
    ensures r.rtsHigh == (s.rtsHigh || s.rtsCts)
    ensures s.xonXoff ==> r.startStop == XOff
    ensures s.xonXoff && s.startStop != XOff ==> !r.startStopSent && r.txReady
    ensures !s.xonXoff || s.startStop == XOff ==> r == s.(rtsHigh := r.rtsHigh)
    ensures r.sent == s.sent && r.received == s.received && r.canSendFlag == s.canSendFlag
  {
    var s1 := if s.rtsCts then s.(rtsHigh := true) else s;
    if s.xonXoff && s.startStop != XOff then s1.(startStop := XOff, startStopSent := false, txReady := true)
    else s1
  }

  /** startRx: the mirror image, RTS low and XON. */
  function StartRxOf(s: State): (r: State)
    ensures r.rtsHigh == (s.rtsHigh && !s.rtsCts)
    ensures s.xonXoff ==> r.startStop == XOn
    ensures s.xonXoff && s.startStop != XOn ==> !r.startStopSent && r.txReady
    ensures !s.xonXoff || s.startStop == XOn ==> r == s.(rtsHigh := r.rtsHigh)
    ensures r.sent == s.sent && r.received == s.received && r.canSendFlag == s.canSendFlag
  {
    var s1 := if s.rtsCts then s.(rtsHigh := false) else s;
    if s.xonXoff && s.startStop != XOn then s1.(startStop := XOn, startStopSent := false, txReady := true)
    else s1
  }

  lemma StopStartInv(c: Config, s: State)
    requires Inv(c, s)
    ensures Inv(c, StopRxOf(s)) && Inv(c, StartRxOf(s))
  {
  }

  /** A second stopRx (or startRx) changes nothing: the control byte is queued once. */
  lemma StopRxIdempotent(s: State)
    ensures StopRxOf(StopRxOf(s)) == StopRxOf(s)
    ensures StartRxOf(StartRxOf(s)) == StartRxOf(s)
  {
  }

  /**
   * startRx after stopRx under XON/XOFF replaces the pending XOFF by XON:
   * one control byte is pending, the last asked for.
   */
  lemma StartReplacesStop(s: State)
    requires s.xonXoff
    ensures var r := StartRxOf(StopRxOf(s)); r.startStop == XOn && !r.startStopSent && r.txReady
  {
  }

  /**
   * The free space test of readByte and of the receive path: size() is a
   * size_t, so size - 4 wraps for a buffer smaller than 4 and the test
   * never passes.
   */
  predicate RoomToResume(free: nat, size: nat)
  {
    size >= 4 && free > size - 4
  }

  /** readByte: with more than size - 4 free, startRx; the byte is the buffer's. */
  function ReadByteOf(s: State, free: nat, size: nat): (r: State)
    ensures RoomToResume(free, size) ==> r == StartRxOf(s)
    ensures !RoomToResume(free, size) ==> r == s
  {
    if RoomToResume(free, size) then StartRxOf(s) else s
  }

  /** writeByte: TX ready follows canSend; everything else stays. */
  function WriteByteOf(s: State, ctsHigh: bool): (r: State)
    ensures r.txReady == CanSendOf(s, ctsHigh)
    ensures r == s.(txReady := r.txReady)
  {
    s.(txReady := CanSendOf(s, ctsHigh))
  }

  /** A byte written while the peer sent XOFF leaves TX ready off. */
  lemma WriteWhilePaused(s: State, ctsHigh: bool)
    requires !s.rtsCts && s.xonXoff && !s.canSendFlag
    ensures !WriteByteOf(s, ctsHigh).txReady
  {
  }

  /** The transmit side waits: a TX-ready cause before the resume deadline. */
  predicate Delayed(s: State, txCause: bool, now: Uint32)
  {
    txCause && s.delayUntil != 0 && now < s.delayUntil
  }

  /** The transmit side sends the pending control byte (and returns). */
  predicate SendsControl(s: State, txCause: bool, now: Uint32)
  {
    txCause && !Delayed(s, txCause, now) && s.xonXoff && !s.startStopSent
  }

  /** The receive side's byte is a control byte XON/XOFF consumes. */
  predicate IsControl(s: State, value: int)
  {
    s.xonXoff && (value == XOn || value == XOff)
  }

  /**
   * The transmit part of the interrupt handler, past the delay test and the
   * control byte: the deadline cleared, the value the transmit buffer
   * yielded (when it yielded one) sent, and TX ready off when the transmit
   * buffer is empty or locked.
   */
  function TxPart(s: State, txCause: bool, txValue: int, txIdle: bool): (r: State)
    requires txValue < 0x100
    ensures r.sent == (if txCause && 0 <= txValue then s.sent + [txValue] else s.sent)
    ensures r.txReady == (s.txReady && !txIdle)
    ensures r.delayUntil == (if txCause then 0 else s.delayUntil)
    ensures && r.rtsCts == s.rtsCts && r.xonXoff == s.xonXoff && r.canSendFlag == s.canSendFlag
            && r.startStop == s.startStop && r.startStopSent == s.startStopSent && r.received == s.received
  {
    var s0 := if txCause then s.(delayUntil := 0) else s;
    var s1 := if txCause && 0 <= txValue then s0.(sent := s0.sent + [txValue]) else s0;
    if txIdle then s1.(txReady := false) else s1
  }

  /**
   * The receive part: with RX ready and room in the buffer, XON/XOFF
   * consume their control bytes; any other value, -1 included, goes into
   * the buffer, and with fewer than 4 left free, stopRx.
   */
  function RxPart(s: State, rxCause: bool, rxFull: bool, rxValue: int, rxFreeAfter: nat): (r: State)
    ensures !rxCause || rxFull ==> r == s
    ensures rxCause && !rxFull && IsControl(s, rxValue) ==> r == s.(canSendFlag := rxValue == XOn)
    ensures rxCause && !rxFull && !IsControl(s, rxValue) ==>
      var w := s.(received := s.received + [rxValue]);
      r == (if rxFreeAfter < 4 then StopRxOf(w) else w)
  {
    if rxCause && !rxFull then
      if s.xonXoff && rxValue == XOn then s.(canSendFlag := true)
      else if s.xonXoff && rxValue == XOff then s.(canSendFlag := false)
      else
        var w := s.(received := s.received + [rxValue]);
        if rxFreeAfter < 4 then StopRxOf(w) else w
    else s
  }

  /**
   * uartInterruptHandler: a TX-ready cause before the resume deadline
   * returns at once; otherwise a pending control byte is sent and the
   * handler returns; otherwise the transmit part, then the receive part.
   * The transmit buffer's answers (the value read, empty-or-locked after
   * it) and the receive side's (full, the value read from the data
   * register, free space after the write) are inputs.
   */
  function HandlerOf(s: State, txCause: bool, rxCause: bool, now: Uint32, txValue: int, txIdle: bool,
                     rxFull: bool, rxValue: int, rxFreeAfter: nat): State
    requires txValue < 0x100
  {
    if Delayed(s, txCause, now) then s
    else if SendsControl(s, txCause, now) then
      s.(delayUntil := 0, sent := s.sent + [s.startStop], startStopSent := true)
    else
      RxPart(TxPart(s, txCause, txValue, txIdle), rxCause, rxFull, rxValue, rxFreeAfter)
  }

  /** Before the resume deadline the handler changes nothing, received bytes included. */
  lemma HandlerWaits(s: State, rxCause: bool, now: Uint32, txValue: int, txIdle: bool,
                     rxFull: bool, rxValue: int, rxFreeAfter: nat)
    requires txValue < 0x100 && s.delayUntil != 0 && now < s.delayUntil
    ensures HandlerOf(s, true, rxCause, now, txValue, txIdle, rxFull, rxValue, rxFreeAfter) == s
  {
  }

  /**
   * A pending control byte goes out before anything in the transmit
   * buffer, once, and a byte received in the same interrupt is left for
   * the next one.
   */
  lemma ControlByteFirst(s: State, rxCause: bool, now: Uint32, txValue: int, txIdle: bool,
                         rxFull: bool, rxValue: int, rxFreeAfter: nat)
    requires txValue < 0x100 && SendsControl(s, true, now)
    ensures var r := HandlerOf(s, true, rxCause, now, txValue, txIdle, rxFull, rxValue, rxFreeAfter);
      && r.sent == s.sent + [s.startStop] && r.startStopSent
      && r.received == s.received && r.txReady == s.txReady
  {
  }

  /** The transmit part sends at most one byte, only on a TX-ready cause, and stores nothing. */
  lemma TxPartStreams(s: State, txCause: bool, txValue: int, txIdle: bool)
    requires txValue < 0x100
    ensures var t := TxPart(s, txCause, txValue, txIdle);
      && t.received == s.received
      && (t.sent == s.sent || (txCause && exists b: Byte :: t.sent == s.sent + [b]))
  {
    if txCause && 0 <= txValue {
      var b: Byte := txValue;
      assert TxPart(s, txCause, txValue, txIdle).sent == s.sent + [b];
    }
  }

  /** The receive part sends nothing and stores at most the one value it read, never a control byte. */
  lemma RxPartStreams(s: State, rxCause: bool, rxFull: bool, rxValue: int, rxFreeAfter: nat)
    ensures var r := RxPart(s, rxCause, rxFull, rxValue, rxFreeAfter);
      && r.sent == s.sent
      && (r.received == s.received || (rxCause && !rxFull && r.received == s.received + [rxValue] && !IsControl(s, rxValue)))
  {
  }

  /**
   * What one interrupt does to the two streams: at most one byte is sent
   * and at most one value is stored, and under XON/XOFF a stored value is
   * never XON or XOFF.
   */
  lemma HandlerStreams(s: State, txCause: bool, rxCause: bool, now: Uint32, txValue: int, txIdle: bool,
                       rxFull: bool, rxValue: int, rxFreeAfter: nat)
    requires txValue < 0x100
    ensures var r := HandlerOf(s, txCause, rxCause, now, txValue, txIdle, rxFull, rxValue, rxFreeAfter);
      && (r.sent == s.sent || (txCause && exists b: Byte :: r.sent == s.sent + [b]))
      && (r.received == s.received || (rxCause && !rxFull && r.received == s.received + [rxValue] && !IsControl(s, rxValue)))
  {
    var r := HandlerOf(s, txCause, rxCause, now, txValue, txIdle, rxFull, rxValue, rxFreeAfter);
    if Delayed(s, txCause, now) {
    } else if SendsControl(s, txCause, now) {
      assert r.sent == s.sent + [s.startStop];
    } else {
      var t := TxPart(s, txCause, txValue, txIdle);
      TxPartStreams(s, txCause, txValue, txIdle);
      RxPartStreams(t, rxCause, rxFull, rxValue, rxFreeAfter);
      assert t.xonXoff == s.xonXoff;
    }
  }

  /** XOFF from the peer stops sending under XON/XOFF alone; XON resumes it. */
  lemma PeerPausesAndResumes(s: State, now: Uint32, txValue: int, txIdle: bool, ctsHigh: bool, rxFreeAfter: nat)
    requires txValue < 0x100 && s.xonXoff && !s.rtsCts
    ensures !CanSendOf(HandlerOf(s, false, true, now, txValue, txIdle, false, XOff, rxFreeAfter), ctsHigh)
    ensures CanSendOf(HandlerOf(s, false, true, now, txValue, txIdle, false, XOn, rxFreeAfter), ctsHigh)
  {
  }

  /** A received byte that leaves fewer than 4 free asks the peer to stop. */
  lemma FillingStopsPeer(s: State, rxValue: int, rxFreeAfter: nat)
    requires s.xonXoff && !IsControl(s, rxValue) && rxFreeAfter < 4
    ensures var r := RxPart(s, true, false, rxValue, rxFreeAfter);
      r.startStop == XOff && r.received == s.received + [rxValue]
  {
  }

  lemma TxPartInv(c: Config, s: State, txCause: bool, txValue: int, txIdle: bool)
    requires txValue < 0x100 && Inv(c, s)
    ensures Inv(c, TxPart(s, txCause, txValue, txIdle))
  {
  }

  lemma RxPartInv(c: Config, s: State, rxCause: bool, rxFull: bool, rxValue: int, rxFreeAfter: nat)
    requires Inv(c, s)
    ensures Inv(c, RxPart(s, rxCause, rxFull, rxValue, rxFreeAfter))
  {
    StopStartInv(c, s.(received := s.received + [rxValue]));
  }

  lemma HandlerInv(c: Config, s: State, txCause: bool, rxCause: bool, now: Uint32, txValue: int, txIdle: bool,
                   rxFull: bool, rxValue: int, rxFreeAfter: nat)
    requires txValue < 0x100 && Inv(c, s)
    ensures Inv(c, HandlerOf(s, txCause, rxCause, now, txValue, txIdle, rxFull, rxValue, rxFreeAfter))
  {
    TxPartInv(c, s, txCause, txValue, txIdle);
    RxPartInv(c, TxPart(s, txCause, txValue, txIdle), rxCause, rxFull, rxValue, rxFreeAfter);
  }

  /**
   * pinChangeInterrupt: the deadline is the SysTick value plus the delay,
   * in 32 bits, and TX ready follows canSend.
   */
  function PinChangeOf(s: State, now: Uint32, ctsHigh: bool): (r: State)
    ensures r.delayUntil == (now + s.delayAfterResume) % SamSpi.Modulus32
    ensures r.txReady == CanSendOf(s, ctsHigh)
    ensures r == s.(delayUntil := r.delayUntil, txReady := r.txReady)
  {
    s.(delayUntil := (now + s.delayAfterResume) % SamSpi.Modulus32, txReady := CanSendOf(s, ctsHigh))
  }

  /** Without wrap-around, a TX-ready interrupt right after a CTS change waits. */
  lemma ResumeWaits(s: State, now: Uint32, ctsHigh: bool, txValue: int, txIdle: bool, rxValue: int)
    requires txValue < 0x100 && 0 < s.delayAfterResume && now + s.delayAfterResume < SamSpi.Modulus32
    ensures var p := PinChangeOf(s, now, ctsHigh);
      HandlerOf(p, true, true, now, txValue, txIdle, false, rxValue, 0) == p
  {
  }

  /**
   * A deadline that wraps past 2^32 is no deadline: the next TX-ready
   * interrupt, at the same SysTick value, goes ahead.
   */
  lemma ResumeDelayLostAtWrap(s: State, now: Uint32, ctsHigh: bool)
    requires now + s.delayAfterResume >= SamSpi.Modulus32
    ensures !Delayed(PinChangeOf(s, now, ctsHigh), true, now)
  {
  }

  /** setTxDelayAfterResume. */
  function SetDelayOf(s: State, delay: Uint32): (r: State)
    ensures r.delayAfterResume == delay && r == s.(delayAfterResume := delay)
  {
    s.(delayAfterResume := delay)
  }

  /** The driver object, its fields updated by the methods as the source does. */
  class Flow {
    const config: Config
    var rtsCts: bool
    var xonXoff: bool
    var canSendFlag: bool
    var startStop: Byte
    var startStopSent: bool
    var rtsHigh: bool
    var txReady: bool
    var rxReady: bool
    var ctsOnChange: bool
    var delayAfterResume: Uint32
    var delayUntil: Uint32
    var sent: seq<Byte>
    var received: seq<int>

    function Snapshot(): State
      reads this
    {
      State(rtsCts, xonXoff, canSendFlag, startStop, startStopSent, rtsHigh, txReady, rxReady, ctsOnChange,
            delayAfterResume, delayUntil, sent, received)
    }

    /** Inv, on the fields. */
    predicate Valid()
      reads this
      ensures Valid() <==> Inv(config, Snapshot())
    {
      && (startStop == XOn || startStop == XOff)
      && (!xonXoff ==> startStopSent)
      && (rtsCts ==> config.ctsIsIrqPin && config.rtsPinPresent)
    }

    constructor (config: Config)
      ensures this.config == config && Snapshot() == Fresh && Valid()
    {
      this.config := config;
      rtsCts, xonXoff, canSendFlag, startStop, startStopSent := false, false, true, XOn, true;
      rtsHigh, txReady, rxReady, ctsOnChange := false, false, false, false;
      delayAfterResume, delayUntil, sent, received := 3, 0, [], [];
    }

    method Init()
      modifies this
      requires Valid()
      ensures Snapshot() == InitOf(config, old(Snapshot())) && Valid()
    {
      rxReady := true;
      txReady := config.txReadyAtInit;
    }

    method SetOptions(options: Flags, ctsHigh: bool)
      modifies this
      requires Valid()
      ensures Snapshot() == SetOptionsOf(config, old(Snapshot()), options, ctsHigh) && Valid()
    {
      if options & RtsCtsFlowControl != 0 && config.ctsIsIrqPin && config.rtsPinPresent {
        rtsCts := true;
        var can := CanSend(ctsHigh);
        txReady := !can;
        ctsOnChange := true;
      } else {
        rtsCts := false;
      }
      if options & XonXoffFlowControl != 0 {
        xonXoff := true;
      } else {
        xonXoff := false;
        startStopSent := true;
      }
    }

    method CanSend(ctsHigh: bool) returns (r: bool)
      ensures r == CanSendOf(Snapshot(), ctsHigh)
    {
      if rtsCts {
        return !ctsHigh;
      }
      if xonXoff {
        return canSendFlag;
      }
      return true;
    }

    method StopRx()
      modifies this
      requires Valid()
      ensures Snapshot() == StopRxOf(old(Snapshot())) && Valid()
    {
      if rtsCts {
        rtsHigh := true;
      }
      if xonXoff && startStop != XOff {
        startStop := XOff;
        startStopSent := false;
        txReady := true;
      }
    }

    method StartRx()
      modifies this
      requires Valid()
      ensures Snapshot() == StartRxOf(old(Snapshot())) && Valid()
    {
      if rtsCts {
        rtsHigh := false;
      }
      if xonXoff && startStop != XOn {
        startStop := XOn;
        startStopSent := false;
        txReady := true;
      }
    }

    /** readByte: `free` and `size` are the receive buffer's answers, `value` what its read yields. */
    method ReadByte(free: nat, size: nat, value: int) returns (r: int)
      modifies this
      requires Valid()
      ensures r == value && Snapshot() == ReadByteOf(old(Snapshot()), free, size) && Valid()
    {
      if RoomToResume(free, size) {
        StartRx();
      }
      return value;
    }

    /** writeByte: `accepted` is what the transmit buffer's write answers. */
    method WriteByte(accepted: int, ctsHigh: bool) returns (r: int)
      modifies this
      requires Valid()
      ensures r == accepted && Snapshot() == WriteByteOf(old(Snapshot()), ctsHigh) && Valid()
    {
      var can := CanSend(ctsHigh);
      txReady := can;
      return accepted;
    }

    method Handler(txCause: bool, rxCause: bool, now: Uint32, txValue: int, txIdle: bool,
                   rxFull: bool, rxValue: int, rxFreeAfter: nat)
      modifies this
      requires Valid() && txValue < 0x100
      ensures Snapshot() == HandlerOf(old(Snapshot()), txCause, rxCause, now, txValue, txIdle, rxFull, rxValue, rxFreeAfter)
      ensures Valid()
    {
      if txCause {
        if delayUntil != 0 && now < delayUntil {
          return;
        }
        if xonXoff && !startStopSent {
          delayUntil := 0;
          sent := sent + [startStop];
          startStopSent := true;
          return;
        }
      }
      TxSide(txCause, txValue, txIdle);
      RxSide(rxCause, rxFull, rxValue, rxFreeAfter);
    }

    /** The handler's transmit part, past the delay and the control byte. */
    method TxSide(txCause: bool, txValue: int, txIdle: bool)
      modifies this
      requires Valid() && txValue < 0x100
      ensures Snapshot() == TxPart(old(Snapshot()), txCause, txValue, txIdle) && Valid()
    {
      if txCause {
        delayUntil := 0;
        if 0 <= txValue {
          sent := sent + [txValue];
        }
      }
      if txIdle {
        txReady := false;
      }
    }

    /** The handler's receive part. */
    method RxSide(rxCause: bool, rxFull: bool, rxValue: int, rxFreeAfter: nat)
      modifies this
      requires Valid()
      ensures Snapshot() == RxPart(old(Snapshot()), rxCause, rxFull, rxValue, rxFreeAfter) && Valid()
    {
      if rxCause && !rxFull {
        if xonXoff {
          if rxValue == XOn {
            canSendFlag := true;
            return;
          } else if rxValue == XOff {
            canSendFlag := false;
            return;
          }
        }
        received := received + [rxValue];
        if rxFreeAfter < 4 {
          StopRx();
        }
      }
    }

    method PinChangeInterrupt(now: Uint32, ctsHigh: bool)
      modifies this
      requires Valid()
      ensures Snapshot() == PinChangeOf(old(Snapshot()), now, ctsHigh) && Valid()
    {
      delayUntil := (now + delayAfterResume) % SamSpi.Modulus32;
      var can := CanSend(ctsHigh);
      txReady := can;
    }

    method SetTxDelayAfterResume(delay: Uint32)
      modifies this
      requires Valid()
      ensures Snapshot() == SetDelayOf(old(Snapshot()), delay) && Valid()
    {
      delayAfterResume := delay;
    }

    function IsConnectedNow(ctsHigh: bool): (r: bool)
      reads this
      ensures r <==> !config.ctsIsIrqPin || !ctsHigh
    {
      IsConnected(config, ctsHigh)
    }
  }
}
