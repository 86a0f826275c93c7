// The XMega USART driver: the baud-rate table of setOptions and its encoding
// into BAUDCTRLA/BAUDCTRLB, the frame format written to CTRLC, the interrupt
// levels of CTRLA with the remembered TX-ready priority, the byte read and
// write, and the string write of the UART front end. The hardware is a
// parameter: the RXCIF and DREIF status flags are inputs, and every effect
// (the registers, the bytes taken, the flushes) is a field.

module XMegaUart {

  import MotateUart

  type Byte = MotateUart.Byte

  /** A uint16_t word of UARTMode or UARTInterrupt flags. */
  type Flags = bv16

  // UARTMode
  const EvenParity: Flags := 1 << 0
  const OddParity: Flags := 1 << 1
  const TwoStopBits: Flags := 1 << 2
  const As9Bit: Flags := 1 << 3

  // UARTInterrupt
  const Off: Flags := 0
  const OnTxReady: Flags := 1 << 1
  const OnTxDone: Flags := 1 << 2
  const OnRxReady: Flags := 1 << 3
  const PriorityHigh: Flags := 1 << 5
  const PriorityMedium: Flags := 1 << 6
  const PriorityLow: Flags := 1 << 7
  const PriorityMask: Flags := (1 << 8) - (1 << 5)

  // ---------------------------------------------------------------- the baud rate

  /** BSEL (0..4095), BSCALE (-7..7) and CLK2X, the three baud-rate settings of the USART. */
  datatype BaudSetting = BaudSetting(bsel: int, bscale: int, clk2x: bool)

  /** The rates setOptions has a table entry for. */
  const TableRates: seq<int> := [1200, 2400, 4800, 9600, 14400, 19200, 28800, 38400, 57600, 115200, 230400]

  function Pow2(k: nat): (p: nat)
    ensures p >= 1
  {
    if k == 0 then 1 else 2 * Pow2(k - 1)
  }

  /**
   * The rate a setting gives from a peripheral clock is RateNum / RateDen:
   * with a negative BSCALE, clock / (16 * (2^BSCALE * BSEL + 1)); otherwise
   * clock / (2^BSCALE * 16 * (BSEL + 1)); CLK2X halves the 16 to 8.
   */
  function RateNum(clock: nat, s: BaudSetting): nat
  {
    if s.bscale < 0 then clock * Pow2(-s.bscale) else clock
  }

  function RateDen(s: BaudSetting): (d: nat)
    requires s.bsel >= 0
    ensures d > 0
  {
    var m := if s.clk2x then 8 else 16;
    if s.bscale < 0 then m * (s.bsel + Pow2(-s.bscale)) else Pow2(s.bscale) * m * (s.bsel + 1)
  }

  /** The setting gives `baud` from `clock` within `ppm` parts per million. */
  predicate Accurate(clock: nat, baud: nat, s: BaudSetting, ppm: nat)
    requires s.bsel >= 0
  {
    var n := RateNum(clock, s);
    var d := RateDen(s);
    (if n < baud * d then baud * d - n else n - baud * d) * 1_000_000 <= ppm * baud * d
  }

  /**
   * The baud-rate table of setOptions. Every entry is within 0.0101% of its
   * rate at a 32 MHz clock; any other rate leaves the settings at 0, so the
   * USART runs at a sixteenth of the clock.
   */
  function BaudTable(baud: int): (s: BaudSetting)
    ensures 0 <= s.bsel < 4096 && -7 <= s.bscale <= 7 && !s.clk2x
    ensures baud in TableRates ==> Accurate(32_000_000, baud, s, 101)
    ensures baud !in TableRates ==> s == BaudSetting(0, 0, false) && RateNum(32_000_000, s) == 32_000_000 && RateDen(s) == 16
  {
    match baud
    case 1200 => BaudSetting(3331, -1, false)
    case 2400 => BaudSetting(3329, -2, false)
    case 4800 => BaudSetting(3325, -3, false)
    case 9600 => BaudSetting(3317, -4, false)
    case 14400 => BaudSetting(2206, -4, false)
    case 19200 => BaudSetting(3301, -5, false)
    case 28800 => BaudSetting(1095, -4, false)
    case 38400 => BaudSetting(3269, -6, false)
    case 57600 => BaudSetting(2158, -6, false)
    case 115200 => BaudSetting(1047, -6, false)
    case 230400 => BaudSetting(983, -7, false)
    case _ => BaudSetting(0, 0, false)
  }

  /** BAUDCTRLA: the low byte of BSEL. */
  function BaudCtrlA(bsel: int): (a: nat)
    ensures a < 0x100
  {
    bsel % 0x100
  }

  /** BAUDCTRLB: BSCALE shifted into the high nibble, BSEL's high bits in the low one, cut to a byte. */
  function BaudCtrlB(bsel: int, bscale: int): (b: nat)
    ensures b < 0x100
  {
    (bscale * 0x10 + bsel / 0x100) % 0x100
  }

  /** The BSEL the USART reads from the two registers. */
  function RegisterBsel(a: nat, b: nat): (bsel: nat)
    requires a < 0x100 && b < 0x100
    ensures bsel < 4096
  {
    a + 0x100 * (b % 0x10)
  }

  /** The BSCALE the USART reads from BAUDCTRLB: the high nibble as a signed value. */
  function RegisterBscale(b: nat): (bscale: int)
    requires b < 0x100
    ensures -8 <= bscale <= 7
  {
    if b / 0x10 >= 8 then b / 0x10 - 0x10 else b / 0x10
  }

  /** Every BSEL and BSCALE the USART accepts comes back from the two registers unchanged. */
  lemma BaudRegistersRoundTrip(bsel: int, bscale: int)
    requires 0 <= bsel < 4096 && -8 <= bscale <= 7
    ensures RegisterBsel(BaudCtrlA(bsel), BaudCtrlB(bsel, bscale)) == bsel
    ensures RegisterBscale(BaudCtrlB(bsel, bscale)) == bscale
  {
    var h := bsel / 0x100;
    var nibble := if bscale < 0 then bscale + 0x10 else bscale;
    assert BaudCtrlB(bsel, bscale) == nibble * 0x10 + h by {
      assert bscale * 0x10 + h == nibble * 0x10 + h - (if bscale < 0 then 0x100 else 0);
    }
    assert (nibble * 0x10 + h) % 0x10 == h && (nibble * 0x10 + h) / 0x10 == nibble;
  }

  // ---------------------------------------------------------------- the frame format

  datatype Parity = NoParity | Even | Odd

  /** The CTRLC frame format: CHSIZE, PMODE and SBMODE. */
  datatype Frame = Frame(dataBits: nat, parity: Parity, twoStopBits: bool)

  /**
   * The frame setOptions writes as written: the stop-bit test is
   * options & (EvenParity | TwoStopBits), so even parity also selects two
   * stop bits.
   */
  function FrameAsWritten(options: Flags): (f: Frame)
    ensures f.twoStopBits <==> options & (EvenParity | TwoStopBits) != 0
    ensures f.dataBits == FrameOf(options).dataBits && f.parity == FrameOf(options).parity
  {
    Frame(FrameOf(options).dataBits, FrameOf(options).parity, options & (EvenParity | TwoStopBits) != 0)
  }

  /**
   * The frame as evidently intended: 9 data bits with As9Bit, else 8; even
   * parity when EvenParity is set, odd when only OddParity is, none
   * otherwise; two stop bits exactly with TwoStopBits.
   */
  function FrameOf(options: Flags): (f: Frame)
    ensures f.dataBits == (if options & As9Bit != 0 then 9 else 8)
    ensures f.parity == Even <==> options & EvenParity != 0
    ensures f.parity == Odd <==> options & EvenParity == 0 && options & OddParity != 0
    ensures f.twoStopBits <==> options & TwoStopBits != 0
  {
    Frame(if options & As9Bit != 0 then 9 else 8,
          if options & EvenParity != 0 then Even else if options & OddParity != 0 then Odd else NoParity,
          options & TwoStopBits != 0)
  }

  /** 8E1 as written gets two stop bits; the frame intended has one. */
  lemma EvenParityTwoStopBits()
    ensures FrameAsWritten(EvenParity).twoStopBits && FrameAsWritten(EvenParity).parity == Even
    ensures !FrameOf(EvenParity).twoStopBits && FrameOf(EvenParity).parity == Even
  {
  }

  // ---------------------------------------------------------------- the interrupt levels

  /** An interrupt level field of CTRLA. */
  datatype Level = LevelOff | Lo | Med | Hi

  /** The level a request names: its highest priority flag, or off without one. */
  function LevelOf(interrupts: Flags): (l: Level)
    ensures l == Hi <==> interrupts & PriorityHigh != 0
    ensures l == Med <==> interrupts & PriorityHigh == 0 && interrupts & PriorityMedium != 0
    ensures l == Lo <==> interrupts & (PriorityHigh | PriorityMedium) == 0 && interrupts & PriorityLow != 0
    ensures l == LevelOff <==> interrupts & PriorityMask == 0
  {
    if interrupts & PriorityHigh != 0 then Hi
    else if interrupts & PriorityMedium != 0 then Med
    else if interrupts & PriorityLow != 0 then Lo
    else LevelOff
  }

  /**
   * CTRLA's three level fields (receive complete, transmit complete, data
   * register empty) and _txReadyPriority, the priority flags of the last
   * TX-ready request that named any.
   */
  datatype IntCtrl = IntCtrl(rxc: Level, txc: Level, dre: Level, txReadyPriority: Flags)

  /**
   * setInterrupts: Off turns all three levels off; otherwise each event
   * named gets the level the request names, the others keep theirs, and a
   * TX-ready request with priority flags remembers them.
   */
  function WithInterrupts(c: IntCtrl, interrupts: Flags): (r: IntCtrl)
    ensures interrupts == Off ==> r == IntCtrl(LevelOff, LevelOff, LevelOff, c.txReadyPriority)
    ensures interrupts != Off ==>
      && r.rxc == (if interrupts & OnRxReady != 0 then LevelOf(interrupts) else c.rxc)
      && r.txc == (if interrupts & OnTxDone != 0 then LevelOf(interrupts) else c.txc)
      && r.dre == (if interrupts & OnTxReady != 0 then LevelOf(interrupts) else c.dre)
      && r.txReadyPriority == (if interrupts & OnTxReady != 0 && interrupts & PriorityMask != 0
                               then interrupts & PriorityMask else c.txReadyPriority)
  {
    if interrupts == Off then IntCtrl(LevelOff, LevelOff, LevelOff, c.txReadyPriority)
    else
      var level := LevelOf(interrupts);
      IntCtrl(if interrupts & OnRxReady != 0 then level else c.rxc,
              if interrupts & OnTxDone != 0 then level else c.txc,
              if interrupts & OnTxReady != 0 then level else c.dre,
              if interrupts & OnTxReady != 0 && interrupts & PriorityMask != 0 then interrupts & PriorityMask else c.txReadyPriority)
  }

  /** setInterruptTxReady: a TX-ready request at the remembered priority, or at none. */
  function WithTxReady(c: IntCtrl, value: bool): IntCtrl
  {
    WithInterrupts(c, OnTxReady | (if value then c.txReadyPriority else Off))
  }

  /** The remembered priority only ever holds priority flags. */
  predicate PriorityOnly(c: IntCtrl)
  {
    c.txReadyPriority & !PriorityMask == 0
  }

  /**
   * Turning TX-ready off and on again leaves the other two levels alone and
   * restores the level of the last TX-ready request that named a priority.
   */
  lemma TxReadyRestores(c: IntCtrl, p: Flags)
    requires p & PriorityMask != 0
    ensures var on := WithInterrupts(c, OnTxReady | p);
      var off := WithTxReady(on, false);
      var back := WithTxReady(off, true);
      off.dre == LevelOff && back.dre == LevelOf(p) && back.rxc == on.rxc && back.txc == on.txc
      && PriorityOnly(back)
  {
    var on := WithInterrupts(c, OnTxReady | p);
    assert (OnTxReady | p) & PriorityMask == p & PriorityMask;
    assert LevelOf(OnTxReady | p) == LevelOf(p);
    var off := WithTxReady(on, false);
    assert off.txReadyPriority == p & PriorityMask;
    assert (OnTxReady | (p & PriorityMask)) & PriorityMask == p & PriorityMask;
    assert LevelOf(OnTxReady | (p & PriorityMask)) == LevelOf(p);
  }

  /** setInterrupts keeps the remembered priority to priority flags. */
  lemma PriorityStaysPriority(c: IntCtrl, interrupts: Flags)
    requires PriorityOnly(c)
    ensures PriorityOnly(WithInterrupts(c, interrupts))
  {
  }

  // ---------------------------------------------------------------- the string write

  /**
   * Where the XMega write stops when every byte is taken: at `length`, or
   * with length 0 at the NUL or after 0x7FFF bytes, the count it starts
   * to_write at.
   */
  function WriteLimit(data: seq<Byte>, length: nat): (limit: nat)
    requires length < MotateUart.Modulus16 && (length > 0 ==> length <= |data|) && (length == 0 ==> 0 in data)
    ensures limit <= |data| && limit < MotateUart.Modulus16
    ensures length > 0 ==> limit == length
    ensures length == 0 ==> (limit <= 0x7FFF && (forall j :: 0 <= j < limit ==> data[j] != 0)
                             && (limit < 0x7FFF ==> data[limit] == 0))
  {
    if length == 0 then (if MotateUart.NulAt(data) < 0x7FFF then MotateUart.NulAt(data) else 0x7FFF)
    else length
  }

  /** A string longer than 0x7FFF bytes is cut at 0x7FFF, where the front end without the cap sends up to 0x10000. */
  lemma StringCappedAt7FFF(data: seq<Byte>, ready: seq<bool>)
    requires MotateUart.WriteArgs(data, 0, ready) && MotateUart.NulAt(data) > 0x7FFF
    requires forall j :: 0 <= j < |ready| ==> ready[j]
    ensures MotateUart.Transmitted(WriteLimit(data, 0), false, false, ready) == 0x7FFF
    ensures MotateUart.Transmitted(MotateUart.WriteLimit(data, 0), true, false, ready) > 0x7FFF
  {
  }

  /**
   * The USART: the enables of CTRLB, the baud-rate registers, the frame of
   * CTRLC, the interrupt levels of CTRLA, the bytes the data register has
   * taken and the flushes made.
   */
  class Usart {
    var enabled: bool
    var clk2x: bool
    var baudCtrlA: nat
    var baudCtrlB: nat
    var frame: Frame
    var intCtrl: IntCtrl
    var sent: seq<Byte>
    var flushes: nat

    predicate Valid()
      reads this
    {
      baudCtrlA < 0x100 && baudCtrlB < 0x100 && PriorityOnly(intCtrl)
    }

    /** UART(baud, options): init() disables the USART, then setOptions. */
    constructor (baud: int, options: Flags)
      ensures Valid() && enabled && !clk2x
      ensures baudCtrlA == BaudCtrlA(BaudTable(baud).bsel) && baudCtrlB == BaudCtrlB(BaudTable(baud).bsel, BaudTable(baud).bscale)
      ensures frame == FrameOf(options)
      ensures intCtrl == IntCtrl(LevelOff, LevelOff, LevelOff, 0) && sent == [] && flushes == 0
    {
      var s := BaudTable(baud);
      baudCtrlA := BaudCtrlA(s.bsel);
      baudCtrlB := BaudCtrlB(s.bsel, s.bscale);
      clk2x := s.clk2x;
      frame := FrameOf(options);
      enabled := true;
      intCtrl := IntCtrl(LevelOff, LevelOff, LevelOff, 0);
      sent := [];
      flushes := 0;
    }

    /**
     * setOptions: the table's BSEL and BSCALE go to BAUDCTRLA/B, CLK2X is
     * cleared, CTRLC gets the frame, and the USART ends enabled.
     */
    method SetOptions(baud: int, options: Flags)
      requires Valid()
      modifies this`enabled, this`clk2x, this`baudCtrlA, this`baudCtrlB, this`frame
      ensures Valid() && enabled && !clk2x
      ensures RegisterBsel(baudCtrlA, baudCtrlB) == BaudTable(baud).bsel
      ensures RegisterBscale(baudCtrlB) == BaudTable(baud).bscale
      ensures baudCtrlA == BaudCtrlA(BaudTable(baud).bsel) && baudCtrlB == BaudCtrlB(BaudTable(baud).bsel, BaudTable(baud).bscale)
      ensures frame == FrameOf(options)
    {
      enabled := false;
      var s := BaudTable(baud);
      BaudRegistersRoundTrip(s.bsel, s.bscale);
      baudCtrlA := BaudCtrlA(s.bsel);
      baudCtrlB := BaudCtrlB(s.bsel, s.bscale);
      clk2x := s.clk2x;
      frame := FrameOf(options);
      enabled := true;
    }

    method SetInterrupts(interrupts: Flags)
      requires Valid()
      modifies this`intCtrl
      ensures Valid() && intCtrl == WithInterrupts(old(intCtrl), interrupts)
    {
      PriorityStaysPriority(intCtrl, interrupts);
      intCtrl := WithInterrupts(intCtrl, interrupts);
    }

    method SetInterruptTxReady(value: bool)
      requires Valid()
      modifies this`intCtrl
      ensures Valid() && intCtrl == WithTxReady(old(intCtrl), value)
      ensures intCtrl.rxc == old(intCtrl.rxc) && intCtrl.txc == old(intCtrl.txc)
      ensures intCtrl.txReadyPriority == old(intCtrl.txReadyPriority)
      ensures intCtrl.dre == (if value then LevelOf(old(intCtrl.txReadyPriority)) else LevelOff)
    {
      var p := if value then intCtrl.txReadyPriority else Off;
      assert (OnTxReady | p) & PriorityMask == p;
      assert LevelOf(OnTxReady | p) == LevelOf(p);
      SetInterrupts(OnTxReady | p);
    }

    /** readByte: the data register when RXCIF is set, otherwise -1. */
    method ReadByte(rxcif: bool, data: Byte) returns (r: int)
      ensures -1 <= r < 0x100
      ensures r >= 0 <==> rxcif
      ensures rxcif ==> r == data
    {
      if rxcif {
        r := data;
      } else {
        r := -1;
      }
    }

    /** writeByte: the data register takes the byte when DREIF is set (1), otherwise -1. */
    method WriteByte(dreif: bool, value: Byte) returns (r: int)
      modifies this`sent
      ensures r == 1 || r == -1
      ensures r == 1 <==> dreif
      ensures sent == old(sent) + (if dreif then [value] else [])
    {
      if dreif {
        sent := sent + [value];
        r := 1;
      } else {
        r := -1;
      }
    }

    /**
     * write(data, length, autoFlush) of the XMega front end: length 0 means
     * up to the NUL, counted down from 0x7FFF. ready[k] is DREIF at the
     * first attempt at byte k; flush waits for TXCIF, after which the data
     * register is empty, so a retried byte is always taken. A write that sent
     * something with autoFlush ends with one more flush.
     */
    method Write(data: seq<Byte>, length: nat, autoFlush: bool, ready: seq<bool>) returns (total: int)
      requires MotateUart.WriteArgs(data, length, ready)
      modifies this`sent, this`flushes
      ensures var limit := WriteLimit(data, length);
        var n := MotateUart.Transmitted(limit, false, autoFlush, ready);
        total == MotateUart.Int16(n)
        && sent == old(sent) + data[..n]
        && flushes == old(flushes) + MotateUart.Retries(limit, false, autoFlush, ready)
                      + (if autoFlush && MotateUart.Int16(n) > 0 then 1 else 0)
    {
      if length == 0 && data[0] == 0 {
        assert WriteLimit(data, length) == 0 && data[..0] == [];
        return 0;
      }
      total := SendBytes(data, length, autoFlush, ready);
      if autoFlush && total > 0 {
        flushes := flushes + 1;
      }
    }

    /**
     * The do-while loop of write: `out` counts the bytes taken, and to_write,
     * started at length (or 0x7FFF), is that start minus `out` as an int16_t.
     */
    method SendBytes(data: seq<Byte>, length: nat, autoFlush: bool, ready: seq<bool>) returns (total: int)
      requires MotateUart.WriteArgs(data, length, ready) && WriteLimit(data, length) > 0
      modifies this`sent, this`flushes
      ensures var limit := WriteLimit(data, length);
        var n := MotateUart.Transmitted(limit, false, autoFlush, ready);
        total == MotateUart.Int16(n)
        && sent == old(sent) + data[..n]
        && flushes == old(flushes) + MotateUart.Retries(limit, false, autoFlush, ready)
    {
      ghost var limit := WriteLimit(data, length);
      ghost var n := MotateUart.Transmitted(limit, false, autoFlush, ready);
      ghost var sent0, flushes0 := sent, flushes;
      var start := if length == 0 then 0x7FFF else length;
      var out := 0;
      var flushed := false;
      var done := false;
      while !done
        invariant out <= n && (!done ==> out < limit)
        invariant sent == sent0 + data[..out]
        invariant !done && flushed ==> autoFlush && !ready[out]
        invariant done ==> out == n
        invariant !flushed || !done
        invariant !autoFlush ==> flushes == flushes0
        invariant autoFlush ==> flushes == flushes0 + MotateUart.Refusals(ready[..out]) + (if flushed then 1 else 0)
        decreases if done then 0 else 1, limit - out, if flushed then 0 else 1
      {
        if ready[out] || flushed {
          MotateUart.TransmittedContinues(limit, false, autoFlush, ready, out);
          MotateUart.RefusalsStep(ready, out);
          sent := sent + [data[out]];
          out := out + 1;
          assert data[..out] == data[..out - 1] + [data[out - 1]];
          flushed := false;
          if length == 0 && data[out] == 0 {
            MotateUart.TransmittedStops(limit, false, autoFlush, ready, out);
            done := true;
          }
        } else if autoFlush {
          flushes := flushes + 1;
          flushed := true;
        } else {
          MotateUart.TransmittedStops(limit, false, autoFlush, ready, out);
          done := true;
        }
        if !done && MotateUart.Int16(start - out) == 0 {
          MotateUart.TransmittedStops(limit, false, autoFlush, ready, out);
          done := true;
        }
      }
      total := MotateUart.Int16(out);
    }
  }
}
