// The KL05Z UART0 driver: setOptions' search for the oversampling ratio and
// baud-rate divisor (SBR) and the fields it writes, the interrupt enables of
// C2 and the NVIC priority, getInterruptCause, and the byte read and write.
// The status flags of S1 are inputs; every effect on the hardware (the
// register fields, the bytes taken, the flushes) is a field. The string write
// of this UART front end is the same loop as the processor-independent one
// (MotateUart.Uart.Write): flush waits for TDRE, so a retried byte is taken.

module Kl05zUart {

  import opened Wrappers
  import SamSpi
  import SamTimers
  import MotateUart
  import Kl05zTimers

  type Uint32 = SamSpi.Uint32
  type Byte = MotateUart.Byte

  /** A uint16_t word of UARTMode or UARTInterrupt flags. */
  type Flags = bv16

  // UARTMode
  const EvenParity: Flags := 1 << 0
  const OddParity: Flags := 1 << 1
  const TwoStopBits: Flags := 1 << 2
  const As9Bit: Flags := 1 << 3
  const As10Bit: Flags := 1 << 4

  // UARTInterrupt: TX ready and TX done share bit 1.
  const Off: Flags := 0
  const OnTxReady: Flags := 1 << 1
  const OnTxDone: Flags := 1 << 1
  const OnRxReady: Flags := 1 << 2
  const OnIdle: Flags := 1 << 3
  const EventMask: Flags := OnRxReady | OnTxDone | OnTxReady | OnIdle

  // ---------------------------------------------------------------- the oversampling search

  /** One oversampling ratio's outcome: the SBR it gives and how far that rate is from the one asked for. */
  datatype Candidate = Candidate(sbr: nat, diff: nat)

  /** The best so far: its distance, oversampling ratio and SBR. */
  datatype Pick = Pick(diff: nat, osr: nat, sbr: nat)

  /** best_baud_diff, oversample_rate and sbr_value before the loop. */
  const Init: Pick := Pick(0xFF_FFFF, 4, 0)

  function Dist(a: nat, b: nat): nat
  {
    if a > b then a - b else b - a
  }

  /**
   * The ratio `osr` tried against the core clock: SBR = clock / (baud * osr)
   * and the rate clock / (SBR * osr) it gives, both products in 32 bits.
   * None when a division is by zero: a baud of 0, or a rate above
   * clock / osr, where SBR comes out 0.
   */
  function Try(clock: Uint32, baud: Uint32, osr: nat): (c: Option<Candidate>)
    requires 4 <= osr <= 32
    ensures c.Some? ==> SamSpi.Mul32(baud, osr) > 0 && c.value.sbr > 0 && c.value.sbr == clock / SamSpi.Mul32(baud, osr)
    ensures SamSpi.Mul32(baud, osr) == 0 || clock < SamSpi.Mul32(baud, osr) ==> c.None?
  {
    var p := SamSpi.Mul32(baud, osr);
    if p == 0 || clock < p then None
    else
      SamTimers.DivAtLeastOne(clock, p);
      var sbr := clock / p;
      var q := SamSpi.Mul32(sbr, osr);
      if q == 0 then None
      else
        Some(Candidate(sbr, Dist(clock / q, baud)))
  }

  /**
   * A rate the clock can reach at ratio osr has a candidate: SBR is
   * clock / (baud * osr), at least 1, and the rate it gives is
   * clock / (SBR * osr).
   */
  lemma Reachable(clock: Uint32, baud: Uint32, osr: nat)
    requires 4 <= osr <= 32 && 0 < baud && baud * osr <= clock
    ensures var sbr := clock / (baud * osr);
      && sbr >= 1 && sbr * osr <= clock
      && Try(clock, baud, osr) == Some(Candidate(sbr, Dist(clock / (sbr * osr), baud)))
  {
    var p: nat := baud * osr;
    SamTimers.MulMono(osr, baud, 1);
    assert SamSpi.Mul32(baud, osr) == p;
    SamTimers.DivAtLeastOne(clock, p);
    var sbr: nat := clock / p;
    SamTimers.DivBracket(clock, p);
    assert p * sbr <= clock;
    SamTimers.MulMono(sbr, p, osr);
    assert sbr * osr <= sbr * p;
    assert SamSpi.Mul32(sbr, osr) == sbr * osr;
  }

  /** One pass of the loop: a candidate at least as close as the best replaces it. */
  function Step(clock: Uint32, baud: Uint32, osr: nat, best: Pick): Pick
    requires 4 <= osr <= 32
  {
    match Try(clock, baud, osr)
    case None => best
    case Some(c) => if c.diff <= best.diff then Pick(c.diff, osr, c.sbr) else best
  }

  /**
   * The search as evidently intended: the loop over the ratios from `osr`
   * to 32, passing over a ratio whose SBR would be 0.
   */
  function Search(clock: Uint32, baud: Uint32, osr: nat, best: Pick): Pick
    requires 4 <= osr <= 33
    decreases 33 - osr
  {
    if osr == 33 then best else Search(clock, baud, osr + 1, Step(clock, baud, osr, best))
  }

  /** The search as written: it divides by zero (None) at the first ratio that gives SBR 0. */
  function SearchAsWritten(clock: Uint32, baud: Uint32, osr: nat, best: Pick): Option<Pick>
    requires 4 <= osr <= 33
    decreases 33 - osr
  {
    if osr == 33 then Some(best)
    else if Try(clock, baud, osr).None? then None
    else SearchAsWritten(clock, baud, osr + 1, Step(clock, baud, osr, best))
  }

  /** The search as written agrees with the intended one exactly when no ratio gives SBR 0. */
  lemma {:induction false} AsWrittenAgrees(clock: Uint32, baud: Uint32, osr: nat, best: Pick)
    requires 4 <= osr <= 33
    ensures SearchAsWritten(clock, baud, osr, best)
            == if forall k :: osr <= k <= 32 ==> Try(clock, baud, k).Some? then Some(Search(clock, baud, osr, best)) else None
    decreases 33 - osr
  {
    if osr < 33 {
      AsWrittenAgrees(clock, baud, osr + 1, Step(clock, baud, osr, best));
      if Try(clock, baud, osr).Some? && !(forall k :: osr <= k <= 32 ==> Try(clock, baud, k).Some?) {
        var k :| osr <= k <= 32 && Try(clock, baud, k).None?;
        assert osr + 1 <= k;
      }
    }
  }

  /**
   * What the search finds from `osr` on, starting from a best that no
   * candidate can equal: a distance no worse than any candidate's, taken
   * from the last ratio that reaches it; when nothing was as close as the
   * best, the best itself.
   */
  lemma {:induction false} SearchFinds(clock: Uint32, baud: Uint32, osr: nat, best: Pick)
    requires 4 <= osr <= 33
    requires best.sbr == 0 || best.osr < osr
    ensures var r := Search(clock, baud, osr, best);
      && r.diff <= best.diff
      && (r == best || (osr <= r.osr <= 32 && r.sbr > 0 && Try(clock, baud, r.osr) == Some(Candidate(r.sbr, r.diff))))
      && (forall k :: osr <= k <= 32 && Try(clock, baud, k).Some? ==> r.diff <= Try(clock, baud, k).value.diff)
      && (forall k :: osr <= k <= 32 && Try(clock, baud, k).Some? && (r == best || k > r.osr) ==> r.diff < Try(clock, baud, k).value.diff)
    decreases 33 - osr
  {
    if osr < 33 {
      var next := Step(clock, baud, osr, best);
      SearchFinds(clock, baud, osr + 1, next);
      var r := Search(clock, baud, osr, best);
      assert r == Search(clock, baud, osr + 1, next);
      if next != best {
        assert r.sbr > 0 && r.osr >= osr;
      }
    }
  }

  /**
   * setOptions' choice: when some ratio comes within 0xFFFFFF of the rate,
   * the closest, the last of equals; otherwise ratio 4 with SBR 0.
   */
  lemma SearchMeaning(clock: Uint32, baud: Uint32)
    ensures var r := Search(clock, baud, 4, Init);
      && (r.sbr == 0 <==> forall k :: 4 <= k <= 32 && Try(clock, baud, k).Some? ==> Try(clock, baud, k).value.diff > 0xFF_FFFF)
      && (r.sbr == 0 ==> r == Init)
      && (r.sbr > 0 ==> 4 <= r.osr <= 32 && Try(clock, baud, r.osr) == Some(Candidate(r.sbr, r.diff)))
      && (forall k :: 4 <= k <= 32 && Try(clock, baud, k).Some? ==> r.diff <= Try(clock, baud, k).value.diff)
      && (forall k :: r.osr < k <= 32 && Try(clock, baud, k).Some? ==> r.diff < Try(clock, baud, k).value.diff)
  {
    SearchFinds(clock, baud, 4, Init);
    var r := Search(clock, baud, 4, Init);
    if r.sbr > 0 {
      assert r != Init;
    }
  }

  /** A rate above clock / osr gives SBR 0 at that ratio: the division by it is by zero. */
  lemma Unreachable(clock: Uint32, baud: Uint32, osr: nat)
    requires 4 <= osr <= 32 && clock < baud * osr < SamSpi.Modulus32
    ensures Try(clock, baud, osr).None?
  {
  }

  /**
   * 1 Mbaud from the 20.97 MHz default core clock: ratio 21 gives SBR 0, so
   * the loop as written divides by zero.
   */
  lemma DivideByZeroAt1Mbaud()
    ensures Try(20_971_520, 1_000_000, 21).None?
    ensures SearchAsWritten(20_971_520, 1_000_000, 4, Init).None?
  {
    Unreachable(20_971_520, 1_000_000, 21);
    AsWrittenAgrees(20_971_520, 1_000_000, 4, Init);
  }

  /** A ratio whose rate comes within 0xFFFFFF makes the search pick a ratio at least as close. */
  lemma SearchPicks(clock: Uint32, baud: Uint32, k: nat)
    requires 4 <= k <= 32 && Try(clock, baud, k).Some? && Try(clock, baud, k).value.diff <= 0xFF_FFFF
    ensures var r := Search(clock, baud, 4, Init);
      r.sbr > 0 && r.diff <= Try(clock, baud, k).value.diff && 4 <= r.osr <= 32 && Try(clock, baud, r.osr) == Some(Candidate(r.sbr, r.diff))
  {
    SearchFinds(clock, baud, 4, Init);
  }

  /** When the last ratio gives the rate exactly, the search ends on it. */
  lemma {:induction false} ExactAtLast(clock: Uint32, baud: Uint32, osr: nat, best: Pick, sbr: nat)
    requires 4 <= osr <= 32 && Try(clock, baud, 32) == Some(Candidate(sbr, 0))
    ensures Search(clock, baud, osr, best) == Pick(0, 32, sbr)
    decreases 32 - osr
  {
    if osr < 32 {
      ExactAtLast(clock, baud, osr + 1, Step(clock, baud, osr, best), sbr);
    }
  }

  /** At 1 Mbaud from 20.97 MHz the intended search passes over the ratios that give SBR 0 and picks one within 48576 baud. */
  lemma ChoiceAt1Mbaud()
    ensures var r := Search(20_971_520, 1_000_000, 4, Init); r.sbr > 0 && r.diff <= 48_576
  {
    Reachable(20_971_520, 1_000_000, 20);
    SearchPicks(20_971_520, 1_000_000, 20);
  }

  /** 110 baud from a 48 MHz clock at ratio 32: SBR 13636, and the rate it gives is exact. */
  lemma ExactAt110Baud()
    ensures Try(48_000_000, 110, 32) == Some(Candidate(13636, 0))
  {
    Reachable(48_000_000, 110, 32);
    assert 48_000_000 / 3520 == 13636;
    assert 48_000_000 / 436_352 == 110;
  }

  /**
   * The SBR field holds 13 bits: 110 baud from a 48 MHz clock comes out
   * exact at ratio 32, so the search takes that last ratio with SBR 13636;
   * the field keeps 5444, and the UART runs at 275 baud.
   */
  lemma SbrTruncatedAt110Baud()
    ensures var r := Search(48_000_000, 110, 4, Init); r.osr == 32 && r.sbr == 13636
    ensures SbrField(13636) == 5444
    ensures 275 * 32 * 5444 <= 48_000_000 < 276 * 32 * 5444
  {
    ExactAt110Baud();
    ExactAtLast(48_000_000, 110, 4, Init, 13636);
    SbrFieldWraps(5444);
  }

  /** What the SBR bits of BDH (five) and BDL (eight) hold of an SBR: its low 13 bits. */
  function SbrField(sbr: nat): (f: nat)
    ensures f < 0x2000 && (sbr < 0x2000 ==> f == sbr)
  {
    sbr % 0x2000
  }

  /** An SBR of 0x2000 or more loses its high bit in the field. */
  lemma SbrFieldWraps(low: nat)
    requires low < 0x2000
    ensures SbrField(0x2000 + low) == low
  {
  }

  /**
   * The loop of setOptions, over the ratios 4 to 32, with the division by
   * zero passed over.
   */
  method ChooseOversampling(clock: Uint32, baud: Uint32) returns (osr: nat, sbr: nat)
    ensures osr == Search(clock, baud, 4, Init).osr && sbr == Search(clock, baud, 4, Init).sbr
    ensures 4 <= osr <= 32
  {
    var best := Init;
    var k := 4;
    while k <= 32
      invariant 4 <= k <= 33
      invariant Search(clock, baud, k, best) == Search(clock, baud, 4, Init)
      invariant 4 <= best.osr <= 32
    {
      best := Step(clock, baud, k, best);
      k := k + 1;
    }
    osr, sbr := best.osr, best.sbr;
  }

  // ---------------------------------------------------------------- interrupts and status

  /** The NVIC priority a request names, as for the timers: 0, 3, 7, 11 or 15, or none. */
  function Priority(interrupts: Flags): (r: Option<nat>)
    ensures r.Some? ==> r.value <= 15
    ensures r == Kl05zTimers.NvicPriority(interrupts as bv32)
  {
    Kl05zTimers.NvicPriority(interrupts as bv32)
  }

  /**
   * getInterruptCause from S1's TDRE, TC, RDRF and IDLE: TX ready for either
   * transmit flag (TX done has the same bit), RX ready, idle.
   */
  function Cause(tdre: bool, tc: bool, rdrf: bool, idle: bool): (c: Flags)
    ensures c & OnTxReady != 0 <==> tdre || tc
    ensures c & OnRxReady != 0 <==> rdrf
    ensures c & OnIdle != 0 <==> idle
    ensures c & !EventMask == 0
  {
    (if tdre || tc then OnTxReady else 0) | (if rdrf then OnRxReady else 0) | (if idle then OnIdle else 0)
  }

  /** A transmit-complete cause cannot be told from a data-register-empty one. */
  lemma TxDoneLooksReady(rdrf: bool, idle: bool)
    ensures Cause(false, true, rdrf, idle) == Cause(true, false, rdrf, idle)
    ensures OnTxDone == OnTxReady
  {
  }

  /** C2's four interrupt enables. */
  datatype Enables = Enables(rie: bool, tcie: bool, tie: bool, ilie: bool)

  /**
   * The enables after setInterrupts: a request naming any event replaces
   * all four by the events it names (TX ready enabling both TIE and TCIE);
   * one naming none, or Off, leaves them.
   */
  function WithEnables(e: Enables, interrupts: Flags): (r: Enables)
    ensures interrupts & EventMask == 0 ==> r == e
    ensures interrupts & EventMask != 0 ==>
      && (r.rie <==> interrupts & OnRxReady != 0)
      && (r.tcie <==> interrupts & OnTxDone != 0)
      && (r.tie <==> interrupts & OnTxReady != 0)
      && (r.ilie <==> interrupts & OnIdle != 0)
  {
    if interrupts & EventMask == 0 then e
    else Enables(interrupts & OnRxReady != 0, interrupts & OnTxDone != 0, interrupts & OnTxReady != 0, interrupts & OnIdle != 0)
  }

  /** Asking for TX-ready interrupts also enables the transmit-complete one. */
  lemma TxReadyEnablesTxDone(e: Enables)
    ensures WithEnables(e, OnTxReady).tie && WithEnables(e, OnTxReady).tcie && !WithEnables(e, OnTxReady).rie
  {
  }

  /** The UART0 data and frame options: M10, M, PE and PT. */
  datatype FrameBits = FrameBits(m10: bool, m: bool, pe: bool, pt: bool)

  /**
   * The frame bits after setOptions: As10Bit sets M10 and leaves M; As9Bit
   * sets M and clears M10; otherwise both clear. Parity sets PE, with PT
   * (odd) unless EvenParity; no parity clears PE and leaves PT.
   */
  function WithFrame(f: FrameBits, options: Flags): (r: FrameBits)
    ensures r.m10 <==> options & As10Bit != 0
    ensures options & As10Bit != 0 ==> r.m == f.m
    ensures options & As10Bit == 0 ==> (r.m <==> options & As9Bit != 0)
    ensures r.pe <==> options & (EvenParity | OddParity) != 0
    ensures r.pe ==> (r.pt <==> options & EvenParity == 0)
    ensures !r.pe ==> r.pt == f.pt
  {
    var m10 := options & As10Bit != 0;
    var m := if m10 then f.m else options & As9Bit != 0;
    if options & (EvenParity | OddParity) != 0 then FrameBits(m10, m, true, options & EvenParity == 0)
    else FrameBits(m10, m, false, f.pt)
  }

  /**
   * UART0: TE and RE, C5's BOTHEDGE, C4's OSR field, the SBR fields of BDH
   * and BDL, BDH's SBNS, the frame bits, the interrupt enables, the NVIC
   * priority and enable, and the bytes the data register has taken.
   */
  class Uart0 {
    var enabled: bool
    var bothEdge: bool
    var osrField: nat
    var sbrField: nat
    var twoStopBits: bool
    var frame: FrameBits
    var enables: Enables
    var nvicPriority: nat
    var nvicEnabled: bool
    var sent: seq<Byte>
    var flushes: nat

    /** UART(baud, options): init() disables the UART, then setOptions. */
    constructor (clock: Uint32, baud: Uint32, options: Flags)
      ensures enabled && osrField == Search(clock, baud, 4, Init).osr - 1 && sbrField == SbrField(Search(clock, baud, 4, Init).sbr)
      ensures bothEdge <==> Search(clock, baud, 4, Init).osr < 9
      ensures sent == [] && flushes == 0 && !nvicEnabled
    {
      enabled := false;
      bothEdge := false;
      osrField := 3;
      sbrField := 0;
      twoStopBits := false;
      frame := FrameBits(false, false, false, false);
      enables := Enables(false, false, false, false);
      nvicPriority := 0;
      nvicEnabled := false;
      sent := [];
      flushes := 0;
      new;
      SetOptions(clock, baud, options);
    }

    /**
     * setOptions: the search's ratio minus one in OSR, its SBR cut to the
     * 13-bit field, BOTHEDGE set for ratios below 9 (and never cleared),
     * SBNS for two stop bits, the frame bits, and the UART enabled.
     */
    method SetOptions(clock: Uint32, baud: Uint32, options: Flags)
      modifies this`enabled, this`bothEdge, this`osrField, this`sbrField, this`twoStopBits, this`frame
      ensures var r := Search(clock, baud, 4, Init);
        && enabled
        && osrField == r.osr - 1 && sbrField == SbrField(r.sbr)
        && bothEdge == (old(bothEdge) || r.osr < 9)
        && (twoStopBits <==> options & TwoStopBits != 0)
        && frame == WithFrame(old(frame), options)
    {
      enabled := false;
      var osr, sbr := ChooseOversampling(clock, baud);
      if osr < 9 {
        bothEdge := true;
      }
      osrField := osr - 1;
      sbrField := SbrField(sbr);
      twoStopBits := options & TwoStopBits != 0;
      frame := WithFrame(frame, options);
      enabled := true;
    }

    /**
     * setInterrupts: a request other than Off updates the enables, sets the
     * priority it names and enables the UART interrupt in the NVIC; Off
     * only disables it there.
     */
    method SetInterrupts(interrupts: Flags)
      modifies this`enables, this`nvicPriority, this`nvicEnabled
      ensures interrupts == Off ==> enables == old(enables) && nvicPriority == old(nvicPriority) && !nvicEnabled
      ensures interrupts != Off ==>
        && enables == WithEnables(old(enables), interrupts)
        && nvicPriority == (if Priority(interrupts).Some? then Priority(interrupts).value else old(nvicPriority))
        && nvicEnabled
    {
      if interrupts != Off {
        enables := WithEnables(enables, interrupts);
        var p := Priority(interrupts);
        if p.Some? {
          nvicPriority := p.value;
        }
        nvicEnabled := true;
      } else {
        nvicEnabled := false;
      }
    }

    /** setInterruptTxReady: TIE alone. */
    method SetInterruptTxReady(value: bool)
      modifies this`enables
      ensures enables == old(enables).(tie := value)
    {
      enables := enables.(tie := value);
    }

    /** readByte: the data register when RDRF is set, otherwise -1. */
    method ReadByte(rdrf: bool, data: Byte) returns (r: int)
      ensures -1 <= r < 0x100
      ensures r >= 0 <==> rdrf
      ensures rdrf ==> r == data
    {
      if rdrf {
        r := data;
      } else {
        r := -1;
      }
    }

    /** The hardware writeByte: the data register takes the byte when TDRE is set (1), otherwise -1. */
    method WriteByte(tdre: bool, value: Byte) returns (r: int)
      modifies this`sent
      ensures r == 1 || r == -1
      ensures r == 1 <==> tdre
      ensures sent == old(sent) + (if tdre then [value] else [])
    {
      if tdre {
        sent := sent + [value];
        r := 1;
      } else {
        r := -1;
      }
    }

    /** The front end's writeByte: flush first, so the byte is always taken. */
    method FlushAndWriteByte(value: Byte) returns (r: int)
      modifies this`sent, this`flushes
      ensures r == 1 && sent == old(sent) + [value] && flushes == old(flushes) + 1
    {
      flushes := flushes + 1;
      r := WriteByte(true, value);
    }
  }
}
