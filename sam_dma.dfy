// The SAM peripheral DMA controller (PDC) drivers: the two-slot receive and
// transmit counters of SamDMAPDC.h and of the older driver in SamDMA.h, the
// extension of a running receive over an overlapping buffer, and the XDMAC
// stub of SamDMA.h. The PDC registers are fields holding the values written;
// the positions the hardware reports while a receive is being extended are a
// parameter.

module SamDma {

  const Modulus32: int := 0x1_0000_0000

  type Uint32 = n: int | 0 <= n < Modulus32

  /** A 32-bit unsigned sum, wrapping as `uint32_t` does. */
  function Add32(a: Uint32, b: Uint32): (r: Uint32)
    ensures a + b < Modulus32 ==> r == a + b
    ensures a + b >= Modulus32 ==> r == a + b - Modulus32
  {
    if a + b < Modulus32 then a + b else a + b - Modulus32
  }

  /** A 32-bit unsigned difference, wrapping as `uint32_t` does. */
  function Sub32(a: Uint32, b: Uint32): (r: Uint32)
    ensures b <= a ==> r == a - b
    ensures a < b ==> r == a - b + Modulus32
  {
    if b <= a then a - b else a - b + Modulus32
  }

  // ---------------------------------------------------------------- one direction's registers

  /**
   * One direction of a PDC: the pointer and counter of the transfer under
   * way (RPR/RCR or TPR/TCR), those of the queued next one (RNPR/RNCR or
   * TNPR/TNCR), whether the direction is enabled in PTCR, and whether its
   * transfer-done interrupt is on.
   */
  datatype Channel = Channel(ptr: Uint32, count: Uint32, nextPtr: Uint32, nextCount: Uint32,
                             enabled: bool, doneIrq: bool)

  /** The state reset leaves: every pointer and counter zero, the direction disabled. */
  function Idle(doneIrq: bool): Channel
  {
    Channel(0, 0, 0, 0, false, doneIrq)
  }

  /** leftToWrite, and the older driver's leftToRead: the current count, plus the next one when asked. */
  function Left(c: Channel, includeNext: bool): Uint32
  {
    if includeNext then Add32(c.count, c.nextCount) else c.count
  }

  /** leftToRead: nothing is pending while RPR is zero. */
  function LeftToRead(c: Channel, includeNext: bool): Uint32
  {
    if c.ptr == 0 then 0 else Left(c, includeNext)
  }

  /** leftToReadNext: nothing is queued while RNPR is zero. */
  function LeftToReadNext(c: Channel): Uint32
  {
    if c.nextPtr == 0 then 0 else c.nextCount
  }

  predicate DoneReading(c: Channel)
  {
    LeftToRead(c, false) == 0
  }

  predicate DoneReadingNext(c: Channel)
  {
    LeftToReadNext(c) == 0
  }

  /** A receive is done when no buffer is set or its counter has run out. */
  lemma DoneReadingMeaning(c: Channel)
    ensures DoneReading(c) <==> c.ptr == 0 || c.count == 0
    ensures DoneReadingNext(c) <==> c.nextPtr == 0 || c.nextCount == 0
  {
  }

  /**
   * Counting the next slot too, nothing is left exactly when both counters
   * are zero (the counters being small enough not to wrap when added).
   */
  lemma LeftIncludingNext(c: Channel)
    requires c.count + c.nextCount < Modulus32
    ensures Left(c, true) == 0 <==> c.count == 0 && c.nextCount == 0
    ensures Left(c, true) == Left(c, false) + c.nextCount
    ensures c.ptr != 0 ==> LeftToRead(c, true) == Left(c, true)
  {
  }

  /** After a reset or a flush, nothing is left in either slot. */
  lemma IdleIsDone(irq: bool, includeNext: bool)
    ensures LeftToRead(Idle(irq), includeNext) == 0 && Left(Idle(irq), includeNext) == 0
    ensures DoneReading(Idle(irq)) && DoneReadingNext(Idle(irq))
  {
  }

  /** flushRead: both receive counters cleared, the pointers kept. */
  function Flushed(c: Channel): (r: Channel)
    ensures r.ptr == c.ptr && r.nextPtr == c.nextPtr
    ensures r.enabled == c.enabled && r.doneIrq == c.doneIrq
    ensures forall includeNext: bool :: LeftToRead(r, includeNext) == 0 && Left(r, includeNext) == 0
  {
    c.(count := 0, nextCount := 0)
  }

  // ---------------------------------------------------------------- starting a transfer on a two-slot channel

  /** What a start does: the channel afterwards and the answer returned. */
  datatype Outcome = Outcome(channel: Channel, ok: bool)

  /**
   * The two-slot start shared by SamDMAPDC.h's startTXTransfer and both
   * directions of SamDMA.h: when the current counter has run out, the buffer
   * becomes the current transfer and it starts if it is not empty;
   * otherwise, when asked and the next slot is free, the buffer is queued
   * there; otherwise nothing happens. `alwaysStop` says that the done
   * interrupt is switched off before the registers are written whatever
   * `handleInterrupts` says (SamDMAPDC.h does so, SamDMA.h only when
   * handling interrupts).
   */
  function StartSlot(c: Channel, buffer: Uint32, length: Uint32, handleInterrupts: bool,
                     includeNext: bool, alwaysStop: bool): Outcome
  {
    if Left(c, false) == 0 then
      var irq := if alwaysStop || handleInterrupts then false else c.doneIrq;
      var written := c.(ptr := buffer, count := length);
      if length != 0 then Outcome(written.(enabled := true, doneIrq := handleInterrupts || irq), true)
      else Outcome(written.(doneIrq := irq), false)
    else if includeNext && c.nextCount == 0 then
      Outcome(c.(nextPtr := buffer, nextCount := length), true)
    else
      Outcome(c, false)
  }

  /** The buffer is the channel's current transfer, running, or its queued next one. */
  predicate Queued(c: Channel, buffer: Uint32, length: Uint32)
  {
    || (c.enabled && c.ptr == buffer && c.count == length)
    || (c.nextPtr == buffer && c.nextCount == length)
  }

  /**
   * A start succeeds exactly when the channel is idle and the buffer is not
   * empty, or the channel is busy and a requested next slot is free; then
   * the buffer is queued and the other slot kept. A refused start queues
   * nothing: the counters and the enable are as they were.
   */
  lemma StartSlotMeaning(c: Channel, buffer: Uint32, length: Uint32, handleInterrupts: bool,
                         includeNext: bool, alwaysStop: bool)
    ensures var o := StartSlot(c, buffer, length, handleInterrupts, includeNext, alwaysStop);
      && (o.ok <==> (c.count == 0 && length != 0) || (c.count != 0 && includeNext && c.nextCount == 0))
      && (o.ok ==> Queued(o.channel, buffer, length))
      && (o.ok && c.count == 0 ==> o.channel.nextPtr == c.nextPtr && o.channel.nextCount == c.nextCount)
      && (o.ok && c.count != 0 ==> o.channel.ptr == c.ptr && o.channel.count == c.count && o.channel.enabled == c.enabled)
      && (!o.ok ==> o.channel.count == c.count && o.channel.nextCount == c.nextCount && o.channel.enabled == c.enabled)
  {
  }

  /** A transfer started with interrupts handled has its done interrupt on. */
  lemma StartSlotInterrupts(c: Channel, buffer: Uint32, length: Uint32, includeNext: bool, alwaysStop: bool)
    ensures var o := StartSlot(c, buffer, length, true, includeNext, alwaysStop);
      o.ok && c.count == 0 ==> o.channel.doneIrq
    ensures var o := StartSlot(c, buffer, length, false, includeNext, true);
      c.count == 0 ==> !o.channel.doneIrq
  {
  }

  // ---------------------------------------------------------------- SamDMAPDC.h's receive start

  /** The branch startRXTransfer takes. */
  datatype RxPlan = Refused | Fresh | Extend | Next | Busy

  /** The end of the buffer, as a 32-bit address. */
  function End(buffer: Uint32, length: Uint32): Uint32
  {
    Add32(buffer, length)
  }

  /** The receive pointer lies inside the buffer: the running receive is into it. */
  predicate Overlaps(c: Channel, buffer: Uint32, length: Uint32)
  {
    buffer <= c.ptr < End(buffer, length)
  }

  function PlanRx(c: Channel, buffer: Uint32, length: Uint32, includeNext: bool): RxPlan
  {
    if length == 0 then Refused
    else if DoneReading(c) then Fresh
    else if Overlaps(c, buffer, length) then Extend
    else if includeNext && DoneReadingNext(c) then Next
    else Busy
  }

  /**
   * The index of the position the extension loop settles on: reading the
   * receive pointer again shows no advance past it (or the hardware's
   * reports end, after which it stays put).
   */
  function Settled(positions: seq<Uint32>): (k: nat)
    requires |positions| > 0
    ensures k < |positions|
    ensures k + 1 == |positions| || positions[k + 1] <= positions[k]
    ensures forall j :: 0 <= j < k ==> positions[j] < positions[j + 1]
  {
    if |positions| == 1 || positions[1] <= positions[0] then 0 else 1 + Settled(positions[1..])
  }

  /**
   * startRXTransfer's effect on the receive registers. `positions` are the
   * successive values of RPR that the extension loop reads.
   */
  function StartRx(c: Channel, buffer: Uint32, length: Uint32, handleInterrupts: bool,
                   includeNext: bool, positions: seq<Uint32>): Channel
    requires |positions| > 0
  {
    match PlanRx(c, buffer, length, includeNext)
    case Fresh =>
      c.(ptr := buffer, count := length, enabled := true, doneIrq := handleInterrupts || c.doneIrq)
    case Extend =>
      var p := positions[Settled(positions)];
      c.(ptr := p, count := Sub32(End(buffer, length), p), enabled := true,
         doneIrq := handleInterrupts || c.doneIrq)
    case Next =>
      c.(nextPtr := buffer, nextCount := length)
    case _ => c
  }

  /** An empty buffer is refused and nothing changes. */
  lemma StartRxEmpty(c: Channel, buffer: Uint32, handleInterrupts: bool, includeNext: bool, positions: seq<Uint32>)
    requires |positions| > 0
    ensures StartRx(c, buffer, 0, handleInterrupts, includeNext, positions) == c
  {
  }

  /**
   * On an idle receiver the buffer becomes the running receive, and
   * leftToRead then reports its whole length.
   */
  lemma StartRxFresh(c: Channel, buffer: Uint32, length: Uint32, handleInterrupts: bool,
                     includeNext: bool, positions: seq<Uint32>)
    requires |positions| > 0 && 0 < length && DoneReading(c) && buffer != 0
    ensures var r := StartRx(c, buffer, length, handleInterrupts, includeNext, positions);
      r.enabled && r.ptr == buffer && LeftToRead(r, false) == length
      && r.nextPtr == c.nextPtr && r.nextCount == c.nextCount
  {
  }

  /**
   * Extending a receive already running into the buffer: when the pointer
   * stays inside the buffer, the new count is what remains of the buffer
   * from the settled pointer, so the receive still ends exactly at the
   * buffer's end.
   */
  lemma StartRxExtendKeepsEnd(c: Channel, buffer: Uint32, length: Uint32, handleInterrupts: bool,
                              includeNext: bool, positions: seq<Uint32>)
    requires |positions| > 0 && 0 < length && !DoneReading(c) && Overlaps(c, buffer, length)
    requires buffer + length < Modulus32
    requires forall i :: 0 <= i < |positions| ==> buffer <= positions[i] <= buffer + length
    ensures var r := StartRx(c, buffer, length, handleInterrupts, includeNext, positions);
      r.enabled && r.ptr + r.count == buffer + length && r.count <= length
      && r.nextPtr == c.nextPtr && r.nextCount == c.nextCount
  {
    var k := Settled(positions);
    assert buffer <= positions[k] <= buffer + length;
  }

  /**
   * A receive that is busy with another buffer, asked to use a free next
   * slot, queues the buffer there and leaves the running receive alone.
   */
  lemma StartRxNext(c: Channel, buffer: Uint32, length: Uint32, handleInterrupts: bool, positions: seq<Uint32>)
    requires |positions| > 0 && 0 < length && !DoneReading(c) && !Overlaps(c, buffer, length)
    requires DoneReadingNext(c)
    ensures var r := StartRx(c, buffer, length, handleInterrupts, true, positions);
      r.nextPtr == buffer && LeftToReadNext(r) == (if buffer == 0 then 0 else length)
      && r.ptr == c.ptr && r.count == c.count && r.enabled == c.enabled
  {
  }

  /**
   * Busy with another buffer and no next slot to use, startRXTransfer sets
   * nothing up, although it still answers true (its answer is `length > 0`
   * on every path).
   */
  lemma StartRxBusyChangesNothing(c: Channel, buffer: Uint32, length: Uint32, handleInterrupts: bool,
                                  includeNext: bool, positions: seq<Uint32>)
    requires |positions| > 0 && 0 < length && !DoneReading(c) && !Overlaps(c, buffer, length)
    requires !(includeNext && DoneReadingNext(c))
    ensures StartRx(c, buffer, length, handleInterrupts, includeNext, positions) == c
    ensures !Queued(c, buffer, length) ==> !Queued(StartRx(c, buffer, length, handleInterrupts, includeNext, positions), buffer, length)
  {
  }

  /** A concrete busy case: RPR 0x20001000 with 4 bytes to go, a new 8-byte buffer at 0x20002000. */
  lemma StartRxBusyExample()
    ensures var c := Channel(0x2000_1000, 4, 0, 0, true, true);
      PlanRx(c, 0x2000_2000, 8, false) == Busy
      && StartRx(c, 0x2000_2000, 8, true, false, [0x2000_1000]) == c
  {
  }

  /**
   * The extension loop of startRXTransfer: the counter is recomputed as the
   * distance from each read position to the buffer's end, until a read
   * shows no advance. Returns the settled position and its counter.
   */
  method SettlePosition(end: Uint32, positions: seq<Uint32>) returns (pos: Uint32, count: Uint32)
    requires |positions| > 0
    ensures pos == positions[Settled(positions)]
    ensures count == Sub32(end, pos)
  {
    var k := 0;
    count := Sub32(end, positions[0]);
    while k + 1 < |positions| && positions[k + 1] > positions[k]
      invariant 0 <= k < |positions|
      invariant k + Settled(positions[k..]) == Settled(positions)
      invariant count == Sub32(end, positions[k])
      decreases |positions| - k
    {
      assert positions[k..][1..] == positions[k + 1..];
      k := k + 1;
      count := Sub32(end, positions[k]);
    }
    assert Settled(positions[k..]) == 0;
    pos := positions[k];
  }

  // ---------------------------------------------------------------- the PDC register block

  class Pdc {
    var rpr: Uint32
    var rcr: Uint32
    var rnpr: Uint32
    var rncr: Uint32
    var rxEnabled: bool
    var rxDoneIrq: bool
    var tpr: Uint32
    var tcr: Uint32
    var tnpr: Uint32
    var tncr: Uint32
    var txEnabled: bool
    var txDoneIrq: bool

    function Rx(): Channel
      reads this
    {
      Channel(rpr, rcr, rnpr, rncr, rxEnabled, rxDoneIrq)
    }

    function Tx(): Channel
      reads this
    {
      Channel(tpr, tcr, tnpr, tncr, txEnabled, txDoneIrq)
    }

    /** The registers as a fresh peripheral leaves them. */
    constructor ()
      ensures Rx() == Idle(false) && Tx() == Idle(false)
    {
      rpr, rcr, rnpr, rncr, rxEnabled, rxDoneIrq := 0, 0, 0, 0, false, false;
      tpr, tcr, tnpr, tncr, txEnabled, txDoneIrq := 0, 0, 0, 0, false, false;
    }

    /** reset: both directions disabled, every pointer and counter zeroed. */
    method Reset()
      modifies this
      ensures Rx() == Idle(old(rxDoneIrq)) && Tx() == Idle(old(txDoneIrq))
    {
      rxEnabled, txEnabled := false, false;
      rpr, rnpr, rcr, rncr := 0, 0, 0, 0;
      tpr, tnpr, tcr, tncr := 0, 0, 0, 0;
    }

    /** setInterrupts: this driver handles none, so both done interrupts are switched off. */
    method SetInterrupts()
      modifies this
      ensures Rx() == old(Rx()).(doneIrq := false) && Tx() == old(Tx()).(doneIrq := false)
    {
      rxDoneIrq, txDoneIrq := false, false;
    }

    /** flushRead: both receive counters cleared. */
    method FlushRead()
      modifies this
      ensures Rx() == Flushed(old(Rx())) && Tx() == old(Tx())
    {
      rncr, rcr := 0, 0;
    }

    /**
     * SamDMAPDC.h's startRXTransfer. When the buffer overlaps the running
     * receive, RCR is recomputed from each read of RPR until a read shows
     * no advance; `positions` are the values those reads return (the read
     * that tests for an advance and the next read that saves the position
     * are taken to see the same value).
     */
    method StartRxTransfer(buffer: Uint32, length: Uint32, handleInterrupts: bool, includeNext: bool,
                           positions: seq<Uint32>) returns (ok: bool)
      requires |positions| > 0
      modifies this
      ensures Rx() == StartRx(old(Rx()), buffer, length, handleInterrupts, includeNext, positions)
      ensures ok == (length > 0)
      ensures Tx() == old(Tx())
    {
      var plan := PlanRx(Rx(), buffer, length, includeNext);
      if plan == Fresh {
        rxDoneIrq := handleInterrupts || rxDoneIrq;
        rpr, rcr := buffer, length;
        rxEnabled := true;
      } else if plan == Extend {
        rxDoneIrq := handleInterrupts || rxDoneIrq;
        var pos, count := SettlePosition(End(buffer, length), positions);
        rpr, rcr := pos, count;
        rxEnabled := true;
      } else if plan == Next {
        rnpr, rncr := buffer, length;
      }
      ok := length > 0;
    }

    /** SamDMAPDC.h's startTXTransfer: the two-slot start, its interrupt always stopped first. */
    method StartTxTransfer(buffer: Uint32, length: Uint32, handleInterrupts: bool, includeNext: bool)
      returns (ok: bool)
      modifies this
      ensures var o := StartSlot(old(Tx()), buffer, length, handleInterrupts, includeNext, true);
        Tx() == o.channel && ok == o.ok
      ensures Rx() == old(Rx())
    {
      if tcr == 0 {
        txDoneIrq := false;
        tpr, tcr := buffer, length;
        if length != 0 {
          txDoneIrq := handleInterrupts;
          txEnabled := true;
          ok := true;
        } else {
          ok := false;
        }
      } else if includeNext && tncr == 0 {
        tnpr, tncr := buffer, length;
        ok := true;
      } else {
        ok := false;
      }
    }

    /** SamDMA.h's startRXTransfer: the two-slot start on the receive registers. */
    method StartRxTransferLegacy(buffer: Uint32, length: Uint32, handleInterrupts: bool, includeNext: bool)
      returns (ok: bool)
      modifies this
      ensures var o := StartSlot(old(Rx()), buffer, length, handleInterrupts, includeNext, false);
        Rx() == o.channel && ok == o.ok
      ensures Tx() == old(Tx())
    {
      if rcr == 0 {
        if handleInterrupts { rxDoneIrq := false; }
        rpr, rcr := buffer, length;
        if length != 0 {
          if handleInterrupts { rxDoneIrq := true; }
          rxEnabled := true;
          ok := true;
        } else {
          ok := false;
        }
      } else if includeNext && rncr == 0 {
        rnpr, rncr := buffer, length;
        ok := true;
      } else {
        ok := false;
      }
    }

    /** SamDMA.h's startTXTransfer: the two-slot start on the transmit registers. */
    method StartTxTransferLegacy(buffer: Uint32, length: Uint32, handleInterrupts: bool, includeNext: bool)
      returns (ok: bool)
      modifies this
      ensures var o := StartSlot(old(Tx()), buffer, length, handleInterrupts, includeNext, false);
        Tx() == o.channel && ok == o.ok
      ensures Rx() == old(Rx())
    {
      if tcr == 0 {
        if handleInterrupts { txDoneIrq := false; }
        tpr, tcr := buffer, length;
        if length != 0 {
          if handleInterrupts { txDoneIrq := true; }
          txEnabled := true;
          ok := true;
        } else {
          ok := false;
        }
      } else if includeNext && tncr == 0 {
        tnpr, tncr := buffer, length;
        ok := true;
      } else {
        ok := false;
      }
    }
  }

  // ---------------------------------------------------------------- SamDMA.h's XDMAC stub

  /**
   * The XDMAC stand-in of SamDMA.h writes no register and its counters
   * always read 0, so every start takes the idle branch: it answers as the
   * two-slot start does on an idle channel, true exactly for a non-empty
   * buffer, and sets nothing up.
   */
  function StubStartTransfer(buffer: Uint32, length: Uint32, handleInterrupts: bool, includeNext: bool): (ok: bool)
    ensures ok == StartSlot(Idle(false), buffer, length, handleInterrupts, includeNext, false).ok
    ensures ok <==> length != 0
  {
    length != 0
  }
}
