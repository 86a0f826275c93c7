// The SAM XDMAC driver of SamDMAXDMAC.h: the list through which each
// transmit and receive half claims a channel number, the transmit
// handler's cause, and the transmit and receive starts on one channel's
// registers (CSA, CDA and the microblock counter CUBC). The positions the
// hardware reports while a receive is being extended are a parameter.

module SamXdmac {

  import opened Wrappers
  import MotateCommon
  import SamDma

  type Uint32 = SamDma.Uint32

  /** An 8-bit channel number, wrapping as `uint8_t` does. */
  type Uint8 = n: int | 0 <= n < 0x100

  // ---------------------------------------------------------------- channel registration

  /** A linked _XDMACInterrupt: its channel number and channel mask. */
  datatype Entry = Entry(channel: Uint8, mask: bv32)

  /**
   * `(uint32_t)(1 << channel)`. A shift of 32 or more is undefined in C++;
   * the model gives it no bit.
   */
  function ChannelMask(channel: Uint8): (m: bv32)
    ensures channel < 32 ==> m != 0 && m & (m - 1) == 0
  {
    if channel < 32 then (1 as bv32) << channel else 0
  }

  /** The largest channel number among `from` and the entries' channels. */
  function MaxChannel(from: Uint8, entries: seq<Entry>): (m: Uint8)
    ensures from <= m
    ensures forall i :: 0 <= i < |entries| ==> entries[i].channel <= m
  {
    if |entries| == 0 then from
    else
      var m := MaxChannel(from, entries[..|entries| - 1]);
      var c := entries[|entries| - 1].channel;
      if c <= m then m else c
  }

  /**
   * The channel a new registration takes as written: the first takes 0; a
   * later one walks from the second entry to the tail keeping the largest
   * channel seen, starting from `initial`, and takes one more (in 8 bits).
   * `channel_num` is never initialised before the walk, so `initial` is
   * whatever the object's storage held.
   */
  function ChannelAsWritten(entries: seq<Entry>, initial: Uint8): Uint8
  {
    if |entries| == 0 then 0 else (MaxChannel(initial, entries[1..]) + 1) % 0x100
  }

  /** The channel with the walk starting from 0. */
  function Channel(entries: seq<Entry>): Uint8
  {
    ChannelAsWritten(entries, 0)
  }

  /** Channels are handed out in order: the i-th entry has channel i and its mask. */
  predicate Numbered(entries: seq<Entry>)
  {
    forall i :: 0 <= i < |entries| ==> entries[i].channel == i && entries[i].mask == ChannelMask(i)
  }

  lemma {:induction false} MaxOfNumbered(entries: seq<Entry>, offset: nat)
    requires forall i :: 0 <= i < |entries| ==> entries[i].channel == i + offset
    requires 0 < |entries|
    ensures MaxChannel(0, entries) == |entries| - 1 + offset
  {
    if |entries| > 1 {
      MaxOfNumbered(entries[..|entries| - 1], offset);
    }
  }

  /**
   * A garbage start can hand out a channel already taken: with one entry
   * (channel 0) and storage holding 255, the second registration wraps to
   * channel 0 as well.
   */
  lemma ChannelAsWrittenCollides()
    ensures var entries := [Entry(0, 1)];
      ChannelAsWritten(entries, 255) == 0 == entries[0].channel
  {
  }

  /**
   * Starting from 0, the n-th registration (fewer than 256) takes channel n,
   * one that no entry has.
   */
  lemma ChannelIsNext(entries: seq<Entry>)
    requires Numbered(entries) && |entries| < 0x100
    ensures Channel(entries) == |entries|
    ensures forall i :: 0 <= i < |entries| ==> entries[i].channel != Channel(entries)
  {
    if |entries| > 1 {
      MaxOfNumbered(entries[1..], 1);
    }
  }

  /** The list of registered interrupts, head first, and the registration walk. */
  class Registry {
    var entries: seq<Entry>

    constructor ()
      ensures entries == []
    {
      entries := [];
    }

    /**
     * Constructing an _XDMACInterrupt: one without a handler is not linked;
     * otherwise it is appended at the tail with the next channel and its
     * mask. The walk starts its `channel_num` at 0.
     */
    method Register(hasHandler: bool) returns (r: Option<Entry>)
      modifies this
      ensures !hasHandler ==> r == None && entries == old(entries)
      ensures hasHandler ==> var ch := Channel(old(entries));
        r == Some(Entry(ch, ChannelMask(ch))) && entries == old(entries) + [r.value]
      ensures old(Numbered(entries)) && old(|entries|) < 0x100 ==> Numbered(entries)
    {
      if !hasHandler {
        r := None;
      } else if |entries| == 0 {
        r := Some(Entry(0, ChannelMask(0)));
        entries := [r.value];
      } else {
        var channel: Uint8 := 0;
        var i := 1;
        while i < |entries|
          invariant 1 <= i <= |entries|
          invariant channel == MaxChannel(0, entries[1..i])
        {
          assert entries[1..i + 1][..i - 1] == entries[1..i];
          if channel < entries[i].channel {
            channel := entries[i].channel;
          }
          i := i + 1;
        }
        assert entries[1..i] == entries[1..];
        channel := (channel + 1) % 0x100;
        r := Some(Entry(channel, ChannelMask(channel)));
        if Numbered(entries) && |entries| < 0x100 {
          ChannelIsNext(entries);
        }
        entries := entries + [r.value];
      }
    }
  }

  // ---------------------------------------------------------------- the interrupt handlers' causes

  /**
   * The transmit handler's cause as written: the block-done status sets it
   * to OnTxTransferDone, the write-bus error ORs in OnTxError, but without
   * block-done the cause keeps whatever `initial` its storage held.
   */
  function TxCauseAsWritten(blockDone: bool, busError: bool, initial: MotateCommon.InterruptType): MotateCommon.InterruptType
  {
    var cause := if blockDone then MotateCommon.Mask(MotateCommon.TxTransferDone) else initial;
    if busError then MotateCommon.WithFlag(cause, MotateCommon.TxError) else cause
  }

  /** Without either status bit, a stale storage value is reported as a receive-done cause. */
  lemma TxCauseAsWrittenStale()
    ensures var v := TxCauseAsWritten(false, false, MotateCommon.Mask(MotateCommon.RxDone));
      MotateCommon.IsSet(v, MotateCommon.RxDone)
  {
  }

  /** The transmit handler's cause built from nothing. */
  function TxCause(blockDone: bool, busError: bool): (v: MotateCommon.InterruptType)
    ensures MotateCommon.IsSet(v, MotateCommon.TxTransferDone) <==> blockDone
    ensures MotateCommon.IsSet(v, MotateCommon.TxError) <==> busError
    ensures forall e :: e != MotateCommon.TxTransferDone && e != MotateCommon.TxError ==> !MotateCommon.IsSet(v, e)
  {
    var cause := if blockDone then MotateCommon.WithFlag(MotateCommon.Off, MotateCommon.TxTransferDone) else MotateCommon.Off;
    if busError then MotateCommon.WithFlag(cause, MotateCommon.TxError) else cause
  }

  /** With the block-done status set, the cause as written is the one built from nothing. */
  lemma TxCauseAgrees(busError: bool, initial: MotateCommon.InterruptType)
    ensures TxCauseAsWritten(true, busError, initial) == TxCause(true, busError)
  {
  }

  // ---------------------------------------------------------------- one channel's transfer registers

  /**
   * One XDMAC channel: source and destination addresses, the microblock
   * counter, whether the channel is enabled and whether its block
   * interrupt is on.
   */
  datatype ChannelState = ChannelState(source: Uint32, dest: Uint32, count: Uint32, enabled: bool, doneIrq: bool)

  /** doneReading / doneWriting: the microblock counter has run out. */
  predicate Done(x: ChannelState)
  {
    x.count == 0
  }

  /** What a transmit start does: the channel afterwards and the answer returned. */
  datatype TxOutcome = TxOutcome(state: ChannelState, ok: bool)

  /**
   * startTXTransfer: only an idle channel takes the buffer; it is disabled,
   * given the buffer as its source and counter, and enabled again when the
   * buffer is not empty.
   */
  function StartTx(x: ChannelState, buffer: Uint32, length: Uint32, handleInterrupts: bool): TxOutcome
  {
    if Done(x) then
      var irq := if handleInterrupts then false else x.doneIrq;
      var written := x.(source := buffer, count := length, enabled := false, doneIrq := irq);
      if length != 0 then TxOutcome(written.(enabled := true, doneIrq := handleInterrupts || irq), true)
      else TxOutcome(written, false)
    else TxOutcome(x, false)
  }

  /**
   * A transmit starts exactly when the channel is idle and the buffer is
   * not empty, and then runs over the buffer; an empty buffer leaves an
   * idle channel disabled; a busy channel is left alone.
   */
  lemma StartTxMeaning(x: ChannelState, buffer: Uint32, length: Uint32, handleInterrupts: bool)
    ensures var o := StartTx(x, buffer, length, handleInterrupts);
      && (o.ok <==> Done(x) && length != 0)
      && (o.ok ==> o.state.source == buffer && o.state.count == length && o.state.enabled
                   && o.state.dest == x.dest && (handleInterrupts ==> o.state.doneIrq))
      && (Done(x) && length == 0 ==> !o.state.enabled && Done(o.state))
      && (!Done(x) ==> o.state == x)
  {
  }

  /**
   * startRXTransfer's effect: an empty buffer changes nothing; an idle
   * channel is given the buffer as destination and counter and enabled; a
   * channel whose destination pointer lies inside the buffer is extended,
   * its counter recomputed from the settled position to the buffer's end;
   * any other channel is left alone.
   */
  function StartRx(x: ChannelState, buffer: Uint32, length: Uint32, handleInterrupts: bool,
                   positions: seq<Uint32>): ChannelState
    requires |positions| > 0
  {
    var end := SamDma.End(buffer, length);
    if length == 0 then x
    else if Done(x) then
      x.(dest := buffer, count := length, enabled := true, doneIrq := handleInterrupts || x.doneIrq)
    else if buffer <= x.dest < end then
      var p := positions[SamDma.Settled(positions)];
      x.(dest := p, count := SamDma.Sub32(end, p), enabled := true, doneIrq := handleInterrupts || x.doneIrq)
    else x
  }

  /**
   * On an idle channel the buffer becomes the running receive; an extended
   * receive still ends exactly at the buffer's end while the hardware's
   * position stays inside the buffer; otherwise the channel is unchanged.
   */
  lemma StartRxMeaning(x: ChannelState, buffer: Uint32, length: Uint32, handleInterrupts: bool,
                       positions: seq<Uint32>)
    requires |positions| > 0
    ensures var r := StartRx(x, buffer, length, handleInterrupts, positions);
      && (length == 0 ==> r == x)
      && (length != 0 && Done(x) ==> r.dest == buffer && r.count == length && r.enabled && r.source == x.source)
      && (length != 0 && !Done(x) && !(buffer <= x.dest < SamDma.End(buffer, length)) ==> r == x)
    ensures length != 0 && !Done(x) && buffer <= x.dest && buffer + length < SamDma.Modulus32
      && x.dest < buffer + length
      && (forall i :: 0 <= i < |positions| ==> buffer <= positions[i] <= buffer + length)
      ==> var r := StartRx(x, buffer, length, handleInterrupts, positions);
          r.enabled && r.dest + r.count == buffer + length && r.count <= length
  {
    var k := SamDma.Settled(positions);
    assert buffer + length < SamDma.Modulus32 && (forall i :: 0 <= i < |positions| ==> buffer <= positions[i] <= buffer + length)
      ==> buffer <= positions[k] <= buffer + length;
  }

  /** The registers of one channel. */
  class XdmacChannel {
    var csa: Uint32
    var cda: Uint32
    var cubc: Uint32
    var enabled: bool
    var doneIrq: bool

    function State(): ChannelState
      reads this
    {
      ChannelState(csa, cda, cubc, enabled, doneIrq)
    }

    /** flushRead: the microblock counter cleared, so the channel reads as done. */
    method FlushRead()
      modifies this
      ensures State() == old(State()).(count := 0) && Done(State())
    {
      cubc := 0;
    }

    /** startTXTransfer on this channel. */
    method StartTxTransfer(buffer: Uint32, length: Uint32, handleInterrupts: bool) returns (ok: bool)
      modifies this
      ensures var o := StartTx(old(State()), buffer, length, handleInterrupts);
        State() == o.state && ok == o.ok
    {
      ok := false;
      if cubc == 0 {
        enabled := false;
        if handleInterrupts { doneIrq := false; }
        csa, cubc := buffer, length;
        if length != 0 {
          if handleInterrupts { doneIrq := true; }
          enabled := true;
          ok := true;
        }
      }
    }

    /**
     * startRXTransfer on this channel; `positions` are the values the
     * extension loop reads from CDA. Every non-empty buffer is answered
     * true, including when nothing was set up: the next-slot branch's
     * setNextRx writes nothing.
     */
    method StartRxTransfer(buffer: Uint32, length: Uint32, handleInterrupts: bool, includeNext: bool,
                           positions: seq<Uint32>) returns (ok: bool)
      requires |positions| > 0
      modifies this
      ensures State() == StartRx(old(State()), buffer, length, handleInterrupts, positions)
      ensures ok == (length > 0)
    {
      var end := SamDma.End(buffer, length);
      if length == 0 {
      } else if cubc == 0 {
        enabled := false;
        cda, cubc := buffer, length;
        enabled := true;
        doneIrq := handleInterrupts || doneIrq;
      } else if buffer <= cda < end {
        var pos, count := SamDma.SettlePosition(end, positions);
        cda, cubc := pos, count;
        enabled := true;
        doneIrq := handleInterrupts || doneIrq;
      }
      ok := length > 0;
    }
  }
}
