// The processor-independent UART front end: the byte-writing loops, the
// receive start that first drains the overflow buffer, and the interrupt
// handler. The hardware is a parameter: every answer of writeByte and of
// startRXTransfer and the CTS level are inputs, and every effect on the
// hardware (bytes taken, flushes, transfers started, interrupt enables, the
// software RTS pin) is recorded in a field. Callbacks are recorded as calls.

module MotateUart {

  import opened Wrappers

  type Byte = b: int | 0 <= b < 0x100

  // ---------------------------------------------------------------- int16_t

  const Modulus16: int := 0x1_0000

  /**
   * The value an int16_t holds after being assigned n: two's complement
   * wrap-around, for the range the counters of this file reach.
   */
  function Int16(n: int): (r: int)
    requires -Modulus16 <= n <= Modulus16
    ensures -0x8000 <= r < 0x8000
    ensures r == n || r == n - Modulus16 || r == n + Modulus16
  {
    if n < -0x8000 then n + Modulus16
    else if n < 0x8000 then n
    else n - Modulus16
  }

  // ---------------------------------------------------------------- what a write sends

  /** The index of the first NUL byte of a string. */
  function NulAt(data: seq<Byte>): (k: nat)
    requires 0 in data
    ensures k < |data| && data[k] == 0
    ensures forall j :: 0 <= j < k ==> data[j] != 0
    decreases |data|
  {
    if data[0] == 0 then 0
    else
      assert data == [data[0]] + data[1..];
      NulAt(data[1..]) + 1
  }

  /** How many of the first `limit` answers are acceptances before the first refusal. */
  function Accepted(ready: seq<bool>, limit: nat): (k: nat)
    requires limit <= |ready|
    ensures k <= limit
    ensures forall j :: 0 <= j < k ==> ready[j]
    ensures k < limit ==> !ready[k]
  {
    if limit == 0 || !ready[0] then 0 else 1 + Accepted(ready[1..], limit - 1)
  }

  /** The number of refusals among the answers. */
  function Refusals(ready: seq<bool>): (r: nat)
    ensures r <= |ready|
    ensures r == 0 <==> forall j :: 0 <= j < |ready| ==> ready[j]
  {
    if ready == [] then 0 else (if ready[0] then 0 else 1) + Refusals(ready[1..])
  }

  lemma {:induction false} RefusalsAppend(a: seq<bool>, b: bool)
    ensures Refusals(a + [b]) == Refusals(a) + if b then 0 else 1
  {
    if a != [] {
      assert (a + [b])[1..] == a[1..] + [b];
      RefusalsAppend(a[1..], b);
    } else {
      assert [b][1..] == [];
    }
  }

  /** Counting the refusals among the first i + 1 answers. */
  lemma RefusalsStep(ready: seq<bool>, i: nat)
    requires i < |ready|
    ensures Refusals(ready[..i + 1]) == Refusals(ready[..i]) + if ready[i] then 0 else 1
  {
    assert ready[..i + 1] == ready[..i] + [ready[i]];
    RefusalsAppend(ready[..i], ready[i]);
  }

  /**
   * How many bytes a write loop hands to the hardware. `limit` is where the
   * loop would stop if every byte were taken; `open` says the requested
   * length was 0, so the int16_t count starts at 0 and a refused first byte
   * ends the do-while at once, even with autoFlush. ready[k] is whether the
   * hardware takes byte k at the first attempt; after a flush the transmit
   * register is empty, so a retried byte is always taken.
   */
  function Transmitted(limit: nat, open: bool, autoFlush: bool, ready: seq<bool>): (n: nat)
    requires limit <= |ready|
    ensures n <= limit
    ensures !autoFlush ==> forall j :: 0 <= j < n ==> ready[j]
    ensures !autoFlush && n < limit ==> !ready[n]
    ensures autoFlush && n < limit ==> open && n == 0 && !ready[0]
  {
    if limit == 0 || (open && !ready[0]) then 0
    else if autoFlush then limit
    else Accepted(ready, limit)
  }

  /** A write loop that has sent `out` bytes and has to stop there has sent them all. */
  lemma TransmittedStops(limit: nat, open: bool, autoFlush: bool, ready: seq<bool>, out: nat)
    requires limit <= |ready| && out <= Transmitted(limit, open, autoFlush, ready)
    requires out == limit || (out < limit && !autoFlush && !ready[out]) || (autoFlush && open && out == 0 && !ready[0])
    ensures out == Transmitted(limit, open, autoFlush, ready)
  {
  }

  /** A write loop that has sent `out` bytes and has byte `out` taken goes on to send it. */
  lemma TransmittedContinues(limit: nat, open: bool, autoFlush: bool, ready: seq<bool>, out: nat)
    requires out < limit <= |ready| && out <= Transmitted(limit, open, autoFlush, ready)
    requires ready[out] || autoFlush
    requires !(open && out == 0 && !ready[0])
    ensures out < Transmitted(limit, open, autoFlush, ready)
  {
  }

  /** The flushes a write loop makes while retrying refused bytes (without the final one). */
  function Retries(limit: nat, open: bool, autoFlush: bool, ready: seq<bool>): (r: nat)
    requires limit <= |ready|
    ensures !autoFlush ==> r == 0
    ensures autoFlush && (limit == 0 || forall j :: 0 <= j < limit ==> ready[j]) ==> r == 0
  {
    if !autoFlush || limit == 0 then 0
    else if open && !ready[0] then 1
    else Refusals(ready[..limit])
  }

  /** The bytes write(const char*, length) would send if the hardware took them all. */
  function WriteLimit(data: seq<Byte>, length: nat): (limit: nat)
    requires length > 0 ==> length <= |data|
    requires length == 0 ==> 0 in data
    requires length < Modulus16
    ensures limit <= |data| && limit <= Modulus16
    ensures length == 0 ==> forall j :: 0 <= j < limit ==> data[j] != 0
  {
    if length == 0 then (if NulAt(data) < Modulus16 then NulAt(data) else Modulus16)
    else length
  }

  /**
   * `limit` is where write(data, length) stops when every byte is taken: at
   * `length`, or with length 0 at the NUL or when the int16_t count of bytes
   * still to write comes back round to 0.
   */
  predicate StopsAt(data: seq<Byte>, length: nat, limit: nat) {
    limit <= |data| && limit <= Modulus16
    && (length > 0 ==> limit == length)
    && (length == 0 ==> limit < |data| && (forall j :: 0 <= j < limit ==> data[j] != 0) && (limit < Modulus16 ==> data[limit] == 0))
  }

  lemma WriteLimitStops(data: seq<Byte>, length: nat)
    requires length > 0 ==> length <= |data|
    requires length == 0 ==> 0 in data
    requires length < Modulus16
    ensures StopsAt(data, length, WriteLimit(data, length))
  {
  }

  /** The arguments write(const char*, length) can be called with. */
  predicate WriteArgs(data: seq<Byte>, length: nat, ready: seq<bool>) {
    length < Modulus16
    && (length > 0 ==> length <= |data|)
    && (length == 0 ==> 0 in data)
    && |data| <= |ready|
  }

  /** With a length, autoFlush sends exactly that many bytes, NULs included. */
  lemma WriteExact(data: seq<Byte>, length: nat, ready: seq<bool>)
    requires WriteArgs(data, length, ready) && length > 0
    ensures Transmitted(WriteLimit(data, length), false, true, ready) == length
  {
  }

  /** With length 0 the write stops before the NUL, and a refused first byte sends nothing. */
  lemma WriteStopsAtNul(data: seq<Byte>, autoFlush: bool, ready: seq<bool>)
    requires WriteArgs(data, 0, ready)
    ensures var n := Transmitted(WriteLimit(data, 0), true, autoFlush, ready);
      n <= NulAt(data) && (forall j :: 0 <= j < n ==> data[j] != 0)
      && (!ready[0] ==> n == 0)
      && (autoFlush && ready[0] && NulAt(data) < Modulus16 ==> n == NulAt(data))
  {
  }

  /** A write of more than 0x7FFF bytes reports a negative count, one of 0x10000 bytes reports 0. */
  lemma WriteCountWraps(data: seq<Byte>, ready: seq<bool>)
    requires WriteArgs(data, 0, ready) && NulAt(data) > Modulus16
    requires forall j :: 0 <= j < |ready| ==> ready[j]
    ensures Transmitted(WriteLimit(data, 0), true, false, ready) == Modulus16
    ensures Int16(Modulus16) == 0 && Int16(0x8000) == -0x8000
  {
  }

  /**
   * The bytes write(Buffer, length) would send if the hardware took them
   * all: it stops when the buffer is empty, and otherwise when the int16_t
   * count of bytes still to write reaches 0 (after `length` bytes, or after
   * 0x10000 when length is 0).
   */
  function BufferLimit(items: seq<Byte>, length: nat): (limit: nat)
    requires length < Modulus16
    ensures limit <= |items| && limit <= Modulus16
    ensures limit == |items| || limit == (if length == 0 then Modulus16 else length)
  {
    var stop := if length == 0 then Modulus16 else length;
    if |items| < stop then |items| else stop
  }

  /** The Buffer write sends a byte that its returned count never includes. */
  lemma BufferWriteSendsUncounted()
    ensures Transmitted(BufferLimit([65], 1), false, false, [true]) == 1
    ensures Transmitted(BufferLimit([65, 66], 0), true, true, [true, false]) == 2
  {
  }

  // ---------------------------------------------------------------- draining the overflow buffer

  /** How many buffered bytes startRXTransfer copies: it stops at length, at an empty buffer or at a 0 byte. */
  function Drained(overflow: seq<Byte>, length: nat): (k: nat)
    ensures k <= length && k <= |overflow|
    ensures forall j :: 0 <= j < k ==> overflow[j] != 0
    ensures k < length && k < |overflow| ==> overflow[k] == 0
  {
    if length == 0 || overflow == [] || overflow[0] == 0 then 0
    else 1 + Drained(overflow[1..], length - 1)
  }

  /** Past the first i bytes of a drain, the drain goes on exactly as Drained of the rest says. */
  lemma {:induction false} DrainedFrom(overflow: seq<Byte>, length: nat, i: nat)
    requires i <= Drained(overflow, length)
    ensures Drained(overflow, length) == i + Drained(overflow[i..], length - i)
  {
    if i > 0 {
      assert overflow[i..] == overflow[1..][i - 1..];
      DrainedFrom(overflow[1..], length - 1, i - 1);
    }
  }

  /** Bytes received after the buffered ones never shorten a drain, and do not change one that stopped early. */
  lemma {:induction false} DrainedGrows(overflow: seq<Byte>, more: seq<Byte>, length: nat)
    ensures Drained(overflow, length) <= Drained(overflow + more, length)
    ensures Drained(overflow, length) < |overflow| ==> Drained(overflow + more, length) == Drained(overflow, length)
    ensures Drained(overflow + more, length) <= Drained(overflow, length) + |more|
  {
    if length > 0 && overflow != [] && overflow[0] != 0 {
      assert (overflow + more)[1..] == overflow[1..] + more;
      DrainedGrows(overflow[1..], more, length - 1);
    } else if overflow == [] {
      assert overflow + more == more;
    }
  }

  /**
   * How many bytes the drain takes out of the buffer as written: the read in
   * the loop condition comes before the length test, so every pass, the
   * last included, consumes a byte when one is there.
   */
  function Consumed(overflow: seq<Byte>, length: nat): (c: nat)
    ensures c <= |overflow|
  {
    var k := Drained(overflow, length);
    if k < |overflow| then k + 1 else k
  }

  /** As written, a buffered byte beyond the request is read and discarded. */
  lemma ConsumedLosesByte()
    ensures Drained([65, 66], 1) == 1 && Consumed([65, 66], 1) == 2
    ensures Drained([65], 0) == 0 && Consumed([65], 0) == 1
  {
    assert Drained([66], 0) == 0;
    assert [65, 66][1..] == [66];
  }

  /** The drain with the length tested before the read: a byte is read only when there is room for it. */
  function ConsumedIntended(overflow: seq<Byte>, length: nat): (c: nat)
    ensures c <= |overflow|
  {
    var k := Drained(overflow, length);
    if k < length && k < |overflow| then k + 1 else k
  }

  /** With the intended order, every byte taken out of the buffer is stored, except a 0 byte that ends the drain. */
  lemma IntendedLosesNothing(overflow: seq<Byte>, length: nat)
    ensures var k := Drained(overflow, length);
      var c := ConsumedIntended(overflow, length);
      c == k || (c == k + 1 && overflow[k] == 0)
    ensures Drained(overflow, length) == length ==> ConsumedIntended(overflow, length) == length
  {
  }

  // ---------------------------------------------------------------- the interrupt cause

  /** The UARTInterrupt bits the generic handler tests. */
  datatype Cause = Cause(txReady: bool, rxReady: bool, txTransferDone: bool, rxTransferDone: bool, ctsChanged: bool)

  /** One hardware.startRXTransfer(buffer, length) call. */
  datatype RxRequest = RxRequest(at: nat, length: nat)

  /** A Motate::Buffer handed to write(Buffer&, ...): its bytes, next to send first. */
  class ByteQueue {
    var items: seq<Byte>

    constructor (items: seq<Byte>)
      ensures this.items == items
    {
      this.items := items;
    }
  }

  /**
   * UART: the front end over one hardware UART. `softRts` says the RTS pin
   * is an ordinary output driven here (not a hardware RTS pin); `rtsHigh`
   * is its level (active low: high asks the sender to stop).
   */
  class Uart {
    const softRts: bool
    /** The bytes the hardware has taken, oldest first. */
    var sent: seq<Byte>
    /** How many times hardware.flush was called. */
    var flushes: nat
    /** overflowBuffer: bytes received between transfers, oldest first. */
    var overflow: seq<Byte>
    var manualRxPosition: Option<nat>
    var rxReadyInterrupt: bool
    var rxDoneInterrupt: bool
    var txDoneInterrupt: bool
    var ctsInterrupt: bool
    var rtsHigh: bool
    /** Every hardware.startRXTransfer call, oldest first. */
    var rxRequests: seq<RxRequest>
    var hasConnectionCallback: bool
    var hasRxDoneCallback: bool
    var hasTxDoneCallback: bool
    /** The values passed to the connection callback, oldest first. */
    var connectionReports: seq<bool>
    var rxDoneCalls: nat
    var txDoneCalls: nat

    constructor (softRts: bool)
      ensures this.softRts == softRts
      ensures sent == [] && flushes == 0 && overflow == [] && manualRxPosition == None
      ensures rxRequests == [] && connectionReports == [] && rxDoneCalls == 0 && txDoneCalls == 0
      ensures !hasConnectionCallback && !hasRxDoneCallback && !hasTxDoneCallback
    {
      this.softRts := softRts;
      sent := [];
      flushes := 0;
      overflow := [];
      manualRxPosition := None;
      rxReadyInterrupt := false;
      rxDoneInterrupt := false;
      txDoneInterrupt := false;
      ctsInterrupt := false;
      rtsHigh := false;
      rxRequests := [];
      hasConnectionCallback := false;
      hasRxDoneCallback := false;
      hasTxDoneCallback := false;
      connectionReports := [];
      rxDoneCalls := 0;
      txDoneCalls := 0;
    }

    /** init(): a software RTS pin starts high, so the sender waits until a transfer is started. */
    method Init()
      modifies this`rtsHigh
      ensures rtsHigh == (old(rtsHigh) || softRts)
    {
      if softRts {
        rtsHigh := true;
      }
    }

    /**
     * write(data, length, autoFlush): length 0 means up to the NUL. Each byte
     * goes to hardware.writeByte; a refusal ends the loop, or with autoFlush
     * is followed by a flush and a retry. The int16_t counters wrap, and a
     * write that sent something with autoFlush ends with one more flush.
     */
    method Write(data: seq<Byte>, length: nat, autoFlush: bool, ready: seq<bool>) returns (total: int)
      requires WriteArgs(data, length, ready)
      modifies this`sent, this`flushes
      ensures var n := Transmitted(WriteLimit(data, length), length == 0, autoFlush, ready);
        total == Int16(n)
        && sent == old(sent) + data[..n]
        && flushes == old(flushes) + Retries(WriteLimit(data, length), length == 0, autoFlush, ready)
                      + (if autoFlush && Int16(n) > 0 then 1 else 0)
    {
      if length == 0 && data[0] == 0 {
        assert WriteLimit(data, length) == 0 && data[..0] == [];
        return 0;
      }
      WriteLimitStops(data, length);
      total := SendBytes(data, length, autoFlush, ready, WriteLimit(data, length));
      if autoFlush && total > 0 {
        flushes := flushes + 1;
      }
    }

    /**
     * The do-while loop of write(data, length, autoFlush), entered with at
     * least one byte to send. `out` counts the bytes taken; the int16_t
     * counters total_written and to_write are Int16(out) and
     * Int16(length - out) throughout, and are computed from it.
     */
    method SendBytes(data: seq<Byte>, length: nat, autoFlush: bool, ready: seq<bool>, ghost limit: nat) returns (total: int)
      requires length < Modulus16 && |data| <= |ready| && StopsAt(data, length, limit) && limit > 0
      modifies this`sent, this`flushes
      ensures var n := Transmitted(limit, length == 0, autoFlush, ready);
        total == Int16(n)
        && sent == old(sent) + data[..n]
        && flushes == old(flushes) + Retries(limit, length == 0, autoFlush, ready)
    {
      ghost var open := length == 0;
      ghost var n := Transmitted(limit, open, autoFlush, ready);
      ghost var sent0, flushes0 := sent, flushes;
      var out := 0;
      var flushed := false;
      var done := false;
      while !done
        invariant out <= n && (!done ==> out < limit)
        invariant sent == sent0 + data[..out]
        invariant !done && flushed ==> autoFlush && !ready[out] && !(open && out == 0)
        invariant done ==> out == n
        invariant done && flushed ==> open && out == 0 && !ready[0]
        invariant done && autoFlush && !flushed ==> out == limit
        invariant !autoFlush ==> flushes == flushes0
        invariant autoFlush ==> flushes == flushes0 + Refusals(ready[..out]) + (if flushed then 1 else 0)
        decreases if done then 0 else 1, limit - out, if flushed then 0 else 1
      {
        if ready[out] || flushed {
          TransmittedContinues(limit, open, autoFlush, ready, out);
          RefusalsStep(ready, out);
          sent := sent + [data[out]];
          out := out + 1;
          assert data[..out] == data[..out - 1] + [data[out - 1]];
          flushed := false;
          if length == 0 && data[out] == 0 {
            TransmittedStops(limit, open, autoFlush, ready, out);
            done := true;
          }
        } else if autoFlush {
          flushes := flushes + 1;
          flushed := true;
        } else {
          TransmittedStops(limit, open, autoFlush, ready, out);
          done := true;
        }
        if !done && Int16(length - out) == 0 {
          TransmittedStops(limit, open, autoFlush, ready, out);
          done := true;
        }
      }
      if autoFlush && flushed {
        assert ready[..0] == [];
      }
      total := Int16(out);
    }

    /**
     * write(Buffer&, length, autoFlush) as written: total_written is never
     * incremented, so the call returns 0 whatever it sent, and the flush
     * that should follow a write with autoFlush never happens.
     */
    method WriteBufferAsWritten(q: ByteQueue, length: nat, autoFlush: bool, ready: seq<bool>) returns (total: int)
      requires length < Modulus16 && |q.items| <= |ready|
      modifies this`sent, this`flushes, q`items
      ensures var limit := BufferLimit(old(q.items), length);
        var n := Transmitted(limit, length == 0, autoFlush, ready);
        total == 0
        && sent == old(sent) + old(q.items)[..n] && q.items == old(q.items)[n..]
        && flushes == old(flushes) + Retries(limit, length == 0, autoFlush, ready)
    {
      var out := SendBuffered(q, length, autoFlush, ready);
      total := 0;
    }

    /**
     * write(Buffer&, length, autoFlush) as intended: it returns the int16_t
     * count of the bytes it took out of the buffer, and with autoFlush ends
     * with a flush when that count is positive, like write(data, length).
     */
    method WriteBuffer(q: ByteQueue, length: nat, autoFlush: bool, ready: seq<bool>) returns (total: int)
      requires length < Modulus16 && |q.items| <= |ready|
      modifies this`sent, this`flushes, q`items
      ensures var limit := BufferLimit(old(q.items), length);
        var n := Transmitted(limit, length == 0, autoFlush, ready);
        total == Int16(n)
        && sent == old(sent) + old(q.items)[..n] && q.items == old(q.items)[n..]
        && flushes == old(flushes) + Retries(limit, length == 0, autoFlush, ready)
                      + (if autoFlush && Int16(n) > 0 then 1 else 0)
    {
      var out := SendBuffered(q, length, autoFlush, ready);
      total := Int16(out);
      if autoFlush && total > 0 {
        flushes := flushes + 1;
      }
    }

    /** The do-while loop of write(Buffer&, length, autoFlush): peek, writeByte, then pop or flush. */
    method SendBuffered(q: ByteQueue, length: nat, autoFlush: bool, ready: seq<bool>) returns (out: nat)
      requires length < Modulus16 && |q.items| <= |ready|
      modifies this`sent, this`flushes, q`items
      ensures var limit := BufferLimit(old(q.items), length);
        var n := Transmitted(limit, length == 0, autoFlush, ready);
        out == n
        && sent == old(sent) + old(q.items)[..n] && q.items == old(q.items)[n..]
        && flushes == old(flushes) + Retries(limit, length == 0, autoFlush, ready)
    {
      ghost var items0 := q.items;
      ghost var limit := BufferLimit(items0, length);
      ghost var open := length == 0;
      ghost var n := Transmitted(limit, open, autoFlush, ready);
      ghost var sent0, flushes0 := sent, flushes;
      out := 0;
      var flushed := false;
      var done := false;
      while !done
        invariant out <= n && out <= limit && (!done && out == limit ==> out == |items0|)
        invariant sent == sent0 + items0[..out] && q.items == items0[out..]
        invariant !done && flushed ==> autoFlush && out < limit && !ready[out] && !(open && out == 0)
        invariant done ==> out == n
        invariant done && flushed ==> open && out == 0 < limit && !ready[0]
        invariant done && autoFlush && !flushed ==> out == limit
        invariant !autoFlush ==> flushes == flushes0
        invariant autoFlush ==> flushes == flushes0 + Refusals(ready[..out]) + (if flushed then 1 else 0)
        decreases if done then 0 else 1, limit - out, if flushed then 0 else 1
      {
        if q.items == [] {
          TransmittedStops(limit, open, autoFlush, ready, out);
          done := true;
        } else if ready[out] || flushed {
          TransmittedContinues(limit, open, autoFlush, ready, out);
          RefusalsStep(ready, out);
          assert items0[out..][1..] == items0[out + 1..];
          sent := sent + [q.items[0]];
          q.items := q.items[1..];
          out := out + 1;
          assert items0[..out] == items0[..out - 1] + [items0[out - 1]];
          flushed := false;
        } else if autoFlush {
          flushes := flushes + 1;
          flushed := true;
        } else {
          TransmittedStops(limit, open, autoFlush, ready, out);
          done := true;
        }
        if !done && Int16(length - out) == 0 {
          TransmittedStops(limit, open, autoFlush, ready, out);
          done := true;
        }
      }
      if autoFlush && flushed {
        assert ready[..0] == [];
      }
    }

    /** overflowBuffer.read(): the oldest buffered byte, or -1 when the buffer is empty. */
    method ReadOverflow() returns (b: int)
      modifies this`overflow
      ensures old(overflow) == [] ==> b == -1 && overflow == []
      ensures old(overflow) != [] ==> b == old(overflow)[0] && overflow == old(overflow)[1..]
    {
      if overflow == [] {
        b := -1;
      } else {
        b := overflow[0];
        overflow := overflow[1..];
      }
    }

    /**
     * The drain at the head of startRXTransfer: copy buffered bytes to
     * mem[start..] while the read gives a byte above 0 and room is left.
     * The read comes first, so the pass that finds no room still takes a
     * byte out of the buffer.
     */
    method DrainOverflow(mem: array<Byte>, start: nat, length: nat) returns (pos: nat)
      requires start + length <= mem.Length
      modifies this`overflow, mem
      ensures var k := Drained(old(overflow), length);
        pos == start + k
        && mem[..] == old(mem[..start]) + old(overflow)[..k] + old(mem[start + k..])
        && overflow == old(overflow)[Consumed(old(overflow), length)..]
    {
      ghost var ov0 := overflow;
      ghost var mem0 := mem[..];
      ghost var k := Drained(ov0, length);
      pos := start;
      var room := length;
      var i := 0;
      while true
        invariant i <= k && pos == start + i && room == length - i
        invariant overflow == ov0[i..]
        invariant forall j :: 0 <= j < mem.Length ==> mem[j] == if start <= j < pos then ov0[j - start] else mem0[j]
        decreases room
      {
        DrainedFrom(ov0, length, i);
        var b := ReadOverflow();
        if !(b > 0 && room > 0) {
          break;
        }
        mem[pos] := b;
        pos := pos + 1;
        room := room - 1;
        i := i + 1;
      }
      assert mem[..] == mem0[..start] + ov0[..k] + mem0[start + k..];
    }

    /** getRXTransferPosition(): the position a drain left, else the hardware's. */
    function RxTransferPosition(hardwarePosition: nat): nat
      reads this
    {
      if manualRxPosition.Some? then manualRxPosition.value else hardwarePosition
    }

    /**
     * startRXTransfer(buffer, length): with the RX-ready interrupt off, drain
     * the overflow buffer into mem[start..]. A drain that fills the request
     * leaves the position for getRXTransferPosition and returns false;
     * otherwise the hardware is asked for the rest (`hardwareAccepts` is its
     * answer), and the software RTS pin is driven low when it accepts. When
     * false is returned, RTS is high and the RX-ready interrupt is back on.
     */
    method StartRxTransfer(mem: array<Byte>, start: nat, length: nat, hardwareAccepts: bool) returns (ok: bool, pos: nat)
      requires start + length <= mem.Length
      modifies this`overflow, this`manualRxPosition, this`rxReadyInterrupt, this`rtsHigh, this`rxRequests, mem
      ensures var k := Drained(old(overflow), length);
        pos == start + k
        && mem[..] == old(mem[..start]) + old(overflow)[..k] + old(mem[start + k..])
        && overflow == old(overflow)[Consumed(old(overflow), length)..]
      ensures Drained(old(overflow), length) == length ==>
        !ok && manualRxPosition == Some(pos) && rxRequests == old(rxRequests)
      ensures Drained(old(overflow), length) < length ==>
        ok == hardwareAccepts && manualRxPosition == None
        && rxRequests == old(rxRequests) + [RxRequest(pos, length - Drained(old(overflow), length))]
      ensures rxReadyInterrupt == !ok
      ensures rtsHigh == (if softRts then !ok else old(rtsHigh))
    {
      rxReadyInterrupt := false;
      pos := DrainOverflow(mem, start, length);
      if pos == start + length {
        manualRxPosition := Some(pos);
        ok := false;
      } else {
        manualRxPosition := None;
        rxRequests := rxRequests + [RxRequest(pos, start + length - pos)];
        ok := hardwareAccepts;
      }
      if softRts {
        rtsHigh := !ok;
      }
      if !ok {
        rxReadyInterrupt := true;
      }
    }

    /**
     * uartInterruptHandler(cause): a received byte goes to the overflow
     * buffer; a finished transmit transfer with a callback turns its
     * interrupt off and calls it; a finished receive transfer raises the
     * software RTS pin and, with a callback, swaps its interrupt for the
     * RX-ready one and calls it; a CTS change is reported only while
     * `connected` (isConnected()) holds.
     */
    method HandleInterrupt(cause: Cause, rxByte: Byte, connected: bool)
      modifies this`overflow, this`txDoneInterrupt, this`txDoneCalls, this`rtsHigh,
        this`rxDoneInterrupt, this`rxReadyInterrupt, this`rxDoneCalls, this`connectionReports
      ensures overflow == old(overflow) + (if cause.rxReady then [rxByte] else [])
      ensures var tx := cause.txTransferDone && hasTxDoneCallback;
        txDoneCalls == old(txDoneCalls) + (if tx then 1 else 0)
        && txDoneInterrupt == (old(txDoneInterrupt) && !tx)
      ensures rtsHigh == (old(rtsHigh) || (cause.rxTransferDone && softRts))
      ensures var rx := cause.rxTransferDone && hasRxDoneCallback;
        rxDoneCalls == old(rxDoneCalls) + (if rx then 1 else 0)
        && rxDoneInterrupt == (old(rxDoneInterrupt) && !rx)
        && rxReadyInterrupt == (old(rxReadyInterrupt) || rx)
      ensures connectionReports == old(connectionReports)
        + (if cause.ctsChanged && hasConnectionCallback && connected then [true] else [])
    {
      if cause.rxReady {
        overflow := overflow + [rxByte];
      }
      if cause.txTransferDone && hasTxDoneCallback {
        txDoneInterrupt := false;
        txDoneCalls := txDoneCalls + 1;
      }
      if cause.rxTransferDone {
        OnRxTransferDone();
      }
      if cause.ctsChanged && hasConnectionCallback && connected {
        connectionReports := connectionReports + [true];
      }
    }

    /** The receive-transfer-done branch of the handler. */
    method OnRxTransferDone()
      modifies this`rtsHigh, this`rxDoneInterrupt, this`rxReadyInterrupt, this`rxDoneCalls
      ensures rtsHigh == (old(rtsHigh) || softRts)
      ensures rxDoneCalls == old(rxDoneCalls) + (if hasRxDoneCallback then 1 else 0)
      ensures rxDoneInterrupt == (old(rxDoneInterrupt) && !hasRxDoneCallback)
      ensures rxReadyInterrupt == (old(rxReadyInterrupt) || hasRxDoneCallback)
    {
      if softRts {
        rtsHigh := true;
      }
      if hasRxDoneCallback {
        rxDoneInterrupt := false;
        rxReadyInterrupt := true;
        rxDoneCalls := rxDoneCalls + 1;
      }
    }

    /**
     * setConnectionCallback: the CTS-change interrupt is on exactly when a
     * callback is set, and a set callback is called at once while connected.
     */
    method SetConnectionCallback(present: bool, connected: bool)
      modifies this`hasConnectionCallback, this`ctsInterrupt, this`connectionReports
      ensures hasConnectionCallback == present && ctsInterrupt == present
      ensures connectionReports == old(connectionReports) + (if present && connected then [true] else [])
    {
      hasConnectionCallback := present;
      ctsInterrupt := present;
      if present && connected {
        connectionReports := connectionReports + [true];
      }
    }

    /** setRXTransferDoneCallback: only the callback changes, no interrupt. */
    method SetRxTransferDoneCallback(present: bool)
      modifies this`hasRxDoneCallback
      ensures hasRxDoneCallback == present
    {
      hasRxDoneCallback := present;
    }

    /** setTXTransferDoneCallback: only the callback changes, no interrupt. */
    method SetTxTransferDoneCallback(present: bool)
      modifies this`hasTxDoneCallback
      ensures hasTxDoneCallback == present
    {
      hasTxDoneCallback := present;
    }
  }
}
