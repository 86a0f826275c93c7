// The SAM USB device drivers (the SAM3X's UOTGHS and the SAMS70's USBHS):
// the endpoint size encodings both share, the limits they put on an
// endpoint's configuration, and the SAM3X's control endpoint (the IN data
// stage sent from the two-part setup buffer and the OUT data stage read into
// it) and its DMA transfer bookkeeping. Register fields are modelled by
// their values within their masks; the FIFO and the DMA engine are inputs.

module SamUsb {

  import opened Wrappers

  type Uint16 = n: nat | n < 0x1_0000
  type Uint32 = n: nat | n < 0x1_0000_0000

  // ---------------------------------------------------------------- endpoint sizes

  /** The bytes an EPSIZE field value k (0 to 7) stands for: 8 << k. */
  function Capacity(k: nat): (bytes: nat)
    requires k < 8
    ensures bytes >= 8
  {
    match k
    case 0 => 8
    case 1 => 16
    case 2 => 32
    case 3 => 64
    case 4 => 128
    case 5 => 256
    case 6 => 512
    case _ => 1024
  }

  /** Each size class is twice the one below it. */
  lemma CapacityDoubles(k: nat)
    requires 0 < k < 8
    ensures Capacity(k) == 2 * Capacity(k - 1)
  {
  }

  /**
   * getBufferSizeFlags: the EPSIZE field of the smallest class that holds
   * `size` bytes, or the 1024-byte class for anything larger.
   */
  function BufferSizeFlags(size: Uint16): (k: nat)
    ensures k < 8
    ensures k < 7 ==> size <= Capacity(k)
    ensures k > 0 ==> size > Capacity(k - 1)
  {
    if size > 512 then 7
    else if size > 256 then 6
    else if size > 128 then 5
    else if size > 64 then 4
    else if size > 32 then 3
    else if size > 16 then 2
    else if size > 8 then 1
    else 0
  }

  /** The number of significant bits of x: 32 - clz(x) for a nonzero 32-bit x. */
  function BitLength(x: nat): nat
  {
    if x == 0 then 0 else 1 + BitLength(x / 2)
  }

  function Pow2(n: nat): (p: nat)
    ensures p >= 1
  {
    if n == 0 then 1 else 2 * Pow2(n - 1)
  }

  lemma PowersOfTwo()
    ensures Pow2(3) == 8 && Pow2(4) == 16 && Pow2(5) == 32 && Pow2(6) == 64 && Pow2(7) == 128
    ensures Pow2(8) == 256 && Pow2(9) == 512 && Pow2(10) == 1024 && Pow2(11) == 2048
  {
    assert Pow2(3) == 8 by { assert Pow2(2) == 4 by { assert Pow2(1) == 2; } }
    assert Pow2(4) == 16;
    assert Pow2(5) == 32;
    assert Pow2(6) == 64;
    assert Pow2(7) == 128;
    assert Pow2(8) == 256;
    assert Pow2(9) == 512;
    assert Pow2(10) == 1024;
  }

  /** A value between 2^(n-1) and 2^n - 1 has n significant bits. */
  lemma {:induction false} BitLengthIs(x: nat, n: nat)
    requires 1 <= n && Pow2(n - 1) <= x < Pow2(n)
    ensures BitLength(x) == n
  {
    if n > 1 {
      BitLengthIs(x / 2, n - 1);
    }
  }

  /**
   * _format_endpoint_size: the size clamped to 8..1024, then
   * 32 - clz(2 * size - 1) - 1 - 3, the exponent of the next power of two
   * minus three.
   */
  function FormatEndpointSize(size: Uint32): int
  {
    var clamped := if size < 8 then 8 else if size > 1024 then 1024 else size;
    BitLength(2 * clamped - 1) - 1 - 3
  }

  /**
   * The two encodings agree: _format_endpoint_size gives the field
   * getBufferSizeFlags gives, for every 16-bit size.
   */
  lemma FormatIsSizeFlags(size: Uint16)
    ensures FormatEndpointSize(size) == BufferSizeFlags(size)
  {
    var k := BufferSizeFlags(size);
    var clamped := if size < 8 then 8 else if size > 1024 then 1024 else size;
    var x := 2 * clamped - 1;
    PowersOfTwo();
    match k {
      case 0 => BitLengthIs(x, 4);
      case 1 => BitLengthIs(x, 5);
      case 2 => BitLengthIs(x, 6);
      case 3 => BitLengthIs(x, 7);
      case 4 => BitLengthIs(x, 8);
      case 5 => BitLengthIs(x, 9);
      case 6 => BitLengthIs(x, 10);
      case 7 => BitLengthIs(x, 11);
    }
  }

  /** _get_endpoint_size: the bytes of an EPSIZE field, 8 << field. */
  function EndpointSize(field: nat): (bytes: nat)
    requires field < 8
    ensures bytes == Capacity(field)
  {
    Capacity(field)
  }

  /**
   * _get_endpoint_size inverts _format_endpoint_size on the eight sizes
   * the controller has: each reads back as its own field.
   */
  lemma SizeFieldRoundTrip(field: nat)
    requires field < 8
    ensures FormatEndpointSize(EndpointSize(field)) == field
  {
    FormatIsSizeFlags(Capacity(field));
  }

  /**
   * A configured size is rounded up: up to 1024 bytes, the endpoint holds
   * the size asked for and the next smaller class would not.
   */
  lemma FormatRoundsUp(size: Uint16)
    requires size <= 1024
    ensures 0 <= FormatEndpointSize(size) < 8
    ensures size <= EndpointSize(FormatEndpointSize(size))
    ensures FormatEndpointSize(size) > 0 ==> EndpointSize(FormatEndpointSize(size) - 1) < size
  {
    FormatIsSizeFlags(size);
  }

  // ---------------------------------------------------------------- endpoint limits

  datatype EndpointType = Control | Isochronous | Bulk | Interrupt

  /**
   * An endpoint's buffer settings: the direction, the EPSIZE field, the
   * EPBK field (0 for one bank, 1 for up to two, 2 for up to three) and the
   * type.
   */
  datatype Settings = Settings(inputToHost: bool, size: nat, banks: nat, kind: EndpointType)

  /** The most banks an endpoint may have, as an EPBK field value. */
  function MaxBanks(endpoint: nat): nat
  {
    if endpoint == 0 then 0 else if endpoint < 3 then 2 else 1
  }

  /** The largest EPSIZE field an endpoint may have: 64 bytes on the control endpoint, 1024 elsewhere. */
  function MaxSize(endpoint: nat): nat
  {
    if endpoint == 0 then 3 else 7
  }

  /**
   * _enforce_enpoint_limits: no endpoint past 9; endpoint 0 gets at most
   * 64 bytes and exactly one bank; the others at most 1024 bytes, with up
   * to three banks on endpoints 1 and 2 and up to two elsewhere.
   */
  function EnforceLimits(endpoint: nat, c: Settings): (r: Option<Settings>)
    ensures r.None? <==> endpoint > 9
    ensures r.Some? ==> r.value.inputToHost == c.inputToHost && r.value.kind == c.kind
    ensures r.Some? ==> r.value.size == (if c.size > MaxSize(endpoint) then MaxSize(endpoint) else c.size)
    ensures r.Some? && endpoint == 0 ==> r.value.banks == 0
    ensures r.Some? && endpoint > 0 ==>
      r.value.banks == (if c.banks > MaxBanks(endpoint) then MaxBanks(endpoint) else c.banks)
  {
    if endpoint > 9 then None
    else if endpoint == 0 then
      var size := if c.size > 3 then 3 else c.size;
      Some(c.(size := size, banks := 0))
    else
      var size := if c.size > 7 then 7 else c.size;
      var banks :=
        if endpoint < 3 then (if c.banks > 2 then 2 else c.banks)
        else (if c.banks > 1 then 1 else c.banks);
      Some(c.(size := size, banks := banks))
  }

  /** Within the limits: a setting that already fits is kept, and limiting twice is limiting once. */
  lemma EnforceLimitsIdempotent(endpoint: nat, c: Settings)
    requires endpoint <= 9
    ensures EnforceLimits(endpoint, EnforceLimits(endpoint, c).value) == EnforceLimits(endpoint, c)
    ensures c.size <= MaxSize(endpoint) && c.banks <= MaxBanks(endpoint) ==> EnforceLimits(endpoint, c) == Some(c)
  {
  }

  // ---------------------------------------------------------------- the control endpoint

  /** USBSetupState_t. */
  datatype SetupState = Setup | DataOut | DataIn | HandshakeWaitInZlp | HandshakeWaitOutZlp | StallReq

  /**
   * SetupBuffer_t: two pointers with their lengths, each pointer an offset
   * into the memory it points at; a null pointer is an offset into empty
   * memory.
   */
  datatype SetupBuffer = SetupBuffer(
    memory0: seq<char>, addr0: nat, length0: Uint16,
    memory1: seq<char>, addr1: nat, length1: Uint16)

  const EmptySetupBuffer := SetupBuffer([], 0, 0, [], 0, 0)

  /** Both parts lie inside their memory. */
  predicate InBounds(b: SetupBuffer)
  {
    b.addr0 + b.length0 <= |b.memory0| && b.addr1 + b.length1 <= |b.memory1|
  }

  /** The characters still to be sent: the first part, then the second. */
  function Pending(b: SetupBuffer): seq<char>
    requires InBounds(b)
  {
    b.memory0[b.addr0..b.addr0 + b.length0] + b.memory1[b.addr1..b.addr1 + b.length1]
  }

  /**
   * The IN data stage never sends more than the setup packet's length: the
   * second part is cut, or the first part cut and the second dropped.
   */
  function Truncate(b: SetupBuffer, setupLength: Uint16): (t: SetupBuffer)
    requires InBounds(b)
    ensures InBounds(t)
  {
    if setupLength < b.length0 + b.length1 then
      if b.length0 < setupLength then b.(length1 := setupLength - b.length0)
      else b.(length0 := setupLength, length1 := 0)
    else b
  }

  /** Truncation keeps the pending characters' prefix of the setup packet's length. */
  lemma TruncateIsPrefix(b: SetupBuffer, setupLength: Uint16)
    requires InBounds(b)
    ensures |Pending(Truncate(b, setupLength))| == Min(setupLength, b.length0 + b.length1)
    ensures Pending(Truncate(b, setupLength)) == Pending(b)[..Min(setupLength, b.length0 + b.length1)]
  {
    var t := Truncate(b, setupLength);
    var n := Min(setupLength, b.length0 + b.length1);
    var p0, p1 := b.memory0[b.addr0..b.addr0 + b.length0], b.memory1[b.addr1..b.addr1 + b.length1];
    if setupLength < b.length0 + b.length1 && b.length0 >= setupLength {
      PrefixInFront(p0, p1, n);
      assert p0[..n] == b.memory0[b.addr0..b.addr0 + setupLength];
    } else if setupLength < b.length0 + b.length1 {
      PrefixPastFront(p0, p1, n);
      assert p1[..n - |p0|] == b.memory1[b.addr1..b.addr1 + t.length1];
    }
  }

  lemma PrefixInFront<T>(p0: seq<T>, p1: seq<T>, n: nat)
    requires n <= |p0|
    ensures (p0 + p1)[..n] == p0[..n]
  {
  }

  lemma PrefixPastFront<T>(p0: seq<T>, p1: seq<T>, n: nat)
    requires |p0| <= n <= |p0| + |p1|
    ensures (p0 + p1)[..n] == p0 + p1[..n - |p0|]
  {
  }

  function Min(a: nat, b: nat): nat
  {
    if a < b then a else b
  }

  /**
   * The FIFO-filling loop of _handleControlTX: each character comes from
   * the first part, which takes over the second once it is used up.
   */
  method CopyToFifo(b: SetupBuffer, toSend: nat) returns (packet: seq<char>, b': SetupBuffer)
    requires InBounds(b) && toSend <= b.length0 + b.length1
    ensures InBounds(b')
    ensures packet == Pending(b)[..toSend]
    ensures Pending(b') == Pending(b)[toSend..]
  {
    packet := [];
    b' := b;
    ghost var whole := Pending(b);
    var left: nat := toSend;
    while left > 0
      invariant InBounds(b') && left <= b'.length0 + b'.length1
      invariant |packet| + left == toSend
      invariant packet + Pending(b') == whole
      decreases left
    {
      var c := Next(b');
      TakeStep(b');
      ghost var rest := Pending(Taken(b'));
      Regroup(packet, c, rest, whole);
      b' := Taken(b');
      packet := packet + [c];
      left := left - 1;
    }
    Split(packet, Pending(b'), whole);
  }

  lemma Regroup<T>(front: seq<T>, x: T, rest: seq<T>, whole: seq<T>)
    requires front + ([x] + rest) == whole
    ensures (front + [x]) + rest == whole
  {
  }

  lemma Split<T>(front: seq<T>, rest: seq<T>, whole: seq<T>)
    requires front + rest == whole
    ensures whole[..|front|] == front && whole[|front|..] == rest
  {
  }

  /** The first part, or the second once the first is used up. */
  function Refill(b: SetupBuffer): (r: SetupBuffer)
    requires InBounds(b)
    ensures InBounds(r) && Pending(r) == Pending(b)
    ensures r.length0 + r.length1 == b.length0 + b.length1
    ensures b.length0 + b.length1 > 0 ==> r.length0 > 0
  {
    if b.length0 == 0 then
      b.(memory0 := b.memory1, addr0 := b.addr1, length0 := b.length1, memory1 := [], addr1 := 0, length1 := 0)
    else b
  }

  /** The next character the FIFO gets. */
  function Next(b: SetupBuffer): char
    requires InBounds(b) && b.length0 + b.length1 > 0
  {
    Refill(b).memory0[Refill(b).addr0]
  }

  /** The buffer after one character went to the FIFO. */
  function Taken(b: SetupBuffer): (r: SetupBuffer)
    requires InBounds(b) && b.length0 + b.length1 > 0
    ensures InBounds(r) && r.length0 + r.length1 + 1 == b.length0 + b.length1
  {
    var f := Refill(b);
    f.(addr0 := f.addr0 + 1, length0 := f.length0 - 1)
  }

  /** One pass of the loop takes the first pending character. */
  lemma TakeStep(b: SetupBuffer)
    requires InBounds(b) && b.length0 + b.length1 > 0
    ensures Pending(b) == [Next(b)] + Pending(Taken(b))
  {
    var f := Refill(b);
    assert f.memory0[f.addr0..f.addr0 + f.length0] == [Next(b)] + f.memory0[f.addr0 + 1..f.addr0 + f.length0];
  }

  /**
   * One OUT data packet read into the buffer: min(setup length, length_0)
   * characters from the FIFO at the first pointer, which then moves on by
   * the whole of length_0, while length_0 drops by the characters read.
   */
  function ReceiveStep(b: SetupBuffer, setupLength: Uint16, fifo: seq<char>): (r: SetupBuffer)
    requires InBounds(b) && |fifo| >= b.length0
    ensures |r.memory0| == |b.memory0|
    ensures r.length0 == 0 ==> InBounds(r)
  {
    var amount := Min(setupLength, b.length0);
    b.(memory0 := b.memory0[..b.addr0] + fifo[..amount] + b.memory0[b.addr0 + amount..],
       addr0 := b.addr0 + b.length0,
       length0 := b.length0 - amount)
  }

  /**
   * The step stores the FIFO's characters at the pointer and nothing else;
   * the pointer moves past the characters read unless characters remain,
   * and only then, so a data stage that goes on (nothing remains) goes on
   * from the right place.
   */
  lemma ReceiveStepMeaning(b: SetupBuffer, setupLength: Uint16, fifo: seq<char>)
    requires InBounds(b) && |fifo| >= b.length0
    ensures var r := ReceiveStep(b, setupLength, fifo);
      var amount := Min(setupLength, b.length0);
      && r.memory0[b.addr0..b.addr0 + amount] == fifo[..amount]
      && r.memory0[..b.addr0] == b.memory0[..b.addr0]
      && r.memory0[b.addr0 + amount..] == b.memory0[b.addr0 + amount..]
      && (r.addr0 != b.addr0 + amount <==> r.length0 != 0)
  {
  }

  // ---------------------------------------------------------------- the endpoint pass

  /** The elements of s from lo up to hi - 1, in increasing order. */
  function Ascending(s: set<nat>, lo: nat, hi: nat): (r: seq<nat>)
    ensures |r| <= if hi < lo then 0 else hi - lo
  {
    if hi <= lo then []
    else Ascending(s, lo, hi - 1) + (if hi - 1 in s then [hi - 1] else [])
  }

  /** Ascending lists exactly the members of s in range, and each of them once. */
  lemma {:induction false} AscendingLists(s: set<nat>, lo: nat, hi: nat)
    ensures forall e :: e in Ascending(s, lo, hi) <==> e in s && lo <= e < hi
    ensures forall i, j :: 0 <= i < j < |Ascending(s, lo, hi)| ==> Ascending(s, lo, hi)[i] < Ascending(s, lo, hi)[j]
  {
    if hi > lo {
      AscendingLists(s, lo, hi - 1);
      var r := Ascending(s, lo, hi - 1);
      forall i | 0 <= i < |r|
        ensures r[i] < hi - 1
      {
        assert r[i] in r;
      }
    }
  }

  /**
   * What one endpoint's registers show when the SAM3X's checkAndHandleEndpoint
   * reaches it. They read as they stood, except that acknowledging TXINI
   * (action A) clears the in-send flag for the reads that follow.
   */
  datatype EndpointFlags = EndpointFlags(
    txIn: bool,                                  // configured as an IN (device to host) endpoint
    interruptEnabled: bool,                      // the endpoint's interrupt is enabled
    inSendEnabled: bool, inSend: bool,           // TXINI enabled and set
    outReceivedEnabled: bool, outReceived: bool, // RXOUTI enabled and set
    byteCount: nat,                              // bytes in the current bank
    dmaBufferCount: nat,                         // the DMA status's buffer count (status >> 16)
    dmaInterruptEnabled: bool, dmaInterrupt: bool,
    descriptorLoaded: bool,                      // DESC_LDST in the DMA status
    endOfTransfer: bool,                         // END_TR_ST in the DMA status
    endOfBuffer: bool)                           // END_BF_ST in the DMA status

  /**
   * What the SAM3X pass does for one endpoint: whether it serviced an
   * interrupt, how many banks it acknowledged and released (actions A and
   * B), and whether it finished the transfer (actions C and D).
   */
  datatype Handling = Handling(handled: bool, releases: nat, completed: bool)

  predicate InSendInterrupt(f: EndpointFlags)
  {
    f.interruptEnabled && f.txIn && f.inSendEnabled && f.inSend
  }

  predicate OutReceivedInterrupt(f: EndpointFlags)
  {
    f.interruptEnabled && !f.txIn && f.outReceivedEnabled && f.outReceived
  }

  predicate DmaRaised(f: EndpointFlags)
  {
    f.dmaInterruptEnabled && f.dmaInterrupt
  }

  /**
   * The endpoint part finishes the transfer: an IN bank found empty (case
   * 1), or an OUT bank still holding data when the DMA buffer is full
   * (case 6).
   */
  predicate FinishedByFifo(f: EndpointFlags)
  {
    (InSendInterrupt(f) && f.byteCount == 0)
    || (OutReceivedInterrupt(f) && f.byteCount != 0 && f.dmaBufferCount == 0)
  }

  /**
   * The DMA part runs when the endpoint's DMA interrupt is enabled and
   * raised, and the endpoint part has not finished the transfer: finishing
   * (_completeTransfer) disables the DMA interrupt, and the DMA part tests
   * the enable after that.
   */
  predicate DmaPartRuns(f: EndpointFlags)
  {
    DmaRaised(f) && !FinishedByFifo(f)
  }

  function Count(b: bool): nat
  {
    if b then 1 else 0
  }

  /**
   * One endpoint's part of the SAM3X's checkAndHandleEndpoint. The
   * endpoint part sends a full IN bank or releases an emptied OUT bank; the
   * DMA part sends a waiting IN bank when the descriptor is loaded, and
   * another when the buffer ended; the end of the transfer or of the
   * buffer finishes the transfer. The DMA part is skipped when the
   * endpoint part finished the transfer, which disabled the DMA interrupt.
   */
  function Sam3xService(f: EndpointFlags): (h: Handling)
    ensures h.completed ==> h.handled
    ensures h.releases > 0 ==> h.handled
    ensures f.txIn || !f.inSend ==> h.releases <= 1
  {
    var tx := InSendInterrupt(f);
    var rx := OutReceivedInterrupt(f);
    var dma := DmaPartRuns(f);
    var fifoRelease := (tx && f.byteCount != 0) || (rx && f.byteCount == 0);
    var inSendLeft := f.inSend && !(tx && f.byteCount != 0);
    var loadedRelease := dma && f.descriptorLoaded && f.txIn && inSendLeft && f.byteCount != 0;
    var endRelease := dma && f.endOfBuffer && inSendLeft && !loadedRelease;
    Handling(tx || rx || dma,
             Count(fifoRelease) + Count(loadedRelease) + Count(endRelease),
             FinishedByFifo(f) || (dma && (f.endOfTransfer || f.endOfBuffer)))
  }

  /**
   * The cases the driver's comment distinguishes: an OUT bank still holding
   * data is never released; an emptied one is; an IN bank with data is
   * sent and, without a DMA end, the transfer goes on; an empty IN bank
   * finishes it; a transfer the endpoint part finishes releases no bank,
   * as its DMA part is then disabled; nothing happens without an enabled
   * interrupt.
   */
  lemma Sam3xServiceCases(f: EndpointFlags)
    ensures OutReceivedInterrupt(f) && f.byteCount != 0 && !f.inSend ==> Sam3xService(f).releases == 0
    ensures OutReceivedInterrupt(f) && f.byteCount == 0 ==> Sam3xService(f).releases >= 1
    ensures OutReceivedInterrupt(f) && f.byteCount != 0 && f.dmaBufferCount == 0 ==> Sam3xService(f).completed
    ensures InSendInterrupt(f) && f.byteCount != 0 ==>
      Sam3xService(f).releases == 1 && (Sam3xService(f).completed <==> DmaRaised(f) && (f.endOfTransfer || f.endOfBuffer))
    ensures InSendInterrupt(f) && f.byteCount == 0 ==> Sam3xService(f).completed
    ensures FinishedByFifo(f) ==> Sam3xService(f).completed && Sam3xService(f).releases == 0
    ensures !InSendInterrupt(f) && !OutReceivedInterrupt(f) && !DmaRaised(f) ==> Sam3xService(f) == Handling(false, 0, false)
  {
  }

  /**
   * An IN endpoint's TXINI enable after the SAM3X pass: finishing in the
   * endpoint part turns it off (and the DMA part then does not run), a
   * loaded descriptor seen by the DMA part turns it on, and finishing in
   * the DMA part turns it off.
   */
  function Sam3xInSendAfter(enabled: bool, f: EndpointFlags): bool
  {
    var dma := DmaPartRuns(f);
    var afterFifo := if FinishedByFifo(f) && f.txIn then false else enabled;
    var afterLoaded := if dma && f.descriptorLoaded && f.txIn then true else afterFifo;
    if dma && (f.endOfTransfer || f.endOfBuffer) && f.txIn then false else afterLoaded
  }

  /**
   * What the pass leaves TXINI as: an OUT endpoint's enable is untouched; a
   * finished IN endpoint's is off, whichever part finished it; an
   * unfinished one's is on iff it was or its descriptor was loaded.
   */
  lemma Sam3xInSendMeaning(enabled: bool, f: EndpointFlags)
    ensures !f.txIn ==> Sam3xInSendAfter(enabled, f) == enabled
    ensures f.txIn && Sam3xService(f).completed ==> !Sam3xInSendAfter(enabled, f)
    ensures f.txIn && !Sam3xService(f).completed ==>
      (Sam3xInSendAfter(enabled, f) <==> enabled || (DmaRaised(f) && f.descriptorLoaded))
  {
  }

  /**
   * An IN endpoint whose empty bank finishes the transfer while its DMA
   * reports the descriptor loaded and the buffer ended: the endpoint part
   * finishes it, the DMA part does not run, so no bank is released and
   * TXINI ends off although it was on.
   */
  lemma Sam3xFinishedDisarms()
    ensures var f := EndpointFlags(true, true, true, true, false, false, 0, 0, true, true, true, false, true);
      Sam3xService(f) == Handling(true, 0, true) && !Sam3xInSendAfter(true, f)
  {
  }

  /** The endpoints among 1 up to last - 1 whose transfer the SAM3X pass finishes. */
  function Sam3xFinished(status: seq<EndpointFlags>, last: nat): (s: set<nat>)
    requires last <= |status|
    ensures forall ep :: ep in s <==> 1 <= ep < last && Sam3xService(status[ep]).completed
  {
    set ep: nat | 1 <= ep < last && Sam3xService(status[ep]).completed
  }

  /** The TXINI enables after the SAM3X pass has serviced endpoints 1 up to last - 1. */
  function Sam3xInSendPass(before: set<nat>, status: seq<EndpointFlags>, last: nat): set<nat>
    requires last <= |status|
  {
    if last <= 1 then before
    else
      var s := Sam3xInSendPass(before, status, last - 1);
      var ep := last - 1;
      if Sam3xInSendAfter(ep in s, status[ep]) then s + {ep} else s - {ep}
  }

  /** Each endpoint of the pass ends with the enable Sam3xInSendAfter gives it; the others keep theirs. */
  lemma {:induction false} Sam3xInSendPassMeaning(before: set<nat>, status: seq<EndpointFlags>, last: nat)
    requires last <= |status|
    ensures forall ep :: !(1 <= ep < last) ==> (ep in Sam3xInSendPass(before, status, last) <==> ep in before)
    ensures forall ep :: 1 <= ep < last ==>
      (ep in Sam3xInSendPass(before, status, last) <==> Sam3xInSendAfter(ep in before, status[ep]))
  {
    if last > 1 {
      Sam3xInSendPassMeaning(before, status, last - 1);
    }
  }

  /** An interrupt descriptor of the device DMA, as transfer fills it in. */
  datatype DmaCommand = RunAndStop | LoadNextDesc | StopNow
  datatype Descriptor = Descriptor(
    command: DmaCommand, endTransferEnable: bool, endBufferEnable: bool,
    endTransferInterrupt: bool, endBufferInterrupt: bool, descriptorLoadedInterrupt: bool,
    buffer: nat, length: nat)

  /** The SAM3X USB device hardware: the control endpoint's state and the endpoints' DMA use. */
  class UsbDeviceHardware {
    /** setup_state and _setup_buffer. */
    var state: SetupState
    var buffer: SetupBuffer
    /** The characters of the IN packet last put in the control FIFO. */
    var fifo: seq<char>
    /** STALL handshakes requested on the control endpoint. */
    var stalled: bool
    /** The address from the SET_ADDRESS request, pending until the status stage, and the one configured. */
    var addressAvailable: bool
    var address: Option<nat>
    /** Calls of the control read's completion callback. */
    var readsCompleted: nat
    /** The size of the control endpoint's FIFO, _get_endpoint_size(0). */
    const controlSize: nat
    var configNumber: nat
    var inited: bool
    /** _dma_used_by_endpoint, and the endpoints reported done in order. */
    var dmaUsed: set<nat>
    var done: seq<nat>
    /** The endpoints whose TXINI interrupt is enabled. */
    var inSendEnabled: set<nat>
    /** handleConnectionStateChanged calls, and the detach-attach cycles a VBUS loss forces. */
    var connectionChanges: nat
    var reattachments: nat

    constructor (controlSize: nat)
      requires controlSize > 0
      ensures this.controlSize == controlSize && state == Setup && buffer == EmptySetupBuffer
      ensures configNumber == 0 && !inited && dmaUsed == {} && done == [] && inSendEnabled == {}
      ensures !addressAvailable && address == None && connectionChanges == 0 && reattachments == 0
    {
      this.controlSize := controlSize;
      state, buffer, fifo, stalled := Setup, EmptySetupBuffer, [], false;
      addressAvailable, address, readsCompleted := false, None, 0;
      configNumber, inited, dmaUsed, done, inSendEnabled := 0, false, {}, [], {};
      connectionChanges, reattachments := 0, 0;
    }

    /** The end of _init: marked initialised, unconfigured, waiting for a SETUP packet. */
    method Init()
      modifies this`inited, this`configNumber, this`state, this`buffer
      ensures inited && configNumber == 0 && state == Setup && buffer == EmptySetupBuffer
    {
      inited := true;
      configNumber := 0;
      buffer := EmptySetupBuffer;
      state := Setup;
    }

    /**
     * The setup buffer lies inside its memory, except after an OUT data
     * stage that ended with characters left: the pointer has then moved
     * past them, and only the IN handshake's initSetup follows.
     */
    predicate Valid()
      reads this
    {
      (state == HandshakeWaitInZlp || InBounds(buffer)) && controlSize > 0
    }

    /** initSetup: back to waiting for a SETUP packet, with an empty setup buffer. */
    method InitSetup()
      modifies this`state, this`buffer
      ensures state == Setup && buffer == EmptySetupBuffer
    {
      state := Setup;
      buffer := EmptySetupBuffer;
    }

    /** writeToControl: the two parts the IN data stage will send. */
    method WriteToControl(memory0: seq<char>, addr0: nat, length0: Uint16, memory1: seq<char>, addr1: nat, length1: Uint16)
      requires Valid() && addr0 + length0 <= |memory0| && addr1 + length1 <= |memory1|
      modifies this`buffer
      ensures Valid() && InBounds(buffer) && Pending(buffer) == memory0[addr0..addr0 + length0] + memory1[addr1..addr1 + length1]
    {
      buffer := SetupBuffer(memory0, addr0, length0, memory1, addr1, length1);
    }

    /** readFromControlThen: the memory the OUT data stage fills, and the move to DATA_OUT. */
    method ReadFromControlThen(memory: seq<char>, addr: nat, length: Uint16)
      requires Valid() && addr + length <= |memory|
      modifies this`buffer, this`state
      ensures Valid() && state == DataOut
      ensures buffer == SetupBuffer(memory, addr, length, [], 0, 0)
    {
      buffer := SetupBuffer(memory, addr, length, [], 0, 0);
      state := DataOut;
    }

    /**
     * _handleControlTX. In the status stage of SET_ADDRESS the pending
     * address is configured and the setup ends. Otherwise the buffer is cut
     * to the setup packet's length and the next packet of at most the
     * FIFO's size is sent; an empty one, or an OUT packet that arrived
     * meanwhile, turns to waiting for the OUT handshake instead. Endpoint
     * 0's TXINI interrupt is turned off on entry and back on only after a
     * packet is sent.
     */
    method HandleControlTx(setupLength: Uint16, setupValueLow: nat, outReceived: bool)
      requires Valid()
      modifies this`state, this`buffer, this`fifo, this`addressAvailable, this`address, this`inSendEnabled
      ensures Valid()
      ensures old(state) == HandshakeWaitInZlp ==>
        && state == Setup && buffer == EmptySetupBuffer && fifo == old(fifo) && !addressAvailable
        && address == (if old(addressAvailable) then Some(setupValueLow) else old(address))
        && inSendEnabled == old(inSendEnabled) - {0}
      ensures old(state) != HandshakeWaitInZlp ==>
        var total := Min(setupLength, old(buffer).length0 + old(buffer).length1);
        var pending := Pending(old(buffer))[..total];
        && addressAvailable == old(addressAvailable) && address == old(address)
        && (total == 0 || outReceived ==>
            state == HandshakeWaitOutZlp && fifo == old(fifo) && inSendEnabled == old(inSendEnabled) - {0})
        && (total != 0 && !outReceived ==>
            && state == old(state)
            && fifo == pending[..Min(total, controlSize)]
            && Pending(buffer) == pending[Min(total, controlSize)..]
            && inSendEnabled == old(inSendEnabled) + {0})
    {
      inSendEnabled := inSendEnabled - {0};
      if state == HandshakeWaitInZlp {
        if addressAvailable {
          address := Some(setupValueLow);
          addressAvailable := false;
        }
        InitSetup();
        return;
      }
      TruncateIsPrefix(buffer, setupLength);
      buffer := Truncate(buffer, setupLength);
      var toSend := buffer.length0 + buffer.length1;
      if toSend > controlSize {
        toSend := controlSize;
      } else if toSend == 0 {
        state := HandshakeWaitOutZlp;
        return;
      }
      if outReceived {
        state := HandshakeWaitOutZlp;
        return;
      }
      ghost var pending := Pending(buffer);
      fifo, buffer := CopyToFifo(buffer, toSend);
      inSendEnabled := inSendEnabled + {0};
    }

    /**
     * _handleControlRX. Outside DATA_OUT the setup ends, with a STALL
     * unless an OUT handshake or an aborted IN stage explains the packet.
     * In DATA_OUT a packet is read by ReceiveStep while the buffer has room;
     * a short packet, or characters left, ends the data stage with an IN
     * handshake, which turns endpoint 0's TXINI interrupt on.
     */
    method HandleControlRx(setupLength: Uint16, fifoReads: seq<char>)
      requires Valid() && |fifoReads| >= buffer.length0
      modifies this`state, this`buffer, this`stalled, this`readsCompleted, this`inSendEnabled
      ensures Valid()
      ensures old(state) != DataOut ==>
        && state == Setup && buffer == EmptySetupBuffer && readsCompleted == old(readsCompleted)
        && stalled == (old(stalled) || old(state) !in {HandshakeWaitOutZlp, DataIn})
        && inSendEnabled == old(inSendEnabled)
      ensures old(state) == DataOut && old(buffer).length0 == 0 ==>
        && state == DataOut && buffer == old(buffer) && stalled == old(stalled) && readsCompleted == old(readsCompleted)
        && inSendEnabled == old(inSendEnabled)
      ensures old(state) == DataOut && old(buffer).length0 != 0 ==>
        var amount := Min(setupLength, old(buffer).length0);
        && buffer == ReceiveStep(old(buffer), setupLength, fifoReads)
        && readsCompleted == old(readsCompleted) + 1 && stalled == old(stalled)
        && (state == HandshakeWaitInZlp <==> amount != controlSize || buffer.length0 != 0)
        && (state != HandshakeWaitInZlp ==> state == DataOut)
        && inSendEnabled == if state == HandshakeWaitInZlp then old(inSendEnabled) + {0} else old(inSendEnabled)
    {
      if state != DataOut {
        if state != HandshakeWaitOutZlp && state != DataIn {
          stalled := true;
        }
        InitSetup();
        return;
      }
      if buffer.length0 != 0 {
        var amount := Min(setupLength, buffer.length0);
        buffer := ReceiveStep(buffer, setupLength, fifoReads);
        readsCompleted := readsCompleted + 1;
        if amount != controlSize || buffer.length0 != 0 {
          state := HandshakeWaitInZlp;
          inSendEnabled := inSendEnabled + {0};
          return;
        }
      }
    }

    /**
     * transfer: refused before the device is configured; otherwise the
     * descriptor is set to run and stop with the end-of-buffer interrupt,
     * an IN endpoint also validating the packet at the buffer's end and
     * letting USB end the transfer, and the endpoint is marked as using
     * DMA; an IN endpoint's TXINI interrupt is turned on.
     */
    method Transfer(ep: nat, txIn: bool, desc: Descriptor) returns (ok: bool, desc': Descriptor)
      modifies this`dmaUsed, this`inSendEnabled
      ensures ok <==> configNumber != 0
      ensures !ok ==> desc' == desc && dmaUsed == old(dmaUsed) && inSendEnabled == old(inSendEnabled)
      ensures ok ==> dmaUsed == old(dmaUsed) + {ep}
      ensures ok ==> inSendEnabled == if txIn then old(inSendEnabled) + {ep} else old(inSendEnabled)
      ensures ok ==> desc' == desc.(command := RunAndStop, endBufferInterrupt := true,
        descriptorLoadedInterrupt := txIn,
        endBufferEnable := txIn || desc.endBufferEnable,
        endTransferEnable := txIn || desc.endTransferEnable,
        endTransferInterrupt := txIn || desc.endTransferInterrupt)
    {
      desc' := desc;
      if configNumber == 0 {
        return false, desc';
      }
      desc' := desc'.(command := RunAndStop, descriptorLoadedInterrupt := false);
      if txIn {
        desc' := desc'.(endBufferEnable := true, endTransferEnable := true,
                        endTransferInterrupt := true, descriptorLoadedInterrupt := true);
      }
      desc' := desc'.(endBufferInterrupt := true);
      dmaUsed := dmaUsed + {ep};
      if txIn {
        inSendEnabled := inSendEnabled + {ep};
      }
      ok := true;
    }

    /**
     * _completeTransfer: an IN endpoint's TXINI interrupt is disabled, the
     * endpoint no longer uses DMA and is reported done.
     */
    method CompleteTransfer(ep: nat, txIn: bool)
      modifies this`dmaUsed, this`done, this`inSendEnabled
      ensures dmaUsed == old(dmaUsed) - {ep} && done == old(done) + [ep]
      ensures inSendEnabled == if txIn then old(inSendEnabled) - {ep} else old(inSendEnabled)
    {
      if txIn {
        inSendEnabled := inSendEnabled - {ep};
      }
      dmaUsed := dmaUsed - {ep};
      done := done + [ep];
    }

    /** The loop of reset and checkAndHandleVbusChange: each of endpoints 0 to 9 still using DMA is stopped and reported done, in order. */
    method StopAllTransfers()
      modifies this`dmaUsed, this`done
      ensures dmaUsed == (set ep | ep in old(dmaUsed) && ep >= 10)
      ensures done == old(done) + Ascending(old(dmaUsed), 0, 10)
    {
      for ep := 0 to 10
        invariant dmaUsed == (set e | e in old(dmaUsed) && e >= ep)
        invariant done == old(done) + Ascending(old(dmaUsed), 0, ep)
      {
        if ep in dmaUsed {
          dmaUsed := dmaUsed - {ep};
          done := done + [ep];
        }
      }
    }

    /**
     * reset: address 0 is configured and enabled and no address is
     * pending; without VBUS the open transfers are stopped.
     */
    method Reset(vbus: bool)
      modifies this`address, this`addressAvailable, this`dmaUsed, this`done
      ensures address == Some(0) && !addressAvailable
      ensures vbus ==> dmaUsed == old(dmaUsed) && done == old(done)
      ensures !vbus ==> dmaUsed == (set ep | ep in old(dmaUsed) && ep >= 10) && done == old(done) + Ascending(old(dmaUsed), 0, 10)
    {
      address := Some(0);
      addressAvailable := false;
      if !vbus {
        StopAllTransfers();
      }
    }

    /**
     * checkAndHandleVbusChange: nothing unless the VBUS transition flag is
     * set and the device initialised; then the control endpoint waits for a
     * SETUP packet, and without VBUS the open transfers are stopped and the
     * device detached and attached again; the change is reported.
     */
    method CheckAndHandleVbusChange(vbusChange: bool, vbus: bool) returns (handled: bool)
      modifies this`state, this`dmaUsed, this`done, this`reattachments, this`connectionChanges
      ensures handled <==> vbusChange && inited
      ensures !handled ==>
        && state == old(state) && dmaUsed == old(dmaUsed) && done == old(done)
        && reattachments == old(reattachments) && connectionChanges == old(connectionChanges)
      ensures handled ==> state == Setup && connectionChanges == old(connectionChanges) + 1
      ensures handled && vbus ==> dmaUsed == old(dmaUsed) && done == old(done) && reattachments == old(reattachments)
      ensures handled && !vbus ==>
        && dmaUsed == (set ep | ep in old(dmaUsed) && ep >= 10) && done == old(done) + Ascending(old(dmaUsed), 0, 10)
        && reattachments == old(reattachments) + 1
    {
      if !vbusChange || !inited {
        return false;
      }
      state := Setup;
      if !vbus {
        StopAllTransfers();
        reattachments := reattachments + 1;
      }
      connectionChanges := connectionChanges + 1;
      handled := true;
    }

    /**
     * The body of the SAM3X checkAndHandleEndpoint loop for one endpoint, in
     * the driver's order; dmaEnabled is the DMA interrupt's enable as the DMA
     * part reads it back, after the endpoint part's completion disabled it.
     */
    method ServiceEndpoint(f: EndpointFlags, ep: nat) returns (h: Handling)
      modifies this`dmaUsed, this`done, this`inSendEnabled
      ensures h == Sam3xService(f)
      ensures dmaUsed == if h.completed then old(dmaUsed) - {ep} else old(dmaUsed)
      ensures done == if h.completed then old(done) + [ep] else old(done)
      ensures inSendEnabled == if Sam3xInSendAfter(ep in old(inSendEnabled), f)
        then old(inSendEnabled) + {ep} else old(inSendEnabled) - {ep}
    {
      h := Sam3xService(f);
      var dmaEnabled := f.dmaInterruptEnabled;
      var completed := false;
      if FinishedByFifo(f) {
        CompleteTransfer(ep, f.txIn);
        dmaEnabled := false;
        completed := true;
      }
      if dmaEnabled && f.dmaInterrupt {
        if f.descriptorLoaded && f.txIn {
          inSendEnabled := inSendEnabled + {ep};
        }
        if (f.endOfTransfer || f.endOfBuffer) && !completed {
          CompleteTransfer(ep, f.txIn);
        }
      }
    }

    /**
     * checkAndHandleEndpoint: one pass over endpoints 1 to 9 in order, each
     * serviced by Sam3xService; the finished ones are reported done in
     * order and leave DMA, and each endpoint's TXINI ends as
     * Sam3xInSendAfter says.
     */
    method CheckAndHandleEndpoint(status: seq<EndpointFlags>) returns (handled: bool)
      requires |status| == 10
      modifies this`dmaUsed, this`done, this`inSendEnabled
      ensures handled <==> exists ep :: 1 <= ep < 10 && Sam3xService(status[ep]).handled
      ensures dmaUsed == old(dmaUsed) - Sam3xFinished(status, 10)
      ensures done == old(done) + Ascending(Sam3xFinished(status, 10), 1, 10)
      ensures inSendEnabled == Sam3xInSendPass(old(inSendEnabled), status, 10)
    {
      handled := false;
      for ep := 1 to 10
        invariant handled <==> exists e :: 1 <= e < ep && Sam3xService(status[e]).handled
        invariant dmaUsed == old(dmaUsed) - Sam3xFinished(status, ep)
        invariant done == old(done) + Ascending(Sam3xFinished(status, 10), 1, ep)
        invariant inSendEnabled == Sam3xInSendPass(old(inSendEnabled), status, ep)
      {
        var h := ServiceEndpoint(status[ep], ep);
        assert Sam3xFinished(status, ep + 1) == Sam3xFinished(status, ep) + (if h.completed then {ep} else {});
        handled := handled || h.handled;
      }
    }
  }
}
