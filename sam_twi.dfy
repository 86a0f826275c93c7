// The SAM TWIHS (I2C master) driver: the address packing of setAddress, the
// clock-divider search of setSpeed, the interrupt-cause decoding and the
// transfer state machine of startTransfer and prehandleInterrupt. The
// hardware is a parameter: status bits, the received byte, the DMA's answer
// and the buffer's address are inputs, and every effect on the hardware
// (interrupt enables, START/STOP commands, bytes written to the transmit
// holding register, DMA transfers requested) is recorded in a field.

module SamTwi {

  import opened Wrappers
  import MotateCommon

  type Byte = b: int | 0 <= b < 0x100

  const Modulus32: int := 0x1_0000_0000

  type Uint32 = n: int | 0 <= n < Modulus32

  // ---------------------------------------------------------------- setAddress

  /** The width of one byte, as a shift amount. */
  const ByteShift: bv5 := 8

  datatype AddressSize = SevenBit | TenBit

  /** TWIInternalAddressSize: no internal address, or one to three bytes of it. */
  datatype InternalAddressSize = NoInternal | OneByte | TwoBytes | ThreeBytes

  function SizeValue(s: InternalAddressSize): (n: nat)
    ensures n <= 3
  {
    match s
    case NoInternal => 0
    case OneByte => 1
    case TwoBytes => 2
    case ThreeBytes => 3
  }

  datatype DeviceAddress = DeviceAddress(address: bv32, size: AddressSize)

  datatype InternalAddress = InternalAddress(address: bv32, size: InternalAddressSize)

  /** The DADR field of TWIHS_MMR, the IADRSZ field of TWIHS_MMR and TWIHS_IADR. */
  datatype AddressRegisters = AddressRegisters(dadr: bv32, iadrsz: nat, iadr: bv32)

  /**
   * The register values setAddress computes, or None when a 10-bit device
   * address comes with a three-byte internal address. A 10-bit address puts
   * the marker 0b011110 and its bits 9..8 in DADR, and its low byte in front
   * of the internal address, which grows by one byte.
   */
  function PackAddress(a: DeviceAddress, i: InternalAddress): (r: Option<AddressRegisters>)
    ensures r.None? <==> a.size == TenBit && i.size == ThreeBytes
  {
    if a.size == TenBit then
      if i.size == ThreeBytes then None
      else Some(AddressRegisters(0x78 | ((a.address >> ByteShift) & 3), SizeValue(i.size) + 1,
                                 (a.address & 0xFF) | ((i.address & 0xFFFF) << ByteShift)))
    else Some(AddressRegisters(0x7F & a.address, SizeValue(i.size), i.address & 0xFF_FFFF))
  }

  /** The packed values fit the 7-bit DADR, the 2-bit IADRSZ and the 24-bit IADR fields. */
  lemma PackedFits(a: DeviceAddress, i: InternalAddress)
    requires PackAddress(a, i).Some?
    ensures var r := PackAddress(a, i).value;
      r.dadr < 0x80 && r.iadrsz <= 3 && r.iadr < 0x100_0000
  {
    if a.size == TenBit {
      var lo := a.address & 0xFF;
      var hi := (i.address & 0xFFFF) << ByteShift;
      assert lo < 0x100;
      assert hi < 0x100_0000 && hi & 0xFF == 0;
      assert lo | hi < 0x100_0000;
      assert 0x78 | ((a.address >> ByteShift) & 3) < 0x80;
    }
  }

  /**
   * A 10-bit address can be read back from the registers: DADR carries the
   * marker and bits 9..8, the low byte of IADR bits 7..0, and the bytes
   * above it the internal address.
   */
  lemma TenBitRoundTrip(a: DeviceAddress, i: InternalAddress)
    requires a.size == TenBit && i.size != ThreeBytes
    ensures var r := PackAddress(a, i).value;
      r.dadr & 0x7C == 0x78
      && (((r.dadr & 3) << ByteShift) | (r.iadr & 0xFF)) == a.address & 0x3FF
      && r.iadr >> ByteShift == i.address & 0xFFFF
      && r.iadrsz == SizeValue(i.size) + 1
  {
    TenBitMarker(a, i);
    TenBitAddressBack(a, i);
    TenBitInternalBack(a, i);
  }

  lemma TenBitMarker(a: DeviceAddress, i: InternalAddress)
    requires a.size == TenBit && i.size != ThreeBytes
    ensures PackAddress(a, i).value.dadr & 0x7C == 0x78
  {
    TenBitDadr(a.address, PackAddress(a, i).value.dadr);
  }

  lemma TenBitAddressBack(a: DeviceAddress, i: InternalAddress)
    requires a.size == TenBit && i.size != ThreeBytes
    ensures var r := PackAddress(a, i).value;
      (((r.dadr & 3) << ByteShift) | (r.iadr & 0xFF)) == a.address & 0x3FF
  {
    TenBitBack(a.address, i.address);
  }

  lemma TenBitInternalBack(a: DeviceAddress, i: InternalAddress)
    requires a.size == TenBit && i.size != ThreeBytes
    ensures PackAddress(a, i).value.iadr >> ByteShift == i.address & 0xFFFF
  {
    var lo, rest := a.address & 0xFF, i.address & 0xFFFF;
    LowByteAndRest(lo, rest);
  }

  lemma TenBitDadr(x: bv32, dadr: bv32)
    requires dadr == 0x78 | ((x >> ByteShift) & 3)
    ensures dadr & 0x7C == 0x78 && dadr & 3 == (x >> ByteShift) & 3
  {
    MarkerBits((x >> ByteShift) & 3);
  }

  lemma TenBitBack(x: bv32, y: bv32)
    ensures var dadr := 0x78 | ((x >> ByteShift) & 3);
      var iadr := (x & 0xFF) | ((y & 0xFFFF) << ByteShift);
      ((dadr & 3) << ByteShift) | (iadr & 0xFF) == x & 0x3FF
  {
    var dadr := 0x78 | ((x >> ByteShift) & 3);
    var iadr := (x & 0xFF) | ((y & 0xFFFF) << ByteShift);
    TenBitDadr(x, dadr);
    LowByteAndRest(x & 0xFF, y & 0xFFFF);
    Recombine(dadr, iadr, x);
  }

  lemma Recombine(dadr: bv32, iadr: bv32, x: bv32)
    requires dadr & 3 == (x >> ByteShift) & 3 && iadr & 0xFF == x & 0xFF
    ensures ((dadr & 3) << ByteShift) | (iadr & 0xFF) == x & 0x3FF
  {
    SplitTenBits(x);
  }

  lemma MarkerBits(top: bv32)
    requires top <= 3
    ensures (0x78 | top) & 0x7C == 0x78 && (0x78 | top) & 3 == top
  {
  }

  lemma LowByteAndRest(lo: bv32, rest: bv32)
    requires lo <= 0xFF && rest <= 0xFFFF
    ensures (lo | (rest << ByteShift)) & 0xFF == lo && (lo | (rest << ByteShift)) >> ByteShift == rest
  {
  }

  lemma SplitTenBits(x: bv32)
    ensures (((x >> ByteShift) & 3) << ByteShift) | (x & 0xFF) == x & 0x3FF
  {
  }

  /** A 7-bit address keeps its low seven bits and the internal address its low three bytes. */
  lemma SevenBitRoundTrip(a: DeviceAddress, i: InternalAddress)
    requires a.size == SevenBit
    ensures var r := PackAddress(a, i).value;
      r.dadr == a.address & 0x7F && r.iadr == i.address & 0xFF_FFFF && r.iadrsz == SizeValue(i.size)
  {
  }

  /** Two 10-bit devices with different addresses get different register values. */
  lemma TenBitInjective(a: DeviceAddress, b: DeviceAddress, i: InternalAddress)
    requires a.size == TenBit && b.size == TenBit && i.size != ThreeBytes
    requires a.address & 0x3FF != b.address & 0x3FF
    ensures PackAddress(a, i) != PackAddress(b, i)
  {
    TenBitRoundTrip(a, i);
    TenBitRoundTrip(b, i);
  }

  // ---------------------------------------------------------------- setSpeed

  const FastModeSpeed: nat := 400_000
  /** The speed above which the low period is fixed at 1.3 us. */
  const LowLevelTimeLimit: nat := 384_000
  const ClockDivider: nat := 2
  const ClockCalcArgument: nat := 3
  const DividerMax: nat := 0xFF
  /** The largest CKDIV (TWIHS_CLK_DIV_MIN in the driver). */
  const CkdivMax: nat := 7

  /** The uint32_t difference a - b. */
  function Sub32(a: Uint32, b: Uint32): (r: Uint32)
    ensures a >= b ==> r == a - b
    ensures a < b ==> r == a - b + Modulus32
  {
    (a - b) % Modulus32
  }

  function Pow2(k: nat): (p: nat)
    ensures p >= 1
  {
    if k == 0 then 1 else 2 * Pow2(k - 1)
  }

  /** The quotient is the unique q with a == q * d + r and 0 <= r < d. */
  lemma QuotientUnique(a: nat, d: nat, q: nat, r: nat)
    requires d > 0 && a == q * d + r && r < d
    ensures a / d == q
  {
    var q' := a / d;
    var r' := a % d;
    assert a == q' * d + r';
    if q' < q {
      assert (q - q') * d == r' - r;
      MulAtLeast(q - q', d);
    } else if q' > q {
      assert (q' - q) * d == r - r';
      MulAtLeast(q' - q, d);
    }
  }

  lemma QuotientNonneg(a: nat, d: nat)
    requires d > 0
    ensures a / d >= 0
  {
  }

  lemma MulAtLeast(k: nat, d: nat)
    requires k >= 1
    ensures k * d >= d
  {
    assert k * d == (k - 1) * d + d;
  }

  /** One more halving of a quotient by a power of two. */
  lemma HalveQuotient(value: nat, k: nat)
    ensures value / Pow2(k) / 2 == value / Pow2(k + 1)
  {
    var p := Pow2(k);
    var q := value / p;
    var r := value % p;
    var q2 := q / 2;
    var r2 := q % 2;
    assert q * p == q2 * (2 * p) + r2 * p by {
      Regroup(q2, r2, p);
    }
    assert r2 * p + r < 2 * p by {
      if r2 == 1 {
        assert r2 * p == p;
      }
    }
    QuotientUnique(value, 2 * p, q2, r2 * p + r);
  }

  lemma Regroup(x: nat, y: nat, p: nat)
    ensures (2 * x + y) * p == x * (2 * p) + y * p
  {
    calc {
      (2 * x + y) * p;
      (2 * x) * p + y * p;
      x * (2 * p) + y * p;
    }
  }

  /** A quotient by a larger power of two is no larger. */
  lemma QuotientShrinks(value: nat, i: nat, j: nat)
    requires i <= j
    ensures value / Pow2(j) <= value / Pow2(i)
    decreases j - i
  {
    if i < j {
      QuotientShrinks(value, i, j - 1);
      HalveQuotient(value, j - 1);
      var h := value / Pow2(j - 1);
      assert value / Pow2(j) == h / 2;
      QuotientNonneg(value, Pow2(j - 1));
      assert h / 2 <= h;
    }
  }

  /** Quotients by powers of two compose. */
  lemma QuotientOfQuotient(value: nat, i: nat, j: nat)
    ensures value / Pow2(i) / Pow2(j) == value / Pow2(i + j)
    decreases j
  {
    if j > 0 {
      QuotientOfQuotient(value, i, j - 1);
      HalveQuotient(value / Pow2(i), j - 1);
      HalveQuotient(value, i + j - 1);
    }
  }

  /**
   * The divider loop: while the divider exceeds 0xFF and CKDIV is below 7,
   * CKDIV grows by one and the divider is halved. Result: (divider, CKDIV).
   */
  function Scaled(value: nat, ckdiv: nat): (r: (nat, nat))
    requires ckdiv <= CkdivMax
    ensures ckdiv <= r.1 <= CkdivMax
    decreases CkdivMax - ckdiv
  {
    if value > DividerMax && ckdiv < CkdivMax then Scaled(value / ClockDivider, ckdiv + 1)
    else (value, ckdiv)
  }

  /**
   * The loop's closed form: it stops at the smallest CKDIV from k0 on at
   * which the divider, halved once per step, fits 8 bits, or at 7.
   */
  lemma {:induction false} ScaledMeaning(value: nat, k0: nat)
    requires k0 <= CkdivMax
    ensures var (v, k) := Scaled(value, k0);
      k0 <= k <= CkdivMax
      && v == value / Pow2(k - k0)
      && (v <= DividerMax || k == CkdivMax)
      && (k > k0 ==> value / Pow2(k - k0 - 1) > DividerMax)
    decreases CkdivMax - k0
  {
    if value > DividerMax && k0 < CkdivMax {
      ScaledMeaning(value / 2, k0 + 1);
      var (v, k) := Scaled(value / 2, k0 + 1);
      QuotientOfQuotient(value, 1, k - k0 - 1);
      if k > k0 + 1 {
        QuotientOfQuotient(value, 1, k - k0 - 2);
      }
    }
  }

  /** The CWGR fields: CLDIV, CHDIV (8 bits each) and CKDIV (3 bits). */
  datatype ClockRegisters = ClockRegisters(cldiv: nat, chdiv: nat, ckdiv: nat)

  /** The shared divider for speeds up to 384 kHz. */
  function SlowDivider(periphClock: Uint32, speed: Uint32): Uint32
    requires 0 < speed <= LowLevelTimeLimit
  {
    Sub32(Quotient32(periphClock, speed * ClockDivider), ClockCalcArgument)
  }

  /** The low-period divider above 384 kHz: fixed at 1.3 us. */
  function FastLowDivider(periphClock: Uint32): Uint32
  {
    Sub32(Quotient32(periphClock, LowLevelTimeLimit * ClockDivider), ClockCalcArgument)
  }

  /** The high-period divider above 384 kHz. */
  function FastHighDivider(periphClock: Uint32, speed: Uint32): Uint32
    requires LowLevelTimeLimit < speed <= FastModeSpeed
  {
    Sub32(Quotient32(periphClock, (speed + (speed - LowLevelTimeLimit)) * ClockDivider), ClockCalcArgument)
  }

  /** A uint32_t quotient. */
  function Quotient32(a: Uint32, d: nat): (q: Uint32)
    requires d > 0
    ensures q == a / d
  {
    QuotientAtMost(a, d);
    a / d
  }

  lemma QuotientAtMost(a: nat, d: nat)
    requires d > 0
    ensures a / d <= a
  {
    assert a == (a / d) * d + a % d;
    MulAtLeast(d, a / d);
  }

  /**
   * The fast-mode registers as written: CHDIV's loop starts from the CKDIV
   * that CLDIV's loop reached, but CHDIV is never halved for those steps.
   */
  function FastClockAsWritten(periphClock: Uint32, speed: Uint32): ClockRegisters
    requires LowLevelTimeLimit < speed <= FastModeSpeed
  {
    var (cl, k1) := Scaled(FastLowDivider(periphClock), 0);
    var (ch, k) := Scaled(FastHighDivider(periphClock, speed), k1);
    ClockRegisters(cl % 0x100, ch % 0x100, k)
  }

  /**
   * With a 200 MHz peripheral clock at 400 kHz, CLDIV needs CKDIV 1 and is
   * halved to 128, but CHDIV stays 237 rather than 118, so the high period
   * doubles along with CKDIV.
   */
  lemma FastClockSkew()
    ensures FastLowDivider(200_000_000) == 257 && FastHighDivider(200_000_000, 400_000) == 237
    ensures FastClockAsWritten(200_000_000, 400_000) == ClockRegisters(128, 237, 1)
    ensures FastClock(200_000_000, 400_000) == ClockRegisters(128, 118, 1)
  {
  }

  /** The registers setSpeed writes up to 384 kHz: one divider for both periods. */
  function SlowClock(periphClock: Uint32, speed: Uint32): ClockRegisters
    requires 0 < speed <= LowLevelTimeLimit
  {
    var (d, k) := Scaled(SlowDivider(periphClock, speed), 0);
    ClockRegisters(d % 0x100, d % 0x100, k)
  }

  /**
   * The two divider loops sharing one CKDIV, with CHDIV halved for the steps
   * CLDIV already took and CLDIV halved for any further steps CHDIV needs.
   * Result: (CLDIV, CHDIV, CKDIV) before masking.
   */
  function ScaledPair(lo: nat, hi: nat): (nat, nat, nat)
  {
    var low := Scaled(lo, 0);
    QuotientNonneg(hi, Pow2(low.1));
    var high := Scaled(hi / Pow2(low.1), low.1);
    QuotientNonneg(low.0, Pow2(high.1 - low.1));
    (low.0 / Pow2(high.1 - low.1), high.0, high.1)
  }

  /** Both dividers are divided by the same 2^CKDIV, the smallest at which both fit (or 7). */
  lemma ScaledPairMeaning(lo: nat, hi: nat)
    ensures var r := ScaledPair(lo, hi);
      && r.2 <= CkdivMax && r.0 == lo / Pow2(r.2) && r.1 == hi / Pow2(r.2)
      && (r.2 < CkdivMax ==> r.0 <= DividerMax && r.1 <= DividerMax)
      && (r.2 > 0 ==> lo / Pow2(r.2 - 1) > DividerMax || hi / Pow2(r.2 - 1) > DividerMax)
  {
    ScaledPairExact(lo, hi);
    ScaledPairFits(lo, hi);
    ScaledPairMinimal(lo, hi);
  }

  lemma ScaledPairExact(lo: nat, hi: nat)
    ensures var r := ScaledPair(lo, hi);
      r.0 == lo / Pow2(r.2) && r.1 == hi / Pow2(r.2)
  {
    ScaledMeaning(lo, 0);
    var low := Scaled(lo, 0);
    var k1 := low.1;
    QuotientNonneg(hi, Pow2(k1));
    var h1: nat := hi / Pow2(k1);
    ScaledMeaning(h1, k1);
    var k := Scaled(h1, k1).1;
    assert low.0 == lo / Pow2(k1);
    QuotientTo(lo, k1, k);
    QuotientTo(hi, k1, k);
  }

  lemma ScaledPairFits(lo: nat, hi: nat)
    ensures var r := ScaledPair(lo, hi);
      r.2 < CkdivMax ==> r.0 <= DividerMax && r.1 <= DividerMax
  {
    ScaledMeaning(lo, 0);
    var low := Scaled(lo, 0);
    QuotientNonneg(hi, Pow2(low.1));
    var h1: nat := hi / Pow2(low.1);
    ScaledMeaning(h1, low.1);
    var k := Scaled(h1, low.1).1;
    if k < CkdivMax {
      QuotientAtMost(low.0, Pow2(k - low.1));
    }
  }

  lemma ScaledPairMinimal(lo: nat, hi: nat)
    ensures var r := ScaledPair(lo, hi);
      r.2 > 0 ==> lo / Pow2(r.2 - 1) > DividerMax || hi / Pow2(r.2 - 1) > DividerMax
  {
    ScaledMeaning(lo, 0);
    var k1 := Scaled(lo, 0).1;
    QuotientNonneg(hi, Pow2(k1));
    var h1: nat := hi / Pow2(k1);
    ScaledMeaning(h1, k1);
    var k := Scaled(h1, k1).1;
    if k > k1 {
      HighMinimal(hi, k1, k);
    }
  }

  /** When CHDIV's loop took steps of its own, one step fewer would not have fitted CHDIV. */
  lemma HighMinimal(hi: nat, k1: nat, k: nat)
    requires k1 < k && hi / Pow2(k1) / Pow2(k - k1 - 1) > DividerMax
    ensures hi / Pow2(k - 1) > DividerMax
  {
    QuotientTo(hi, k1, k - 1);
  }

  lemma QuotientTo(value: nat, i: nat, k: nat)
    requires i <= k
    ensures value / Pow2(i) / Pow2(k - i) == value / Pow2(k)
  {
    QuotientOfQuotient(value, i, k - i);
  }

  /** The fast-mode registers with both dividers scaled by the same CKDIV. */
  function FastClock(periphClock: Uint32, speed: Uint32): ClockRegisters
    requires LowLevelTimeLimit < speed <= FastModeSpeed
  {
    var (l, h, k) := ScaledPair(FastLowDivider(periphClock), FastHighDivider(periphClock, speed));
    ClockRegisters(l % 0x100, h % 0x100, k)
  }

  /**
   * Up to 384 kHz, CKDIV is the smallest that makes the divider fit 8 bits
   * (or 7), and both periods use the divider divided by 2^CKDIV.
   */
  lemma SlowClockMeaning(periphClock: Uint32, speed: Uint32)
    requires 0 < speed <= LowLevelTimeLimit
    ensures var r := SlowClock(periphClock, speed);
      var d := SlowDivider(periphClock, speed);
      && r.ckdiv <= CkdivMax
      && r.cldiv == r.chdiv == (d / Pow2(r.ckdiv)) % 0x100
      && (r.ckdiv < CkdivMax ==> d / Pow2(r.ckdiv) <= DividerMax)
      && (r.ckdiv > 0 ==> d / Pow2(r.ckdiv - 1) > DividerMax)
  {
    ScaledMeaning(SlowDivider(periphClock, speed), 0);
  }

  /**
   * Above 384 kHz (corrected): CKDIV is the smallest at which both dividers
   * fit 8 bits (or 7), and each register holds its divider divided by
   * 2^CKDIV, so the two periods keep their ratio.
   */
  lemma FastClockMeaning(periphClock: Uint32, speed: Uint32)
    requires LowLevelTimeLimit < speed <= FastModeSpeed
    ensures var r := FastClock(periphClock, speed);
      var lo := FastLowDivider(periphClock);
      var hi := FastHighDivider(periphClock, speed);
      && r.ckdiv <= CkdivMax
      && r.cldiv == (lo / Pow2(r.ckdiv)) % 0x100
      && r.chdiv == (hi / Pow2(r.ckdiv)) % 0x100
      && (r.ckdiv < CkdivMax ==> lo / Pow2(r.ckdiv) <= DividerMax && hi / Pow2(r.ckdiv) <= DividerMax)
      && (r.ckdiv > 0 ==> lo / Pow2(r.ckdiv - 1) > DividerMax || hi / Pow2(r.ckdiv - 1) > DividerMax)
  {
    ScaledPairMeaning(FastLowDivider(periphClock), FastHighDivider(periphClock, speed));
  }

  /** The halving loop shared by the three divider searches of setSpeed. */
  method ScaleDivider(value: nat, ckdiv0: nat) returns (divider: nat, ckdiv: nat)
    requires ckdiv0 <= CkdivMax
    ensures (divider, ckdiv) == Scaled(value, ckdiv0)
  {
    divider, ckdiv := value, ckdiv0;
    while divider > DividerMax && ckdiv < CkdivMax
      invariant ckdiv <= CkdivMax
      invariant Scaled(divider, ckdiv) == Scaled(value, ckdiv0)
      decreases CkdivMax - ckdiv
    {
      ckdiv := ckdiv + 1;
      divider := divider / ClockDivider;
    }
  }

  // ---------------------------------------------------------------- getInterruptCause

  /** A TWIInterruptCause: the common interrupt events plus NACK, each a flag. */
  datatype Cause = Cause(txReady: bool, txDone: bool, txError: bool, rxReady: bool, rxError: bool,
                         txTransferDone: bool, rxTransferDone: bool, nack: bool)

  const NoCause := Cause(false, false, false, false, false, false, false, false)

  /** The TWIHS_SR bits the decoding reads. */
  datatype TwiStatus = TwiStatus(txReady: bool, txComplete: bool, rxReady: bool, nack: bool)

  /** The flags a DMA hint reports: its transfer-done and error bits, and nothing else. */
  function HintCause(hint: MotateCommon.InterruptType): (r: Cause)
    ensures !r.txReady && !r.txDone && !r.rxReady && !r.nack
    ensures r.txTransferDone <==> MotateCommon.IsSet(hint, MotateCommon.TxTransferDone)
    ensures r.rxTransferDone <==> MotateCommon.IsSet(hint, MotateCommon.RxTransferDone)
    ensures r.txError <==> MotateCommon.IsSet(hint, MotateCommon.TxError)
    ensures r.rxError <==> MotateCommon.IsSet(hint, MotateCommon.RxError)
  {
    NoCause.(txTransferDone := MotateCommon.IsSet(hint, MotateCommon.TxTransferDone),
             rxTransferDone := MotateCommon.IsSet(hint, MotateCommon.RxTransferDone),
             txError := MotateCommon.IsSet(hint, MotateCommon.TxError),
             rxError := MotateCommon.IsSet(hint, MotateCommon.RxError))
  }

  /**
   * The flags the status register reports: TXRDY, RXRDY and NACK, and
   * TXCOMP only together with TXRDY and only when its interrupt is enabled;
   * never a DMA flag.
   */
  function StatusCause(sr: TwiStatus, imrTxComplete: bool): (r: Cause)
    ensures !r.txError && !r.rxError && !r.txTransferDone && !r.rxTransferDone
    ensures r.txReady == sr.txReady && r.rxReady == sr.rxReady && r.nack == sr.nack
    ensures r.txDone <==> sr.txReady && imrTxComplete && sr.txComplete
  {
    NoCause.(txReady := sr.txReady, txDone := sr.txReady && imrTxComplete && sr.txComplete,
             rxReady := sr.rxReady, nack := sr.nack)
  }

  /** getInterruptCause: a non-zero hint comes from the DMA and is decoded alone; otherwise the status register is. */
  function TwiInterruptCause(hint: MotateCommon.InterruptType, sr: TwiStatus, imrTxComplete: bool): Cause
  {
    if hint != 0 then HintCause(hint) else StatusCause(sr, imrTxComplete)
  }

  /**
   * The cause is empty, so the handler is not called, exactly when a DMA
   * hint has none of its four transfer bits, or, without a hint, when none
   * of TXRDY, RXRDY and NACK is set.
   */
  lemma CauseEmpty(hint: MotateCommon.InterruptType, sr: TwiStatus, imrTxComplete: bool)
    ensures TwiInterruptCause(hint, sr, imrTxComplete) == NoCause <==>
      if hint != 0 then
        && !MotateCommon.IsSet(hint, MotateCommon.TxTransferDone) && !MotateCommon.IsSet(hint, MotateCommon.RxTransferDone)
        && !MotateCommon.IsSet(hint, MotateCommon.TxError) && !MotateCommon.IsSet(hint, MotateCommon.RxError)
      else !sr.txReady && !sr.rxReady && !sr.nack
  {
  }

  /** getMessageSlotsAvailable: one slot when the DMA is done both ways, else none. */
  function MessageSlotsAvailable(doneWriting: bool, doneReading: bool): (n: nat)
    ensures n <= 1
    ensures n == 1 <==> doneWriting && doneReading
  {
    if doneWriting && doneReading then 1 else 0
  }
}
