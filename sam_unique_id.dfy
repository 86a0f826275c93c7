// The SAM unique identifier: the four 32-bit words the flash controller
// reads out, and the string of sixteen lowercase hex digits in four dashed
// groups that the UUID_t constructor precomputes from them into its
// 20-character buffer. The constructor's digit loop writes through a
// pointer into that buffer, so it is a method over an array here. Sixteen
// digits hold 64 bits, so each group can show only 16 of its word's 32 bits.

module SamUniqueId {

  import SamUart

  /** A 32-bit word of the identifier. */
  type Word = w: nat | w < 0x1_0000_0000

  /** The characters the loop starts from: "0000-0000-0000-0000" and its NUL. */
  const Initial: seq<char> := "0000-0000-0000-0000" + ['\0']

  // ---------------------------------------------------------------- digits

  /**
   * How far the constructor shifts a word for its j-th digit: j bits as
   * written; as intended, 4(3 - j) bits, so that the group shows the word's
   * low 16 bits most significant nibble first (network order).
   */
  datatype Shift = ByBits | ByNibbles

  /** The j-th digit of a word: the low four bits of the word shifted right as `shift` says. */
  function Digit(w: nat, j: nat, shift: Shift): (n: nat)
    requires j < 4
    ensures n < 16
  {
    match shift
    case ByBits => (match j case 0 => w case 1 => w / 2 case 2 => w / 4 case _ => w / 8) % 16
    case ByNibbles => Nibble(w, 3 - j)
  }

  /** The j-th nibble of a word, from the least significant: the word shifted right by 4j bits, masked. */
  function Nibble(w: nat, j: nat): (n: nat)
    ensures n < 16
  {
    if j == 0 then w % 16 else Nibble(w / 16, j - 1)
  }

  /** The character for a digit: '0' to '9', then 'a' to 'f'. */
  function HexChar(n: nat): (c: char)
    requires n < 16
    ensures IsHexChar(c)
    ensures HexValue(c) == n
  {
    if n < 10 then (n + '0' as int) as char else (n - 10 + 'a' as int) as char
  }

  predicate IsHexChar(c: char)
  {
    '0' <= c <= '9' || 'a' <= c <= 'f'
  }

  /** The value of a lowercase hex character, the inverse of HexChar (0 for any other character). */
  function HexValue(c: char): nat
  {
    if '0' <= c <= '9' then c as int - '0' as int
    else if 'a' <= c <= 'f' then c as int - 'a' as int + 10
    else 0
  }

  // ---------------------------------------------------------------- the string

  /** Where the digit for nibble i (0 to 15) lands: one dash before every group but the first. */
  function Position(i: nat): nat
  {
    i + i / 4
  }

  /**
   * The characters the constructor's loop has written after its first n
   * passes: a dash before each group of four but the first, then the
   * digit of nibble i % 4 of word i / 4.
   */
  function Prefix(words: seq<Word>, n: nat, shift: Shift): (s: seq<char>)
    requires |words| == 4 && n <= 16
    ensures |s| == if n == 0 then 0 else Position(n - 1) + 1
  {
    if n == 0 then []
    else
      var i := n - 1;
      Prefix(words, i, shift)
      + (if i > 0 && i % 4 == 0 then "-" else "")
      + [HexChar(Digit(words[i / 4], i % 4, shift))]
  }

  /** The identifier's string: all sixteen digits and their three dashes. */
  function Format(words: seq<Word>, shift: Shift): seq<char>
    requires |words| == 4
  {
    Prefix(words, 16, shift)
  }

  /** The digit of nibble i stays where it was written as the loop goes on. */
  lemma {:induction false} PrefixDigitAt(words: seq<Word>, n: nat, shift: Shift, i: nat)
    requires |words| == 4 && i < n <= 16
    ensures Position(i) < |Prefix(words, n, shift)|
    ensures Prefix(words, n, shift)[Position(i)] == HexChar(Digit(words[i / 4], i % 4, shift))
  {
    if i < n - 1 {
      PrefixDigitAt(words, n - 1, shift, i);
    }
  }

  /** The dash before group g (1 to 3) stays where it was written as the loop goes on. */
  lemma {:induction false} PrefixDashAt(words: seq<Word>, n: nat, shift: Shift, g: nat)
    requires |words| == 4 && 0 < g < 4 && 4 * g < n <= 16
    ensures Position(4 * g) - 1 < |Prefix(words, n, shift)|
    ensures Prefix(words, n, shift)[Position(4 * g) - 1] == '-'
  {
    if 4 * g < n - 1 {
      PrefixDashAt(words, n - 1, shift, g);
    }
  }

  /**
   * The string is 19 characters: dashes at 4, 9 and 14 and a lowercase
   * hex digit everywhere else, the digit of nibble j of word g at 5g + j.
   */
  lemma FormatShape(words: seq<Word>, shift: Shift)
    requires |words| == 4
    ensures |Format(words, shift)| == 19
    ensures forall g :: 0 < g < 4 ==> Format(words, shift)[5 * g - 1] == '-'
    ensures forall g, j :: 0 <= g < 4 && 0 <= j < 4 ==>
      Format(words, shift)[5 * g + j] == HexChar(Digit(words[g], j, shift))
  {
    forall g | 0 < g < 4
      ensures Format(words, shift)[5 * g - 1] == '-'
    {
      PrefixDashAt(words, 16, shift, g);
    }
    forall g, j | 0 <= g < 4 && 0 <= j < 4
      ensures Format(words, shift)[5 * g + j] == HexChar(Digit(words[g], j, shift))
    {
      FormatDigitAt(words, shift, g, j);
    }
  }

  /** The digit of nibble j of word g sits at 5g + j. */
  lemma FormatDigitAt(words: seq<Word>, shift: Shift, g: nat, j: nat)
    requires |words| == 4 && g < 4 && j < 4
    ensures 5 * g + j < |Format(words, shift)|
    ensures Format(words, shift)[5 * g + j] == HexChar(Digit(words[g], j, shift))
  {
    var i := 4 * g + j;
    assert i / 4 == g && i % 4 == j && Position(i) == 5 * g + j;
    PrefixDigitAt(words, 16, shift, i);
  }

  // ---------------------------------------------------------------- reading the string back

  /** The value of group g of a 19-character string, its first digit the most significant. */
  function GroupValue(s: seq<char>, g: nat): nat
    requires |s| == 19 && g < 4
  {
    var b := 5 * g;
    HexValue(s[b + 3]) + 16 * (HexValue(s[b + 2]) + 16 * (HexValue(s[b + 1]) + 16 * HexValue(s[b])))
  }

  /** The value of a word's n low nibbles, least significant first. */
  function LowNibbles(w: nat, n: nat): nat
  {
    if n == 0 then 0 else w % 16 + 16 * LowNibbles(w / 16, n - 1)
  }

  /** Splitting off the low nibble: w mod 16m is that nibble plus 16 times (w / 16) mod m. */
  lemma ModSplit(w: nat, m: nat)
    requires 0 < m
    ensures w % (16 * m) == w % 16 + 16 * ((w / 16) % m)
  {
    var q := w / 16;
    var k := q / m;
    var s := w % 16 + 16 * (q % m);
    assert w == k * (16 * m) + s;
    SamUart.DivUnique(w, 16 * m, k, s);
  }

  /** A word's n low nibbles are the word modulo 16^n. */
  lemma {:induction false} LowNibblesAreLowBits(w: nat, n: nat)
    requires n <= 4
    ensures LowNibbles(w, n) == w % Pow16(n)
  {
    if n > 0 {
      LowNibblesAreLowBits(w / 16, n - 1);
      ModSplit(w, Pow16(n - 1));
    }
  }

  function Pow16(n: nat): (p: nat)
    ensures p > 0
  {
    if n == 0 then 1 else 16 * Pow16(n - 1)
  }

  /**
   * The intended string gives back each word's low 16 bits: its four
   * digits per group are the four low nibbles, most significant first.
   */
  lemma FormatRoundTrip(words: seq<Word>)
    requires |words| == 4
    ensures forall g :: 0 <= g < 4 ==> GroupValue(Format(words, ByNibbles), g) == words[g] % 0x1_0000
  {
    forall g | 0 <= g < 4
      ensures GroupValue(Format(words, ByNibbles), g) == words[g] % 0x1_0000
    {
      var f := Format(words, ByNibbles);
      var w := words[g];
      FormatDigitAt(words, ByNibbles, g, 0);
      FormatDigitAt(words, ByNibbles, g, 1);
      FormatDigitAt(words, ByNibbles, g, 2);
      FormatDigitAt(words, ByNibbles, g, 3);
      LowNibblesAreLowBits(w, 4);
      NibblesAreLowNibbles(w);
      assert Pow16(4) == 0x1_0000 by {
        assert Pow16(2) == 256 by { assert Pow16(1) == 16; }
        assert Pow16(3) == 4096;
      }
    }
  }

  /** The four nibbles, least significant first, make up the four low nibbles' value. */
  lemma NibblesAreLowNibbles(w: nat)
    ensures Nibble(w, 0) + 16 * (Nibble(w, 1) + 16 * (Nibble(w, 2) + 16 * Nibble(w, 3))) == LowNibbles(w, 4)
  {
    var w1 := w / 16;
    var w2 := w1 / 16;
    var w3 := w2 / 16;
    assert Nibble(w, 3) == Nibble(w1, 2) == Nibble(w2, 1) == w3 % 16;
    assert Nibble(w, 2) == Nibble(w1, 1) == w2 % 16;
    assert LowNibbles(w3, 1) == w3 % 16;
    assert LowNibbles(w2, 2) == w2 % 16 + 16 * LowNibbles(w3, 1);
    assert LowNibbles(w1, 3) == w1 % 16 + 16 * LowNibbles(w2, 2);
  }

  /** Two identifiers whose low 16 bits differ somewhere give different intended strings. */
  lemma FormatDistinguishes(a: seq<Word>, b: seq<Word>, g: nat)
    requires |a| == 4 && |b| == 4 && g < 4 && a[g] % 0x1_0000 != b[g] % 0x1_0000
    ensures Format(a, ByNibbles) != Format(b, ByNibbles)
  {
    FormatRoundTrip(a);
    FormatRoundTrip(b);
  }

  /**
   * As written, the digits of a word overlap (digit j starts at bit j), so
   * bit 7 never shows: the words 0 and 0x80 give the same string.
   */
  lemma FormatAsWrittenCollides()
    ensures Format([0x80, 0, 0, 0], ByBits) == Format([0, 0, 0, 0], ByBits)
    ensures Format([0x80, 0, 0, 0], ByNibbles) != Format([0, 0, 0, 0], ByNibbles)
  {
    var a: seq<Word> := [0x80, 0, 0, 0];
    var z: seq<Word> := [0, 0, 0, 0];
    forall i | 0 <= i < 16
      ensures Digit(a[i / 4], i % 4, ByBits) == Digit(z[i / 4], i % 4, ByBits)
    {
    }
    PrefixFollowsDigits(a, z, 16, ByBits);
    FormatDistinguishes(a, z, 0);
  }

  /** Two identifiers whose digits agree give the same characters. */
  lemma {:induction false} PrefixFollowsDigits(a: seq<Word>, b: seq<Word>, n: nat, shift: Shift)
    requires |a| == 4 && |b| == 4 && n <= 16
    requires forall i :: 0 <= i < n ==> Digit(a[i / 4], i % 4, shift) == Digit(b[i / 4], i % 4, shift)
    ensures Prefix(a, n, shift) == Prefix(b, n, shift)
  {
    if n > 0 {
      PrefixFollowsDigits(a, b, n - 1, shift);
    }
  }

  // ---------------------------------------------------------------- the loop

  /**
   * The constructor's loop: p walks the buffer, a dash goes in before each
   * group but the first, then the digit. The NUL at index 19 is never
   * written.
   */
  method Precalculate(buffer: array<char>, words: seq<Word>, shift: Shift)
    requires buffer.Length == 20 && |words| == 4
    modifies buffer
    ensures buffer[..19] == Format(words, shift)
    ensures buffer[19] == old(buffer[19])
  {
    var p := 0;
    for i := 0 to 16
      invariant p == if i == 0 then 0 else Position(i - 1) + 1
      invariant buffer[..p] == Prefix(words, i, shift)
      invariant buffer[19] == old(buffer[19])
    {
      p := WriteDigit(buffer, words, shift, i, p);
    }
  }

  /** One pass of the loop: the dash when a group starts, then nibble i's digit; p moves past them. */
  method WriteDigit(buffer: array<char>, words: seq<Word>, shift: Shift, i: nat, p: nat) returns (p': nat)
    requires buffer.Length == 20 && |words| == 4 && i < 16
    requires p == (if i == 0 then 0 else Position(i - 1) + 1)
    requires buffer[..p] == Prefix(words, i, shift)
    modifies buffer
    ensures p' == Position(i) + 1
    ensures buffer[..p'] == Prefix(words, i + 1, shift)
    ensures buffer[19] == old(buffer[19])
  {
    var digit := Digit(words[i / 4], i % 4, shift);
    p' := p;
    if i > 0 && i % 4 == 0 {
      buffer[p'] := '-';
      p' := p' + 1;
      assert buffer[..p'] == Prefix(words, i, shift) + "-";
    }
    ghost var written := buffer[..p'];
    buffer[p'] := HexChar(digit);
    p' := p' + 1;
    assert buffer[..p'] == written + [HexChar(digit)];
  }

  /** UUID_t: the words read from the flash controller and the precomputed string. */
  class UniqueId {
    var d: seq<Word>
    const stringval: array<char>

    /**
     * The constructor takes the four words the flash controller answers
     * and fills the buffer, which starts as "0000-0000-0000-0000", with
     * their digits; the string stays NUL-terminated.
     */
    constructor (words: seq<Word>)
      requires |words| == 4
      ensures d == words && fresh(stringval)
      ensures stringval[..] == Format(words, ByNibbles) + ['\0']
    {
      d := words;
      stringval := new char[20](i requires 0 <= i < 20 => Initial[i]);
      new;
      Precalculate(stringval, words, ByNibbles);
      assert stringval[..] == stringval[..19] + [stringval[19]];
    }
  }
}
