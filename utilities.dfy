// String and number utilities: NUL-terminated strings, the bounded string
// copy, in-place reversal, integer to decimal text, and the string buffer
// that the JSON writer appends to.
//
// Memory is modelled as follows: a string that is only read is the sequence
// of characters from the pointer onwards (Option.None is the null pointer);
// a buffer that is written is an array with a start index.

module Utilities {

  import opened Wrappers

  const NUL: char := '\0'

  /** A string that holds a NUL somewhere, so every C string walk stops inside it. */
  predicate Terminated(s: string) {
    NUL in s
  }

  lemma TerminatedTail(s: string)
    requires Terminated(s) && s[0] != NUL
    ensures Terminated(s[1..])
  {
    var k :| 0 <= k < |s| && s[k] == NUL;
    assert s[1..][k - 1] == NUL;
  }

  /** The reference length: the index of the first NUL. */
  function Len(s: string): (n: nat)
    requires Terminated(s)
    ensures n < |s| && s[n] == NUL
    ensures forall k :: 0 <= k < n ==> s[k] != NUL
    decreases |s|
  {
    if s[0] == NUL then 0
    else
      TerminatedTail(s);
      1 + Len(s[1..])
  }

  function Min(a: int, b: int): int { if a < b then a else b }
  function Max(a: int, b: int): int { if a < b then b else a }

  // ---------------------------------------------------------------- c_strlen

  /** c_strlen(p, count_): 0 for a null pointer, else count_ plus the characters before the NUL. */
  function CStrlen(p: Option<string>, count: int): (r: int)
    requires p.Some? ==> Terminated(p.value)
    ensures p.None? ==> r == 0
    ensures p.Some? ==> r == count + Len(p.value)
    decreases if p.Some? then |p.value| else 0
  {
    if p.None? then 0
    else if p.value[0] == NUL then count
    else
      TerminatedTail(p.value);
      CStrlen(Some(p.value[1..]), count + 1)
  }

  /** The library's strlen forwards to c_strlen with count 0. */
  function Strlen(p: Option<string>): (r: nat)
    requires p.Some? ==> Terminated(p.value)
    ensures p.None? ==> r == 0
    ensures p.Some? ==> r == Len(p.value) && p.value[r] == NUL
  {
    CStrlen(p, 0)
  }

  // ---------------------------------------------------------------- streq

  /**
   * streq(p, q, n): 1 (true) when n is 0 or a pointer is null; 0 (false) at the
   * first differing character among the first n; 1 when both end together.
   */
  function Streq(p: Option<string>, q: Option<string>, n: nat): bool
    requires p.Some? ==> Terminated(p.value)
    requires q.Some? ==> Terminated(q.value)
    decreases n
  {
    if n == 0 || p.None? || q.None? then true
    else if p.value[0] != q.value[0] then false
    else if p.value[0] == NUL || q.value[0] == NUL then true
    else
      TerminatedTail(p.value);
      TerminatedTail(q.value);
      Streq(Some(p.value[1..]), Some(q.value[1..]), n - 1)
  }

  /** The reference meaning: the strings agree on every position up to either's NUL within n. */
  predicate SameUpTo(p: string, q: string, n: nat)
    requires Terminated(p) && Terminated(q)
  {
    forall k :: 0 <= k < n && k <= Len(p) && k <= Len(q) ==> p[k] == q[k]
  }

  lemma {:induction false} StreqMeaning(p: string, q: string, n: nat)
    requires Terminated(p) && Terminated(q)
    ensures Streq(Some(p), Some(q), n) <==> SameUpTo(p, q, n)
    decreases n
  {
    if n == 0 || p[0] != q[0] {
    } else if p[0] == NUL || q[0] == NUL {
      assert Len(p) == 0;
    } else {
      TerminatedTail(p);
      TerminatedTail(q);
      StreqMeaning(p[1..], q[1..], n - 1);
      assert Len(p) == 1 + Len(p[1..]);
      assert Len(q) == 1 + Len(q[1..]);
      if SameUpTo(p, q, n) {
        forall k | 0 <= k < n - 1 && k <= Len(p[1..]) && k <= Len(q[1..])
          ensures p[1..][k] == q[1..][k]
        {
          assert p[k + 1] == q[k + 1];
        }
      }
      if SameUpTo(p[1..], q[1..], n - 1) {
        forall k | 0 <= k < n && k <= Len(p) && k <= Len(q)
          ensures p[k] == q[k]
        {
          if k > 0 {
            assert p[1..][k - 1] == q[1..][k - 1];
          }
        }
      }
    }
  }

  /** streq does not depend on the order of its two strings. */
  lemma StreqSymmetric(p: Option<string>, q: Option<string>, n: nat)
    requires p.Some? ==> Terminated(p.value)
    requires q.Some? ==> Terminated(q.value)
    ensures Streq(p, q, n) == Streq(q, p, n)
  {
    if n > 0 && p.Some? && q.Some? {
      StreqMeaning(p.value, q.value, n);
      StreqMeaning(q.value, p.value, n);
    }
  }

  // ---------------------------------------------------------------- c_strcpy

  /**
   * The value c_strcpy returns (with count_ 0): the copied length, or max_len_
   * itself when the string and its NUL did not fit in fewer than max_len_.
   */
  function CopyCount(f: Option<string>, maxLen: int): (r: int)
    requires f.Some? ==> Terminated(f.value)
    ensures 0 <= r <= Max(maxLen, 0)
    ensures r == maxLen && maxLen > 0 <==> f.Some? && maxLen > 0 && Len(f.value) >= maxLen - 1
    ensures f.Some? && maxLen > 0 && Len(f.value) < maxLen - 1 ==> r == Len(f.value)
  {
    if maxLen <= 0 || f.None? then 0
    else if Len(f.value) < maxLen - 1 then Len(f.value)
    else maxLen
  }

  /**
   * c_strcpy(t, f, max_len_, count_): copies at most max_len_ - 1 characters
   * of f to t[ti..] and terminates the copy with a NUL.
   */
  method CStrcpy(t: array?<char>, ti: nat, f: Option<string>, maxLen: int, count: int) returns (r: int)
    requires f.Some? ==> Terminated(f.value)
    requires t != null && f.Some? && maxLen > 0 ==> ti + Min(maxLen, Len(f.value) + 1) <= t.Length
    modifies t
    ensures t == null || f.None? || maxLen <= 0 ==> r == count
    ensures t != null && (f.None? || maxLen <= 0) ==> t[..] == old(t[..])
    ensures t != null && f.Some? && maxLen > 0 ==>
      var n := Min(maxLen - 1, Len(f.value));
      && r == count + CopyCount(f, maxLen)
      && t[ti..ti + n] == f.value[..n]
      && t[ti + n] == NUL
      && (forall k :: 0 <= k < t.Length && !(ti <= k <= ti + n) ==> t[k] == old(t[k]))
    decreases maxLen
  {
    if maxLen <= 0 || t == null || f.None? {
      r := count;
    } else if maxLen == 1 {
      t[ti] := NUL;
      r := count + 1;
    } else {
      t[ti] := f.value[0];
      if f.value[0] == NUL {
        r := count;
      } else {
        TerminatedTail(f.value);
        ghost var mid := t[..];
        r := CStrcpy(t, ti + 1, Some(f.value[1..]), maxLen - 1, count + 1);
        ghost var n := Min(maxLen - 1, Len(f.value));
        assert Len(f.value) == 1 + Len(f.value[1..]);
        assert t[ti] == mid[ti] == f.value[0];
        assert t[ti..ti + n] == [f.value[0]] + t[ti + 1..ti + n];
        assert f.value[..n] == [f.value[0]] + f.value[1..][..n - 1];
        assert CopyCount(f, maxLen) == 1 + CopyCount(Some(f.value[1..]), maxLen - 1);
      }
    }
  }

  /** The library's strncpy forwards to c_strcpy with count 0. */
  method Strncpy(t: array?<char>, f: Option<string>, maxLen: int) returns (r: int)
    requires f.Some? ==> Terminated(f.value)
    requires t != null && f.Some? && maxLen > 0 ==> Min(maxLen, Len(f.value) + 1) <= t.Length
    modifies t
    ensures t == null ==> r == 0
    ensures t != null ==> r == CopyCount(f, maxLen)
    ensures t != null && f.Some? && maxLen > 0 ==>
      var n := Min(maxLen - 1, Len(f.value));
      t[..n] == f.value[..n] && t[n] == NUL
  {
    r := CStrcpy(t, 0, f, maxLen, 0);
  }

  // ---------------------------------------------------------------- c_strreverse

  /** c_strreverse(t, count_): reverses t[i..i+count_] in place and returns count_. */
  method CStrReverse(t: array<char>, i: nat, count: int) returns (r: int)
    requires count > 1 ==> i + count <= t.Length
    modifies t
    ensures r == count
    ensures count > 1 ==> t[i..i + count] == Reverse(old(t[i..i + count]))
    ensures forall k :: 0 <= k < t.Length && !(count > 1 && i <= k < i + count) ==> t[k] == old(t[k])
    decreases count
  {
    if count > 1 {
      ghost var before := t[..];
      var hold := t[i];
      t[i] := t[i + count - 1];
      t[i + count - 1] := hold;
      ghost var mid := t[..];
      assert mid[i + 1..i + count - 1] == before[i + 1..i + count - 1];
      var _ := CStrReverse(t, i + 1, count - 2);
      if count - 2 <= 1 {
        assert t[i + 1..i + count - 1] == mid[i + 1..i + count - 1];
        ShortReverse(mid[i + 1..i + count - 1]);
      }
      ReverseByEnds(before, t[..], i, count);
    }
    r := count;
  }

  /** A string of at most one character is its own reverse. */
  lemma ShortReverse(s: string)
    requires |s| <= 1
    ensures Reverse(s) == s
  {
  }

  /** Swapping the two ends and reversing the middle reverses the whole. */
  lemma ReverseByEnds(before: string, after: string, i: nat, count: int)
    requires 1 < count && i + count <= |before| == |after|
    requires after[i] == before[i + count - 1] && after[i + count - 1] == before[i]
    requires after[i + 1..i + count - 1] == Reverse(before[i + 1..i + count - 1])
    ensures after[i..i + count] == Reverse(before[i..i + count])
  {
    forall k | i < k < i + count - 1
      ensures after[k] == before[2 * i + count - 1 - k]
    {
      assert after[k] == after[i + 1..i + count - 1][k - i - 1];
    }
  }

  // ---------------------------------------------------------------- c_itoa

  function DigitChar(d: int): char
    requires 0 <= d < 10
  {
    (d + '0' as int) as char
  }

  predicate IsDigit(c: char) { '0' <= c <= '9' }

  /** The decimal digits of v, most significant first. */
  function Digits(v: nat): (s: string)
    ensures |s| >= 1
    ensures forall k :: 0 <= k < |s| ==> IsDigit(s[k])
    decreases v
  {
    if v < 10 then [DigitChar(v)] else Digits(v / 10) + [DigitChar(v % 10)]
  }

  /** The decimal text of an integer: a minus sign for negatives, then the digits. */
  function Decimal(v: int): string
  {
    if v < 0 then ['-'] + Digits(-v) else Digits(v)
  }

  /** The value of a run of decimal digits. */
  function DigitsValue(s: string): nat
    requires forall k :: 0 <= k < |s| ==> IsDigit(s[k])
  {
    if |s| == 0 then 0
    else
      assert IsDigit(s[|s| - 1]);
      10 * DigitsValue(s[..|s| - 1]) + (s[|s| - 1] as int - '0' as int)
  }

  /** The digits read back give the number: Digits is a faithful decimal rendering. */
  lemma {:induction false} DigitsRoundTrip(v: nat)
    ensures DigitsValue(Digits(v)) == v
    decreases v
  {
    if v >= 10 {
      DigitsRoundTrip(v / 10);
      var s := Digits(v);
      assert s[..|s| - 1] == Digits(v / 10);
    }
  }

  /** The digits least significant first, as c_itoa_backwards_ writes them. */
  function RevDigits(v: nat): (s: string)
    ensures |s| >= 1
    decreases v
  {
    [DigitChar(v % 10)] + (if v / 10 > 0 then RevDigits(v / 10) else [])
  }

  function Reverse(s: string): (r: string)
    ensures |r| == |s|
    ensures forall k :: 0 <= k < |s| ==> r[k] == s[|s| - 1 - k]
  {
    seq(|s|, k requires 0 <= k < |s| => s[|s| - 1 - k])
  }

  /** Reversing a concatenation reverses the order of the parts. */
  lemma ReverseConcat(a: string, b: string)
    ensures Reverse(a + b) == Reverse(b) + Reverse(a)
  {
    var r, s := Reverse(a + b), Reverse(b) + Reverse(a);
    forall k | 0 <= k < |r|
      ensures r[k] == s[k]
    {
      if k < |b| {
        assert r[k] == (a + b)[|a| + |b| - 1 - k] == b[|b| - 1 - k];
      } else {
        assert r[k] == (a + b)[|a| + |b| - 1 - k] == a[|a| - 1 - (k - |b|)];
      }
    }
  }

  lemma ReverseTwice(s: string)
    ensures Reverse(Reverse(s)) == s
  {
  }

  lemma {:induction false} RevDigitsReversed(v: nat)
    ensures Reverse(RevDigits(v)) == Digits(v)
    ensures |RevDigits(v)| == |Digits(v)|
    decreases v
  {
    if v >= 10 {
      RevDigitsReversed(v / 10);
      var d := [DigitChar(v % 10)];
      assert RevDigits(v) == d + RevDigits(v / 10);
      ReverseConcat(d, RevDigits(v / 10));
      assert Reverse(d) == d;
    } else {
      assert Reverse(RevDigits(v))[0] == RevDigits(v)[0];
    }
  }

  /** The digits c_itoa_backwards_ still has to write for (value, count_). */
  function PendingDigits(value: nat, count: int): string
  {
    if value == 0 && count != 0 then [] else RevDigits(value)
  }

  /** One step of c_itoa_backwards_: the lowest digit, then the digits of the quotient. */
  lemma PendingStep(value: nat, count: int)
    requires count >= 0 && (value > 0 || count == 0)
    ensures PendingDigits(value, count) == [DigitChar(value % 10)] + PendingDigits(value / 10, count + 1)
  {
    if value / 10 == 0 {
      assert PendingDigits(value / 10, count + 1) == [];
    }
  }

  /** The first digit in front of the digits the recursive call wrote gives the first Min(maxLen, |w|) digits. */
  lemma JoinPending(q: seq<char>, i: nat, maxLen: int, w: string, rest: string)
    requires maxLen >= 1 && |w| >= 1 && w[1..] == rest
    requires i < |q| && q[i] == w[0]
    requires i + 1 + Min(maxLen - 1, |rest|) <= |q|
    requires q[i + 1..i + 1 + Min(maxLen - 1, |rest|)] == rest[..Min(maxLen - 1, |rest|)]
    ensures q[i..i + Min(maxLen, |w|)] == w[..Min(maxLen, |w|)]
  {
    var m := Min(maxLen, |w|);
    assert q[i..i + m] == [q[i]] + q[i + 1..i + m];
    assert w[..m] == [w[0]] + rest[..m - 1];
  }

  /**
   * c_itoa_backwards_(value, p, maxlen, count_): writes the digits of value
   * least significant first; returns count_ plus their number, or 0 when they
   * do not fit in fewer than maxlen characters. No NUL is written.
   */
  method ItoaBackwards(value: nat, p: array<char>, i: nat, maxLen: int, count: int) returns (r: int)
    requires count >= 0
    requires i + Min(Max(maxLen, 0), |PendingDigits(value, count)|) <= p.Length
    modifies p
    ensures maxLen > |PendingDigits(value, count)| ==>
      r == count + |PendingDigits(value, count)| && p[i..i + |PendingDigits(value, count)|] == PendingDigits(value, count)
    ensures maxLen <= |PendingDigits(value, count)| ==>
      r == 0 && p[i..i + Max(maxLen, 0)] == PendingDigits(value, count)[..Max(maxLen, 0)]
    ensures forall k :: 0 <= k < p.Length && !(i <= k < i + Min(Max(maxLen, 0), |PendingDigits(value, count)|)) ==>
      p[k] == old(p[k])
    decreases Max(maxLen, 0)
  {
    if maxLen < 1 {
      r := 0;
    } else if value > 0 || count == 0 {
      ghost var w := PendingDigits(value, count);
      ghost var rest := PendingDigits(value / 10, count + 1);
      PendingStep(value, count);
      p[i] := DigitChar(value % 10);
      r := ItoaBackwards(value / 10, p, i + 1, maxLen - 1, count + 1);
      JoinPending(p[..], i, maxLen, w, rest);
    } else {
      assert PendingDigits(value, count) == [];
      r := count;
    }
  }

  /**
   * c_strreverse(p, c_itoa_backwards_(value, p, maxlen)), the step c_itoa takes
   * for the magnitude: the digits most significant first, or 0 when they do
   * not fit in fewer than maxlen characters. In that case the characters that
   * did fit stay behind, least significant first, and nothing else is touched.
   */
  method ItoaDigits(value: nat, p: array<char>, i: nat, maxLen: int) returns (n: int)
    requires i + Min(Max(maxLen, 0), |Digits(value)|) <= p.Length
    modifies p
    ensures maxLen > |Digits(value)| ==> n == |Digits(value)| && p[i..i + n] == Digits(value)
    ensures maxLen <= |Digits(value)| ==>
      n == 0 && p[i..i + Max(maxLen, 0)] == Reverse(Digits(value))[..Max(maxLen, 0)]
    ensures forall k :: 0 <= k < p.Length && !(i <= k < i + Min(Max(maxLen, 0), |Digits(value)|)) ==>
      p[k] == old(p[k])
  {
    RevDigitsReversed(value);
    assert PendingDigits(value, 0) == RevDigits(value);
    var m := ItoaBackwards(value, p, i, maxLen, 0);
    assert m == 0 || m == |Digits(value)| < maxLen;
    ghost var written := p[..];
    n := CStrReverse(p, i, m);
    if maxLen > |Digits(value)| {
      if n <= 1 {
        assert p[..] == written;
      }
      ReversedDigits(p, written, i, n, value);
    } else {
      ReverseTwice(RevDigits(value));
      assert Reverse(Digits(value)) == RevDigits(value);
      assert m == 0 && p[..] == written;
    }
  }

  /** The cells c_itoa(value, p, maxlen) may write: the sign, then at most maxlen - 1 digits. */
  function ItoaFootprint(value: int, maxLen: int): nat
  {
    if value < 0 then 1 + Min(Max(maxLen - 1, 0), |Digits(-value)|)
    else Min(Max(maxLen, 0), |Digits(value)|)
  }

  /**
   * c_itoa(value, p, maxlen): writes the decimal text of value at p[i..] and
   * returns its length when it fits in fewer than maxlen characters; else 0,
   * or 1 for a negative value, whose sign has already been written.
   */
  method Itoa(value: int, p: array<char>, i: nat, maxLen: int) returns (r: int)
    requires -0x8000_0000 < value < 0x8000_0000
    requires i + ItoaFootprint(value, maxLen) <= p.Length
    modifies p
    ensures maxLen > |Decimal(value)| ==> r == |Decimal(value)| && p[i..i + r] == Decimal(value)
    ensures maxLen <= |Decimal(value)| ==> r == (if value < 0 then 1 else 0)
    ensures value < 0 ==> p[i] == '-'
    ensures forall k :: 0 <= k < p.Length && !(i <= k < i + ItoaFootprint(value, maxLen)) ==> p[k] == old(p[k])
  {
    if value < 0 {
      ghost var digits := Digits(-value);
      assert Decimal(value) == ['-'] + digits;
      assert ItoaFootprint(value, maxLen) == 1 + Min(Max(maxLen - 1, 0), |digits|);
      p[i] := '-';
      var n := ItoaDigits(-value, p, i + 1, maxLen - 1);
      r := n + 1;
      if maxLen - 1 > |digits| {
        assert p[i + 1..i + r] == digits;
        assert p[i..i + r] == ['-'] + p[i + 1..i + r];
      } else {
        assert n == 0;
      }
    } else {
      assert Decimal(value) == Digits(value);
      r := ItoaDigits(value, p, i, maxLen);
    }
  }

  /** After c_strreverse, the digits written least significant first read most significant first. */
  lemma ReversedDigits(p: array<char>, written: seq<char>, i: nat, n: int, v: nat)
    requires |written| == p.Length && i + n <= p.Length
    requires n == |RevDigits(v)| && written[i..i + n] == RevDigits(v)
    requires n > 1 ==> p[i..i + n] == Reverse(written[i..i + n])
    requires n <= 1 ==> p[i..i + n] == written[i..i + n]
    ensures p[i..i + n] == Digits(v)
  {
    RevDigitsReversed(v);
    if n <= 1 {
      assert Reverse(RevDigits(v))[0] == RevDigits(v)[0];
    }
  }

  // ---------------------------------------------------------------- c_itoa_len

  /** c_itoa_len(value, length_) as written: the final step adds one for every value. */
  function ItoaLenAsWritten(value: int, length: int): int
    decreases if value < 0 then 2 * -value + 1 else value
  {
    if value < 0 then ItoaLenAsWritten(-value, length + 1)
    else if value > 0 then ItoaLenAsWritten(value / 10, length + 1)
    else length + 1
  }

  lemma {:induction false} ItoaLenAsWrittenPositive(value: nat, length: int)
    requires value > 0
    ensures ItoaLenAsWritten(value, length) == length + |Digits(value)| + 1
    decreases value
  {
    if value >= 10 {
      ItoaLenAsWrittenPositive(value / 10, length + 1);
    }
  }

  /** For every non-zero value the as-written length is one more than the text it measures. */
  lemma ItoaLenOverCounts(value: int)
    requires value != 0
    ensures ItoaLenAsWritten(value, 0) == |Decimal(value)| + 1
  {
    if value < 0 {
      ItoaLenAsWrittenPositive(-value, 1);
    } else {
      ItoaLenAsWrittenPositive(value, 0);
    }
  }

  /** The case that shows it: 5 is written as one character, c_itoa_len says 2. */
  lemma ItoaLenFive()
    ensures Decimal(5) == "5"
    ensures ItoaLenAsWritten(5, 0) == 2
  {
  }

  /** The corrected length: the number of characters c_itoa writes, without the NUL. */
  function ItoaLen(value: int): (r: nat)
    ensures r == |Decimal(value)|
    decreases if value < 0 then 2 * -value + 1 else value
  {
    if value < 0 then 1 + ItoaLen(-value)
    else if value < 10 then 1
    else 1 + ItoaLen(value / 10)
  }

  // ---------------------------------------------------------------- str_buf

  /** str_buf: a character buffer b of length l with a write position w. */
  class StrBuf {
    const b: array<char>
    const l: int
    var w: int

    // The reserve count r_ of the source is never changed from 0, so it is omitted.

    predicate Valid()
      reads this
    {
      0 <= w <= l <= b.Length
    }

    constructor (buffer: array<char>, length: int)
      requires 0 <= length <= buffer.Length
      ensures b == buffer && l == length && w == 0
      ensures Valid()
    {
      b := buffer;
      l := length;
      w := 0;
    }

    /**
     * copy(const char*): copies f at the write position when there is room;
     * true iff the whole string and its NUL fitted.
     */
    method Copy(f: Option<string>) returns (ok: bool)
      requires Valid()
      requires f.Some? ==> Terminated(f.value)
      modifies this, b
      ensures Valid()
      ensures old(w) >= l ==> !ok && w == old(w) && b[..] == old(b[..])
      ensures old(w) < l ==> w == old(w) + CopyCount(f, l - old(w))
      ensures ok <==> old(w) < l && (f.None? || Len(f.value) < l - old(w) - 1)
      ensures old(w) < l && f.Some? ==>
        var n := Min(l - old(w) - 1, Len(f.value));
        && b[old(w)..old(w) + n] == f.value[..n]
        && b[old(w) + n] == NUL
        && (forall k :: 0 <= k < b.Length && !(old(w) <= k <= old(w) + n) ==> b[k] == old(b[k]))
      ensures f.None? ==> w == old(w) && b[..] == old(b[..])
    {
      if l > w {
        var n := CStrcpy(b, w, f, l - w, 0);
        w := w + n;
        ok := l > w;
      } else {
        ok := false;
      }
    }

    /**
     * copy(int): writes the decimal text of i at the write position; false
     * when there was no room or nothing was written.
     */
    method CopyInt(i: int) returns (ok: bool)
      requires Valid()
      requires -0x8000_0000 < i < 0x8000_0000
      modifies this, b
      ensures Valid()
      ensures old(w) >= l ==> !ok && w == old(w) && b[..] == old(b[..])
      ensures old(w) < l && l - old(w) > |Decimal(i)| ==>
        ok && w == old(w) + |Decimal(i)| && b[old(w)..w] == Decimal(i)
      ensures old(w) < l && l - old(w) <= |Decimal(i)| ==>
        w == old(w) + (if i < 0 then 1 else 0) && (ok <==> i < 0 && l > w)
      ensures old(w) < l ==> forall k :: 0 <= k < b.Length && !(old(w) <= k < old(w) + ItoaFootprint(i, l - old(w))) ==>
        b[k] == old(b[k])
    {
      if l > w {
        var n := Itoa(i, b, w, l - w);
        w := w + n;
        ok := n > 0 && l > w;
      } else {
        ok := false;
      }
    }
  }
}

// Read, write, set, clear and toggle bits of a 32-bit register value, and
// read or write a bit field given by its mask. A register write is modelled
// as the function that gives the register's new value.
module BitManipulation {

  type Word = bv32

  /**
   * ctz(u): the number of trailing zero bits of u: bit r is set and every
   * bit below it is clear. The source leaves u == 0 undefined; this
   * definition gives 31 there.
   */
  function Ctz(u: Word): (r: Word)
    ensures r < 32
    ensures u != 0 ==> BitSet(u, r as nat) && ClearBelow(u, r as nat)
  {
    NoBitsBelowZero(u);
    CtzFrom(u, 0) as Word
  }

  /** Bit k of u is set. */
  predicate BitSet(u: Word, k: nat)
    requires k < 32
  {
    (u >> k) & 1 == 1
  }

  /** Every bit of u below bit k is clear. */
  predicate ClearBelow(u: Word, k: nat)
    requires k < 32
  {
    u & ((1 << k) - 1) == 0
  }

  /** The scan from bit k, knowing that every bit below k is clear. */
  function CtzFrom(u: Word, k: nat): (r: nat)
    requires k < 32 && ClearBelow(u, k)
    ensures k <= r < 32
    ensures u != 0 ==> BitSet(u, r) && ClearBelow(u, r)
    decreases 32 - k
  {
    if k == 31 then
      TopBit(u, k);
      k
    else if (u >> k) & 1 == 1 then k
    else
      ClearBitsGrow(u, k);
      CtzFrom(u, k + 1)
  }

  lemma NoBitsBelowZero(u: Word)
    ensures ClearBelow(u, 0)
  {
  }

  /** A clear bit k on top of clear bits below it leaves every bit below k + 1 clear. */
  lemma ClearBitsGrow(u: Word, k: nat)
    requires k < 31 && ClearBelow(u, k) && !BitSet(u, k)
    ensures ClearBelow(u, k + 1)
  {
  }

  /** A non-zero word whose low 31 bits are clear has its top bit set. */
  lemma TopBit(u: Word, k: nat)
    requires k == 31 && ClearBelow(u, k)
    ensures u != 0 ==> BitSet(u, k)
  {
  }

  /** Rd_bits: the bits of value inside mask. */
  function RdBits(value: Word, mask: Word): Word
  {
    value & mask
  }

  /** Wr_bits: the register value after writing bits under mask. */
  function WrBits(lvalue: Word, mask: Word, bits: Word): Word
  {
    (lvalue & !mask) | (bits & mask)
  }

  /** Tst_bits: some bit inside mask is set. */
  predicate TstBits(value: Word, mask: Word)
  {
    RdBits(value, mask) != 0
  }

  /** Clr_bits: the register value after clearing the mask bits. */
  function ClrBits(lvalue: Word, mask: Word): Word
  {
    lvalue & !mask
  }

  /** Set_bits: the register value after setting the mask bits. */
  function SetBits(lvalue: Word, mask: Word): Word
  {
    lvalue | mask
  }

  /** Tgl_bits: the register value after toggling the mask bits. */
  function TglBits(lvalue: Word, mask: Word): Word
  {
    lvalue ^ mask
  }

  /** Writing changes exactly the bits inside the mask, and those take the new value. */
  lemma WrBitsFrame(lvalue: Word, mask: Word, bits: Word)
    ensures RdBits(WrBits(lvalue, mask, bits), mask) == RdBits(bits, mask)
    ensures WrBits(lvalue, mask, bits) & !mask == lvalue & !mask
  {
  }

  /** Clearing touches only the mask bits and leaves none of them set. */
  lemma ClrBitsFrame(lvalue: Word, mask: Word)
    ensures !TstBits(ClrBits(lvalue, mask), mask)
    ensures ClrBits(lvalue, mask) & !mask == lvalue & !mask
  {
  }

  /** Setting touches only the mask bits and sets all of them. */
  lemma SetBitsFrame(lvalue: Word, mask: Word)
    ensures RdBits(SetBits(lvalue, mask), mask) == mask
    ensures SetBits(lvalue, mask) & !mask == lvalue & !mask
  {
  }

  /** Toggling touches only the mask bits, and toggling twice restores the value. */
  lemma TglBitsFrame(lvalue: Word, mask: Word)
    ensures TglBits(lvalue, mask) & !mask == lvalue & !mask
    ensures TglBits(TglBits(lvalue, mask), mask) == lvalue
  {
  }

  function FieldDown(bits: Word, shift: Word): Word
    requires shift < 32
  {
    bits >> shift
  }

  function FieldUp(field: Word, shift: Word): Word
    requires shift < 32
  {
    field << shift
  }

  /** Rd_bitfield: the field under mask, shifted down to bit 0. */
  function RdBitfield(value: Word, mask: Word): Word
    requires mask != 0
  {
    FieldDown(RdBits(value, mask), Ctz(mask))
  }

  /** Wr_bitfield: the register value after writing field into the bits of mask. */
  function WrBitfield(lvalue: Word, mask: Word, field: Word): Word
    requires mask != 0
  {
    WrBits(lvalue, mask, FieldUp(field, Ctz(mask)))
  }

  /** field fits the mask: shifting it up loses nothing and lands inside the mask. */
  predicate Fits(field: Word, mask: Word)
    requires mask != 0
  {
    FieldDown(FieldUp(field, Ctz(mask)), Ctz(mask)) == field && FieldUp(field, Ctz(mask)) & !mask == 0
  }

  lemma RoundTripAt(x: Word, mask: Word, v: Word, c: Word)
    requires c < 32
    requires FieldDown(FieldUp(v, c), c) == v && FieldUp(v, c) & !mask == 0
    ensures FieldDown(RdBits(WrBits(x, mask, FieldUp(v, c)), mask), c) == v
    ensures WrBits(x, mask, FieldUp(v, c)) & !mask == x & !mask
  {
  }

  /** Reading back a written bit field gives the field, when it fits; other bits keep their value. */
  lemma BitfieldRoundTrip(x: Word, mask: Word, v: Word)
    requires mask != 0
    requires Fits(v, mask)
    ensures RdBitfield(WrBitfield(x, mask, v), mask) == v
    ensures WrBitfield(x, mask, v) & !mask == x & !mask
  {
    RoundTripAt(x, mask, v, Ctz(mask));
  }
}
