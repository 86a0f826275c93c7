// What the XMega and KL05Z timer drivers share: the loop of
// setModeAndFrequency that picks a clock prescaler from a table of divisors
// (the drivers differ only in their tables), and the polling Timeout over
// the SysTick count.

module TimerCommon {

  import opened Wrappers
  import SamTimers
  import SamSpi

  type Uint32 = SamTimers.Uint32

  type Positive = n: nat | n > 0 witness 1

  /** TimerMode (kTimerUpToTop aliases kTimerUpToMatch, kTimerUpDownToTop aliases kTimerUpDownToMatch). */
  datatype TimerMode = InputCapture | Up | UpToMatch | UpDown | UpDownToMatch

  /** The counting frequency: the up-down modes count each period twice, so they halve it. */
  function CountFrequency(mode: TimerMode, freq: Uint32): (f: Uint32)
    ensures (mode.UpDown? || mode.UpDownToMatch?) ==> 2 * f <= freq < 2 * f + 2
    ensures !(mode.UpDown? || mode.UpDownToMatch?) ==> f == freq
  {
    if mode.UpDown? || mode.UpDownToMatch? then freq / 2 else freq
  }

  // ---------------------------------------------------------------- the prescaler search

  /** test_value: the clock the counter runs at with divisor d. */
  function Clock(masterClock: nat, d: Positive): (t: nat)
    ensures t <= masterClock
  {
    SamTimers.DivAntitone(masterClock, 1, d);
    masterClock / d
  }

  /**
   * Whether the search stops at a divisor: the frequency lies between the
   * divided clock / 0x10000 and the divided clock. The loop as written
   * (`strict` false) stops on the lower end too, where the top value
   * test_value / freq reaches 0x10000; the test it evidently intends
   * (`strict`) keeps the top value within the 16-bit period register.
   */
  predicate Stops(masterClock: nat, d: Positive, freq: nat, strict: bool)
  {
    (if strict then Clock(masterClock, d) / 0x10000 < freq else Clock(masterClock, d) / 0x10000 <= freq)
    && freq <= Clock(masterClock, d)
  }

  /** The first index from k on whose divisor stops the search, or |divisors| when none does. */
  function FirstStop(masterClock: nat, divisors: seq<Positive>, freq: nat, strict: bool, k: nat): (i: nat)
    requires k <= |divisors|
    ensures k <= i <= |divisors|
    ensures i < |divisors| ==> Stops(masterClock, divisors[i], freq, strict)
    ensures forall j :: k <= j < i ==> !Stops(masterClock, divisors[j], freq, strict)
    decreases |divisors| - k
  {
    if k == |divisors| || Stops(masterClock, divisors[k], freq, strict) then k
    else FirstStop(masterClock, divisors, freq, strict, k + 1)
  }

  /**
   * The outcome of setModeAndFrequency: the divisor index chosen, the top
   * value test_value / freq, what the period register holds, and the value
   * returned.
   */
  datatype Choice = Choice(index: nat, top: nat, period: nat, result: int)

  /**
   * setModeAndFrequency's choice as written. The loop steps while the index
   * is below 8 and the divisor does not stop it, so when no entry of the
   * table stops it the loop reads past the table's initialised entries
   * (None); a frequency of 0 that stops it divides the top value by 0
   * (None). Otherwise the period register keeps the top value's low 16
   * bits, and the result is test_value times the top value, a uint32_t
   * product read as an int32_t.
   */
  function SetupAsWritten(masterClock: Uint32, divisors: seq<Positive>, freq: Uint32): (r: Option<Choice>)
    ensures r.None? <==> freq == 0 || forall i :: 0 <= i < |divisors| ==> !Stops(masterClock, divisors[i], freq, false)
    ensures r.Some? ==>
      var i := r.value.index;
      i < |divisors| && Stops(masterClock, divisors[i], freq, false)
      && (forall j :: 0 <= j < i ==> !Stops(masterClock, divisors[j], freq, false))
      && r.value.top == Clock(masterClock, divisors[i]) / freq
      && r.value.period == r.value.top % 0x10000
  {
    var i := FirstStop(masterClock, divisors, freq, false, 0);
    if freq == 0 || i == |divisors| then None
    else
      var t := Clock(masterClock, divisors[i]);
      SamTimers.DivAntitone(t, 1, freq);
      var top: SamTimers.Uint32 := t / freq;
      Some(Choice(i, top, top % 0x10000, SamTimers.AsInt32(SamSpi.Mul32(t, top))))
  }

  /**
   * setModeAndFrequency's choice as intended: the first divisor whose top
   * value fits 16 bits, that top value in the period register, and the
   * frequency they give, test_value / top; when no divisor fits, the result
   * is kFrequencyUnattainable (None), as the SAM timer counter answers.
   */
  function Setup(masterClock: Uint32, divisors: seq<Positive>, freq: Uint32): (r: Option<Choice>)
  {
    var i := FirstStop(masterClock, divisors, freq, true, 0);
    if i == |divisors| then None
    else
      var t := Clock(masterClock, divisors[i]);
      SamTimers.DivAtLeastOne(t, freq);
      var top := t / freq;
      Some(Choice(i, top, top, t / top))
  }

  /**
   * The search loop of setModeAndFrequency, with the stopping test it
   * evidently intends: step through the divisors until one stops it.
   */
  method FindDivisor(masterClock: nat, divisors: seq<Positive>, freq: nat) returns (i: nat)
    ensures i == FirstStop(masterClock, divisors, freq, true, 0)
  {
    i := 0;
    while i < |divisors| && !Stops(masterClock, divisors[i], freq, true)
      invariant 0 <= i <= |divisors|
      invariant FirstStop(masterClock, divisors, freq, true, i) == FirstStop(masterClock, divisors, freq, true, 0)
    {
      i := i + 1;
    }
  }

  /**
   * What setModeAndFrequency computes once the search has stopped at index
   * i: the top value test_value / freq, within 1..0xFFFF, and the frequency
   * test_value / top.
   */
  lemma SetupAt(masterClock: Uint32, divisors: seq<Positive>, freq: Uint32, i: nat)
    requires i == FirstStop(masterClock, divisors, freq, true, 0) && i < |divisors|
    ensures var t := Clock(masterClock, divisors[i]);
      && 1 <= t / freq <= 0xFFFF
      && Setup(masterClock, divisors, freq) == Some(Choice(i, t / freq, t / freq, t / (t / freq)))
  {
    StrictTopFits(Clock(masterClock, divisors[i]), freq);
  }

  /** A divisor that stops the strict search gives a top value in 1..0xFFFF. */
  lemma StrictTopFits(t: nat, freq: nat)
    requires t / 0x10000 < freq <= t
    ensures 1 <= t / freq <= 0xFFFF
  {
    SamTimers.DivBracket(t, 0x10000);
    SamTimers.MulMono(0x10000, freq, t / 0x10000 + 1);
    SamTimers.DivBelow(t, freq, 0x10000);
    SamTimers.DivAtLeastOne(t, freq);
  }

  /**
   * The intended choice: None exactly when no divisor fits; otherwise the
   * first fitting divisor, a top value in 1..0xFFFF that the period register
   * holds whole, and a result between the frequency asked for and twice it.
   */
  lemma SetupMeaning(masterClock: Uint32, divisors: seq<Positive>, freq: Uint32)
    ensures var r := Setup(masterClock, divisors, freq);
      (r.None? <==> forall i :: 0 <= i < |divisors| ==> !Stops(masterClock, divisors[i], freq, true))
      && (r.Some? ==>
            var i := r.value.index;
            i < |divisors| && Stops(masterClock, divisors[i], freq, true)
            && (forall j :: 0 <= j < i ==> !Stops(masterClock, divisors[j], freq, true))
            && 1 <= r.value.top <= 0xFFFF && r.value.period == r.value.top
            && freq <= r.value.result < 2 * freq)
  {
    var i := FirstStop(masterClock, divisors, freq, true, 0);
    if i < |divisors| {
      var t := Clock(masterClock, divisors[i]);
      StrictTopFits(t, freq);
      SamTimers.PeriodFrequency(t, freq, t / freq);
    }
  }

  /** Where the intended search stops, the search as written has stopped too, at the same or an earlier divisor. */
  lemma StrictStopsLater(masterClock: Uint32, divisors: seq<Positive>, freq: Uint32)
    ensures FirstStop(masterClock, divisors, freq, false, 0) <= FirstStop(masterClock, divisors, freq, true, 0)
  {
    var i := FirstStop(masterClock, divisors, freq, true, 0);
    if i < |divisors| {
      assert Stops(masterClock, divisors[i], freq, false);
    }
  }

  // ---------------------------------------------------------------- Timeout

  /** Timeout: a start tick and a delay, polled against the SysTick count. */
  class Timeout {
    var start: Uint32
    var delay: Uint32

    constructor ()
      ensures start == 0 && delay == 0
      ensures forall now: Uint32 :: IsPast(now) <==> now > 0
    {
      start := 0;
      delay := 0;
    }

    /** isPast(): more than `delay` ticks since the start, counted modulo 2^32. */
    predicate IsPast(now: Uint32)
      reads this
    {
      SamTimers.Elapsed(now, start) > delay
    }

    /** set(delay): the timeout starts at the current tick. */
    method Set(now: Uint32, delay: Uint32)
      modifies this
      ensures start == now && this.delay == delay
      ensures forall later: Uint32 :: IsPast(later) <==> SamTimers.Elapsed(later, now) > delay
    {
      start := now;
      this.delay := delay;
    }
  }

  /**
   * k ticks after a set, the timeout is past exactly when k exceeds the
   * delay, also when the count wrapped in between.
   */
  lemma PastAfterTicks(now: Uint32, delay: Uint32, k: nat)
    requires k < SamTimers.Modulus32
    ensures SamTimers.Elapsed((now + k) % SamTimers.Modulus32, now) > delay <==> k > delay
  {
    SamTimers.ElapsedAcrossWrap(now, k);
  }
}
