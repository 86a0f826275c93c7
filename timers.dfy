// The timer bookkeeping of the SAM family: the SysTick tick counter and its
// linked list of per-tick events, the polling Timeout, the decoding of a
// timer-counter interrupt cause, the clock choice of a timer counter and the
// divisor searches of a PWM timer. Registers are fields; the status bits and
// clock frequencies that the hardware supplies are parameters.

module SamTimers {

  import opened Wrappers
  import opened Chains
  import SamSpi

  const Modulus32: int := 0x1_0000_0000

  /** A value that fits a uint32_t. */
  type Uint32 = n: int | 0 <= n < Modulus32

  type Positive = n: nat | n > 0 witness 1

  // ---------------------------------------------------------------- SysTick and its events

  /** SysTickEvent: a callback run on every tick, linked into the SysTick list. */
  class SysTickEvent {
    var next: SysTickEvent?

    constructor ()
      ensures next == null
    {
      next := null;
    }
  }

  /** Timer<SysTickTimerNum>: the millisecond tick count and the event list. */
  class SysTick {
    var tickCount: Uint32
    var firstEvent: SysTickEvent?
    /** The events in list order. */
    ghost var events: seq<SysTickEvent>

    ghost predicate EventList()
      reads this`firstEvent, this`events, events`next
    {
      Distinct(events)
      && (if events == [] then firstEvent == null
          else firstEvent == events[0] && events[|events| - 1].next == null)
      && forall i :: 0 <= i < |events| - 1 ==> events[i].next == events[i + 1]
    }

    /** init(): the count starts at 0 and no event is registered. */
    constructor ()
      ensures EventList() && events == [] && tickCount == 0
    {
      tickCount := 0;
      firstEvent := null;
      events := [];
    }

    /** _increment(): one more tick, wrapping at 2^32. */
    method Increment()
      modifies this`tickCount
      ensures tickCount == (old(tickCount) + 1) % Modulus32
      ensures old(tickCount) < Modulus32 - 1 ==> tickCount == old(tickCount) + 1
    {
      tickCount := if tickCount == Modulus32 - 1 then 0 else tickCount + 1;
    }

    /**
     * registerEvent as written: on an empty list the event becomes the head
     * with its next pointer left as it was; otherwise it is appended after
     * the tail unless it is already listed.
     */
    method RegisterEventAsWritten(e: SysTickEvent)
      requires EventList()
      modifies this`firstEvent, this`events, events`next, e`next
      ensures old(events) == [] ==> firstEvent == e && e.next == old(e.next)
      ensures old(events) == [] && old(e.next) == null ==> EventList() && events == [e]
      ensures old(events) != [] ==> EventList() && events == if e in old(events) then old(events) else old(events) + [e]
    {
      if firstEvent == null {
        firstEvent := e;
        if e.next == null {
          events := [e];
        }
        return;
      }
      AppendEvent(e);
    }

    /** registerEvent with the new event's next pointer cleared on an empty list too. */
    method RegisterEvent(e: SysTickEvent)
      requires EventList()
      modifies this`firstEvent, this`events, events`next, e`next
      ensures EventList()
      ensures events == if e in old(events) then old(events) else old(events) + [e]
    {
      if firstEvent == null {
        firstEvent := e;
        e.next := null;
        events := [e];
        return;
      }
      AppendEvent(e);
    }

    /** The walk to the tail shared by both versions of registerEvent. */
    method AppendEvent(e: SysTickEvent)
      requires EventList() && events != []
      modifies this`events, events`next, e`next
      ensures EventList()
      ensures events == if e in old(events) then old(events) else old(events) + [e]
    {
      var event := firstEvent;
      var i := 0;
      if e == event {
        return;
      }
      while event.next != null
        invariant 0 <= i < |events| && event == events[i]
        invariant event.next == if i + 1 < |events| then events[i + 1] else null
        invariant e !in events[..i + 1]
        decreases |events| - i
      {
        event := event.next;
        i := i + 1;
        if e == event {
          return;
        }
      }
      assert events[..i + 1] == events;
      event.next := e;
      e.next := null;
      events := events + [e];
    }

    /**
     * unregisterEvent: the event is unlinked and keeps its own next pointer;
     * nothing changes when it is not listed. The head is read before any
     * test, so the list must not be empty.
     */
    method UnregisterEvent(e: SysTickEvent)
      requires EventList() && events != []
      modifies this`firstEvent, this`events, events`next
      ensures EventList()
      ensures events == Without(old(events), e)
      ensures e.next == old(e.next)
    {
      if firstEvent == e {
        WithoutAt(events, 0);
        UnlinkFirst();
        return;
      }
      var event := firstEvent;
      var i := 0;
      while event.next != null
        invariant 0 <= i < |events| && event == events[i]
        invariant event.next == if i + 1 < |events| then events[i + 1] else null
        invariant e !in events[..i + 1]
        decreases |events| - i
      {
        if event.next == e {
          WithoutAt(events, i + 1);
          UnlinkAfter(event, i);
          return;
        }
        event := event.next;
        i := i + 1;
      }
      assert events[..i + 1] == events;
      WithoutAbsent(events, e);
    }

    /** The pointer write that unlinks the head of the event list. */
    method UnlinkFirst()
      requires EventList() && events != []
      modifies this`firstEvent, this`events
      ensures EventList() && events == old(events[1..])
    {
      ghost var es := events;
      firstEvent := firstEvent.next;
      events := es[1..];
      assert forall i :: 0 <= i < |events| ==> events[i] == es[i + 1];
    }

    /** The pointer write that unlinks events[k + 1] from events[k]. */
    method UnlinkAfter(event: SysTickEvent, k: nat)
      requires EventList() && k + 1 < |events| && event == events[k]
      modifies this`events, event`next
      ensures EventList() && events == old(events[..k + 1] + events[k + 2..])
    {
      ghost var es := events;
      assert event.next == es[k + 1];
      event.next := event.next.next;
      events := es[..k + 1] + es[k + 2..];
      forall i | 0 <= i < |events| - 1
        ensures events[i].next == events[i + 1]
      {
        if i < k {
          assert events[i] == es[i] && events[i + 1] == es[i + 1];
        } else if i == k {
          assert events[i] == event && events[i + 1] == es[k + 2];
        } else {
          assert events[i] == es[i + 1] && events[i + 1] == es[i + 2];
        }
      }
      forall i, j | 0 <= i < j < |events|
        ensures events[i] != events[j]
      {
        var a := if i <= k then i else i + 1;
        var b := if j <= k then j else j + 1;
        assert events[i] == es[a] && events[j] == es[b];
      }
      if events != [] {
        assert events[|events| - 1] == if k + 2 == |es| then event else es[|es| - 1];
      }
    }

    /** _handleEvents: every registered callback runs once per tick, in list order. */
    method HandleEvents() returns (called: seq<SysTickEvent>)
      requires EventList()
      ensures called == events
    {
      called := [];
      var event := firstEvent;
      while event != null
        invariant |called| <= |events|
        invariant called == events[..|called|]
        invariant event == if |called| < |events| then events[|called|] else null
        decreases |events| - |called|
      {
        called := called + [event];
        event := event.next;
      }
    }
  }

  /** Re-registering an event after the list was emptied brings back an event unregistered before it. */
  method StaleLinkResurrects() returns (t: SysTick, a: SysTickEvent, b: SysTickEvent)
    ensures a != b && t.firstEvent == a && a.next == b
  {
    t := new SysTick();
    a := new SysTickEvent();
    b := new SysTickEvent();
    t.RegisterEventAsWritten(a);
    t.RegisterEventAsWritten(b);
    t.UnregisterEvent(a);
    t.UnregisterEvent(b);
    t.RegisterEventAsWritten(a);
  }

  /** With the next pointer cleared, the same calls leave only the re-registered event. */
  method RegisterAfterEmptying() returns (t: SysTick, a: SysTickEvent, b: SysTickEvent)
    ensures t.EventList() && t.events == [a] && a.next == null
  {
    t := new SysTick();
    a := new SysTickEvent();
    b := new SysTickEvent();
    t.RegisterEvent(a);
    t.RegisterEvent(b);
    t.UnregisterEvent(a);
    t.UnregisterEvent(b);
    t.RegisterEvent(a);
  }

  // ---------------------------------------------------------------- Timeout

  /** The unsigned 32-bit difference now - start. */
  function Elapsed(now: Uint32, start: Uint32): (d: Uint32)
    ensures start <= now ==> d == now - start
    ensures now < start ==> d == now - start + Modulus32
  {
    (now - start) % Modulus32
  }

  /** Timeout: a start tick and a delay, polled against the SysTick count. */
  class Timeout {
    var start: Uint32
    var delay: Uint32

    constructor ()
      ensures !IsSet()
    {
      start := 0;
      delay := 0;
    }

    /** isSet(): a start tick of 0 means "not set". */
    predicate IsSet()
      reads this
    {
      start > 0
    }

    /** isPast(): set, and more than `delay` ticks since the start, counted modulo 2^32. */
    predicate IsPast(now: Uint32)
      reads this
    {
      IsSet() && Elapsed(now, start) > delay
    }

    /** set(delay): the timeout starts at the current tick. */
    method Set(now: Uint32, delay: Uint32)
      modifies this
      ensures start == now && this.delay == delay
      ensures IsSet() <==> now != 0
      ensures forall later: Uint32 :: IsPast(later) <==> now != 0 && Elapsed(later, now) > delay
    {
      start := now;
      this.delay := delay;
    }

    /** clear(): never past until set again. */
    method Clear()
      modifies this
      ensures !IsSet() && forall now: Uint32 :: !IsPast(now)
    {
      start := 0;
      delay := 0;
    }
  }

  /** A timeout set at tick 0 is not set, and is never past. */
  lemma TimeoutAtZeroNeverPast(delay: Uint32, later: Uint32)
    ensures Elapsed(later, 0) == later
    ensures forall t: Timeout :: t.start == 0 ==> !t.IsPast(later)
  {
  }

  /** A timeout started before the count wrapped still sees the ticks since its start. */
  lemma ElapsedAcrossWrap(start: Uint32, ticks: nat)
    requires ticks < Modulus32
    ensures Elapsed((start + ticks) % Modulus32, start) == ticks
  {
  }

  // ---------------------------------------------------------------- interrupt cause

  /** The TC_SR bits getInterruptCause looks at. */
  datatype TcStatus = TcStatus(counterOverflow: bool, compareA: bool, compareB: bool, compareC: bool, externalTrigger: bool)

  datatype InterruptCause = OnOverflow | OnMatch | Unknown

  /**
   * getInterruptCause(channel): an overflow or an RC compare reports overflow
   * on channel -1; then RA reports a match on channel 0, RB a match on
   * channel 1, and an external trigger a match on channel -1.
   */
  function TcInterruptCause(sr: TcStatus): (r: (InterruptCause, int))
    ensures r.0 == OnOverflow <==> sr.counterOverflow || sr.compareC
    ensures r.0 == Unknown <==> !(sr.counterOverflow || sr.compareC || sr.compareA || sr.compareB || sr.externalTrigger)
    ensures r.1 == 0 <==> !(sr.counterOverflow || sr.compareC) && sr.compareA
    ensures r.1 == 1 <==> !(sr.counterOverflow || sr.compareC || sr.compareA) && sr.compareB
    ensures r.1 == -1 || r.1 == 0 || r.1 == 1
  {
    if sr.counterOverflow || sr.compareC then (OnOverflow, -1)
    else if sr.compareA then (OnMatch, 0)
    else if sr.compareB then (OnMatch, 1)
    else if sr.externalTrigger then (OnMatch, -1)
    else (Unknown, -1)
  }

  /** PWMTimer getInterruptCause: the first cached status register decides overflow, the second match. */
  function PwmInterruptCause(cached1: Uint32, cached2: Uint32): (r: InterruptCause)
    ensures r == OnOverflow <==> cached1 != 0
    ensures r == Unknown <==> cached1 == 0 && cached2 == 0
  {
    if cached1 != 0 then OnOverflow
    else if cached2 != 0 then OnMatch
    else Unknown
  }

  // ---------------------------------------------------------------- integer division facts

  lemma MulMono(c: nat, x: nat, y: nat)
    requires y <= x
    ensures c * y <= c * x
  {
    assert c * x - c * y == c * (x - y);
  }

  /** The quotient brackets the dividend. */
  lemma DivBracket(a: nat, d: nat)
    requires d > 0
    ensures d * (a / d) <= a < d * (a / d) + d
  {
  }

  /** A quotient below n when the dividend is below n times the divisor. */
  lemma DivBelow(a: nat, c: nat, n: nat)
    requires c > 0 && a < c * n
    ensures a / c < n
  {
    DivBracket(a, c);
    if a / c >= n {
      MulMono(c, a / c, n);
    }
  }

  /** A quotient of at least 1 when the divisor does not exceed the dividend. */
  lemma DivAtLeastOne(a: nat, c: nat)
    requires 0 < c <= a
    ensures a / c >= 1
  {
    DivBracket(a, c);
  }

  // ---------------------------------------------------------------- timer counter clock choice

  datatype TimerMode = InputCapture | InputCaptureToMatch | Up | UpToMatch | UpDown | UpDownToMatch

  /** The TIMER_CLOCK1..4 divisors, in the order setModeAndFrequency tries them (TIMER_CLOCK1 is PCK6 on the SAM*70). */
  function TcDivisors(sam70: bool): seq<nat>
  {
    if sam70 then [8, 32, 128] else [2, 8, 32, 128]
  }

  /** A divisor fits when the frequency lies strictly between the 16-bit floor and the divided clock. */
  predicate Fits(masterClock: nat, divisor: nat, freq: nat)
    requires divisor > 0
  {
    (masterClock / divisor) / 0x10000 < freq < masterClock / divisor
  }

  /** The position of the first divisor of the list that fits, if any. */
  function FirstFit(masterClock: nat, divisors: seq<nat>, freq: nat): (r: Option<nat>)
    requires forall i :: 0 <= i < |divisors| ==> divisors[i] > 0
    ensures r.Some? ==> r.value < |divisors| && Fits(masterClock, divisors[r.value], freq)
    ensures r.Some? ==> forall j :: 0 <= j < r.value ==> !Fits(masterClock, divisors[j], freq)
    ensures r.None? ==> forall i :: 0 <= i < |divisors| ==> !Fits(masterClock, divisors[i], freq)
  {
    if divisors == [] then None
    else if Fits(masterClock, divisors[0], freq) then Some(0)
    else
      var r := FirstFit(masterClock, divisors[1..], freq);
      if r.Some? then Some(r.value + 1) else None
  }

  /** The frequency the counter runs at: halved for the up-down modes. */
  function CountFrequency(mode: TimerMode, freq: Uint32): (f: Uint32)
    ensures f <= freq
    ensures mode != UpDown && mode != UpDownToMatch ==> f == freq
  {
    if mode == UpDown || mode == UpDownToMatch then freq / 2 else freq
  }

  /** Whether the mode counts to RC, so that RC is set from the frequency. */
  predicate ToMatch(mode: TimerMode)
  {
    mode == InputCaptureToMatch || mode == UpToMatch || mode == UpDownToMatch
  }

  /** A fitting divisor gives a top value in 1..0xFFFF, so the returned frequency needs no division by 0. */
  lemma FitBounds(masterClock: nat, divisor: nat, freq: nat)
    requires divisor > 0 && Fits(masterClock, divisor, freq)
    ensures freq > 0 && 0 < divisor * freq <= masterClock
    ensures 1 <= masterClock / (divisor * freq) <= 0xFFFF
  {
    var q := masterClock / divisor;
    DivBracket(masterClock, divisor);
    MulMono(divisor, q, freq);
    DivBracket(q, 0x10000);
    assert q + 1 <= 0x10000 * freq;
    MulMono(divisor, 0x10000 * freq, q + 1);
    assert divisor * (0x10000 * freq) == (divisor * freq) * 0x10000;
    DivBelow(masterClock, divisor * freq, 0x10000);
    DivAtLeastOne(masterClock, divisor * freq);
  }

  /**
   * Timer setModeAndFrequency: the first divisor that fits sets RC to
   * masterClock / (divisor * freq) in the to-match modes (0xFFFF otherwise)
   * and the result is the frequency that RC gives; when none fits the
   * result is kFrequencyUnattainable (None). Result: (divisor, RC, frequency).
   */
  function TcSetup(mode: TimerMode, masterClock: Uint32, freq: Uint32, sam70: bool): (r: Option<(nat, nat, nat)>)
  {
    var f := CountFrequency(mode, freq);
    var ds := TcDivisors(sam70);
    var k := FirstFit(masterClock, ds, f);
    if k.None? then None
    else
      var d := ds[k.value];
      var top := TcTop(mode, masterClock, d, f);
      Some((d, top, Divided(masterClock, d, top)))
  }

  /** RC for a fitting divisor: masterClock / (divisor * freq) in the to-match modes, 0xFFFF otherwise. */
  function TcTop(mode: TimerMode, masterClock: nat, divisor: nat, freq: nat): (top: nat)
    requires divisor > 0 && Fits(masterClock, divisor, freq)
    ensures 1 <= top <= 0xFFFF
  {
    FitBounds(masterClock, divisor, freq);
    if ToMatch(mode) then masterClock / (divisor * freq) else 0xFFFF
  }

  /** The clock divided by two positive factors. */
  function Divided(masterClock: nat, a: nat, b: nat): nat
    requires a > 0 && b > 0
  {
    MulMono(a, b, 1);
    masterClock / (a * b)
  }

  /**
   * The clock chosen is the first of the list that fits, and None means
   * none fits; RC lies in 1..0xFFFF, is 0xFFFF outside the to-match modes,
   * and the returned frequency is the one that divisor and RC give.
   */
  lemma TcSetupMeaning(mode: TimerMode, masterClock: Uint32, freq: Uint32, sam70: bool)
    ensures var f := CountFrequency(mode, freq);
      var ds := TcDivisors(sam70);
      var r := TcSetup(mode, masterClock, freq, sam70);
      (r.None? <==> forall i :: 0 <= i < |ds| ==> !Fits(masterClock, ds[i], f))
      && (r.Some? ==>
            (exists i :: 0 <= i < |ds| && ds[i] == r.value.0 && Fits(masterClock, ds[i], f)
              && forall j :: 0 <= j < i ==> !Fits(masterClock, ds[j], f))
            && 1 <= r.value.1 <= 0xFFFF
            && r.value.2 == Divided(masterClock, r.value.0, r.value.1)
            && (!ToMatch(mode) ==> r.value.1 == 0xFFFF))
  {
    var f := CountFrequency(mode, freq);
    var ds := TcDivisors(sam70);
    var k := FirstFit(masterClock, ds, f);
    if k.Some? {
      FitBounds(masterClock, ds[k.value], f);
    }
  }

  // ---------------------------------------------------------------- PWM divisor searches

  /** The PWM clock divisors 1, 2, 4, ... 1024 (11 entries). */
  const PwmDivisors: seq<Positive> := [1, 2, 4, 8, 16, 32, 64, 128, 256, 512, 1024]

  /** The clock a PWM prescaler index runs the counter at. */
  function TestValue(masterClock: nat, index: nat): nat
    requires index < |PwmDivisors|
  {
    masterClock / PwmDivisors[index]
  }

  /** A clock brackets the frequency when it lies between itself / 0x10000 and itself. */
  predicate Brackets(masterClock: nat, index: nat, frequency: nat)
    requires index < |PwmDivisors|
  {
    TestValue(masterClock, index) / 0x10000 <= frequency <= TestValue(masterClock, index)
  }

  /** A uint32_t value converted to int32_t: the same 32 bits read in two's complement. */
  function AsInt32(u: Uint32): (r: int)
    ensures -0x8000_0000 <= r < 0x8000_0000
    ensures r % Modulus32 == u
  {
    if u < 0x8000_0000 then u else u - Modulus32
  }

  /**
   * The prescaler-only search of PWM setModeAndFrequency: step through the
   * divisors until one brackets the frequency, stopping at index 10, then
   * set the period to test_value / frequency (held in an int32_t and handed
   * to setTop as a uint32_t, which gives the same bits back) and return
   * test_value times it, a uint32_t product that wraps at 2^32 and is then
   * returned as an int32_t.
   */
  method PwmPrescalerSearch(masterClock: Uint32, frequency: Uint32) returns (index: nat, top: Uint32, result: int)
    requires frequency > 0
    ensures index <= 10
    ensures index < 10 ==> Brackets(masterClock, index, frequency)
    ensures forall j :: 0 <= j < index ==> !Brackets(masterClock, j, frequency)
    ensures top == TestValue(masterClock, index) / frequency
    ensures result == AsInt32(SamSpi.Mul32(TestValue(masterClock, index), top))
  {
    index := 0;
    var testValue := TestValue(masterClock, index);
    while index < 10 && (frequency > testValue || frequency < testValue / 0x10000)
      invariant index <= 10 && testValue == TestValue(masterClock, index)
      invariant forall j :: 0 <= j < index ==> !Brackets(masterClock, j, frequency)
      decreases 10 - index
    {
      index := index + 1;
      testValue := TestValue(masterClock, index);
    }
    DivAntitone(testValue, 1, frequency);
    top := testValue / frequency;
    result := AsInt32(SamSpi.Mul32(testValue, top));
  }

  /**
   * The frequency the chosen clock and period give, test_value / newTop:
   * at least the frequency asked for and below twice it.
   */
  function ActualFrequency(masterClock: nat, index: nat, frequency: nat): (r: nat)
    requires index < |PwmDivisors| && frequency > 0 && TestValue(masterClock, index) / frequency > 0
    ensures frequency <= r < 2 * frequency
  {
    var t := TestValue(masterClock, index);
    var top := t / frequency;
    PeriodFrequency(t, frequency, top);
    t / top
  }

  /** With top == t / f and top > 0, t / top lies in [f, 2f). */
  lemma PeriodFrequency(t: nat, f: nat, top: nat)
    requires f > 0 && top > 0 && top == t / f
    ensures f <= t / top < 2 * f
  {
    DivBracket(t, f);
    MulMono(f, top + top, top + 1);
    assert t < top * (2 * f);
    DivBelow(t, top, 2 * f);
    DivBracket(t, top);
    if t / top < f {
      MulMono(top, f, t / top + 1);
    }
  }

  /**
   * An 84 MHz clock asked for 1 kHz: divisor 2 brackets it and the period
   * is 42000, so the frequency is 42 MHz / 42000 = 1000, but the product
   * returned, 42 MHz times 42000, wraps to a negative int32_t.
   */
  lemma PwmResultWraps()
    ensures !Brackets(84_000_000, 0, 1000) && Brackets(84_000_000, 1, 1000)
    ensures TestValue(84_000_000, 1) / 1000 == 42000
    ensures AsInt32(SamSpi.Mul32(TestValue(84_000_000, 1), 42000)) == -1_231_558_656
    ensures ActualFrequency(84_000_000, 1, 1000) == 1000
  {
  }

  /** With a bracketing clock the period is at least 1 and below 0x20000. */
  lemma PwmTopBounds(masterClock: nat, index: nat, frequency: nat)
    requires index < |PwmDivisors| && frequency > 0 && Brackets(masterClock, index, frequency)
    ensures 1 <= TestValue(masterClock, index) / frequency < 0x20000
  {
    var t := TestValue(masterClock, index);
    DivBracket(t, 0x10000);
    MulMono(0x10000, frequency + 1, t / 0x10000 + 1);
    assert t < 0x10000 * (frequency + 1);
    assert 0x10000 * (frequency + 1) <= frequency * 0x20000;
    DivBelow(t, frequency, 0x20000);
    DivAtLeastOne(t, frequency);
  }

  /** The bracket test lets the period exceed 16 bits: a 0x1FFFF Hz clock asked for 1 Hz gives 0x1FFFF. */
  lemma PwmTopCanExceed16Bits()
    ensures Brackets(0x1FFFF, 0, 1) && TestValue(0x1FFFF, 0) / 1 == 0x1FFFF
  {
  }

  /** The prescaler computed by the clock-A search at a divisor index. */
  function Prescaler(masterClock: nat, index: nat, frequency: nat): nat
    requires index < |PwmDivisors| && frequency > 0
  {
    masterClock / PwmDivisors[index] / frequency
  }

  /**
   * The clock-A search as written, from index on: it steps while the
   * prescaler exceeds 255 and the index is below 11, so from index 10 it
   * steps to 11 and reads divisors[11], past the 11-entry table (None).
   */
  function DivASearchAsWritten(masterClock: nat, frequency: nat, index: nat): (r: Option<nat>)
    requires index < |PwmDivisors| && frequency > 0
    ensures r.None? <==> forall j :: index <= j < |PwmDivisors| ==> Prescaler(masterClock, j, frequency) > 255
    ensures r.Some? ==> index <= r.value < |PwmDivisors| && Prescaler(masterClock, r.value, frequency) <= 255
    ensures r.Some? ==> forall j :: index <= j < r.value ==> Prescaler(masterClock, j, frequency) > 255
    decreases |PwmDivisors| - index
  {
    if Prescaler(masterClock, index, frequency) <= 255 then Some(index)
    else if index + 1 < |PwmDivisors| then DivASearchAsWritten(masterClock, frequency, index + 1)
    else None
  }

  /**
   * An 84 MHz clock asked for 1 Hz keeps every prescaler above 255 (82031
   * at index 10), so the search as written reads past the table.
   */
  lemma DivASearchPassesTable()
    ensures Prescaler(84_000_000, 10, 1) == 82031
    ensures DivASearchAsWritten(84_000_000, 1, 0).None?
  {
    forall j | 0 <= j < |PwmDivisors|
      ensures Prescaler(84_000_000, j, 1) > 255
    {
      assert PwmDivisors[j] <= 1024;
      DivAntitone(84_000_000, PwmDivisors[j], 1024);
    }
  }

  /** A larger divisor gives a quotient no larger. */
  lemma DivAntitone(a: nat, c: nat, d: nat)
    requires 0 < c <= d
    ensures a / d <= a / c
  {
    var q := a / d;
    DivBracket(a, d);
    MulMono(q, d, c);
    assert c * q <= a;
    DivBracket(a, c);
    if a / c < q {
      MulMono(c, q, a / c + 1);
    }
  }

  /**
   * The clock-A search with the index bounded by the last entry: the first
   * index whose prescaler is at most 255, or the last index.
   */
  method DivASearch(masterClock: Uint32, frequency: Uint32) returns (index: nat, prescaler: nat)
    requires frequency > 0
    ensures index < |PwmDivisors| && prescaler == Prescaler(masterClock, index, frequency)
    ensures index < |PwmDivisors| - 1 ==> prescaler <= 255
    ensures forall j :: 0 <= j < index ==> Prescaler(masterClock, j, frequency) > 255
  {
    index := 0;
    prescaler := Prescaler(masterClock, index, frequency);
    while prescaler > 255 && index < |PwmDivisors| - 1
      invariant index < |PwmDivisors| && prescaler == Prescaler(masterClock, index, frequency)
      invariant forall j :: 0 <= j < index ==> Prescaler(masterClock, j, frequency) > 255
      decreases |PwmDivisors| - index
    {
      index := index + 1;
      prescaler := Prescaler(masterClock, index, frequency);
    }
  }

  /** The frequency the PWM counter runs at: halved when center aligned (kTimerUpDownToMatch). */
  function PwmCountFrequency(mode: TimerMode, frequency: Uint32): (f: Uint32)
    ensures mode == UpDownToMatch ==> 2 * f <= frequency < 2 * f + 2
    ensures mode != UpDownToMatch ==> f == frequency
  {
    if mode == UpDownToMatch then frequency / 2 else frequency
  }

  /**
   * PWM setModeAndFrequency with the prescaler-only clock: the input-capture
   * modes are kFrequencyUnattainable (None); otherwise the prescaler search
   * runs on the (center-aligned: halved) frequency. Result: (index, period,
   * the value returned as written).
   */
  method PwmSetModeAndFrequency(mode: TimerMode, masterClock: Uint32, frequency: Uint32)
    returns (r: Option<(nat, Uint32, int)>)
    requires mode != InputCapture && mode != InputCaptureToMatch ==> PwmCountFrequency(mode, frequency) > 0
    ensures r.None? <==> mode == InputCapture || mode == InputCaptureToMatch
    ensures r.Some? ==>
      var f := PwmCountFrequency(mode, frequency);
      var index := r.value.0;
      index <= 10
      && (index < 10 ==> Brackets(masterClock, index, f))
      && (forall j :: 0 <= j < index ==> !Brackets(masterClock, j, f))
      && r.value.1 == TestValue(masterClock, index) / f
      && r.value.2 == AsInt32(SamSpi.Mul32(TestValue(masterClock, index), r.value.1))
  {
    if mode == InputCapture || mode == InputCaptureToMatch {
      r := None;
    } else {
      var index, top, result := PwmPrescalerSearch(masterClock, PwmCountFrequency(mode, frequency));
      r := Some((index, top, result));
    }
  }

  // ---------------------------------------------------------------- PWM synchronous update

  datatype UpdateMode = UpdateManually | UpdateAutomatically

  /** The PWM_SCM update mode and the PWM_SCUPUPD period of synchronous channels. */
  class PwmSync {
    var updateMode: UpdateMode
    /** The UPRUPD field: updates happen every UPRUPD + 1 periods. */
    var updatePeriod: nat
    var unlocked: bool

    constructor ()
      ensures updatePeriod == 0 && !unlocked
    {
      updateMode := UpdateManually;
      updatePeriod := 0;
      unlocked := false;
    }

    /** setSyncMode(m, periods): the period count is clamped into 1..15 and stored minus one; the update is unlocked. */
    method SetSyncMode(manual: bool, periods: Uint32)
      modifies this
      ensures updateMode == if manual then UpdateManually else UpdateAutomatically
      ensures 0 <= updatePeriod <= 14 && unlocked
      ensures 1 <= periods <= 15 ==> updatePeriod + 1 == periods
      ensures periods < 1 ==> updatePeriod == 0
      ensures periods > 15 ==> updatePeriod == 14
    {
      updateMode := if manual then UpdateManually else UpdateAutomatically;
      var p := periods;
      if p < 1 {
        p := 1;
      }
      if p > 0xF {
        p := 0xF;
      }
      updatePeriod := p - 1;
      unlocked := true;
    }
  }
}
