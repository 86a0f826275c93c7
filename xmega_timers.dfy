// The XMega timer/counter driver: setModeAndFrequency's search for a CLKSEL
// prescaler, the period, compare and output-enable registers, the interrupt
// level fields of INTCTRLA and INTCTRLB, and the SysTick count kept on top
// of the real-time counter. Registers are modelled as their 8-bit values;
// a register write is the new value.

module XMegaTimers {

  import opened Wrappers
  import SamTimers
  import SamSpi
  import TimerCommon

  type Uint32 = SamTimers.Uint32
  type Byte = bv8

  /** The divisors CLKSEL values 1..7 select, in the order the search tries them. */
  const Divisors: seq<TimerCommon.Positive> := [1, 2, 4, 8, 64, 256, 1024]

  // TimerChannelInterruptOptions (kInterruptPriorityHighest is High, Lowest is Low)
  const InterruptsOff: bv32 := 0
  const InterruptOnMatch: bv32 := 1 << 1
  const InterruptOnOverflow: bv32 := 1 << 2
  const PriorityHigh: bv32 := 1 << 5
  const PriorityMedium: bv32 := 1 << 7
  const PriorityLow: bv32 := 1 << 8

  // CTRLA: CLKSEL in bits 3..0. CTRLB: WGMODE in bits 2..0, CCAEN..CCDEN in bits 4..7.
  const ClockSelectMask: Byte := 0x0F
  const WgModeMask: Byte := 0x07
  const WgModeSingleSlope: Byte := 0x03
  const WgModeDualSlopeBoth: Byte := 0x06

  // Interrupt levels, two bits per source: OFF 0, LO 1, MED 2, HI 3.
  // INTCTRLA: OVFINTLVL in bits 1..0, ERRINTLVL in bits 3..2.
  // INTCTRLB: CCAINTLVL..CCDINTLVL in bits 1..0, 3..2, 5..4, 7..6.
  const LevelLo: Byte := 1
  const LevelMed: Byte := 2
  const LevelHi: Byte := 3
  const OverflowLevelMask: Byte := 0x03
  const ErrorLevelMask: Byte := 0x0C

  /** _setWGMode as setModeAndFrequency uses it: dual slope for the up-down modes, single slope for up to match, else as it was. */
  function WithWaveform(b: Byte, mode: TimerCommon.TimerMode): (r: Byte)
    ensures r & !WgModeMask == b & !WgModeMask
    ensures r & WgModeMask ==
      if mode.UpDown? || mode.UpDownToMatch? then WgModeDualSlopeBoth
      else if mode.UpToMatch? then WgModeSingleSlope
      else b & WgModeMask
  {
    if mode.UpDown? || mode.UpDownToMatch? then (b & !WgModeMask) | WgModeDualSlopeBoth
    else if mode.UpToMatch? then (b & !WgModeMask) | WgModeSingleSlope
    else b
  }

  /** _setClock(clk): CTRLA with the CLKSEL field replaced, the other bits kept. */
  function WithClockSelect(a: Byte, clk: nat): (r: Byte)
    requires clk <= 0x0F
    ensures r & ClockSelectMask == clk as Byte
    ensures r & !ClockSelectMask == a & !ClockSelectMask
  {
    FieldWrite(a, ClockSelectMask, clk as Byte);
    (a & !ClockSelectMask) | clk as Byte
  }

  /** Channel c's output-enable bit CCxEN in CTRLB. */
  function OutputMask(c: nat): Byte
    requires c < 4
  {
    if c == 0 then 0x10 else if c == 1 then 0x20 else if c == 2 then 0x40 else 0x80
  }

  /** _setChannelxCCEN(on): CTRLB with channel c's output enable set or cleared, the other bits (the waveform mode among them) kept. */
  function WithOutput(b: Byte, c: nat, on: bool): (r: Byte)
    requires c < 4
    ensures r & OutputMask(c) == if on then OutputMask(c) else 0
    ensures r & !OutputMask(c) == b & !OutputMask(c)
    ensures r & WgModeMask == b & WgModeMask
  {
    if on then b | OutputMask(c) else b & !OutputMask(c)
  }

  // ---------------------------------------------------------------- interrupt levels

  /** The level a compare channel gets: high asks for HI, else medium for MED, else LO. */
  function ChannelLevel(interrupts: bv32): (lvl: Byte)
    ensures LevelLo <= lvl <= LevelHi
    ensures lvl == LevelHi <==> interrupts & PriorityHigh != 0
    ensures lvl == LevelLo <==> interrupts & (PriorityHigh | PriorityMedium) == 0
  {
    if interrupts & PriorityHigh != 0 then LevelHi
    else if interrupts & PriorityMedium != 0 then LevelMed
    else LevelLo
  }

  /** The level the overflow interrupt gets as written: high gives LO and the rest HI. */
  function OverflowLevelAsWritten(interrupts: bv32): (lvl: Byte)
    ensures LevelLo <= lvl <= LevelHi
  {
    if interrupts & PriorityHigh != 0 then LevelLo
    else if interrupts & PriorityMedium != 0 then LevelMed
    else LevelHi
  }

  /** The overflow levels as written are the channel levels turned upside down. */
  lemma OverflowPriorityInverted(interrupts: bv32)
    ensures OverflowLevelAsWritten(interrupts) == 4 - ChannelLevel(interrupts)
    ensures interrupts & PriorityHigh != 0 ==> OverflowLevelAsWritten(interrupts) == LevelLo
  {
  }

  /** The two bits of an INTCTRLB that hold the level of channel c. */
  function ChannelMask(c: nat): Byte
    requires c < 4
  {
    if c == 0 then 0x03 else if c == 1 then 0x0C else if c == 2 then 0x30 else 0xC0
  }

  /** A level moved up to channel c's bits. */
  function AtChannel(lvl: Byte, c: nat): Byte
    requires c < 4
  {
    if c == 0 then lvl else if c == 1 then lvl << 2 else if c == 2 then lvl << 4 else lvl << 6
  }

  /** Writing v into the field a mask selects: the field reads v back, and the other bits are kept. */
  lemma FieldWrite(a: Byte, mask: Byte, v: Byte)
    requires v & !mask == 0
    ensures ((a & !mask) | v) & mask == v
    ensures ((a & !mask) | v) & !mask == a & !mask
  {
  }

  /** _setChannelxCCInterruptPriority: INTCTRLB with channel c's level replaced, the other bits kept. */
  function WithChannelLevel(b: Byte, c: nat, lvl: Byte): (r: Byte)
    requires c < 4 && lvl <= LevelHi
    ensures r & ChannelMask(c) == AtChannel(lvl, c)
    ensures r & !ChannelMask(c) == b & !ChannelMask(c)
  {
    assert AtChannel(lvl, c) & !ChannelMask(c) == 0;
    FieldWrite(b, ChannelMask(c), AtChannel(lvl, c));
    (b & !ChannelMask(c)) | AtChannel(lvl, c)
  }

  /** _setOverflowInterruptPriority as written: the mask keeps the old level and drops the error level. */
  function WithOverflowLevelAsWritten(a: Byte, lvl: Byte): (r: Byte)
    requires lvl <= LevelHi
    ensures r & OverflowLevelMask == (a & OverflowLevelMask) | lvl
    ensures r & ErrorLevelMask == 0
  {
    (a & OverflowLevelMask) | lvl
  }

  /** _setOverflowInterruptPriority as intended: the overflow level replaced, the other bits kept. */
  function WithOverflowLevel(a: Byte, lvl: Byte): (r: Byte)
    requires lvl <= LevelHi
    ensures r & OverflowLevelMask == lvl
    ensures r & !OverflowLevelMask == a & !OverflowLevelMask
  {
    (a & !OverflowLevelMask) | lvl
  }

  /** _stopAllInterrupts on INTCTRLA as written: the overflow level kept, the error level cleared. */
  function StopOverflowAsWritten(a: Byte): (r: Byte)
    ensures r & OverflowLevelMask == a & OverflowLevelMask
    ensures r & !OverflowLevelMask == 0
  {
    a & OverflowLevelMask
  }

  /** _stopAllInterrupts on INTCTRLA as intended: the overflow level cleared, the other bits kept. */
  function StopOverflow(a: Byte): (r: Byte)
    ensures r & OverflowLevelMask == 0
    ensures r & !OverflowLevelMask == a & !OverflowLevelMask
  {
    a & !OverflowLevelMask
  }

  /**
   * Setting the overflow level as written ORs it into the old one: MED then
   * LO leaves HI, and an error level of MED is lost; stopping all
   * interrupts as written leaves the overflow interrupt on.
   */
  lemma OverflowMaskMissesComplement()
    ensures WithOverflowLevelAsWritten(LevelMed, LevelLo) & OverflowLevelMask == LevelHi
    ensures WithOverflowLevel(LevelMed, LevelLo) & OverflowLevelMask == LevelLo
    ensures WithOverflowLevelAsWritten(0x08, LevelLo) & ErrorLevelMask == 0
    ensures WithOverflowLevel(0x08, LevelLo) & ErrorLevelMask == 0x08
    ensures StopOverflowAsWritten(LevelLo) & OverflowLevelMask == LevelLo
    ensures StopOverflow(LevelLo) & OverflowLevelMask == 0
  {
  }

  // ---------------------------------------------------------------- the prescaler search as written

  /**
   * The table as written is declared with eight entries and initialised
   * with seven, so the eighth is 0: a frequency above the master clock
   * steps the search past the seventh entry and divides the clock by 0.
   */
  lemma TableRunsOut()
    ensures TimerCommon.SetupAsWritten(32_000_000, Divisors, 40_000_000).None?
    ensures TimerCommon.Setup(32_000_000, Divisors, 40_000_000).None?
  {
    assert !TimerCommon.Stops(32_000_000, Divisors[0], 40_000_000, false);
  }

  /**
   * At 32 MHz the search as written stops at divisor 1 for 488 Hz, where
   * the top value 65573 does not fit the 16-bit PER register, which keeps
   * 37; the intended search takes divisor 2, with top 32786, and gives 488 Hz.
   */
  lemma TopTruncated()
    ensures var r := TimerCommon.SetupAsWritten(32_000_000, Divisors, 488);
      r.Some? && r.value.index == 0 && r.value.top == 65573 && r.value.period == 37
    ensures var r := TimerCommon.Setup(32_000_000, Divisors, 488);
      r.Some? && r.value.index == 1 && r.value.period == 32786 && r.value.result == 488
  {
    assert TimerCommon.Stops(32_000_000, Divisors[0], 488, false);
    assert !TimerCommon.Stops(32_000_000, Divisors[0], 488, true);
    assert TimerCommon.Stops(32_000_000, Divisors[1], 488, true);
  }

  /**
   * setModeAndFrequency as written returns test_value * top, not
   * test_value / top: at 32 MHz, asking for 1 kHz returns 1797783552
   * where the timer runs at 1000 Hz.
   */
  lemma ResultIsProduct()
    ensures var r := TimerCommon.SetupAsWritten(32_000_000, Divisors, 1000);
      r.Some? && r.value.top == 32000 && r.value.result == 1797783552
    ensures var r := TimerCommon.Setup(32_000_000, Divisors, 1000);
      r.Some? && r.value.result == 1000
  {
    assert TimerCommon.Stops(32_000_000, Divisors[0], 1000, false);
    assert TimerCommon.Stops(32_000_000, Divisors[0], 1000, true);
  }

  // ---------------------------------------------------------------- Timer

  /** Timer<n>: one TC0 (channels A..D) or TC1 (channels A and B) timer/counter. */
  class Timer {
    /** TC1 timers (numbers 1, 3 and 5) have no channels C and D; their stubs do nothing. */
    const tc1: bool
    var storedClock: nat
    var ctrlA: Byte
    var ctrlB: Byte
    var period: nat
    var count: nat
    var compare: seq<nat>
    var intCtrlA: Byte
    var intCtrlB: Byte

    predicate Valid()
      reads this
    {
      |compare| == 4 && period < 0x10000 && count < 0x10000 && storedClock <= 0x0F
    }

    /** Whether the timer has compare channel c. */
    predicate HasChannel(c: nat)
    {
      c < 2 || (c < 4 && !tc1)
    }

    /** The CLKSEL field: 0 stops the counter, 1..7 select a divisor. */
    function ClockSelect(): Byte
      reads this
    {
      ctrlA & ClockSelectMask
    }

    /** Timer(): the registers from reset, no stored clock, every interrupt level off. */
    constructor (tc1: bool)
      ensures Valid() && this.tc1 == tc1
      ensures storedClock == 0 && ClockSelect() == 0 && ctrlB == 0
      ensures period == 0 && count == 0 && compare == [0, 0, 0, 0]
      ensures intCtrlA & OverflowLevelMask == 0 && intCtrlB == 0
    {
      this.tc1 := tc1;
      storedClock := 0;
      ctrlA := 0;
      ctrlB := 0;
      period := 0;
      count := 0;
      compare := [0, 0, 0, 0];
      intCtrlA := StopOverflow(0);
      intCtrlB := 0;
    }

    /**
     * setModeAndFrequency(mode, freq, fromConstructor): restart the counter
     * when called from the constructor, set the waveform mode, then pick the
     * first divisor whose top value fits the 16-bit PER, select it, set PER
     * to it and return the frequency the timer runs at; with no such divisor
     * return kFrequencyUnattainable (-1) and leave the clock and the period.
     */
    method SetModeAndFrequency(mode: TimerCommon.TimerMode, masterClock: Uint32, freq: Uint32, fromConstructor: bool)
      returns (result: int)
      requires Valid()
      modifies this
      ensures Valid()
      ensures var r := TimerCommon.Setup(masterClock, Divisors, TimerCommon.CountFrequency(mode, freq));
        && (r.None? ==> result == -1 && storedClock == old(storedClock) && ctrlA == old(ctrlA) && period == old(period))
        && (r.Some? ==> result == r.value.result && storedClock == r.value.index + 1
                        && ctrlA == WithClockSelect(old(ctrlA), storedClock) && period == r.value.top)
      ensures ctrlB == WithWaveform(old(ctrlB), mode)
      ensures count == if fromConstructor then 0 else old(count)
      ensures compare == old(compare) && intCtrlA == old(intCtrlA) && intCtrlB == old(intCtrlB)
    {
      if fromConstructor {
        count := 0;
      }
      var f := TimerCommon.CountFrequency(mode, freq);
      ctrlB := WithWaveform(ctrlB, mode);
      var i := TimerCommon.FindDivisor(masterClock, Divisors, f);
      TimerCommon.SetupMeaning(masterClock, Divisors, f);
      if i == |Divisors| {
        return -1;
      }
      TimerCommon.SetupAt(masterClock, Divisors, f, i);
      var t := TimerCommon.Clock(masterClock, Divisors[i]);
      var top := t / f;
      result := t / top;
      storedClock := i + 1;
      ctrlA := WithClockSelect(ctrlA, storedClock);
      period := top;
    }

    /** setTop(top): PER is 16 bits wide and keeps the low 16 bits of top. */
    method SetTop(top: Uint32)
      requires Valid()
      modifies this
      ensures Valid() && period == top % 0x10000
      ensures storedClock == old(storedClock) && ctrlA == old(ctrlA) && ctrlB == old(ctrlB) && count == old(count)
      ensures compare == old(compare) && intCtrlA == old(intCtrlA) && intCtrlB == old(intCtrlB)
    {
      period := top % 0x10000;
    }

    /** start(): select the stored clock again. */
    method Start()
      requires Valid()
      modifies this
      ensures Valid()
      ensures ctrlA == WithClockSelect(old(ctrlA), storedClock)
      ensures storedClock == old(storedClock) && ctrlB == old(ctrlB) && period == old(period) && count == old(count)
      ensures compare == old(compare) && intCtrlA == old(intCtrlA) && intCtrlB == old(intCtrlB)
    {
      ctrlA := WithClockSelect(ctrlA, storedClock);
    }

    /** setExactDutyCycleForChannel(c, absolute): channel c's compare register, for the channels the timer has. */
    method SetExactDutyCycle(channel: nat, absolute: nat)
      requires Valid() && absolute < 0x10000
      modifies this
      ensures Valid()
      ensures compare == if HasChannel(channel) then old(compare)[channel := absolute] else old(compare)
      ensures storedClock == old(storedClock) && ctrlA == old(ctrlA) && ctrlB == old(ctrlB) && period == old(period)
      ensures count == old(count) && intCtrlA == old(intCtrlA) && intCtrlB == old(intCtrlB)
    {
      if HasChannel(channel) {
        compare := compare[channel := absolute];
      }
    }

    /** startPWMOutput(c) / stopPWMOutput(c): set or clear CCxEN of channel c, for the channels the timer has. */
    method SetPwmOutput(channel: nat, on: bool)
      modifies this
      ensures ctrlB == if HasChannel(channel) then WithOutput(old(ctrlB), channel, on) else old(ctrlB)
      ensures storedClock == old(storedClock) && ctrlA == old(ctrlA) && period == old(period) && count == old(count)
      ensures compare == old(compare) && intCtrlA == old(intCtrlA) && intCtrlB == old(intCtrlB)
    {
      if HasChannel(channel) {
        ctrlB := WithOutput(ctrlB, channel, on);
      }
    }

    /**
     * setInterrupts(interrupts, channel): with interrupts off, clear the
     * overflow level and every channel level the timer has; otherwise add
     * an overflow level when asked for, and channel's level when a match
     * interrupt is asked for, leaving the other levels as they were. The
     * overflow interrupt gets the same level a channel would.
     */
    method SetInterrupts(interrupts: bv32, channel: int)
      modifies this
      ensures interrupts == InterruptsOff ==>
        && intCtrlA == StopOverflow(old(intCtrlA))
        && intCtrlB & ChannelsMask() == 0 && intCtrlB & !ChannelsMask() == old(intCtrlB) & !ChannelsMask()
      ensures interrupts != InterruptsOff ==>
        && intCtrlA == (if interrupts & InterruptOnOverflow != 0 then WithOverflowLevel(old(intCtrlA), ChannelLevel(interrupts)) else old(intCtrlA))
        && intCtrlB == (if interrupts & InterruptOnMatch != 0 && 0 <= channel && HasChannel(channel)
                        then WithChannelLevel(old(intCtrlB), channel, ChannelLevel(interrupts)) else old(intCtrlB))
      ensures storedClock == old(storedClock) && ctrlA == old(ctrlA) && ctrlB == old(ctrlB)
      ensures period == old(period) && count == old(count) && compare == old(compare)
    {
      if interrupts != InterruptsOff {
        if interrupts & InterruptOnOverflow != 0 {
          intCtrlA := WithOverflowLevel(intCtrlA, ChannelLevel(interrupts));
        }
        if interrupts & InterruptOnMatch != 0 && 0 <= channel && HasChannel(channel) {
          intCtrlB := WithChannelLevel(intCtrlB, channel, ChannelLevel(interrupts));
        }
      } else {
        intCtrlA := StopOverflow(intCtrlA);
        FieldWrite(intCtrlB, ChannelsMask(), 0);
        intCtrlB := intCtrlB & !ChannelsMask();
      }
    }

    /** The INTCTRLB bits of the channels the timer has. */
    function ChannelsMask(): Byte
    {
      if tc1 then 0x0F else 0xFF
    }
  }

  // ---------------------------------------------------------------- SysTick

  /** The real-time counter's period register holds 0xFFFE: CNT runs through 0..0xFFFE. */
  const RtcPeriod: nat := 0xFFFE

  /**
   * SysTickTimer: a software count that the RTC overflow interrupt raises
   * by 0xFFFF, plus the RTC's own count.
   */
  class SysTick {
    var tickCount: Uint32
    var rtcCount: nat

    predicate Valid()
      reads this
    {
      rtcCount <= RtcPeriod
    }

    /** init(): both counts at 0. */
    constructor ()
      ensures Valid() && Value() == 0
    {
      tickCount := 0;
      rtcCount := 0;
    }

    /** getValue(): the software count plus the RTC count, a uint32_t sum. */
    function Value(): (v: Uint32)
      reads this
    {
      (tickCount + rtcCount) % SamTimers.Modulus32
    }

    /** _increment(): the overflow interrupt adds one RTC period, 0xFFFF ticks. */
    method Increment()
      modifies this
      ensures tickCount == (old(tickCount) + 0xFFFF) % SamTimers.Modulus32 && rtcCount == old(rtcCount)
    {
      tickCount := (tickCount + 0xFFFF) % SamTimers.Modulus32;
    }

    /**
     * One RTC clock: the counter steps, or at its period wraps to 0 and the
     * overflow interrupt runs _increment; either way getValue advances by
     * exactly one, modulo 2^32.
     */
    method Tick()
      requires Valid()
      modifies this
      ensures Valid() && Value() == (old(Value()) + 1) % SamTimers.Modulus32
    {
      if rtcCount < RtcPeriod {
        rtcCount := rtcCount + 1;
      } else {
        rtcCount := 0;
        Increment();
      }
    }
  }
}
