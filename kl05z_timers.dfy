// The KL05Z TPM timer driver: setModeAndFrequency's prescaler search, the
// status-and-control, modulo and channel registers, the channel output
// modes, interrupt enables and NVIC priority, getInterruptCause, and the
// SysTick count. Registers are modelled as their 32-bit values (MOD and
// the counter as numbers); a register write is the new value.

module Kl05zTimers {

  import opened Wrappers
  import SamTimers
  import TimerCommon
  import BitManipulation

  type Uint32 = SamTimers.Uint32
  type Word = bv32

  /** The divisors the PS field values 0..7 select, in the order the search tries them. */
  const Divisors: seq<TimerCommon.Positive> := [1, 2, 4, 8, 16, 32, 64, 128]

  // TPM SC: PS in bits 2..0, CMOD in bits 4..3, CPWMS bit 5, TOIE bit 6, TOF bit 7.
  const PrescalerMask: Word := 0x07
  const ClockModeMask: Word := 0x18
  const ClockModeCounting: Word := 0x08
  const CenterAligned: Word := 0x20
  const OverflowInterruptEnable: Word := 0x40
  const OverflowFlag: Word := 0x80

  // TPM CONF: CSOO bit 16.
  const StopOnOverflow: Word := 0x1_0000

  // TPM CnSC: ELSA bit 2, ELSB bit 3, MSA bit 4, MSB bit 5, CHIE bit 6.
  const Elsa: Word := 0x04
  const Elsb: Word := 0x08
  const Msa: Word := 0x10
  const Msb: Word := 0x20
  const ChannelInterruptEnable: Word := 0x40
  const OutputModeMask: Word := 0x3C

  // TPM STATUS: CHnF in bit n, TOF bit 8.
  const StatusOverflow: Word := 0x100
  const ChannelFlags: seq<Word> := [0x01, 0x02, 0x04, 0x08, 0x10, 0x20]

  // TimerChannelOutputOptions
  const ToggleOnMatch: Word := 1 << 1
  const ClearOnMatch: Word := 1 << 2
  const SetOnMatch: Word := 1 << 3
  const ClearOnOverflow: Word := 1 << 5
  const SetOnOverflow: Word := 1 << 6
  const PwmOn: Word := ClearOnMatch | SetOnOverflow
  const PwmOnInverted: Word := SetOnMatch | ClearOnOverflow

  // TimerChannelInterruptOptions
  const InterruptsOff: Word := 0
  const InterruptOnMatch: Word := 1 << 1
  const InterruptOnOverflow: Word := 1 << 2
  const PriorityHighest: Word := 1 << 5
  const PriorityHigh: Word := 1 << 6
  const PriorityMedium: Word := 1 << 7
  const PriorityLow: Word := 1 << 8
  const PriorityLowest: Word := 1 << 9

  // ---------------------------------------------------------------- SC fields

  /** The first write of setModeAndFrequency: overflow interrupt off, counter off, TOF written 0, the rest kept. */
  function Halted(sc: Word): (r: Word)
    ensures r & (OverflowInterruptEnable | ClockModeMask | OverflowFlag) == 0
    ensures r & !(OverflowInterruptEnable | ClockModeMask | OverflowFlag) == sc & !(OverflowInterruptEnable | ClockModeMask | OverflowFlag)
  {
    sc & !(OverflowInterruptEnable | ClockModeMask | OverflowFlag)
  }

  /**
   * The up-down modes OR in CPWMS; the other modes leave it as it was, so
   * a timer once set up for center-aligned counting stays so.
   */
  function WithCountMode(sc: Word, mode: TimerCommon.TimerMode): (r: Word)
    ensures r & !CenterAligned == sc & !CenterAligned
    ensures (mode.UpDown? || mode.UpDownToMatch?) ==> r & CenterAligned == CenterAligned
    ensures !(mode.UpDown? || mode.UpDownToMatch?) ==> r == sc
  {
    if mode.UpDown? || mode.UpDownToMatch? then sc | CenterAligned else sc
  }

  /** SC with the PS field replaced by the divisor index, the other bits kept. */
  function WithPrescaler(sc: Word, index: nat): (r: Word)
    requires index < 8
    ensures r & PrescalerMask == index as Word
    ensures r & !PrescalerMask == sc & !PrescalerMask
  {
    var ps := index as Word;
    assert ps & !PrescalerMask == 0;
    (sc & !PrescalerMask) | ps
  }

  /** SC with the CMOD field replaced: counting (start) or off (stop). */
  function WithClockMode(sc: Word, counting: bool): (r: Word)
    ensures r & ClockModeMask == if counting then ClockModeCounting else 0
    ensures r & !ClockModeMask == sc & !ClockModeMask
  {
    (sc & !ClockModeMask) | (if counting then ClockModeCounting else 0)
  }

  // ---------------------------------------------------------------- the prescaler search as written

  /**
   * The table has eight entries and the search as written steps while the
   * index is below 8, so when no entry stops it the index reaches 8 and
   * the next divisor is read from past the table: at 48 MHz, both 4 Hz and
   * 50 MHz do this, where the intended search reports the frequency unattainable.
   */
  lemma IndexPastTable()
    ensures TimerCommon.SetupAsWritten(48_000_000, Divisors, 4).None?
    ensures TimerCommon.SetupAsWritten(48_000_000, Divisors, 50_000_000).None?
    ensures TimerCommon.Setup(48_000_000, Divisors, 4).None?
  {
    assert !TimerCommon.Stops(48_000_000, Divisors[7], 4, false);
    assert !TimerCommon.Stops(48_000_000, Divisors[0], 50_000_000, false);
  }

  /**
   * At 48 MHz the search as written stops at divisor 1 for 732 Hz, where
   * the top value 65573 does not fit MOD, which keeps 37; the intended
   * search takes divisor 2, with top 32786, and gives 732 Hz.
   */
  lemma TopTruncated()
    ensures var r := TimerCommon.SetupAsWritten(48_000_000, Divisors, 732);
      r.Some? && r.value.index == 0 && r.value.top == 65573 && r.value.period == 37
    ensures var r := TimerCommon.Setup(48_000_000, Divisors, 732);
      r.Some? && r.value.index == 1 && r.value.period == 32786 && r.value.result == 732
  {
    assert TimerCommon.Stops(48_000_000, Divisors[0], 732, false);
    assert !TimerCommon.Stops(48_000_000, Divisors[0], 732, true);
    assert TimerCommon.Stops(48_000_000, Divisors[1], 732, true);
  }

  /** setModeAndFrequency as written returns test_value * top: at 48 MHz, 1 kHz returns 1897529344. */
  lemma ResultIsProduct()
    ensures var r := TimerCommon.SetupAsWritten(48_000_000, Divisors, 1000);
      r.Some? && r.value.top == 48000 && r.value.result == 1897529344
    ensures var r := TimerCommon.Setup(48_000_000, Divisors, 1000);
      r.Some? && r.value.result == 1000
  {
    assert TimerCommon.Stops(48_000_000, Divisors[0], 1000, false);
    assert TimerCommon.Stops(48_000_000, Divisors[0], 1000, true);
  }

  // ---------------------------------------------------------------- channel output modes

  /**
   * setOutputOptions' choice of ELSB:ELSA and MSB:MSA, in the order the
   * source tests the options: toggle, PWM (clear on match, set on
   * overflow), inverted PWM, clear on match, set on match, else
   * disconnected.
   */
  function OutputBits(options: Word): (r: Word)
    ensures r & !OutputModeMask == 0
    ensures options & ToggleOnMatch != 0 ==> r == Elsa | Msa
    ensures r == 0 <==> options & (ToggleOnMatch | ClearOnMatch | SetOnMatch) == 0
  {
    if options & ToggleOnMatch != 0 then Elsa | Msa
    else if options & PwmOn == PwmOn then Elsb | Msb
    else if options & PwmOnInverted == PwmOnInverted then Elsa | Msb
    else if options & ClearOnMatch != 0 then Elsb | Msa
    else if options & SetOnMatch != 0 then Elsa | Msa | Msb
    else 0
  }

  /**
   * The PWM aliases select the edge-aligned PWM modes, high-true and
   * low-true; asking for toggle as well overrides them.
   */
  lemma PwmOptions()
    ensures OutputBits(PwmOn) == Elsb | Msb
    ensures OutputBits(PwmOnInverted) == Elsa | Msb
    ensures OutputBits(PwmOn | ToggleOnMatch) == Elsa | Msa
    ensures OutputBits(ClearOnMatch) == Elsb | Msa && OutputBits(SetOnMatch) == Elsa | Msa | Msb
  {
  }

  /** CnSC with the output mode bits replaced, the other bits kept. */
  function WithOutputMode(cnsc: Word, bits: Word): (r: Word)
    requires bits & !OutputModeMask == 0
    ensures r & OutputModeMask == bits
    ensures r & !OutputModeMask == cnsc & !OutputModeMask
  {
    (cnsc & !OutputModeMask) | bits
  }

  /** startPWMOutput: ELSB on, ELSA off, the rest of CnSC kept. */
  function PwmStarted(cnsc: Word): (r: Word)
    ensures r & (Elsa | Elsb) == Elsb
    ensures r & !(Elsa | Elsb) == cnsc & !(Elsa | Elsb)
  {
    (cnsc & !(Elsa | Elsb)) | Elsb
  }

  /** stopPWMOutput: ELSA and ELSB off (the channel's output disconnected), the rest of CnSC kept. */
  function PwmStopped(cnsc: Word): (r: Word)
    ensures r & (Elsa | Elsb) == 0
    ensures r & !(Elsa | Elsb) == cnsc & !(Elsa | Elsb)
  {
    cnsc & !(Elsa | Elsb)
  }

  /**
   * Stopping then starting the PWM output of a channel in the high-true
   * PWM mode gives back its CnSC exactly; for the inverted mode the start
   * turns it into the high-true one, as the source warns.
   */
  lemma PwmStopStart(cnsc: Word)
    ensures cnsc & (Elsa | Elsb) == Elsb ==> PwmStarted(PwmStopped(cnsc)) == cnsc
    ensures cnsc & (Elsa | Elsb) == Elsa ==> PwmStarted(PwmStopped(cnsc)) != cnsc
  {
  }

  // ---------------------------------------------------------------- interrupt priority

  /** The NVIC priority setInterrupts asks for: the highest priority option given decides; none keeps the old one. */
  function NvicPriority(interrupts: Word): (r: Option<nat>)
    ensures r.Some? ==> r.value <= 15
    ensures r.None? <==> interrupts & (PriorityHighest | PriorityHigh | PriorityMedium | PriorityLow | PriorityLowest) == 0
    ensures interrupts & PriorityHighest != 0 ==> r == Some(0)
  {
    if interrupts & PriorityHighest != 0 then Some(0)
    else if interrupts & PriorityHigh != 0 then Some(3)
    else if interrupts & PriorityMedium != 0 then Some(7)
    else if interrupts & PriorityLow != 0 then Some(11)
    else if interrupts & PriorityLowest != 0 then Some(15)
    else None
  }

  /** The k-th priority option, from Highest (0) to Lowest (4). */
  function PriorityOption(k: nat): Word
    requires k < 5
  {
    PriorityHighest << k
  }

  /** A higher priority option gives a lower NVIC priority number, which the NVIC serves first. */
  lemma PriorityOrdered(k: nat, j: nat)
    requires k < j < 5
    ensures NvicPriority(PriorityOption(k)).Some? && NvicPriority(PriorityOption(j)).Some?
    ensures NvicPriority(PriorityOption(k)).value < NvicPriority(PriorityOption(j)).value
  {
  }

  // ---------------------------------------------------------------- Timer

  datatype InterruptCause = OnOverflow | OnMatch | Unknown

  /** Timer<n>: one TPM; TPM0 has six channels, TPM1 two. */
  class Timer {
    const channelCount: nat
    var sc: Word
    var modulo: nat
    var conf: Word
    var status: Word
    var control: seq<Word>
    var value: seq<Uint32>
    var nvicPriority: nat
    var nvicEnabled: bool

    predicate Valid()
      reads this
    {
      |control| == channelCount && |value| == channelCount && modulo < 0x10000
    }

    /** Timer(): the registers from reset. */
    constructor (channelCount: nat)
      ensures Valid() && this.channelCount == channelCount
      ensures sc == 0 && modulo == 0xFFFF && conf == 0 && status == 0
      ensures control == seq(channelCount, _ => 0) && value == seq(channelCount, _ => 0)
      ensures nvicPriority == 0 && !nvicEnabled
    {
      this.channelCount := channelCount;
      sc := 0;
      modulo := 0xFFFF;
      conf := 0;
      status := 0;
      control := seq(channelCount, _ => 0);
      value := seq(channelCount, _ => 0);
      nvicPriority := 0;
      nvicEnabled := false;
    }

    /**
     * setModeAndFrequency(mode, freq): stop the counter with its overflow
     * interrupt off, set CPWMS for the up-down modes, then pick the first
     * divisor whose top value fits MOD, select it, set MOD to it and return
     * the frequency the timer runs at; with no such divisor return
     * kFrequencyUnattainable (-1) and leave the prescaler and MOD.
     */
    method SetModeAndFrequency(mode: TimerCommon.TimerMode, masterClock: Uint32, freq: Uint32) returns (result: int)
      requires Valid()
      modifies this
      ensures Valid()
      ensures var r := TimerCommon.Setup(masterClock, Divisors, TimerCommon.CountFrequency(mode, freq));
        var halted := WithCountMode(Halted(old(sc)), mode);
        && (r.None? ==> result == -1 && sc == halted && modulo == old(modulo))
        && (r.Some? ==> result == r.value.result && sc == WithPrescaler(halted, r.value.index) && modulo == r.value.top)
      ensures conf == old(conf) && status == old(status) && control == old(control) && value == old(value)
      ensures nvicPriority == old(nvicPriority) && nvicEnabled == old(nvicEnabled)
    {
      sc := WithCountMode(Halted(sc), mode);
      var f := TimerCommon.CountFrequency(mode, freq);
      var i := TimerCommon.FindDivisor(masterClock, Divisors, f);
      TimerCommon.SetupMeaning(masterClock, Divisors, f);
      if i == |Divisors| {
        return -1;
      }
      TimerCommon.SetupAt(masterClock, Divisors, f, i);
      var t := TimerCommon.Clock(masterClock, Divisors[i]);
      var top := t / f;
      result := t / top;
      sc := WithPrescaler(sc, i);
      modulo := top;
    }

    /** setTop(top): MOD keeps the low 16 bits of top. */
    method SetTop(top: Uint32)
      requires Valid()
      modifies this
      ensures Valid() && modulo == top % 0x10000
      ensures sc == old(sc) && conf == old(conf) && status == old(status) && control == old(control) && value == old(value)
      ensures nvicPriority == old(nvicPriority) && nvicEnabled == old(nvicEnabled)
    {
      modulo := top % 0x10000;
    }

    /** start() / stop(): the counter counts every TPM clock, or is disabled. */
    method SetCounting(counting: bool)
      modifies this
      ensures sc == WithClockMode(old(sc), counting)
      ensures modulo == old(modulo) && conf == old(conf) && status == old(status) && control == old(control) && value == old(value)
      ensures nvicPriority == old(nvicPriority) && nvicEnabled == old(nvicEnabled)
    {
      sc := WithClockMode(sc, counting);
    }

    /** stopOnMatch(): CSOO set, so the counter stops at its next overflow; the rest of CONF kept. */
    method StopOnMatch()
      modifies this
      ensures conf & StopOnOverflow != 0 && conf & !StopOnOverflow == old(conf) & !StopOnOverflow
      ensures sc == old(sc) && modulo == old(modulo) && status == old(status) && control == old(control) && value == old(value)
      ensures nvicPriority == old(nvicPriority) && nvicEnabled == old(nvicEnabled)
    {
      conf := conf | StopOnOverflow;
    }

    /** setExactDutyCycle(channel, absolute): channel's CnV. The source does not check the channel. */
    method SetExactDutyCycle(channel: nat, absolute: Uint32)
      requires Valid() && channel < channelCount
      modifies this
      ensures Valid() && value == old(value)[channel := absolute]
      ensures sc == old(sc) && modulo == old(modulo) && conf == old(conf) && status == old(status) && control == old(control)
      ensures nvicPriority == old(nvicPriority) && nvicEnabled == old(nvicEnabled)
    {
      value := value[channel := absolute];
    }

    /** setOutputOptions(channel, options): channel's output mode bits as OutputBits chooses, the rest of CnSC kept. */
    method SetOutputOptions(channel: nat, options: Word)
      requires Valid() && channel < channelCount
      modifies this
      ensures Valid() && control == old(control)[channel := WithOutputMode(old(control)[channel], OutputBits(options))]
      ensures sc == old(sc) && modulo == old(modulo) && conf == old(conf) && status == old(status) && value == old(value)
      ensures nvicPriority == old(nvicPriority) && nvicEnabled == old(nvicEnabled)
    {
      control := control[channel := WithOutputMode(control[channel], OutputBits(options))];
    }

    /** startPWMOutput(channel) / stopPWMOutput(channel). */
    method SetPwmOutput(channel: nat, on: bool)
      requires Valid() && channel < channelCount
      modifies this
      ensures Valid()
      ensures control == old(control)[channel := if on then PwmStarted(old(control)[channel]) else PwmStopped(old(control)[channel])]
      ensures sc == old(sc) && modulo == old(modulo) && conf == old(conf) && status == old(status) && value == old(value)
      ensures nvicPriority == old(nvicPriority) && nvicEnabled == old(nvicEnabled)
    {
      control := control[channel := if on then PwmStarted(control[channel]) else PwmStopped(control[channel])];
    }

    /**
     * setInterrupts(interrupts, channel): with interrupts off, clear TOIE,
     * clear the channel's CHIE unless channel is -1, and disable the IRQ.
     * Otherwise set TOIE for overflow; for a match on a channel (>= 0), set
     * its CHIE and, if neither MSA nor MSB is set, MSA so that the channel
     * compares at all; set the NVIC priority the options ask for; and
     * enable the IRQ. The source does not check the channel against the
     * channels the timer has.
     */
    method SetInterrupts(interrupts: Word, channel: int)
      requires Valid()
      requires interrupts == InterruptsOff ==> channel == -1 || 0 <= channel < channelCount
      requires interrupts != InterruptsOff && interrupts & InterruptOnMatch != 0 ==> channel < channelCount
      modifies this
      ensures Valid()
      ensures nvicEnabled <==> interrupts != InterruptsOff
      ensures interrupts == InterruptsOff ==>
        && sc == BitManipulation.ClrBits(old(sc), OverflowInterruptEnable)
        && control == (if channel == -1 then old(control) else old(control)[channel := BitManipulation.ClrBits(old(control)[channel], ChannelInterruptEnable)])
        && nvicPriority == old(nvicPriority)
      ensures interrupts != InterruptsOff ==>
        && sc == (if interrupts & InterruptOnOverflow != 0 then BitManipulation.SetBits(old(sc), OverflowInterruptEnable) else old(sc))
        && control == (if interrupts & InterruptOnMatch != 0 && channel >= 0
                       then old(control)[channel := MatchArmed(old(control)[channel])] else old(control))
        && nvicPriority == (if NvicPriority(interrupts).Some? then NvicPriority(interrupts).value else old(nvicPriority))
      ensures modulo == old(modulo) && conf == old(conf) && status == old(status) && value == old(value)
    {
      if interrupts != InterruptsOff {
        if interrupts & InterruptOnOverflow != 0 {
          sc := BitManipulation.SetBits(sc, OverflowInterruptEnable);
        }
        if interrupts & InterruptOnMatch != 0 && channel >= 0 {
          control := control[channel := MatchArmed(control[channel])];
        }
        var p := NvicPriority(interrupts);
        if p.Some? {
          nvicPriority := p.value;
        }
        nvicEnabled := true;
      } else {
        sc := BitManipulation.ClrBits(sc, OverflowInterruptEnable);
        if channel != -1 {
          control := control[channel := BitManipulation.ClrBits(control[channel], ChannelInterruptEnable)];
        }
        nvicEnabled := false;
      }
    }

    /**
     * getInterruptCause(channel): an overflow is reported first, with
     * channel -1, and only its flag is cleared (the flags clear when 1 is
     * written to them); otherwise the lowest channel whose flag is set is
     * reported and only its flag cleared; with no flag set, Unknown and the
     * channel argument untouched.
     */
    method GetInterruptCause(channel: int) returns (cause: InterruptCause, newChannel: int)
      modifies this
      ensures cause.OnOverflow? <==> BitManipulation.TstBits(old(status), StatusOverflow)
      ensures cause.Unknown? <==> old(status) == 0
      ensures cause.OnOverflow? ==> newChannel == -1 && status == BitManipulation.ClrBits(old(status), StatusOverflow)
      ensures cause.OnMatch? ==>
        && newChannel == LowestFlag(old(status))
        && status == BitManipulation.ClrBits(old(status), LowestBit(old(status)))
      ensures cause.Unknown? ==> newChannel == channel && status == old(status)
      ensures sc == old(sc) && modulo == old(modulo) && conf == old(conf) && control == old(control) && value == old(value)
      ensures nvicPriority == old(nvicPriority) && nvicEnabled == old(nvicEnabled)
    {
      var s := status;
      if BitManipulation.TstBits(s, StatusOverflow) {
        status := BitManipulation.ClrBits(s, StatusOverflow);
        return OnOverflow, -1;
      } else if s != 0 {
        status := BitManipulation.ClrBits(s, LowestBit(s));
        return OnMatch, LowestFlag(s);
      }
      return Unknown, channel;
    }

    /**
     * TimerChannel<n, c>::getInterruptCause(): an overflow first (clearing
     * its flag), else this channel's own flag only (clearing it), else Unknown.
     */
    method ChannelInterruptCause(channelNum: nat) returns (cause: InterruptCause)
      requires channelNum < |ChannelFlags|
      modifies this
      ensures cause.OnOverflow? <==> BitManipulation.TstBits(old(status), StatusOverflow)
      ensures cause.OnMatch? <==>
        !BitManipulation.TstBits(old(status), StatusOverflow) && old(status) != 0 && BitManipulation.TstBits(old(status), ChannelFlags[channelNum])
      ensures status == match cause
        case OnOverflow => BitManipulation.ClrBits(old(status), StatusOverflow)
        case OnMatch => BitManipulation.ClrBits(old(status), ChannelFlags[channelNum])
        case Unknown => old(status)
      ensures sc == old(sc) && modulo == old(modulo) && conf == old(conf) && control == old(control) && value == old(value)
      ensures nvicPriority == old(nvicPriority) && nvicEnabled == old(nvicEnabled)
    {
      var s := status;
      var flag := ChannelFlags[channelNum];
      if BitManipulation.TstBits(s, StatusOverflow) {
        status := BitManipulation.ClrBits(s, StatusOverflow);
        return OnOverflow;
      } else if s != 0 && BitManipulation.TstBits(s, flag) {
        status := BitManipulation.ClrBits(s, flag);
        return OnMatch;
      }
      return Unknown;
    }
  }

  /**
   * The channel getInterruptCause reports for a match: the lowest flag set
   * in STATUS (ctz), whose bit is set and every bit below it clear.
   */
  function LowestFlag(s: Word): (c: nat)
    requires s != 0
    ensures c < 32 && BitManipulation.BitSet(s, c) && BitManipulation.ClearBelow(s, c)
  {
    BitManipulation.Ctz(s) as nat
  }

  /** The STATUS bit of that channel. */
  function LowestBit(s: Word): Word
    requires s != 0
  {
    1 << BitManipulation.Ctz(s)
  }

  /** CnSC after setInterrupts asks for a match interrupt: CHIE set, and MSA set when the channel had no mode. */
  function MatchArmed(cnsc: Word): (r: Word)
    ensures r & ChannelInterruptEnable != 0
    ensures r & (Msa | Msb) != 0
    ensures cnsc & (Msa | Msb) != 0 ==> r == cnsc | ChannelInterruptEnable
  {
    var c := cnsc | ChannelInterruptEnable;
    if c & (Msa | Msb) == 0 then c | Msa else c
  }

  // ---------------------------------------------------------------- SysTick

  /** SysTickTimer: the SysTick interrupt, once per millisecond, raises the count by one. */
  class SysTick {
    var tickCount: Uint32

    /** init(): the count at 0. */
    constructor ()
      ensures tickCount == 0
    {
      tickCount := 0;
    }

    /** _increment(): one more millisecond, modulo 2^32. */
    method Increment()
      modifies this
      ensures tickCount == (old(tickCount) + 1) % SamTimers.Modulus32
    {
      tickCount := (tickCount + 1) % SamTimers.Modulus32;
    }
  }

  /**
   * The SysTick reload SysTick_Config(SystemCoreClock / 1000) gets, one
   * period per millisecond; None when it does not fit the 24-bit reload
   * register, where init() loops forever.
   */
  function SysTickReload(coreClock: Uint32): (r: Option<nat>)
    ensures r.Some? <==> 1000 <= coreClock < 1000 * 0x100_0001
    ensures r.Some? ==> r.value <= 0xFF_FFFF && 1000 * (r.value + 1) <= coreClock < 1000 * (r.value + 2)
  {
    var ticks := coreClock / 1000;
    if ticks == 0 || ticks - 1 > 0xFF_FFFF then None else Some(ticks - 1)
  }
}
