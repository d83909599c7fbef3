/** The register protocol of the PCA9685: register addresses, the window of
    four registers each PWM channel owns, the split of a 12-bit step into two
    register bytes, the prescale computation, and the write sequence each
    driver operation performs. */
module PCA9685Registers {
  import opened SMBus
  import opened RegisterPlan
  import opened Arithmetic

  /** Control registers. */
  const MODE1: Byte := 0x00
  const MODE2: Byte := 0x01
  const PRESCALE: Byte := 0xFE

  /** MODE1/MODE2 values the driver writes. */
  const MODE1_NORMAL: Byte := 0x00
  const MODE1_SLEEP: Byte := 0x10
  const MODE1_RESTART: Byte := 0x80
  const MODE2_TOTEM_POLE: Byte := 0x04

  /** `validStepsRange = 0 ..< 4096`, whose `last!` is 4095. */
  const STEP_COUNT := 4096
  const LAST_STEP := 4095

  /** `validPwmFrequencies = 40 ... 1000`. */
  const MIN_PWM_FREQUENCY := 40
  const MAX_PWM_FREQUENCY := 1000

  const RESERVED_REGISTERS := 6
  const REGISTERS_PER_CHANNEL := 4
  const CHANNEL_COUNT := 16
  /** One past the last channel register: channel 15's window ends at 69. */
  const CHANNEL_REGISTERS_END := RESERVED_REGISTERS + CHANNEL_COUNT * REGISTERS_PER_CHANNEL
  const INTERNAL_CLOCK_FREQUENCY := 25000000

  /** A PWM channel, by the raw value of its `Channel` case. */
  type Channel = c: int | 0 <= c < CHANNEL_COUNT

  /** `validStepsRange.contains(s)`. */
  predicate ValidStep(s: int) {
    0 <= s < STEP_COUNT
  }

  /** A position within the PWM cycle. */
  type Step = s: int | 0 <= s < STEP_COUNT

  predicate ValidPwmFrequency(f: int) {
    MIN_PWM_FREQUENCY <= f <= MAX_PWM_FREQUENCY
  }

  /** `Channel.channelsList`: every channel, in ascending order. */
  function ChannelsList(): (cs: seq<Channel>)
    ensures |cs| == CHANNEL_COUNT
    ensures forall i :: 0 <= i < |cs| ==> cs[i] == i
  {
    [0, 1, 2, 3, 4, 5, 6, 7, 8, 9, 10, 11, 12, 13, 14, 15]
  }

  /** `startAddressNumber(forChannel:)`: the first of the channel's four
      registers. The `UInt8` conversion never traps: the whole window lies
      between the reserved registers and register 69. */
  function StartAddress(c: Channel): (base: Byte)
    ensures RESERVED_REGISTERS <= base && base + REGISTERS_PER_CHANNEL <= CHANNEL_REGISTERS_END
  {
    RESERVED_REGISTERS + c * REGISTERS_PER_CHANNEL
  }

  /** The registers of channel `c`: ON low, ON high, OFF low, OFF high. */
  predicate InWindow(c: Channel, r: int) {
    StartAddress(c) <= r < StartAddress(c) + REGISTERS_PER_CHANNEL
  }

  /** The channel whose window holds a channel register. */
  function ChannelOf(r: Byte): Channel
    requires RESERVED_REGISTERS <= r < CHANNEL_REGISTERS_END
  {
    (r - RESERVED_REGISTERS) / REGISTERS_PER_CHANNEL
  }

  /** The windows tile registers 6..69: a register is in the window of
      channel `c` exactly when it is a channel register that `ChannelOf`
      maps to `c`. */
  lemma WindowsTile(c: Channel, r: int)
    ensures InWindow(c, r) <==> RESERVED_REGISTERS <= r < CHANNEL_REGISTERS_END && ChannelOf(r) == c
  {
  }

  /** Distinct channels have disjoint windows. */
  lemma WindowsDisjoint(c1: Channel, c2: Channel, r: int)
    requires c1 != c2
    ensures !(InWindow(c1, r) && InWindow(c2, r))
  {
    if InWindow(c1, r) && InWindow(c2, r) {
      WindowsTile(c1, r);
      WindowsTile(c2, r);
    }
  }

  /** `UInt8(UInt16(s) & UInt16(0xff))`, in arithmetic form (see
      `LowByteIsMask`). Together with the high byte it splits the step. */
  function LowByte(s: Step): (lo: Byte)
    ensures lo + 256 * HighByte(s) == s
  {
    s % 256
  }

  /** `UInt8(UInt16(s) >> UInt16(8))`, in arithmetic form (see
      `HighByteIsShift`): a step has only four bits above its low byte. */
  function HighByte(s: Step): (hi: Byte)
    ensures hi < 16
  {
    s / 256
  }

  /** `(UInt16(hi) & UInt16(0xf)) << UInt16(8) + UInt16(lo)`, in arithmetic
      form (see `DecodeStepIsMaskShift`): the shift binds tighter than the
      addition, and only the low nibble of the high register counts, so the
      sum never exceeds 4095. */
  function DecodeStep(lo: Byte, hi: Byte): (s: Step)
    ensures s % 256 == lo && s / 256 == hi % 16
  {
    (hi % 16) * 256 + lo
  }

  /** The code's mask keeps exactly the low byte of a step. */
  lemma LowByteIsMask(s: bv16)
    requires s < 4096
    ensures (s & 0xFF) as int == LowByte(s as int)
  {
  }

  /** The code's shift keeps exactly the high byte of a step. */
  lemma HighByteIsShift(s: bv16)
    requires s < 4096
    ensures (s >> 8) as int == HighByte(s as int)
  {
  }

  lemma NibbleMask(hi: bv16)
    requires hi < 256
    ensures (hi & 0xF) as int == hi as int % 16
  {
    assert hi & 0xF == hi % 16;
  }

  lemma ShiftIsScale(x: bv16)
    requires x < 16
    ensures (x << 8) as int == x as int * 256
  {
  }

  /** The code's mask, shift and 16-bit addition over two register bytes
      compute exactly `DecodeStep`; the sum never wraps. */
  lemma DecodeStepIsMaskShift(lo: bv16, hi: bv16)
    requires lo < 256 && hi < 256
    ensures (((hi & 0xF) << 8) + lo) as int == DecodeStep(lo as int, hi as int)
  {
    NibbleMask(hi);
    ShiftIsScale(hi & 0xF);
  }

  /** Decoding the two bytes of a step gives the step back. */
  lemma StepRoundTrip(s: Step)
    ensures DecodeStep(LowByte(s), HighByte(s)) == s
  {
  }

  /** Encoding a decoded pair gives back the low byte and the low nibble of
      the high byte: the upper nibble of the high register is ignored. */
  lemma DecodeThenEncode(lo: Byte, hi: Byte)
    ensures LowByte(DecodeStep(lo, hi)) == lo
    ensures HighByte(DecodeStep(lo, hi)) == hi % 16
  {
  }

  /** The ON and OFF steps the registers hold for channel `c`. */
  datatype Steps = Steps(onStartStep: Step, offStartStep: Step)

  function StepsIn(regs: RegisterFile, c: Channel): (s: Steps)
    ensures var base := StartAddress(c);
            && LowByte(s.onStartStep) == regs[base] && HighByte(s.onStartStep) == regs[base + 1] % 16
            && LowByte(s.offStartStep) == regs[base + 2] && HighByte(s.offStartStep) == regs[base + 3] % 16
  {
    var base := StartAddress(c);
    Steps(DecodeStep(regs[base], regs[base + 1]), DecodeStep(regs[base + 2], regs[base + 3]))
  }

  /** `internalClockFrequency / validStepsRange.last! / pwmFrequency - 1`,
      with truncating division; for an accepted frequency it fits the
      `UInt8` the source converts it to. */
  function PrescaleFor(f: int): (p: Byte)
    requires ValidPwmFrequency(f)
    ensures 5 <= p <= 151
  {
    PrescaleBounds(f);
    INTERNAL_CLOCK_FREQUENCY / LAST_STEP / f - 1
  }

  lemma PrescaleBounds(f: int)
    requires ValidPwmFrequency(f)
    ensures 6 <= INTERNAL_CLOCK_FREQUENCY / LAST_STEP / f <= 152
  {
    assert INTERNAL_CLOCK_FREQUENCY / LAST_STEP == 6105;
    DivAntitone(6105, 40, f);
    DivAntitone(6105, f, 1000);
  }

  /** A higher PWM frequency never needs a larger prescale. */
  lemma PrescaleAntitone(f1: int, f2: int)
    requires ValidPwmFrequency(f1) && ValidPwmFrequency(f2) && f1 <= f2
    ensures PrescaleFor(f2) <= PrescaleFor(f1)
  {
    DivAntitone(6105, f1, f2);
  }

  /** The 60 Hz the robot configures gives prescale 100. */
  lemma PrescaleAt60()
    ensures PrescaleFor(60) == 100
  {
  }

  /** Writes of `softReset`: normal mode, then totem-pole output. The
      sequence touches the two mode registers and nothing else. */
  function SoftResetPlan(): (plan: seq<RegWrite>)
    ensures Targets(plan) == {MODE1, MODE2}
  {
    var plan := [RegWrite(MODE1, MODE1_NORMAL), RegWrite(MODE2, MODE2_TOTEM_POLE)];
    assert plan[0].register in Targets(plan) && plan[1].register in Targets(plan);
    plan
  }

  /** Writes of `set(pwmFrequency:)`: sleep, prescale, restart, totem-pole.
      Only the two mode registers and the prescale register are touched. */
  function FrequencyPlan(f: int): (plan: seq<RegWrite>)
    requires ValidPwmFrequency(f)
    ensures Targets(plan) == {MODE1, PRESCALE, MODE2}
  {
    var plan := [RegWrite(MODE1, MODE1_SLEEP), RegWrite(PRESCALE, PrescaleFor(f)),
                 RegWrite(MODE1, MODE1_RESTART), RegWrite(MODE2, MODE2_TOTEM_POLE)];
    assert plan[0].register in Targets(plan) && plan[1].register in Targets(plan);
    assert plan[3].register in Targets(plan);
    plan
  }

  /** Writes of `write(channel:onStartStep:offStartStep:)`: one write to each
      register of the channel's window, and to no other register. */
  function ChannelPlan(c: Channel, on: Step, off: Step): (plan: seq<RegWrite>)
    ensures |plan| == REGISTERS_PER_CHANNEL
    ensures forall r :: r in Targets(plan) <==> InWindow(c, r)
  {
    var base := StartAddress(c);
    var plan := [RegWrite(base, LowByte(on)), RegWrite(base + 1, HighByte(on)),
                 RegWrite(base + 2, LowByte(off)), RegWrite(base + 3, HighByte(off))];
    assert forall r :: InWindow(c, r) ==> r in Targets(plan) by {
      forall r | InWindow(c, r) ensures r in Targets(plan) {
        assert plan[r - base].register == r;
      }
    }
    plan
  }

  /** Writes of `resetAllChannels` from channel `i` on: four per channel, in
      ascending order, and every one of them writes zero. */
  function ResetPlan(i: nat): (plan: seq<RegWrite>)
    requires i <= CHANNEL_COUNT
    ensures |plan| == REGISTERS_PER_CHANNEL * (CHANNEL_COUNT - i)
    ensures forall k :: 0 <= k < |plan| ==> plan[k].value == 0
    decreases CHANNEL_COUNT - i
  {
    if i == CHANNEL_COUNT then [] else ChannelPlan(i, 0, 0) + ResetPlan(i + 1)
  }

  /** A channel's writes set exactly its own window. */
  lemma ChannelPlanStore(regs: RegisterFile, c: Channel, on: Step, off: Step)
    ensures var base := StartAddress(c);
            Store(regs, ChannelPlan(c, on, off))
              == regs[base := LowByte(on)][base + 1 := HighByte(on)]
                     [base + 2 := LowByte(off)][base + 3 := HighByte(off)]
  {
    var p := ChannelPlan(c, on, off);
    var base := StartAddress(c);
    var r1 := regs[base := LowByte(on)];
    var r2 := r1[base + 1 := HighByte(on)];
    var r3 := r2[base + 2 := LowByte(off)];
    var r4 := r3[base + 3 := HighByte(off)];
    assert Store(regs, p) == Store(r1, p[1..]);
    assert Store(r1, p[1..]) == Store(r2, p[2..]) by { assert p[1..][1..] == p[2..]; }
    assert Store(r2, p[2..]) == Store(r3, p[3..]) by { assert p[2..][1..] == p[3..]; }
    assert Store(r3, p[3..]) == Store(r4, p[4..]) by { assert p[3..][1..] == p[4..]; }
    assert p[4..] == [];
  }

  /** Once a channel's writes are applied, its registers hold the written
      steps, and every register outside its window is as before. */
  lemma ChannelPlanReadBack(regs: RegisterFile, c: Channel, on: Step, off: Step)
    ensures StepsIn(Store(regs, ChannelPlan(c, on, off)), c) == Steps(on, off)
    ensures forall r :: 0 <= r < 256 && !InWindow(c, r) ==>
              Store(regs, ChannelPlan(c, on, off))[r] == regs[r]
  {
    ChannelPlanStore(regs, c, on, off);
    StepRoundTrip(on);
    StepRoundTrip(off);
  }

  /** After the reset writes from channel `i` on, the windows of channels
      `i`..15 are zero and every other register is untouched. */
  lemma {:induction false} ResetPlanStore(regs: RegisterFile, i: nat, r: Byte)
    requires i <= CHANNEL_COUNT
    ensures Store(regs, ResetPlan(i))[r]
              == if RESERVED_REGISTERS + REGISTERS_PER_CHANNEL * i <= r < CHANNEL_REGISTERS_END then 0 else regs[r]
    decreases CHANNEL_COUNT - i
  {
    if i < CHANNEL_COUNT {
      var regs1 := Store(regs, ChannelPlan(i, 0, 0));
      StoreAppend(regs, ChannelPlan(i, 0, 0), ResetPlan(i + 1));
      ResetPlanStore(regs1, i + 1, r);
      ChannelPlanStore(regs, i, 0, 0);
    }
  }

  /** The reset writes from channel `i` on only target the windows of
      channels `i`..15. */
  lemma {:induction false} ResetPlanTargets(i: nat)
    requires i <= CHANNEL_COUNT
    ensures forall x :: x in Targets(ResetPlan(i)) ==> RESERVED_REGISTERS + REGISTERS_PER_CHANNEL * i <= x < CHANNEL_REGISTERS_END
    decreases CHANNEL_COUNT - i
  {
    if i < CHANNEL_COUNT {
      var p := ChannelPlan(i, 0, 0);
      TargetsAppend(p, ResetPlan(i + 1));
      ResetPlanTargets(i + 1);
      forall x | x in Targets(p) ensures RESERVED_REGISTERS + REGISTERS_PER_CHANNEL * i <= x < CHANNEL_REGISTERS_END {
        var j :| 0 <= j < 4 && p[j].register == x;
      }
    }
  }
}
