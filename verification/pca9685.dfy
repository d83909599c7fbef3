/** The `PCA9685Module` driver: input validation followed by guarded
    register sequences on the bus. Every operation takes the bus state and
    returns the bus state it leaves together with the value or error the
    Swift method returns or throws. */
module PCA9685 {
  import opened Wrappers
  import opened SMBus
  import opened RegisterPlan
  import opened PCA9685Registers
  import opened Arithmetic

  /** `ModuleError`, plus `BusError` for the SMBus error that
      `set(pwmFrequency:)` rethrows unchanged. */
  datatype ModuleError =
    | InvalidStartStepValues
    | InvalidDutyCyclePercentageValue
    | FailedToWriteData
    | FailedToReadData
    | InvalidPwmFrequencyValue
    | BusError

  /** The device handle: the module's I2C address, held as an `Int32`. */
  datatype Module = Module(address: int)

  datatype Outcome<+T> = Outcome(bus: Bus, result: Result<T, ModuleError>)

  const INT32_MIN := -0x8000_0000
  const INT32_MAX := 0x7FFF_FFFF

  /** `softReset()`: MODE1 to normal mode, then MODE2 to totem-pole output;
      any failed write becomes `FailedToWriteData` and ends the sequence. */
  function SoftReset(b: Bus): (o: Outcome<()>)
    ensures o.bus.rejects == b.rejects
    ensures o.result.Ok? <==> AcceptedRun(b, 2) == 2
    ensures o.result.Err? ==> o.result.error == FailedToWriteData
    ensures o.result.Ok? ==> o.bus.registers == b.registers[MODE1 := MODE1_NORMAL][MODE2 := MODE2_TOTEM_POLE]
  {
    var (b1, ok1) := Write(b, MODE1, MODE1_NORMAL);
    if !ok1 then Outcome(b1, Err(FailedToWriteData))
    else
      var (b2, ok2) := Write(b1, MODE2, MODE2_TOTEM_POLE);
      if !ok2 then Outcome(b2, Err(FailedToWriteData))
      else Outcome(b2, Ok(()))
  }

  /** `softReset()` is the reset writes run to their first failure. */
  lemma SoftResetFollowsPlan(b: Bus)
    ensures (SoftReset(b).bus, SoftReset(b).result.Ok?) == Run(b, SoftResetPlan())
  {
    var p := SoftResetPlan();
    var (b1, ok1) := Write(b, MODE1, MODE1_NORMAL);
    assert p[1..][1..] == [];
    if ok1 {
      assert Run(b, p) == Run(b1, p[1..]);
    }
  }

  /** `init(smBus:address:)`: the handle exists only if the soft reset
      succeeded; the reset's error is what construction throws. */
  function Init(b: Bus, address: int): (o: Outcome<Module>)
    requires INT32_MIN <= address <= INT32_MAX
    ensures o.bus == SoftReset(b).bus
    ensures o.result.Ok? <==> SoftReset(b).result.Ok?
    ensures o.result.Ok? ==> o.result.value.address == address
    ensures o.result.Err? ==> o.result.error == FailedToWriteData
  {
    var r := SoftReset(b);
    if r.result.Err? then Outcome(r.bus, Err(r.result.error))
    else Outcome(r.bus, Ok(Module(address)))
  }

  /** `set(pwmFrequency:)`: reject a frequency outside 40...1000 before any
      I/O, otherwise sleep, write the prescale, restart and restore
      totem-pole output; a bus failure is rethrown as is. */
  function SetPwmFrequency(b: Bus, f: int): (o: Outcome<()>)
    ensures !ValidPwmFrequency(f) <==> o.result == Err(InvalidPwmFrequencyValue)
    ensures !ValidPwmFrequency(f) ==> o.bus == b
    ensures o.result.Err? ==> o.result.error in {InvalidPwmFrequencyValue, BusError}
  {
    if !ValidPwmFrequency(f) then Outcome(b, Err(InvalidPwmFrequencyValue))
    else
      var (b1, ok1) := Write(b, MODE1, MODE1_SLEEP);
      if !ok1 then Outcome(b1, Err(BusError))
      else
        var (b2, ok2) := Write(b1, PRESCALE, PrescaleFor(f));
        if !ok2 then Outcome(b2, Err(BusError))
        else
          var (b3, ok3) := Write(b2, MODE1, MODE1_RESTART);
          if !ok3 then Outcome(b3, Err(BusError))
          else
            var (b4, ok4) := Write(b3, MODE2, MODE2_TOTEM_POLE);
            if !ok4 then Outcome(b4, Err(BusError))
            else Outcome(b4, Ok(()))
  }

  /** For an accepted frequency, `set(pwmFrequency:)` is the frequency
      writes run to their first failure. */
  lemma SetPwmFrequencyFollowsPlan(b: Bus, f: int)
    requires ValidPwmFrequency(f)
    ensures (SetPwmFrequency(b, f).bus, SetPwmFrequency(b, f).result.Ok?) == Run(b, FrequencyPlan(f))
  {
    var p := FrequencyPlan(f);
    var (b1, ok1) := Write(b, MODE1, MODE1_SLEEP);
    var (b2, ok2) := Write(b1, PRESCALE, PrescaleFor(f));
    var (b3, ok3) := Write(b2, MODE1, MODE1_RESTART);
    var (b4, ok4) := Write(b3, MODE2, MODE2_TOTEM_POLE);
    assert p[1..][1..] == p[2..] && p[2..][1..] == p[3..] && p[3..][1..] == [];
    if ok1 {
      assert Run(b, p) == Run(b1, p[1..]);
      if ok2 {
        assert Run(b1, p[1..]) == Run(b2, p[2..]);
        if ok3 {
          assert Run(b2, p[2..]) == Run(b3, p[3..]);
          if ok4 {
            assert Run(b3, p[3..]) == Run(b4, p[3..][1..]);
          }
        }
      }
    }
  }

  /** A successful `set(pwmFrequency:)` issued exactly the four writes in
      order and leaves the prescale register holding the computed prescale,
      the chip restarted with totem-pole output, and every other register
      untouched. */
  lemma SetPwmFrequencyEffect(b: Bus, f: int)
    requires SetPwmFrequency(b, f).result.Ok?
    ensures var o := SetPwmFrequency(b, f);
            && o.bus.trace == b.trace + [WriteTxn(MODE1, MODE1_SLEEP), WriteTxn(PRESCALE, PrescaleFor(f)),
                                         WriteTxn(MODE1, MODE1_RESTART), WriteTxn(MODE2, MODE2_TOTEM_POLE)]
            && o.bus.registers[PRESCALE] == PrescaleFor(f)
            && o.bus.registers[MODE1] == MODE1_RESTART
            && o.bus.registers[MODE2] == MODE2_TOTEM_POLE
            && forall r :: 0 <= r < 256 && r !in {MODE1, MODE2, PRESCALE} ==> o.bus.registers[r] == b.registers[r]
  {
    var p := FrequencyPlan(f);
    SetPwmFrequencyFollowsPlan(b, f);
    RunEffect(b, p);
    assert p[..4] == p;
    StoreLast(b.registers, p, 1);
    StoreLast(b.registers, p, 2);
    StoreLast(b.registers, p, 3);
    forall r | 0 <= r < 256 && r !in {MODE1, MODE2, PRESCALE}
      ensures SetPwmFrequency(b, f).bus.registers[r] == b.registers[r]
    {
      StoreOther(b.registers, p, r);
    }
  }

  /** `write(channel:onStartStep:offStartStep:)`: reject steps outside
      0..<4096 before any I/O, otherwise write ON low, ON high, OFF low,
      OFF high, turning the first failed write into `FailedToWriteData`. */
  function WriteSteps(b: Bus, c: Channel, onStartStep: int, offStartStep: int): (o: Outcome<()>)
    ensures !(ValidStep(onStartStep) && ValidStep(offStartStep)) <==> o.result == Err(InvalidStartStepValues)
    ensures o.result == Err(InvalidStartStepValues) ==> o.bus == b
    ensures o.result.Err? ==> o.result.error in {InvalidStartStepValues, FailedToWriteData}
  {
    if !(ValidStep(onStartStep) && ValidStep(offStartStep)) then Outcome(b, Err(InvalidStartStepValues))
    else
      var base := StartAddress(c);
      var (b1, ok1) := Write(b, base, LowByte(onStartStep));
      if !ok1 then Outcome(b1, Err(FailedToWriteData))
      else
        var (b2, ok2) := Write(b1, base + 1, HighByte(onStartStep));
        if !ok2 then Outcome(b2, Err(FailedToWriteData))
        else
          var (b3, ok3) := Write(b2, base + 2, LowByte(offStartStep));
          if !ok3 then Outcome(b3, Err(FailedToWriteData))
          else
            var (b4, ok4) := Write(b3, base + 3, HighByte(offStartStep));
            if !ok4 then Outcome(b4, Err(FailedToWriteData))
            else Outcome(b4, Ok(()))
  }

  /** For valid steps, the channel write is the channel's four writes run
      to their first failure. */
  lemma WriteStepsFollowsPlan(b: Bus, c: Channel, on: Step, off: Step)
    ensures (WriteSteps(b, c, on, off).bus, WriteSteps(b, c, on, off).result.Ok?) == Run(b, ChannelPlan(c, on, off))
  {
    var p := ChannelPlan(c, on, off);
    var base := StartAddress(c);
    var (b1, ok1) := Write(b, base, LowByte(on));
    var (b2, ok2) := Write(b1, base + 1, HighByte(on));
    var (b3, ok3) := Write(b2, base + 2, LowByte(off));
    var (b4, ok4) := Write(b3, base + 3, HighByte(off));
    assert p[1..][1..] == p[2..] && p[2..][1..] == p[3..] && p[3..][1..] == [];
    if ok1 {
      assert Run(b, p) == Run(b1, p[1..]);
      if ok2 {
        assert Run(b1, p[1..]) == Run(b2, p[2..]);
        if ok3 {
          assert Run(b2, p[2..]) == Run(b3, p[3..]);
          if ok4 {
            assert Run(b3, p[3..]) == Run(b4, p[3..][1..]);
          }
        }
      }
    }
  }

  /** The channel write stops at the first rejected write: the bus saw the
      writes up to and including that one, the registers hold the bytes
      written before it, and the write succeeds exactly when none of the four
      was rejected. */
  lemma WriteStepsStopsAtFirstFailure(b: Bus, c: Channel, on: Step, off: Step)
    ensures var o := WriteSteps(b, c, on, off);
            var k := AcceptedRun(b, 4);
            && (o.result.Ok? <==> k == 4)
            && (o.result.Err? ==> o.result.error == FailedToWriteData)
            && o.bus.registers == Store(b.registers, ChannelPlan(c, on, off)[..k])
            && o.bus.trace == b.trace + Writes(ChannelPlan(c, on, off)[..if k == 4 then 4 else k + 1])
  {
    WriteStepsFollowsPlan(b, c, on, off);
    RunEffect(b, ChannelPlan(c, on, off));
  }

  /** A successful channel write issued exactly four writes, to the
      channel's registers in order; afterwards the registers decode to the
      written steps and no register outside the window changed. */
  lemma WriteStepsEffect(b: Bus, c: Channel, on: int, off: int)
    requires WriteSteps(b, c, on, off).result.Ok?
    ensures var o := WriteSteps(b, c, on, off);
            var base := StartAddress(c);
            && ValidStep(on) && ValidStep(off)
            && o.bus.trace == b.trace + [WriteTxn(base, LowByte(on)), WriteTxn(base + 1, HighByte(on)),
                                         WriteTxn(base + 2, LowByte(off)), WriteTxn(base + 3, HighByte(off))]
            && StepsIn(o.bus.registers, c) == Steps(on, off)
            && forall r :: 0 <= r < 256 && !InWindow(c, r) ==> o.bus.registers[r] == b.registers[r]
  {
    var p := ChannelPlan(c, on, off);
    WriteStepsStopsAtFirstFailure(b, c, on, off);
    assert p[..4] == p;
    ChannelPlanReadBack(b.registers, c, on, off);
  }

  /** `write(channel:dutyCycle:)`'s conversion `Int(dutyCycle * 4095)`: the
      largest step not above the requested fraction of 4095. */
  function OffStepFor(d: real): (s: Step)
    requires 0.0 <= d <= 1.0
    ensures s as real <= d * 4095.0 < s as real + 1.0
  {
    (d * LAST_STEP as real).Floor
  }

  /** `write(channel:dutyCycle:)`: reject a fraction outside [0, 1] before
      any I/O, otherwise write ON step 0 and the truncated OFF step. */
  function WriteDutyCycle(b: Bus, c: Channel, d: real): (o: Outcome<()>)
    ensures !(0.0 <= d <= 1.0) <==> o.result == Err(InvalidDutyCyclePercentageValue)
    ensures !(0.0 <= d <= 1.0) ==> o.bus == b
    ensures 0.0 <= d <= 1.0 ==> (o.bus, o.result.Ok?) == Run(b, ChannelPlan(c, 0, OffStepFor(d)))
    ensures o.result.Err? ==> o.result.error in {InvalidDutyCyclePercentageValue, FailedToWriteData}
  {
    if !(0.0 <= d <= 1.0) then Outcome(b, Err(InvalidDutyCyclePercentageValue))
    else
      WriteStepsFollowsPlan(b, c, 0, OffStepFor(d));
      WriteSteps(b, c, 0, OffStepFor(d))
  }

  /** `resetAllChannels()`: a zero duty cycle to every channel of
      `channelsList`, in order, stopping at the first failure. It is the
      reset writes run to their first failure: on success registers 6..69
      are all zero, and only they changed. */
  method ResetAllChannels(b: Bus) returns (o: Outcome<()>)
    ensures (o.bus, o.result.Ok?) == Run(b, ResetPlan(0))
    ensures o.result.Err? ==> o.result.error == FailedToWriteData
    ensures o.result.Ok? <==> AcceptedRun(b, 64) == 64
    ensures o.result.Ok? ==> forall r :: RESERVED_REGISTERS <= r < CHANNEL_REGISTERS_END ==> o.bus.registers[r] == 0
    ensures forall r :: 0 <= r < 256 && !(RESERVED_REGISTERS <= r < CHANNEL_REGISTERS_END) ==> o.bus.registers[r] == b.registers[r]
  {
    var channels := ChannelsList();
    var bus := b;
    var i := 0;
    while i < |channels|
      invariant 0 <= i <= CHANNEL_COUNT
      invariant Run(bus, ResetPlan(i)) == Run(b, ResetPlan(0))
    {
      var step := WriteDutyCycle(bus, channels[i], 0.0);
      RunAppend(bus, ChannelPlan(i, 0, 0), ResetPlan(i + 1));
      if step.result.Err? {
        o := Outcome(step.bus, Err(step.result.error));
        ResetAllChannelsEffect(b);
        return;
      }
      bus := step.bus;
      i := i + 1;
    }
    o := Outcome(bus, Ok(()));
    ResetAllChannelsEffect(b);
  }

  /** What running the reset writes does to the registers. */
  lemma ResetAllChannelsEffect(b: Bus)
    ensures Run(b, ResetPlan(0)).1 <==> AcceptedRun(b, 64) == 64
    ensures Run(b, ResetPlan(0)).1 ==> forall r :: RESERVED_REGISTERS <= r < CHANNEL_REGISTERS_END ==> Run(b, ResetPlan(0)).0.registers[r] == 0
    ensures forall r :: 0 <= r < 256 && !(RESERVED_REGISTERS <= r < CHANNEL_REGISTERS_END) ==> Run(b, ResetPlan(0)).0.registers[r] == b.registers[r]
  {
    var p := ResetPlan(0);
    RunEffect(b, p);
    ResetPlanTargets(0);
    forall r | 0 <= r < 256 && !(RESERVED_REGISTERS <= r < CHANNEL_REGISTERS_END)
      ensures Run(b, p).0.registers[r] == b.registers[r]
    {
      RunUntouched(b, p, r);
    }
    if Run(b, p).1 {
      RunComplete(b, p);
      forall r | RESERVED_REGISTERS <= r < CHANNEL_REGISTERS_END ensures Run(b, p).0.registers[r] == 0 {
        ResetPlanStore(b.registers, 0, r);
      }
    }
  }

  /** `readOnOffStartStep(channel:)`: read the channel's four registers in
      order, turning the first failed read into `FailedToReadData`, and
      decode the ON and OFF steps. Reads change no register. */
  function ReadOnOffStartStep(b: Bus, c: Channel): (o: Outcome<Steps>)
    ensures o.bus.registers == b.registers && o.bus.rejects == b.rejects
    ensures o.result.Ok? <==> AcceptedRun(b, 4) == 4
    ensures o.result.Err? ==> o.result.error == FailedToReadData
    ensures o.result.Ok? ==> o.result.value == StepsIn(b.registers, c)
    ensures o.bus.trace == b.trace + WindowReads(c)[..if AcceptedRun(b, 4) == 4 then 4 else AcceptedRun(b, 4) + 1]
  {
    var base := StartAddress(c);
    var (b1, onLow) := Read(b, base);
    if onLow.None? then Outcome(b1, Err(FailedToReadData))
    else
      var (b2, onHigh) := Read(b1, base + 1);
      if onHigh.None? then Outcome(b2, Err(FailedToReadData))
      else
        var (b3, offLow) := Read(b2, base + 2);
        if offLow.None? then Outcome(b3, Err(FailedToReadData))
        else
          var (b4, offHigh) := Read(b3, base + 3);
          if offHigh.None? then Outcome(b4, Err(FailedToReadData))
          else Outcome(b4, Ok(Steps(DecodeStep(onLow.value, onHigh.value), DecodeStep(offLow.value, offHigh.value))))
  }

  /** The reads of a channel's registers, in the order the driver issues
      them: every register of the window once, in ascending order, and
      nothing else. */
  function WindowReads(c: Channel): (t: seq<Transaction>)
    ensures |t| == REGISTERS_PER_CHANNEL
    ensures forall k :: 0 <= k < |t| ==> t[k].ReadTxn? && InWindow(c, t[k].register)
    ensures forall j, k :: 0 <= j < k < |t| ==> t[j].register < t[k].register
  {
    var base := StartAddress(c);
    [ReadTxn(base), ReadTxn(base + 1), ReadTxn(base + 2), ReadTxn(base + 3)]
  }

  /** `readDutyCycle(channel:)`: the gap between the ON and OFF steps as a
      fraction of 4095, whichever of the two comes first; equal steps mean
      the output is always off. */
  function ReadDutyCycle(b: Bus, c: Channel): (o: Outcome<real>)
    ensures o.bus == ReadOnOffStartStep(b, c).bus
    ensures o.result.Ok? <==> AcceptedRun(b, 4) == 4
    ensures o.result.Err? ==> o.result.error == FailedToReadData
    ensures o.result.Ok? ==> 0.0 <= o.result.value <= 1.0
    ensures o.result.Ok? ==>
              var s := StepsIn(b.registers, c);
              && (s.onStartStep == s.offStartStep ==> o.result.value == 0.0)
              && o.result.value * 4095.0 == Abs(s.onStartStep - s.offStartStep) as real
  {
    var r := ReadOnOffStartStep(b, c);
    if r.result.Err? then Outcome(r.bus, Err(r.result.error))
    else
      var on, off := r.result.value.onStartStep, r.result.value.offStartStep;
      if on < off then Outcome(r.bus, Ok((off - on) as real / LAST_STEP as real))
      else if on > off then Outcome(r.bus, Ok((on - off) as real / LAST_STEP as real))
      else Outcome(r.bus, Ok(0.0))
  }

  /** Reading back a channel after a successful write gives the written
      steps, provided the four reads go through. */
  lemma WriteThenReadSteps(b: Bus, c: Channel, on: int, off: int)
    requires WriteSteps(b, c, on, off).result.Ok?
    requires AcceptedRun(WriteSteps(b, c, on, off).bus, 4) == 4
    ensures ReadOnOffStartStep(WriteSteps(b, c, on, off).bus, c).result == Ok(Steps(on, off))
  {
    WriteStepsEffect(b, c, on, off);
  }

  /** Reading back the duty cycle just written gives the written fraction
      rounded down to a multiple of 1/4095: never more, and short of it by
      less than 1/4095. */
  lemma DutyCycleRoundTrip(b: Bus, c: Channel, d: real)
    requires 0.0 <= d <= 1.0
    requires WriteDutyCycle(b, c, d).result.Ok?
    requires AcceptedRun(WriteDutyCycle(b, c, d).bus, 4) == 4
    ensures var r := ReadDutyCycle(WriteDutyCycle(b, c, d).bus, c);
            && r.result.Ok?
            && r.result.value == OffStepFor(d) as real / 4095.0
            && r.result.value <= d
            && d - r.result.value < 1.0 / 4095.0
  {
    WriteStepsEffect(b, c, 0, OffStepFor(d));
  }
}
