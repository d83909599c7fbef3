# PCA9685 driver model

A Dafny model of the `PCA9685Module` driver of SwiftSpiderRobot and of its
`MathUtils.angleToPulse` helper. The PCA9685 is a 16-channel, 12-bit PWM chip
driven over the SMBus (I2C). The model has three parts:

- **Register addressing.** Each channel owns four registers: ON low, ON high,
  OFF low and OFF high. The first one is at `6 + 4 * channel`.
- **Step encoding and decoding.** A step in `0 ..< 4096` is split into a low
  byte and a high nibble. On read-back the high register is masked to its low
  nibble and recombined with the low byte.
- **Guarded register sequences.** These are the soft reset, `init`, the
  frequency/prescale sequence, the two channel writes, `resetAllChannels`,
  the step read and the duty-cycle read. Each one validates its input before
  any I/O and stops at the first bus failure. There is no retry and no
  rollback.

The bus is the `SMBus` module: a register file of 256 bytes, a trace of every
transaction the driver attempted, and a failure oracle. The oracle is the set
of trace positions whose transaction the bus rejects. A rejected write leaves
the registers unchanged, and a rejected read returns nothing. Each driver
operation maps the bus state to the new bus state plus a `Result` that holds
either the value returned or the `ModuleError` thrown. All of them are
functions except `ResetAllChannels`, a method whose loop mirrors the `for`
loop over `channelsList`.

`RegisterPlan.Run` is an independent reference semantics. It runs a list of
register writes in order and stops at the first rejected one. Each Swift
write sequence is proved equal to `Run` on its list of writes (its "plan").
The consequences are proved once, about `Run`:

- the registers hold exactly the accepted prefix;
- the trace holds exactly the attempted writes;
- the operation succeeds exactly when no write was rejected;
- registers outside the plan keep their values.

Modules:

- `Wrappers`: the `Option` and `Result` datatypes.
- `SMBus`: the bus stand-in.
- `RegisterPlan`: `Run` and its laws.
- `Arithmetic`: division lemmas.
- `PCA9685Registers`: the register protocol, meaning addresses, channel
  windows, step encoding, prescale and plans.
- `PCA9685`: the driver operations.
- `MathUtils`: the Arduino-style `map` and `angleToPulse`, including Swift's
  truncating division and its overflow traps, with `Int` taken as 64 bits.

Facts about the code that the model keeps as written:

- **Prescale.** `set(pwmFrequency:)` computes the prescale as
  `25000000 / 4095 / f - 1`, with Swift's truncating integer division and
  `validStepsRange.last!` (4095). The PCA9685 datasheet (NXP, section 7.3.5,
  "PWM frequency PRE_SCALE") gives `round(25 MHz / (4096 × f)) − 1`. So at
  60 Hz the code writes 100 where the datasheet formula gives 101.
- **Construction failure.** `init` throws the soft reset's
  `FailedToWriteData`.
- **Channel-write failure.** A rejected write in either channel write throws
  `FailedToWriteData`, whichever of the four writes it was.
- **Frequency bus errors.** `set(pwmFrequency:)` rethrows the SMBus error
  unchanged. It is modelled as `BusError`.
- **Duty-cycle conversion.** `write(channel:dutyCycle:)` passes
  `Int(dutyCycle * 4095)` as the OFF step, and `Int(_:)` truncates.

## Model

| member | source | states |
|---|---|---|
| PCA9685Registers.ChannelsList | Sources/SwiftSpiderRobot/PCA9685Module.swift:44-49 | `channelsList` has 16 entries and its element i is the channel with raw value i, so iterating it visits channels 0..15 in ascending order |
| PCA9685Registers.StartAddress | Sources/SwiftSpiderRobot/PCA9685Module.swift:125-128 | a channel's first register lies in [6, 66] and its last register (first + 3) is at most 69, so the `UInt8` conversion and the `+ 1`..`+ 3` offsets cannot trap |
| PCA9685Registers.WindowsTile | Sources/SwiftSpiderRobot/PCA9685Module.swift:125-128 | a register is in channel c's four-register window exactly when it is one of registers 6..69 and `(r - 6) / 4 == c`: the sixteen windows tile 6..69 with no gap |
| PCA9685Registers.WindowsDisjoint | Sources/SwiftSpiderRobot/PCA9685Module.swift:125-128 | two distinct channels never share a register |
| PCA9685Registers.LowByte | Sources/SwiftSpiderRobot/PCA9685Module.swift:150-153 | the low byte and the high byte of a step recombine to the step: `lo + 256 × hi == s` |
| PCA9685Registers.HighByte | Sources/SwiftSpiderRobot/PCA9685Module.swift:151-153 | the high byte `s >> 8` of any step in 0..<4096 is at most 15 |
| PCA9685Registers.LowByteIsMask | Sources/SwiftSpiderRobot/PCA9685Module.swift:150-152 | for a 16-bit step below 4096, the code's `s & 0xff` equals `LowByte(s)` |
| PCA9685Registers.HighByteIsShift | Sources/SwiftSpiderRobot/PCA9685Module.swift:151-153 | for a 16-bit step below 4096, the code's `s >> 8` equals `HighByte(s)` |
| PCA9685Registers.DecodeStep | Sources/SwiftSpiderRobot/PCA9685Module.swift:205-206 | the decoded step's low byte is the ON/OFF low register and its high part is the low nibble of the high register |
| PCA9685Registers.DecodeStepIsMaskShift | Sources/SwiftSpiderRobot/PCA9685Module.swift:205-206 | for two register bytes, the code's 16-bit `(hi & 0xf) << 8 + lo` equals `DecodeStep(lo, hi)` and does not wrap |
| PCA9685Registers.StepsIn | Sources/SwiftSpiderRobot/PCA9685Module.swift:198-208 | the steps a channel's window holds are the ones whose low byte is the low register and whose high byte is the high register's low nibble, for ON and for OFF |
| PCA9685Registers.StepRoundTrip | Sources/SwiftSpiderRobot/PCA9685Module.swift:150-153 | decoding the low byte and high byte of any step in 0..<4096 gives the step back |
| PCA9685Registers.DecodeThenEncode | Sources/SwiftSpiderRobot/PCA9685Module.swift:205-206 | re-encoding a decoded register pair gives the same low byte and the low nibble of the high byte: the read ignores the upper nibble of the high register |
| PCA9685Registers.PrescaleFor | Sources/SwiftSpiderRobot/PCA9685Module.swift:114 | for every accepted frequency (40...1000) the prescale `25000000 / 4095 / f - 1` lies in [5, 151], so the `UInt8` conversion cannot trap |
| PCA9685Registers.PrescaleAntitone | Sources/SwiftSpiderRobot/PCA9685Module.swift:114 | a higher frequency never gives a larger prescale |
| PCA9685Registers.PrescaleAt60 | Sources/SwiftSpiderRobot/PCA9685Module.swift:114 | 60 Hz gives prescale 100 |
| PCA9685Registers.SoftResetPlan | Sources/SwiftSpiderRobot/PCA9685Module.swift:96-97 | the soft reset's writes touch MODE1 and MODE2 and no other register |
| PCA9685Registers.FrequencyPlan | Sources/SwiftSpiderRobot/PCA9685Module.swift:110-119 | the frequency change's writes touch MODE1, PRESCALE and MODE2 and no other register |
| PCA9685Registers.ChannelPlan | Sources/SwiftSpiderRobot/PCA9685Module.swift:155-158 | a channel write is four writes that touch exactly the channel's window |
| PCA9685Registers.ResetPlan | Sources/SwiftSpiderRobot/PCA9685Module.swift:180-182 | the reset writes for channels i..15 are four per channel, and every one of them writes zero |
| PCA9685Registers.ChannelPlanReadBack | Sources/SwiftSpiderRobot/PCA9685Module.swift:148-158 | after a channel's four writes are applied, its registers decode to the written (on, off) steps and every register outside its window keeps its value |
| PCA9685Registers.ResetPlanStore | Sources/SwiftSpiderRobot/PCA9685Module.swift:179-183 | once the (0, 0) writes for channels i..15 are applied, the registers of those channels are zero and all other registers are unchanged |
| PCA9685Registers.ResetPlanTargets | Sources/SwiftSpiderRobot/PCA9685Module.swift:179-183 | the reset writes for channels i..15 touch only those channels' windows |
| RegisterPlan.RunEffect | Sources/SwiftSpiderRobot/PCA9685Module.swift:155-160 | a guarded write sequence stops at the first rejected write: the registers hold the accepted prefix, the trace holds exactly the writes attempted (the rejected one included), and it succeeds exactly when nothing was rejected |
| RegisterPlan.RunAppend | Sources/SwiftSpiderRobot/PCA9685Module.swift:180-182 | running one sequence after another is running the first and, only if it succeeded, the second: a failure ends everything after it |
| RegisterPlan.RunUntouched | Sources/SwiftSpiderRobot/PCA9685Module.swift:155-160 | however far a sequence gets, registers it does not target keep their value |
| RegisterPlan.StoreLast | Sources/SwiftSpiderRobot/PCA9685Module.swift:110-119 | a register written more than once (MODE1 in the frequency sequence) ends with the value of its last write |
| PCA9685.SoftReset | Sources/SwiftSpiderRobot/PCA9685Module.swift:94-100 | the soft reset succeeds exactly when both writes are accepted; it then leaves MODE1 = 0x00 and MODE2 = 0x04 and nothing else changed; any failure is `FailedToWriteData` |
| PCA9685.SoftResetFollowsPlan | Sources/SwiftSpiderRobot/PCA9685Module.swift:94-100 | the soft reset is the write sequence MODE1 ← 0x00, MODE2 ← 0x04 stopped at its first failure (the second write is not tried after the first fails) |
| PCA9685.Init | Sources/SwiftSpiderRobot/PCA9685Module.swift:86-90 | for an address that fits `Int32` (the conversion traps otherwise), construction yields a handle with that address exactly when the soft reset succeeded, leaves the bus as the reset left it, and otherwise throws `FailedToWriteData` |
| PCA9685.SetPwmFrequency | Sources/SwiftSpiderRobot/PCA9685Module.swift:105-108 | a frequency outside 40...1000 is rejected with `InvalidPwmFrequencyValue` and the bus is left exactly as it was (no transaction); that error occurs only then; otherwise only the bus error can occur |
| PCA9685.SetPwmFrequencyFollowsPlan | Sources/SwiftSpiderRobot/PCA9685Module.swift:110-119 | for an accepted frequency the operation is MODE1 ← 0x10, PRESCALE ← prescale, MODE1 ← 0x80, MODE2 ← 0x04 stopped at the first failure |
| PCA9685.SetPwmFrequencyEffect | Sources/SwiftSpiderRobot/PCA9685Module.swift:110-119 | a successful frequency change issued exactly those four writes in that order and leaves PRESCALE = prescale, MODE1 = 0x80, MODE2 = 0x04, every other register unchanged |
| PCA9685.WriteSteps | Sources/SwiftSpiderRobot/PCA9685Module.swift:142-146 | a step outside 0..<4096 is rejected with `InvalidStartStepValues` and no transaction; that error occurs exactly then; the only other error is `FailedToWriteData` |
| PCA9685.WriteStepsFollowsPlan | Sources/SwiftSpiderRobot/PCA9685Module.swift:148-160 | for valid steps the write is ON low, ON high, OFF low, OFF high to base..base+3, stopped at the first failure |
| PCA9685.WriteStepsStopsAtFirstFailure | Sources/SwiftSpiderRobot/PCA9685Module.swift:155-160 | if the k-th of the four writes is the first rejected one, exactly k+1 writes were attempted, the first k bytes stay written, and the result is `FailedToWriteData`; it succeeds exactly when none is rejected |
| PCA9685.WriteStepsEffect | Sources/SwiftSpiderRobot/PCA9685Module.swift:148-161 | a successful channel write issued exactly four writes to base..base+3 in order, the window now decodes to (on, off), and no other register changed |
| PCA9685.OffStepFor | Sources/SwiftSpiderRobot/PCA9685Module.swift:173-174 | the OFF step for duty cycle d is the largest step not above d × 4095 |
| PCA9685.WriteDutyCycle | Sources/SwiftSpiderRobot/PCA9685Module.swift:167-175 | a duty cycle outside [0, 1] is rejected with `InvalidDutyCyclePercentageValue` and no transaction; otherwise the operation is the channel write of (0, floor(d × 4095)) stopped at its first failure, which never fails step validation |
| PCA9685.ResetAllChannels | Sources/SwiftSpiderRobot/PCA9685Module.swift:179-183 | resetting is the (0, 0) channel writes for channels 0..15 in ascending order stopped at the first failure; it succeeds exactly when none of the 64 writes is rejected, then registers 6..69 are all zero; registers outside 6..69 never change |
| PCA9685.ResetAllChannelsEffect | Sources/SwiftSpiderRobot/PCA9685Module.swift:179-183 | running the reset writes succeeds exactly when none of the 64 is rejected, zeroes registers 6..69 on success, and never touches another register |
| PCA9685.ReadOnOffStartStep | Sources/SwiftSpiderRobot/PCA9685Module.swift:195-209 | the read reads base..base+3 in order, stops at the first failed read with `FailedToReadData`, changes no register, and on success returns the steps the window decodes to |
| PCA9685.WindowReads | Sources/SwiftSpiderRobot/PCA9685Module.swift:198-201 | the step read issues four reads, each of a register in the channel's window, in strictly ascending order, so each window register is read once |
| PCA9685.ReadDutyCycle | Sources/SwiftSpiderRobot/PCA9685Module.swift:215-230 | the duty cycle read is in [0, 1], equals \|on − off\| / 4095 whichever step is larger, and is exactly 0 when on == off; read failures surface as `FailedToReadData` |
| PCA9685.WriteThenReadSteps | Sources/SwiftSpiderRobot/PCA9685Module.swift:195-209 | after a successful write of (on, off), reading the same channel (with the reads accepted) returns (on, off) |
| PCA9685.DutyCycleRoundTrip | Sources/SwiftSpiderRobot/PCA9685Module.swift:215-230 | writing duty cycle d then reading it back gives r = floor(d × 4095) / 4095, with r ≤ d and d − r < 1/4095 |
| MathUtils.TruncDivRemainder | Sources/SwiftSpiderRobot/Utils/MathUtils.swift:16 | the division used by `map` rounds toward zero: the remainder is smaller than the divisor in magnitude and is zero or has the dividend's sign |
| MathUtils.TruncDivMono | Sources/SwiftSpiderRobot/Utils/MathUtils.swift:16 | truncating division by a positive divisor is monotone in the dividend |
| MathUtils.Map | Sources/SwiftSpiderRobot/Utils/MathUtils.swift:12-17 | defined when `maxRange ≠ minRange` and no intermediate overflows `Int`; maps `minRange` to `minDomain` and `maxRange` to `maxDomain`, and on increasing ranges a value inside the range lands inside the domain |
| MathUtils.AngleToPulse | Sources/SwiftSpiderRobot/Utils/MathUtils.swift:19-23 | angle 0 gives `SERVOMIN` = 125, angle 180 gives `SERVOMAX` = 575, and every angle in [0, 180] gives a pulse in [125, 575] |
| MathUtils.AngleToPulseNonNegative | Sources/SwiftSpiderRobot/Utils/MathUtils.swift:19-23 | for a non-negative angle the pulse is 125 + floor(5a / 2) |
| MathUtils.AngleToPulseNegative | Sources/SwiftSpiderRobot/Utils/MathUtils.swift:19-23 | for a negative angle the quotient rounds toward zero: the pulse is 125 − floor(5\|a\| / 2) |
| MathUtils.AngleToPulseMinusOne | Sources/SwiftSpiderRobot/Utils/MathUtils.swift:16 | angle −1 gives 123, and the same formula with floor division gives a different pulse |
| MathUtils.AngleToPulseMonotone | Sources/SwiftSpiderRobot/Utils/MathUtils.swift:12-23 | a larger angle never gives a smaller pulse, for every angle the code accepts |
| MathUtils.AngleToPulseIsStep | Sources/SwiftSpiderRobot/Spider.swift:14-15 | with `SERVOMIN` = 125 and `SERVOMAX` = 575, every angle in [0, 180] gives a step the PCA9685 accepts (in 0..<4096) |

## Left out

- SMBus transport (`writeByteData` / `readByteData`): a foreign library. Here it is a register file, a trace and a rejection oracle. The module's I2C address is kept in the handle but not in the trace, because the model holds a single device.
- IEEE `Double`: duty cycles are Dafny `real` and `Int(Double)` is `.Floor`. This is an idealisation. Rounding of `d * 4095.0` and of the division by 4095 in the duty-cycle read is not modelled, and a NaN duty cycle (which the Swift range check rejects) has no counterpart.
- PCA9685.ReadDutyCycle: states the read value's relation to the decoded steps as an exact real quotient, where the source returns the nearest `Double`.
- Swift `Int` overflow in `PCA9685Module`: the arithmetic cannot overflow there, because every intermediate is bounded by the step and frequency checks. The one conversion that can trap is `Int32(address)` in `init`, and the requires of `PCA9685.Init` states its no-trap range. In `MathUtils` overflow traps, and that is stated as the precondition `MapDefined` and as the requires of `AngleToPulse`.
- MathUtils.Map / MathUtils.AngleToPulse: `Int` is taken as 64-bit. On a 32-bit target (such as a 32-bit ARM build) the trap bound is `Int32`, so those builds trap on inputs these requires accept, such as `450 * angle` above `Int32.max`.
- Chip-side register semantics: the register file is plain storage. On the chip, writing 1 to MODE1's RESTART bit clears it, and PRESCALE writes are blocked unless MODE1's SLEEP bit is set. Contracts such as "MODE1 = 0x80 after a frequency change" describe the bytes written, not the chip's internal state.
- Concurrency and torn reads: the driver is single-threaded and blocking and has no locking.
- `Spider`, `Leg`, `HeadMove`, `SG90Servo`: demo choreography and thin wrappers over hardware PWM with sleeps and prints. Only the constants `SERVOMIN` and `SERVOMAX` are used.
- `Package.swift` files: build metadata.
