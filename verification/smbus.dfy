/** The System Managed Bus as seen from one PCA9685 device: a file of 256
    byte-wide registers, a trace of every transaction the driver attempted,
    and an oracle saying which transactions the bus rejects.

    The real transport (`writeByteData` / `readByteData` of the SMBus
    library) is foreign code; this module stands in for it. A transaction is
    rejected when its position in the trace is in `rejects`; a rejected write
    leaves the registers as they were, and a rejected read yields no value. */
module SMBus {
  import opened Wrappers

  type Byte = b: int | 0 <= b < 256

  /** One value per register address 0x00..0xFF. */
  type RegisterFile = s: seq<Byte> | |s| == 256 witness seq<Byte>(256, _ => 0)

  datatype Transaction = WriteTxn(register: Byte, value: Byte) | ReadTxn(register: Byte)

  datatype Bus = Bus(registers: RegisterFile, trace: seq<Transaction>, rejects: set<nat>)

  /** True when the bus will reject the next transaction. */
  predicate RejectsNext(b: Bus) {
    |b.trace| in b.rejects
  }

  /** `writeByteData(address:command:value:)`: the new bus and whether the
      write was accepted. */
  function Write(b: Bus, register: Byte, value: Byte): (Bus, bool) {
    var ok := !RejectsNext(b);
    (b.(registers := if ok then b.registers[register := value] else b.registers,
        trace := b.trace + [WriteTxn(register, value)]),
     ok)
  }

  /** `readByteData(address:command:)`: the new bus and the value read, if
      the read was accepted. */
  function Read(b: Bus, register: Byte): (Bus, Option<Byte>) {
    (b.(trace := b.trace + [ReadTxn(register)]),
     if RejectsNext(b) then None else Some(b.registers[register]))
  }

  /** How many of the `n` transactions starting at trace position `start` go
      through before the first rejected one (`n` when none is rejected). */
  function AcceptedFrom(rejects: set<nat>, start: nat, n: nat): (k: nat)
    ensures k <= n
    ensures forall j :: start <= j < start + k ==> j !in rejects
    ensures k < n ==> start + k in rejects
    decreases n
  {
    if n == 0 || start in rejects then 0 else 1 + AcceptedFrom(rejects, start + 1, n - 1)
  }

  /** How many of the next `n` transactions on `b` are accepted before the
      first rejection. */
  function AcceptedRun(b: Bus, n: nat): nat {
    AcceptedFrom(b.rejects, |b.trace|, n)
  }
}
