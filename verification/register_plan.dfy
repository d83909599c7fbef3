/** Reference semantics for a driver operation that is a fixed sequence of
    register writes, each guarded so that the first bus failure ends the
    sequence: no retry, no rollback, earlier writes stay in the registers. */
module RegisterPlan {
  import opened SMBus

  datatype RegWrite = RegWrite(register: Byte, value: Byte)

  /** Carries out `plan` on `b`, stopping at the first rejected write. */
  function Run(b: Bus, plan: seq<RegWrite>): (Bus, bool)
    decreases |plan|
  {
    if plan == [] then (b, true)
    else
      var (b1, ok) := Write(b, plan[0].register, plan[0].value);
      if !ok then (b1, false) else Run(b1, plan[1..])
  }

  /** The transactions that attempting `plan` puts on the bus. */
  function Writes(plan: seq<RegWrite>): (t: seq<Transaction>)
    ensures |t| == |plan|
    ensures forall i :: 0 <= i < |plan| ==> t[i] == WriteTxn(plan[i].register, plan[i].value)
  {
    if plan == [] then [] else [WriteTxn(plan[0].register, plan[0].value)] + Writes(plan[1..])
  }

  /** The register file after every write of `plan` has been applied. */
  function Store(regs: RegisterFile, plan: seq<RegWrite>): RegisterFile
    decreases |plan|
  {
    if plan == [] then regs else Store(regs[plan[0].register := plan[0].value], plan[1..])
  }

  /** The registers `plan` writes to. */
  function Targets(plan: seq<RegWrite>): set<Byte> {
    set i | 0 <= i < |plan| :: plan[i].register
  }

  /** Running a plan ends after the first rejected write: the accepted prefix
      is in the registers, the trace holds exactly the attempted writes, and
      the run succeeds exactly when no write was rejected. */
  lemma RunEffect(b: Bus, plan: seq<RegWrite>)
    ensures Run(b, plan).0.rejects == b.rejects
    ensures Run(b, plan).1 <==> AcceptedRun(b, |plan|) == |plan|
    ensures Run(b, plan).0.registers == Store(b.registers, plan[..AcceptedRun(b, |plan|)])
    ensures Run(b, plan).0.trace == b.trace + Writes(plan[..Attempted(b, plan)])
  {
    RunOutcome(b, plan);
    RunRegisters(b, plan);
    RunTrace(b, plan);
  }

  lemma {:induction false} RunOutcome(b: Bus, plan: seq<RegWrite>)
    ensures Run(b, plan).0.rejects == b.rejects
    ensures Run(b, plan).1 <==> AcceptedRun(b, |plan|) == |plan|
    decreases |plan|
  {
    if plan != [] && !RejectsNext(b) {
      var b1 := Write(b, plan[0].register, plan[0].value).0;
      RunOutcome(b1, plan[1..]);
      assert AcceptedRun(b, |plan|) == AcceptedRun(b1, |plan| - 1) + 1;
    }
  }

  lemma {:induction false} RunRegisters(b: Bus, plan: seq<RegWrite>)
    ensures Run(b, plan).0.registers == Store(b.registers, plan[..AcceptedRun(b, |plan|)])
    decreases |plan|
  {
    if plan != [] && !RejectsNext(b) {
      var b1 := Write(b, plan[0].register, plan[0].value).0;
      RunRegisters(b1, plan[1..]);
      var k1 := AcceptedRun(b1, |plan| - 1);
      assert AcceptedRun(b, |plan|) == k1 + 1;
      assert plan[..k1 + 1][1..] == plan[1..][..k1];
    }
  }

  lemma {:induction false} RunTrace(b: Bus, plan: seq<RegWrite>)
    ensures Run(b, plan).0.trace == b.trace + Writes(plan[..Attempted(b, plan)])
    decreases |plan|
  {
    if plan != [] {
      if !RejectsNext(b) {
        var b1 := Write(b, plan[0].register, plan[0].value).0;
        RunTrace(b1, plan[1..]);
        assert AcceptedRun(b, |plan|) == AcceptedRun(b1, |plan| - 1) + 1;
        assert Attempted(b, plan) == Attempted(b1, plan[1..]) + 1;
        WritesCons(plan, Attempted(b1, plan[1..]));
      } else {
        assert Writes(plan[..1]) == [WriteTxn(plan[0].register, plan[0].value)];
      }
    }
  }

  /** The number of writes running `plan` on `b` attempts: the accepted ones
      plus the rejected one, if any. */
  function Attempted(b: Bus, plan: seq<RegWrite>): (n: nat)
    ensures n <= |plan|
  {
    var k := AcceptedRun(b, |plan|);
    if k == |plan| then k else k + 1
  }

  lemma WritesCons(plan: seq<RegWrite>, m: nat)
    requires m < |plan|
    ensures Writes(plan[..m + 1]) == [WriteTxn(plan[0].register, plan[0].value)] + Writes(plan[1..][..m])
  {
    assert plan[..m + 1][1..] == plan[1..][..m];
  }

  /** A plan followed by another runs as the first and then, only if that
      succeeded, the second on the bus it left. */
  lemma {:induction false} RunAppend(b: Bus, p: seq<RegWrite>, q: seq<RegWrite>)
    ensures Run(b, p + q) == (var (b1, ok) := Run(b, p); if ok then Run(b1, q) else (b1, false))
    decreases |p|
  {
    if p == [] {
      assert p + q == q;
    } else {
      var (b1, ok1) := Write(b, p[0].register, p[0].value);
      assert (p + q)[0] == p[0];
      assert (p + q)[1..] == p[1..] + q;
      if ok1 {
        RunAppend(b1, p[1..], q);
      }
    }
  }

  /** Registers no write of the plan targets keep their value. */
  lemma {:induction false} StoreOther(regs: RegisterFile, plan: seq<RegWrite>, r: Byte)
    requires r !in Targets(plan)
    ensures Store(regs, plan)[r] == regs[r]
    decreases |plan|
  {
    if plan != [] {
      assert plan[0].register in Targets(plan);
      assert Targets(plan[1..]) <= Targets(plan) by {
        forall x | x in Targets(plan[1..]) ensures x in Targets(plan) {
          var i :| 0 <= i < |plan[1..]| && plan[1..][i].register == x;
          assert plan[i + 1].register == x;
        }
      }
      StoreOther(regs[plan[0].register := plan[0].value], plan[1..], r);
    }
  }

  /** A register written by the plan ends with the value of the last write to it. */
  lemma {:induction false} StoreLast(regs: RegisterFile, plan: seq<RegWrite>, i: nat)
    requires i < |plan|
    requires forall j :: i < j < |plan| ==> plan[j].register != plan[i].register
    ensures Store(regs, plan)[plan[i].register] == plan[i].value
    decreases |plan|
  {
    var regs1 := regs[plan[0].register := plan[0].value];
    if i == 0 {
      assert plan[0].register !in Targets(plan[1..]);
      StoreOther(regs1, plan[1..], plan[0].register);
    } else {
      StoreLast(regs1, plan[1..], i - 1);
    }
  }

  /** Applying two plans one after the other is applying their concatenation. */
  lemma {:induction false} StoreAppend(regs: RegisterFile, p: seq<RegWrite>, q: seq<RegWrite>)
    ensures Store(regs, p + q) == Store(Store(regs, p), q)
    decreases |p|
  {
    if p == [] {
      assert p + q == q;
    } else {
      assert (p + q)[0] == p[0];
      assert (p + q)[1..] == p[1..] + q;
      StoreAppend(regs[p[0].register := p[0].value], p[1..], q);
    }
  }

  lemma TargetsAppend(p: seq<RegWrite>, q: seq<RegWrite>)
    ensures Targets(p + q) == Targets(p) + Targets(q)
  {
    forall x | x in Targets(p + q) ensures x in Targets(p) + Targets(q) {
      var i :| 0 <= i < |p + q| && (p + q)[i].register == x;
      if i >= |p| {
        assert q[i - |p|].register == x;
      }
    }
    forall x | x in Targets(p) ensures x in Targets(p + q) {
      var i :| 0 <= i < |p| && p[i].register == x;
      assert (p + q)[i].register == x;
    }
    forall x | x in Targets(q) ensures x in Targets(p + q) {
      var i :| 0 <= i < |q| && q[i].register == x;
      assert (p + q)[|p| + i].register == x;
    }
  }

  lemma TargetsPrefix(p: seq<RegWrite>, k: nat)
    requires k <= |p|
    ensures Targets(p[..k]) <= Targets(p)
  {
    forall x | x in Targets(p[..k]) ensures x in Targets(p) {
      var i :| 0 <= i < k && p[..k][i].register == x;
      assert p[i].register == x;
    }
  }

  /** A register no write of the plan targets is left alone by running it,
      however far the run gets. */
  lemma RunUntouched(b: Bus, plan: seq<RegWrite>, r: Byte)
    requires r !in Targets(plan)
    ensures Run(b, plan).0.registers[r] == b.registers[r]
  {
    var k := AcceptedRun(b, |plan|);
    assert Run(b, plan).0.registers == Store(b.registers, plan[..k]) by {
      RunEffect(b, plan);
    }
    TargetsPrefix(plan, k);
    StoreOther(b.registers, plan[..k], r);
  }

  /** A run that succeeds applied every write of the plan. */
  lemma RunComplete(b: Bus, plan: seq<RegWrite>)
    requires Run(b, plan).1
    ensures Run(b, plan).0.registers == Store(b.registers, plan)
  {
    RunEffect(b, plan);
    assert plan[..|plan|] == plan;
  }
}
