/** The circuit builders used for drawing: the same protocols with barriers
    between the stages. */
module CircuitVisualize {
  import opened Circuits
  import MultiIteration
  import SingleIteration

  /** h(0), barrier, cx(0, 1), barrier, h(0), barrier, measure(qr, cr). */
  function BasicProgram(): seq<Instruction> {
    [H(0), Barrier, CX(0, 1), Barrier, H(0), Barrier] + MeasurePairs([0, 1], [0, 1])
  }

  /** Circuit_visualize.py lines 9-22. */
  method GetBasicCircuit() returns (qc: QuantumCircuit)
    ensures qc.Valid() && qc.Snapshot() == Circuit(2, 2, BasicProgram())
  {
    qc := new QuantumCircuit(2, 2);
    qc.ApplyH(0);
    qc.AddBarrier();
    qc.ApplyCX(0, 1);
    qc.AddBarrier();
    qc.ApplyH(0);
    qc.AddBarrier();
    qc.MeasureMany([0, 1], [0, 1]);
  }

  /** With its barriers removed, the drawn basic circuit is the single-shot
      experiment's circuit. */
  lemma BasicMatchesSingleShot()
    ensures |BasicProgram()| == 8
    ensures BasicProgram()[6..] == [Measure(0, 0), Measure(1, 1)]
    ensures WithoutBarriers(BasicProgram()) == SingleIteration.SingleShotProgram()
  {
    var m := MeasurePairs([0, 1], [0, 1]);
    assert m == [Measure(0, 0), Measure(1, 1)];
    SingleIteration.SingleShotLayout();
    var p := BasicProgram();
    assert p == [H(0)] + ([Barrier] + ([CX(0, 1)] + ([Barrier] + ([H(0)] + ([Barrier] + ([Measure(0, 0)] + [Measure(1, 1)]))))));
    WithoutBarriersCons(Measure(0, 0), [Measure(1, 1)]);
    WithoutBarriersCons(Measure(1, 1), []);
    WithoutBarriersCons(Barrier, [Measure(0, 0)] + [Measure(1, 1)]);
    WithoutBarriersCons(H(0), [Barrier] + ([Measure(0, 0)] + [Measure(1, 1)]));
    WithoutBarriersCons(Barrier, [H(0)] + ([Barrier] + ([Measure(0, 0)] + [Measure(1, 1)])));
    WithoutBarriersCons(CX(0, 1), [Barrier] + ([H(0)] + ([Barrier] + ([Measure(0, 0)] + [Measure(1, 1)]))));
    WithoutBarriersCons(Barrier, [CX(0, 1)] + ([Barrier] + ([H(0)] + ([Barrier] + ([Measure(0, 0)] + [Measure(1, 1)])))));
    WithoutBarriersCons(H(0), [Barrier] + ([CX(0, 1)] + ([Barrier] + ([H(0)] + ([Barrier] + ([Measure(0, 0)] + [Measure(1, 1)]))))));
  }

  /** One drawn cycle: a barrier, then the interaction cycle. */
  function VisualCycle(theta: Angle, i: nat): seq<Instruction> {
    [Barrier, RY(theta, 0), CX(0, 1), Measure(1, i), Reset(1)]
  }

  function VisualCycles(theta: Angle, k: nat): seq<Instruction> {
    if k == 0 then [] else VisualCycles(theta, k - 1) + VisualCycle(theta, k - 1)
  }

  function IterativeProgram(n: nat): seq<Instruction>
    requires n >= 1
  {
    VisualCycles(PiOver(n), n) + [Barrier, Measure(0, n)]
  }

  /** Circuit_visualize.py lines 24-40; np.pi / 0 raises, so n >= 1. */
  method GetIterativeCircuit(n: nat := 3) returns (qc: QuantumCircuit)
    requires n >= 1
    ensures qc.Valid() && qc.Snapshot() == Circuit(2, n + 1, IterativeProgram(n))
  {
    qc := new QuantumCircuit(2, n + 1);
    var theta := PiOver(n);
    for i := 0 to n
      invariant qc.Valid() && qc.data == VisualCycles(theta, i)
    {
      qc.AddBarrier();
      qc.ApplyRY(theta, 0);
      qc.ApplyCX(0, 1);
      qc.MeasureInto(1, i);
      qc.ResetQubit(1);
    }
    qc.AddBarrier();
    qc.MeasureInto(0, n);
  }

  lemma {:induction false} VisualCyclesAt(theta: Angle, k: nat, i: nat)
    requires i < 5 * k
    ensures |VisualCycles(theta, k)| == 5 * k
    ensures VisualCycles(theta, k)[i] == VisualCycle(theta, i / 5)[i % 5]
  {
    VisualCyclesLength(theta, k);
    VisualCyclesLength(theta, k - 1);
    if i < 5 * (k - 1) {
      VisualCyclesAt(theta, k - 1, i);
    } else {
      assert i / 5 == k - 1 && i % 5 == i - 5 * (k - 1);
    }
  }

  lemma {:induction false} VisualCyclesLength(theta: Angle, k: nat)
    ensures |VisualCycles(theta, k)| == 5 * k
  {
    if k > 0 {
      VisualCyclesLength(theta, k - 1);
    }
  }

  lemma IterativeProgramAt(n: nat, i: nat)
    requires n >= 1 && i < 5 * n + 2
    ensures |IterativeProgram(n)| == 5 * n + 2
    ensures IterativeProgram(n)[i] ==
      if i < 5 * n then VisualCycle(PiOver(n), i / 5)[i % 5]
      else if i == 5 * n then Barrier else Measure(0, n)
  {
    VisualCyclesLength(PiOver(n), n);
    if i < 5 * n {
      VisualCyclesAt(PiOver(n), n, i);
    }
  }

  /** 2 qubits, n + 1 bits, 5n + 2 instructions: cycle i is barrier, ry(pi/n, 0),
      cx(0, 1), measure(1, i), reset(1) in slots 5i .. 5i+4, and the list
      ends with barrier, measure(0, n). */
  lemma IterativeProgramShape(n: nat)
    requires n >= 1
    ensures |IterativeProgram(n)| == 5 * n + 2
    ensures forall i :: 0 <= i < n ==>
      IterativeProgram(n)[5 * i .. 5 * i + 5] == [Barrier, RY(PiOver(n), 0), CX(0, 1), Measure(1, i), Reset(1)]
    ensures IterativeProgram(n)[5 * n ..] == [Barrier, Measure(0, n)]
    ensures WellFormed(Circuit(2, n + 1, IterativeProgram(n)))
  {
    var p := IterativeProgram(n);
    IterativeProgramAt(n, 5 * n);
    IterativeProgramAt(n, 5 * n + 1);
    forall i | 0 <= i < n
      ensures p[5 * i .. 5 * i + 5] == [Barrier, RY(PiOver(n), 0), CX(0, 1), Measure(1, i), Reset(1)]
    {
      IterativeCycleSlice(n, i);
    }
    IterativeProgramFits(n);
  }

  lemma IterativeCycleSlice(n: nat, i: nat)
    requires n >= 1 && i < n
    ensures 5 * i + 5 <= |IterativeProgram(n)|
    ensures IterativeProgram(n)[5 * i .. 5 * i + 5] == [Barrier, RY(PiOver(n), 0), CX(0, 1), Measure(1, i), Reset(1)]
  {
    var p := IterativeProgram(n);
    IterativeProgramAt(n, 5 * i);
    IterativeProgramAt(n, 5 * i + 1);
    IterativeProgramAt(n, 5 * i + 2);
    IterativeProgramAt(n, 5 * i + 3);
    IterativeProgramAt(n, 5 * i + 4);
    assert p[5 * i .. 5 * i + 5] == [p[5 * i], p[5 * i + 1], p[5 * i + 2], p[5 * i + 3], p[5 * i + 4]];
  }

  lemma IterativeProgramFits(n: nat)
    requires n >= 1
    ensures WellFormed(Circuit(2, n + 1, IterativeProgram(n)))
  {
    var p := IterativeProgram(n);
    IterativeProgramAt(n, 0);
    forall i | 0 <= i < |p| ensures Fits(p[i], 2, n + 1) {
      IterativeProgramAt(n, i);
    }
  }

  /** Slot of the instruction that writes classical bit b (b <= n). */
  function VisualWriterSlot(n: nat, b: nat): nat {
    if b < n then 5 * b + 3 else 5 * n + 1
  }

  /** Bits 0 .. n-1 are each written once, by cycle b in increasing order,
      and bit n only by the final measurement; all rotations use pi/n. */
  lemma IterativeClbitWriters(n: nat)
    requires n >= 1
    ensures forall i :: 0 <= i < |IterativeProgram(n)| && IterativeProgram(n)[i].Measure? ==>
      IterativeProgram(n)[i].clbit <= n && i == VisualWriterSlot(n, IterativeProgram(n)[i].clbit) &&
      IterativeProgram(n)[i].qubit == (if IterativeProgram(n)[i].clbit < n then 1 else 0)
    ensures forall b :: 0 <= b <= n ==>
      VisualWriterSlot(n, b) < |IterativeProgram(n)| &&
      IterativeProgram(n)[VisualWriterSlot(n, b)] == Measure(if b < n then 1 else 0, b)
    ensures forall i :: 0 <= i < |IterativeProgram(n)| && IterativeProgram(n)[i].RY? ==>
      IterativeProgram(n)[i] == RY(PiOver(n), 0)
  {
    var p := IterativeProgram(n);
    IterativeProgramAt(n, 0);
    forall i | 0 <= i < |p| && (p[i].Measure? || p[i].RY?)
      ensures p[i].Measure? ==> p[i].clbit <= n && i == VisualWriterSlot(n, p[i].clbit) && p[i].qubit == (if p[i].clbit < n then 1 else 0)
      ensures p[i].RY? ==> p[i] == RY(PiOver(n), 0)
    {
      IterativeProgramAt(n, i);
    }
    forall b | 0 <= b <= n
      ensures VisualWriterSlot(n, b) < |p| && p[VisualWriterSlot(n, b)] == Measure(if b < n then 1 else 0, b)
    {
      IterativeProgramAt(n, VisualWriterSlot(n, b));
    }
  }

  lemma {:induction false} VisualCyclesWithoutBarriers(theta: Angle, k: nat)
    ensures WithoutBarriers(VisualCycles(theta, k)) == MultiIteration.ZenoCycles(theta, k)
  {
    if k > 0 {
      VisualCyclesWithoutBarriers(theta, k - 1);
      WithoutBarriersAppend(VisualCycles(theta, k - 1), VisualCycle(theta, k - 1));
      var c := VisualCycle(theta, k - 1);
      assert c == [Barrier] + ([RY(theta, 0)] + ([CX(0, 1)] + ([Measure(1, k - 1)] + [Reset(1)])));
      WithoutBarriersCons(Reset(1), []);
      WithoutBarriersCons(Measure(1, k - 1), [Reset(1)]);
      WithoutBarriersCons(CX(0, 1), [Measure(1, k - 1)] + [Reset(1)]);
      WithoutBarriersCons(RY(theta, 0), [CX(0, 1)] + ([Measure(1, k - 1)] + [Reset(1)]));
      WithoutBarriersCons(Barrier, [RY(theta, 0)] + ([CX(0, 1)] + ([Measure(1, k - 1)] + [Reset(1)])));
    }
  }

  /** With its barriers removed, the drawn n-cycle circuit is the sweep's
      n-cycle circuit. */
  lemma IterativeMatchesZeno(n: nat)
    requires n >= 1
    ensures WithoutBarriers(IterativeProgram(n)) == MultiIteration.ZenoProgram(n)
  {
    VisualCyclesWithoutBarriers(PiOver(n), n);
    WithoutBarriersAppend(VisualCycles(PiOver(n), n), [Barrier, Measure(0, n)]);
    WithoutBarriersCons(Barrier, [Measure(0, n)]);
    WithoutBarriersCons(Measure(0, n), []);
  }
}
