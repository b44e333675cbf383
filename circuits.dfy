/** The part of Qiskit's QuantumCircuit that the scripts use: a fixed number
    of qubits and classical bits, and an instruction list that each gate call
    appends to. */
module Circuits {

  /** A rotation angle of pi / denom radians, kept symbolic. */
  datatype Angle = PiOver(denom: nat)

  datatype Instruction =
    | H(qubit: nat)
    | RY(theta: Angle, qubit: nat)
    | CX(control: nat, target: nat)
    | Measure(qubit: nat, clbit: nat)
    | Reset(qubit: nat)
    | Barrier

  /** An immutable view of a circuit, as handed to the simulator. */
  datatype Circuit = Circuit(numQubits: nat, numClbits: nat, data: seq<Instruction>)

  /** Qiskit writes classical bit b of a width-w result at character w-1-b. */
  function ClbitChar(s: string, b: nat): char
    requires b < |s|
  {
    s[|s| - 1 - b]
  }

  /** The operands Qiskit accepts: indices in range, distinct CX operands. */
  predicate Fits(ins: Instruction, numQubits: nat, numClbits: nat) {
    match ins
    case H(q) => q < numQubits
    case RY(_, q) => q < numQubits
    case CX(c, t) => c < numQubits && t < numQubits && c != t
    case Measure(q, b) => q < numQubits && b < numClbits
    case Reset(q) => q < numQubits
    case Barrier => true
  }

  predicate WellFormed(c: Circuit) {
    forall i :: 0 <= i < |c.data| ==> Fits(c.data[i], c.numQubits, c.numClbits)
  }

  /** What `measure(qubits, clbits)` broadcasts to: qubits[i] into clbits[i], in order. */
  function MeasurePairs(qubits: seq<nat>, clbits: seq<nat>): (r: seq<Instruction>)
    requires |qubits| == |clbits|
    ensures |r| == |qubits|
    ensures forall i :: 0 <= i < |r| ==> r[i] == Measure(qubits[i], clbits[i])
  {
    if qubits == [] then []
    else MeasurePairs(qubits[..|qubits| - 1], clbits[..|clbits| - 1])
         + [Measure(qubits[|qubits| - 1], clbits[|clbits| - 1])]
  }

  /** The instruction list with every barrier dropped, order kept. */
  function WithoutBarriers(s: seq<Instruction>): (r: seq<Instruction>)
    ensures forall i :: 0 <= i < |r| ==> !r[i].Barrier?
    ensures |r| <= |s|
  {
    if s == [] then [] else (if s[0].Barrier? then [] else [s[0]]) + WithoutBarriers(s[1..])
  }

  /** A list without barriers is left unchanged. */
  lemma {:induction false} WithoutBarriersOfBarrierFree(s: seq<Instruction>)
    requires forall i :: 0 <= i < |s| ==> !s[i].Barrier?
    ensures WithoutBarriers(s) == s
  {
    if s != [] {
      WithoutBarriersOfBarrierFree(s[1..]);
    }
  }

  /** Dropping barriers from one instruction followed by the rest. */
  lemma WithoutBarriersCons(x: Instruction, s: seq<Instruction>)
    ensures WithoutBarriers([x] + s) == (if x.Barrier? then [] else [x]) + WithoutBarriers(s)
  {
    assert ([x] + s)[0] == x && ([x] + s)[1..] == s;
  }

  lemma {:induction false} WithoutBarriersAppend(a: seq<Instruction>, b: seq<Instruction>)
    ensures WithoutBarriers(a + b) == WithoutBarriers(a) + WithoutBarriers(b)
  {
    if a != [] {
      assert (a + b)[1..] == a[1..] + b;
      WithoutBarriersAppend(a[1..], b);
    } else {
      assert a + b == b;
    }
  }

  class QuantumCircuit {
    const numQubits: nat
    const numClbits: nat
    var data: seq<Instruction>

    function Snapshot(): Circuit
      reads this
    {
      Circuit(numQubits, numClbits, data)
    }

    ghost predicate Valid()
      reads this
    {
      WellFormed(Snapshot())
    }

    constructor (numQubits: nat, numClbits: nat)
      ensures this.numQubits == numQubits && this.numClbits == numClbits
      ensures data == [] && Valid()
    {
      this.numQubits := numQubits;
      this.numClbits := numClbits;
      data := [];
    }

    /** `h(q)` */
    method ApplyH(q: nat)
      requires Valid() && q < numQubits
      modifies this
      ensures Valid() && data == old(data) + [H(q)]
    {
      data := data + [H(q)];
    }

    /** `ry(theta, q)` */
    method ApplyRY(theta: Angle, q: nat)
      requires Valid() && q < numQubits
      modifies this
      ensures Valid() && data == old(data) + [RY(theta, q)]
    {
      data := data + [RY(theta, q)];
    }

    /** `cx(c, t)` */
    method ApplyCX(c: nat, t: nat)
      requires Valid() && c < numQubits && t < numQubits && c != t
      modifies this
      ensures Valid() && data == old(data) + [CX(c, t)]
    {
      data := data + [CX(c, t)];
    }

    /** `measure(q, b)` */
    method MeasureInto(q: nat, b: nat)
      requires Valid() && q < numQubits && b < numClbits
      modifies this
      ensures Valid() && data == old(data) + [Measure(q, b)]
    {
      data := data + [Measure(q, b)];
    }

    /** `measure(qubits, clbits)` with two equally long lists (or two registers). */
    method MeasureMany(qubits: seq<nat>, clbits: seq<nat>)
      requires Valid() && |qubits| == |clbits|
      requires forall i :: 0 <= i < |qubits| ==> qubits[i] < numQubits && clbits[i] < numClbits
      modifies this
      ensures Valid() && data == old(data) + MeasurePairs(qubits, clbits)
    {
      for i := 0 to |qubits|
        invariant Valid()
        invariant data == old(data) + MeasurePairs(qubits[..i], clbits[..i])
      {
        assert qubits[..i + 1][..i] == qubits[..i] && clbits[..i + 1][..i] == clbits[..i];
        MeasureInto(qubits[i], clbits[i]);
      }
      assert qubits[..|qubits|] == qubits && clbits[..|clbits|] == clbits;
    }

    /** `reset(q)` */
    method ResetQubit(q: nat)
      requires Valid() && q < numQubits
      modifies this
      ensures Valid() && data == old(data) + [Reset(q)]
    {
      data := data + [Reset(q)];
    }

    /** `barrier()` over all qubits */
    method AddBarrier()
      requires Valid()
      modifies this
      ensures Valid() && data == old(data) + [Barrier]
    {
      data := data + [Barrier];
    }
  }
}
