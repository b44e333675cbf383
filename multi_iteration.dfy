/** The iterative (quantum Zeno) bomb tester: the circuit for n cycles, the
    classification of each measured bit-string, and the sweep over several n. */
module MultiIteration {
  import opened Outcomes
  import opened Rationals
  import opened CountsDict
  import opened Circuits

  const Shots: nat := 10000
  const CyclesToTest: seq<int> := [2, 3, 4, 5, 10, 50]

  // ---------------------------------------------------------------- circuit

  /** One interaction cycle: rotate the photon, couple it to the bomb qubit,
      read the bomb qubit into check bit `step`, reset it. */
  function ZenoCycle(theta: Angle, step: nat): seq<Instruction> {
    [RY(theta, 0), CX(0, 1), Measure(1, step), Reset(1)]
  }

  /** Cycles 0 .. k-1, in order. */
  function ZenoCycles(theta: Angle, k: nat): seq<Instruction> {
    if k == 0 then [] else ZenoCycles(theta, k - 1) + ZenoCycle(theta, k - 1)
  }

  /** The full instruction list for n cycles; the photon is read into bit n. */
  function ZenoProgram(n: nat): seq<Instruction>
    requires n >= 1
  {
    ZenoCycles(PiOver(n), n) + [Measure(0, n)]
  }

  lemma {:induction false} ZenoCyclesLength(theta: Angle, k: nat)
    ensures |ZenoCycles(theta, k)| == 4 * k
  {
    if k > 0 {
      ZenoCyclesLength(theta, k - 1);
    }
  }

  /** Slot i of the cycles is slot i % 4 of cycle i / 4. */
  lemma {:induction false} ZenoCyclesAt(theta: Angle, k: nat, i: nat)
    requires i < 4 * k
    ensures |ZenoCycles(theta, k)| == 4 * k
    ensures ZenoCycles(theta, k)[i] == ZenoCycle(theta, i / 4)[i % 4]
  {
    ZenoCyclesLength(theta, k);
    ZenoCyclesLength(theta, k - 1);
    if i < 4 * (k - 1) {
      ZenoCyclesAt(theta, k - 1, i);
    } else {
      assert i / 4 == k - 1 && i % 4 == i - 4 * (k - 1);
    }
  }

  /** Slot of the instruction that writes classical bit b (b <= n). */
  function WriterSlot(n: nat, b: nat): nat {
    if b < n then 4 * b + 2 else 4 * n
  }

  /** Slot i of the n-cycle circuit: slot i % 4 of cycle i / 4, or the final
      photon readout. */
  lemma ZenoProgramAt(n: nat, i: nat)
    requires n >= 1 && i < 4 * n + 1
    ensures |ZenoProgram(n)| == 4 * n + 1
    ensures ZenoProgram(n)[i] == if i < 4 * n then ZenoCycle(PiOver(n), i / 4)[i % 4] else Measure(0, n)
  {
    ZenoCyclesLength(PiOver(n), n);
    if i < 4 * n {
      ZenoCyclesAt(PiOver(n), n, i);
    }
  }

  /** 2 qubits, n + 1 classical bits, 4n + 1 instructions: cycle `step` is
      ry(pi/n, 0), cx(0, 1), measure(1, step), reset(1) in slots 4*step ..
      4*step+3, and the photon readout measure(0, n) is last. */
  lemma ZenoProgramShape(n: nat)
    requires n >= 1
    ensures |ZenoProgram(n)| == 4 * n + 1
    ensures forall step :: 0 <= step < n ==>
      ZenoProgram(n)[4 * step .. 4 * step + 4] == [RY(PiOver(n), 0), CX(0, 1), Measure(1, step), Reset(1)]
    ensures ZenoProgram(n)[4 * n] == Measure(0, n)
    ensures WellFormed(Circuit(2, n + 1, ZenoProgram(n)))
  {
    var p := ZenoProgram(n);
    ZenoProgramAt(n, 4 * n);
    forall step | 0 <= step < n
      ensures p[4 * step .. 4 * step + 4] == [RY(PiOver(n), 0), CX(0, 1), Measure(1, step), Reset(1)]
    {
      ZenoCycleSlice(n, step);
    }
    ZenoProgramFits(n);
  }

  lemma ZenoCycleSlice(n: nat, step: nat)
    requires n >= 1 && step < n
    ensures 4 * step + 4 <= |ZenoProgram(n)|
    ensures ZenoProgram(n)[4 * step .. 4 * step + 4] == [RY(PiOver(n), 0), CX(0, 1), Measure(1, step), Reset(1)]
  {
    var p := ZenoProgram(n);
    ZenoProgramAt(n, 4 * step);
    ZenoProgramAt(n, 4 * step + 1);
    ZenoProgramAt(n, 4 * step + 2);
    ZenoProgramAt(n, 4 * step + 3);
    assert p[4 * step .. 4 * step + 4] == [p[4 * step], p[4 * step + 1], p[4 * step + 2], p[4 * step + 3]];
  }

  lemma ZenoProgramFits(n: nat)
    requires n >= 1
    ensures WellFormed(Circuit(2, n + 1, ZenoProgram(n)))
  {
    var p := ZenoProgram(n);
    ZenoProgramAt(n, 0);
    forall i | 0 <= i < |p| ensures Fits(p[i], 2, n + 1) {
      ZenoProgramAt(n, i);
    }
  }

  /** Every rotation of the circuit is about qubit 0 by the same angle pi/n,
      and there are exactly n of them. */
  lemma ZenoRotationsUniform(n: nat)
    requires n >= 1
    ensures forall i :: 0 <= i < |ZenoProgram(n)| && ZenoProgram(n)[i].RY? ==> ZenoProgram(n)[i] == RY(PiOver(n), 0)
    ensures |set i | 0 <= i < |ZenoProgram(n)| && ZenoProgram(n)[i].RY?| == n
  {
    var p := ZenoProgram(n);
    ZenoProgramAt(n, 0);
    var rys := set i | 0 <= i < |p| && p[i].RY?;
    var starts := set step | 0 <= step < n :: 4 * step;
    forall i | 0 <= i < |p| && p[i].RY? ensures p[i] == RY(PiOver(n), 0) && i in starts {
      ZenoProgramAt(n, i);
      assert i == 4 * (i / 4);
    }
    forall i | i in starts ensures i in rys {
      var step :| 0 <= step < n && i == 4 * step;
      ZenoProgramAt(n, i);
      assert i / 4 == step && i % 4 == 0;
    }
    assert rys == starts;
    StartsCardinality(n);
  }

  lemma {:induction false} StartsCardinality(n: nat)
    ensures |set step | 0 <= step < n :: 4 * step| == n
  {
    if n > 0 {
      var s := set step | 0 <= step < n :: 4 * step;
      var s' := set step | 0 <= step < n - 1 :: 4 * step;
      assert s == s' + {4 * (n - 1)};
      StartsCardinality(n - 1);
    }
  }

  /** Each classical bit is written exactly once: bit b < n only by the
      measurement of qubit 1 in cycle b (slot 4b+2, so in increasing order),
      bit n only by the final measurement of qubit 0. */
  lemma ZenoClbitWriters(n: nat)
    requires n >= 1
    ensures forall i :: 0 <= i < |ZenoProgram(n)| && ZenoProgram(n)[i].Measure? ==>
      ZenoProgram(n)[i].clbit <= n && i == WriterSlot(n, ZenoProgram(n)[i].clbit) &&
      ZenoProgram(n)[i].qubit == (if ZenoProgram(n)[i].clbit < n then 1 else 0)
    ensures forall b :: 0 <= b <= n ==>
      WriterSlot(n, b) < |ZenoProgram(n)| && ZenoProgram(n)[WriterSlot(n, b)] == Measure(if b < n then 1 else 0, b)
  {
    var p := ZenoProgram(n);
    ZenoProgramAt(n, 0);
    forall i | 0 <= i < |p| && p[i].Measure?
      ensures p[i].clbit <= n && i == WriterSlot(n, p[i].clbit) && p[i].qubit == (if p[i].clbit < n then 1 else 0)
    {
      ZenoProgramAt(n, i);
    }
    forall b | 0 <= b <= n
      ensures WriterSlot(n, b) < |p| && p[WriterSlot(n, b)] == Measure(if b < n then 1 else 0, b)
    {
      ZenoProgramAt(n, WriterSlot(n, b));
    }
  }

  /** Multi_iteration.py lines 22-33: build the circuit step by step. */
  method BuildZenoCircuit(n: nat) returns (qc: QuantumCircuit)
    requires n >= 1
    ensures qc.Valid() && qc.Snapshot() == Circuit(2, n + 1, ZenoProgram(n))
  {
    qc := new QuantumCircuit(2, n + 1);
    var theta := PiOver(n);
    for step := 0 to n
      invariant qc.Valid() && qc.data == ZenoCycles(theta, step)
    {
      qc.ApplyRY(theta, 0);
      qc.ApplyCX(0, 1);
      qc.MeasureInto(1, step);
      qc.ResetQubit(1);
    }
    qc.MeasureInto(0, n);
  }

  // --------------------------------------------------------- classification

  /** Multi_iteration.py lines 45-53: any check '1' explodes; otherwise photon '0' is success. */
  function Classify(bitstr: string): Outcome
    requires |bitstr| >= 1
  {
    var bombChecks := bitstr[1..];
    var photonState := bitstr[0];
    if '1' in bombChecks then Exploded
    else if photonState == '0' then Success
    else Inconclusive
  }

  /** The classification read through the circuit's bit layout: for a result of
      the n-cycle circuit, Exploded iff some check bit 0..n-1 (written by a
      measurement of qubit 1) is '1', whatever the photon bit n is; otherwise
      the photon bit decides between Success ('0') and Inconclusive. */
  lemma ClassifyByClbits(s: string, n: nat)
    requires |s| == n + 1
    ensures Classify(s) == Exploded <==> exists b :: 0 <= b < n && ClbitChar(s, b) == '1'
    ensures Classify(s) == Success <==>
      (forall b :: 0 <= b < n ==> ClbitChar(s, b) != '1') && ClbitChar(s, n) == '0'
    ensures Classify(s) == Inconclusive <==>
      (forall b :: 0 <= b < n ==> ClbitChar(s, b) != '1') && ClbitChar(s, n) != '0'
  {
    var checks := s[1..];
    assert ClbitChar(s, n) == s[0];
    if '1' in checks {
      var k :| 0 <= k < |checks| && checks[k] == '1';
      assert ClbitChar(s, n - 1 - k) == '1';
    } else {
      forall b | 0 <= b < n ensures ClbitChar(s, b) != '1' {
        assert ClbitChar(s, b) == checks[n - 1 - b];
      }
    }
  }

  /** Worked examples for two cycles; the photon bit is the first character. */
  lemma ClassifyTwoCycleExamples()
    ensures Classify("100") == Inconclusive && Classify("000") == Success
    ensures Classify("010") == Exploded && Classify("001") == Exploded && Classify("011") == Exploded
    ensures Classify("110") == Exploded
  {
    assert "100"[1..] == "00" && "000"[1..] == "00";
  }

  // ------------------------------------------------------------- counting

  predicate KeysNonEmpty(c: Counts) {
    forall i :: 0 <= i < |c| ==> |c[i].key| >= 1
  }

  /** Shots of the entries whose bit-string is classified as o. */
  function ClassTotal(c: Counts, o: Outcome): nat
    requires KeysNonEmpty(c)
  {
    if c == [] then 0
    else ClassTotal(c[..|c| - 1], o) + (if Classify(c[|c| - 1].key) == o then c[|c| - 1].count else 0)
  }

  /** The three counters the loop of Multi_iteration.py lines 43-53 ends with. */
  function TallyOf(c: Counts): Tally
    requires KeysNonEmpty(c)
  {
    Tally(ClassTotal(c, Exploded), ClassTotal(c, Success), ClassTotal(c, Inconclusive))
  }

  /** Every shot lands in exactly one counter: the three class totals add up
      to the sum of all counts. */
  lemma {:induction false} ClassTotalsPartition(c: Counts)
    requires KeysNonEmpty(c)
    ensures ClassTotal(c, Exploded) + ClassTotal(c, Success) + ClassTotal(c, Inconclusive) == Total(c)
    ensures TallyOf(c).Sum() == Total(c)
  {
    if c != [] {
      ClassTotalsPartition(c[..|c| - 1]);
    }
  }

  /** Multi_iteration.py lines 39-53. Indexing `bitstr[0]` of an empty key raises IndexError,
      which ends the run: None. */
  method CountOutcomes(counts: Counts) returns (r: Option<Tally>)
    ensures r.None? <==> !KeysNonEmpty(counts)
    ensures r.Some? ==> KeysNonEmpty(counts) && r.value == TallyOf(counts)
  {
    var expCount, succCount, incCount := 0, 0, 0;
    for i := 0 to |counts|
      invariant KeysNonEmpty(counts[..i])
      invariant expCount == ClassTotal(counts[..i], Exploded)
      invariant succCount == ClassTotal(counts[..i], Success)
      invariant incCount == ClassTotal(counts[..i], Inconclusive)
    {
      var bitstr, count := counts[i].key, counts[i].count;
      if bitstr == [] {
        return None;
      }
      var bombChecks := bitstr[1..];
      var photonState := bitstr[0];
      assert counts[..i + 1][..i] == counts[..i];
      if '1' in bombChecks {
        expCount := expCount + count;
      } else if photonState == '0' {
        succCount := succCount + count;
      } else {
        incCount := incCount + count;
      }
    }
    assert counts[..|counts|] == counts;
    return Some(Tally(expCount, succCount, incCount));
  }

  // ---------------------------------------------------------------- sweep

  /** The table `results` of Multi_iteration.py line 16: one column per key. */
  datatype SweepResults = SweepResults(
    n: seq<int>, success: seq<Rational>, exploded: seq<Rational>, inconclusive: seq<Rational>)

  /** What the simulator returned for the n-cycle circuit run for Shots shots. */
  function SimulatedCounts(simulate: (Circuit, nat) -> Counts, n: nat): Counts
    requires n >= 1
  {
    simulate(Circuit(2, n + 1, ZenoProgram(n)), Shots)
  }

  /** Row k holds the three fractions count / Shots of tally t (Multi_iteration.py lines 56-59). */
  predicate RowIs(res: SweepResults, k: nat, t: Tally)
    requires k < |res.success| && k < |res.exploded| && k < |res.inconclusive|
  {
    && res.success[k] == Div(t.success, Shots)
    && res.exploded[k] == Div(t.exploded, Shots)
    && res.inconclusive[k] == Div(t.inconclusive, Shots)
  }

  /** Row k's three fractions add up to exactly 1. */
  predicate RowSumsToOne(res: SweepResults, k: nat)
    requires k < |res.success| && k < |res.exploded| && k < |res.inconclusive|
  {
    && ValidRational(res.success[k]) && ValidRational(res.exploded[k]) && ValidRational(res.inconclusive[k])
    && Same(Add(Add(res.success[k], res.exploded[k]), res.inconclusive[k]), One)
  }

  /** When the shots of a row add up to Shots, its fractions add up to exactly 1. */
  lemma FractionsSumToOne(t: Tally)
    requires t.Sum() == Shots
    ensures Same(Add(Add(Div(t.success, Shots), Div(t.exploded, Shots)), Div(t.inconclusive, Shots)), One)
  {
    SharesSumToOne(t.success, t.exploded, t.inconclusive, Shots);
  }

  /** Multi_iteration.py lines 15-59, without the printing and the plot: one row per cycle count,
      in the order given (not sorted). The simulator is a parameter, and the
      list of cycle counts defaults to the module constant. */
  method RunZenoSeries(simulate: (Circuit, nat) -> Counts, cycles: seq<int> := CyclesToTest) returns (r: Option<SweepResults>)
    requires forall k :: 0 <= k < |cycles| ==> cycles[k] >= 1
    ensures r.None? <==> exists k :: 0 <= k < |cycles| && !KeysNonEmpty(SimulatedCounts(simulate, cycles[k]))
    ensures r.Some? ==> r.value.n == cycles
    ensures r.Some? ==> |r.value.success| == |r.value.exploded| == |r.value.inconclusive| == |cycles|
    ensures r.Some? ==> forall k :: 0 <= k < |cycles| ==>
      KeysNonEmpty(SimulatedCounts(simulate, cycles[k])) && RowIs(r.value, k, TallyOf(SimulatedCounts(simulate, cycles[k])))
    ensures r.Some? ==> forall k :: 0 <= k < |cycles| && Total(SimulatedCounts(simulate, cycles[k])) == Shots ==>
      RowSumsToOne(r.value, k)
  {
    var ns, succs, exps, incs := [], [], [], [];
    for k := 0 to |cycles|
      invariant ns == cycles[..k]
      invariant |succs| == |exps| == |incs| == k
      invariant forall j :: 0 <= j < k ==> KeysNonEmpty(SimulatedCounts(simulate, cycles[j]))
      invariant forall j :: 0 <= j < k ==> RowIs(SweepResults(ns, succs, exps, incs), j, TallyOf(SimulatedCounts(simulate, cycles[j])))
    {
      var n: nat := cycles[k];
      var qc := BuildZenoCircuit(n);
      var counts := simulate(qc.Snapshot(), Shots);
      var tally := CountOutcomes(counts);
      if tally.None? {
        return None;
      }
      ns, succs, exps, incs := ns + [n], succs + [Div(tally.value.success, Shots)],
                               exps + [Div(tally.value.exploded, Shots)], incs + [Div(tally.value.inconclusive, Shots)];
    }
    assert cycles[..|cycles|] == cycles;
    r := Some(SweepResults(ns, succs, exps, incs));
    forall k | 0 <= k < |cycles| && Total(SimulatedCounts(simulate, cycles[k])) == Shots
      ensures RowSumsToOne(r.value, k)
    {
      ClassTotalsPartition(SimulatedCounts(simulate, cycles[k]));
      FractionsSumToOne(TallyOf(SimulatedCounts(simulate, cycles[k])));
    }
  }
}
