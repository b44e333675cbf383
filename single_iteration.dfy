/** The single-shot Elitzur-Vaidman interferometer: a fixed four-gate circuit
    and the parsing of its two-bit results. */
module SingleIteration {
  import opened Outcomes
  import opened Rationals
  import opened CountsDict
  import opened Circuits

  const Shots: nat := 10000

  /** h(0), cx(0, 1), h(0), then measure([0, 1], [0, 1]): qubit q into bit q. */
  function SingleShotProgram(): seq<Instruction> {
    [H(0), CX(0, 1), H(0)] + MeasurePairs([0, 1], [0, 1])
  }

  /** single_iteration.py lines 15-19. */
  method BuildSingleShotCircuit() returns (qc: QuantumCircuit)
    ensures qc.Valid() && qc.Snapshot() == Circuit(2, 2, SingleShotProgram())
  {
    qc := new QuantumCircuit(2, 2);
    qc.ApplyH(0);
    qc.ApplyCX(0, 1);
    qc.ApplyH(0);
    qc.MeasureMany([0, 1], [0, 1]);
  }

  /** The circuit is exactly h(0), cx(0, 1), h(0), measure(0, 0), measure(1, 1):
      the photon (qubit 0) lands in bit 0 and the bomb (qubit 1) in bit 1,
      the leftmost character of a result key. */
  lemma SingleShotLayout()
    ensures SingleShotProgram() == [H(0), CX(0, 1), H(0), Measure(0, 0), Measure(1, 1)]
    ensures WellFormed(Circuit(2, 2, SingleShotProgram()))
  {
    var m := MeasurePairs([0, 1], [0, 1]);
    assert m[0] == Measure(0, 0) && m[1] == Measure(1, 1);
  }

  /** single_iteration.py lines 26-28: the three class counts, missing keys counting 0. */
  function ParseCounts(counts: Counts): Tally {
    var exploded := Get(counts, "10", 0) + Get(counts, "11", 0);
    var success := Get(counts, "01", 0);
    var inconclusive := Get(counts, "00", 0);
    Tally(exploded, success, inconclusive)
  }

  /** The four two-bit keys together hold at most all shots. */
  lemma {:induction false} KeySumsBounded(c: Counts)
    ensures KeySum(c, "10") + KeySum(c, "11") + KeySum(c, "01") + KeySum(c, "00") <= Total(c)
  {
    if c != [] {
      KeySumsBounded(c[..|c| - 1]);
    }
  }

  /** In a dictionary no class count exceeds the total. */
  lemma ParseCountsBounded(counts: Counts)
    ensures IsDict(counts) ==> ParseCounts(counts).Sum() <= Total(counts)
  {
    if IsDict(counts) {
      GetIsKeySum(counts, "10");
      GetIsKeySum(counts, "11");
      GetIsKeySum(counts, "01");
      GetIsKeySum(counts, "00");
      KeySumsBounded(counts);
    }
  }

  /** The probabilities of single_iteration.py lines 31-35, keyed as in the source dictionary. */
  datatype Probabilities = Probabilities(exploded: Rational, successIfm: Rational, inconclusive: Rational)

  /** single_iteration.py lines 26-35: divide each class count by the total; a zero total raises. */
  function ComputeProbabilities(counts: Counts): (r: Result<Probabilities>)
    ensures r.Err? <==> Total(counts) == 0
    ensures r.Ok? ==> ValidRational(r.value.exploded) && ValidRational(r.value.successIfm) && ValidRational(r.value.inconclusive)
    ensures r.Ok? && IsDict(counts) ==>
      && 0 <= r.value.exploded.num <= r.value.exploded.den
      && 0 <= r.value.successIfm.num <= r.value.successIfm.den
      && 0 <= r.value.inconclusive.num <= r.value.inconclusive.den
  {
    ParseCountsBounded(counts);
    var t := ParseCounts(counts);
    var total := Total(counts);
    if total == 0 then Err(ZeroDivisionError)
    else Ok(Probabilities(Div(t.exploded, total), Div(t.success, total), Div(t.inconclusive, total)))
  }

  predicate IsBit(c: char) { c == '0' || c == '1' }

  /** Reference reading of a two-bit key through the circuit's layout
      (bit 1 = bomb qubit, bit 0 = photon): the bomb firing explodes,
      otherwise the photon at '1' is the interaction-free success. Any other
      key has no class. */
  function BombReading(key: string): Option<Outcome> {
    if |key| == 2 && IsBit(key[0]) && IsBit(key[1]) then
      if ClbitChar(key, 1) == '1' then Some(Exploded)
      else if ClbitChar(key, 0) == '1' then Some(Success)
      else Some(Inconclusive)
    else None
  }

  /** Shots of the entries that BombReading puts into class o. */
  function ReadingTotal(c: Counts, o: Outcome): nat {
    if c == [] then 0
    else ReadingTotal(c[..|c| - 1], o) + (if BombReading(c[|c| - 1].key) == Some(o) then c[|c| - 1].count else 0)
  }

  lemma BombReadingKeys(k: string)
    ensures BombReading(k) == Some(Exploded) <==> k == "10" || k == "11"
    ensures BombReading(k) == Some(Success) <==> k == "01"
    ensures BombReading(k) == Some(Inconclusive) <==> k == "00"
  {
    if |k| == 2 {
      assert k == [k[0], k[1]];
    }
  }

  lemma {:induction false} ReadingTotalsAreKeySums(c: Counts)
    ensures ReadingTotal(c, Exploded) == KeySum(c, "10") + KeySum(c, "11")
    ensures ReadingTotal(c, Success) == KeySum(c, "01")
    ensures ReadingTotal(c, Inconclusive) == KeySum(c, "00")
  {
    if c != [] {
      ReadingTotalsAreKeySums(c[..|c| - 1]);
      BombReadingKeys(c[|c| - 1].key);
    }
  }

  /** The parsed counts are the reference per-class totals: exploded is every
      key whose bomb bit (leftmost) is '1', success the key "01",
      inconclusive the key "00". */
  lemma {:induction false} ParseCountsByClbits(counts: Counts)
    requires IsDict(counts)
    ensures ParseCounts(counts) == Tally(ReadingTotal(counts, Exploded), ReadingTotal(counts, Success), ReadingTotal(counts, Inconclusive))
  {
    GetIsKeySum(counts, "10");
    GetIsKeySum(counts, "11");
    GetIsKeySum(counts, "01");
    GetIsKeySum(counts, "00");
    ReadingTotalsAreKeySums(counts);
  }

  /** Every key is one of the four two-bit strings. */
  predicate TwoBitKeys(c: Counts) {
    forall i :: 0 <= i < |c| ==> c[i].key in {"00", "01", "10", "11"}
  }

  lemma {:induction false} ReadingTotalsPartition(c: Counts)
    requires TwoBitKeys(c)
    ensures ReadingTotal(c, Exploded) + ReadingTotal(c, Success) + ReadingTotal(c, Inconclusive) == Total(c)
  {
    if c != [] {
      var p := c[..|c| - 1];
      assert TwoBitKeys(p) by {
        forall i | 0 <= i < |p| ensures p[i].key in {"00", "01", "10", "11"} {
          assert p[i] == c[i];
        }
      }
      ReadingTotalsPartition(p);
      BombReadingKeys(c[|c| - 1].key);
    }
  }

  /** When every key is a two-bit string, the three classes cover all shots. */
  lemma {:induction false} ParseCountsPartition(counts: Counts)
    requires IsDict(counts) && TwoBitKeys(counts)
    ensures ParseCounts(counts).Sum() == Total(counts)
  {
    ParseCountsByClbits(counts);
    ReadingTotalsPartition(counts);
  }

  /** With a positive total and only two-bit keys, the three probabilities
      add up to exactly 1. */
  lemma ProbabilitiesSumToOne(counts: Counts)
    requires IsDict(counts) && TwoBitKeys(counts) && Total(counts) > 0
    ensures ComputeProbabilities(counts).Ok?
    ensures var p := ComputeProbabilities(counts).value;
      Same(Add(Add(p.exploded, p.successIfm), p.inconclusive), One)
  {
    var t := ParseCounts(counts);
    ParseCountsPartition(counts);
    SharesSumToOne(t.exploded, t.success, t.inconclusive, Total(counts));
  }

  /** single_iteration.py lines 13-35 without the printing and the plot; the simulator is the parameter. */
  method RunExperiment(simulate: (Circuit, nat) -> Counts) returns (r: Result<Probabilities>)
    ensures var counts := simulate(Circuit(2, 2, SingleShotProgram()), Shots);
      && r == ComputeProbabilities(counts)
      && (r.Err? <==> Total(counts) == 0)
      && (r.Ok? && IsDict(counts) && TwoBitKeys(counts) ==>
            Same(Add(Add(r.value.exploded, r.value.successIfm), r.value.inconclusive), One))
  {
    var qc := BuildSingleShotCircuit();
    var counts := simulate(qc.Snapshot(), Shots);
    r := ComputeProbabilities(counts);
    if r.Ok? && IsDict(counts) && TwoBitKeys(counts) {
      ProbabilitiesSumToOne(counts);
    }
  }
}
