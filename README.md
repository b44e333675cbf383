# Elitzur–Vaidman bomb tester: verified model of the circuit builders and outcome counting

The repository simulates the Elitzur–Vaidman interaction-free measurement with Qiskit in two forms.
The single-shot interferometer uses one Hadamard, a CNOT "bomb" interaction and a second Hadamard.
The iterative quantum-Zeno form uses `n` cycles. Each cycle rotates the photon qubit by pi/n, couples it to the bomb qubit, measures the bomb qubit into a check bit and resets it.
The scripts build these circuits and run them on a simulator. They then sort each measured bit-string into one of three outcomes, Exploded, Success or Inconclusive, add up the shots per outcome and divide by the shot count.

This Dafny project models that logic around the simulator and proves properties of it:

- `circuits.dfy` (module `Circuits`) models the part of Qiskit's `QuantumCircuit` the scripts use. It is a class with a fixed qubit and classical-bit count and an instruction list that every gate call appends to. `Valid()` says every instruction's operands are in range, which Qiskit checks on each append. Angles are symbolic: `PiOver(n)` stands for `np.pi / n`.
- `counts_dict.dfy` (module `CountsDict`) models the counts dictionary returned by `get_counts()`. Because Python dicts iterate in insertion order, it is a sequence of `(key, count)` entries. Distinct keys are the predicate `IsDict`, required only where results of `get` are summed. The module also models `dict.get` and `sum(counts.values())`.
- `rationals.dfy` (module `Rationals`) holds exact rationals. They stand in for the floats `count / SHOTS` and `count / total`.
- `outcomes.dfy` (module `Outcomes`) holds the three outcomes, the three-counter `Tally`, and `Option`/`Result` for the Python exceptions.
- `multi_iteration.dfy` (module `MultiIteration`) models `Multi_iteration.py`: the n-cycle circuit, the first-match classification, the counting loop, and the sweep that fills `results`.
- `single_iteration.dfy` (module `SingleIteration`) models `single_iteration.py`: the fixed single-shot circuit, the two-bit key parsing and the probabilities.
- `circuit_visualize.dfy` (module `CircuitVisualize`) models `Circuit_visualize.py`: the two circuit builders used for drawing. Without their barriers they are proved equal to the circuits the experiments run.

Bit-ordering convention: a Qiskit result key prints the highest classical bit first, so bit `b` of a width-`w` key is character `w-1-b` (`Circuits.ClbitChar`).
In the iterative circuit the photon is read into bit `n`, the leftmost character. Check bit `b` is written by cycle `b`.
In the single-shot circuit qubit `q` is read into bit `q`, so the leftmost character is the bomb qubit.
`ClassifyByClbits` and `ParseCountsByClbits` tie each classification to this layout. `ZenoClbitWriters` and `SingleShotLayout` tie the layout to the circuits.

Behaviour of the scripts worth noting:

- The sweep keeps the rows in the order the cycle counts are listed. It does not sort them by ascending `n`.
- A cycle count of 0 fails with Python's `ZeroDivisionError` at `np.pi / n`, not with a dedicated parameter error, so the builders require `n >= 1`.
- The two scripts use different bit orderings and different Success bits (photon `'1'` in the single-shot script, photon `'0'` in the iterative one). Each is modelled as written.

## Model

| member | source | states |
|---|---|---|
| `Circuits.QuantumCircuit.constructor` | Multi_iteration.py:22 | a new circuit has the given qubit and classical-bit counts and no instructions |
| `Circuits.QuantumCircuit.ApplyRY` | Multi_iteration.py:28 | `ry(theta, q)` appends exactly one rotation and keeps every operand in range |
| `Circuits.QuantumCircuit.ApplyCX` | Multi_iteration.py:29 | `cx(c, t)` appends exactly one CNOT on two distinct in-range qubits |
| `Circuits.QuantumCircuit.MeasureInto` | Multi_iteration.py:30 | `measure(q, b)` appends exactly one measurement of an in-range qubit into an in-range bit |
| `Circuits.QuantumCircuit.ResetQubit` | Multi_iteration.py:31 | `reset(q)` appends exactly one reset |
| `Circuits.QuantumCircuit.ApplyH` | single_iteration.py:16 | `h(q)` appends exactly one Hadamard |
| `Circuits.QuantumCircuit.MeasureMany` | single_iteration.py:19 | `measure([0,1],[0,1])` appends one measurement per pair, qubit i into bit i, in order |
| `Circuits.QuantumCircuit.AddBarrier` | Circuit_visualize.py:15 | `barrier()` appends exactly one barrier |
| `Circuits.MeasurePairs` | single_iteration.py:19 | the broadcast of a qubit list onto a bit list has one `Measure(qubits[i], clbits[i])` per position |
| `Circuits.WithoutBarriers` | Circuit_visualize.py:31-39 | removing barriers leaves no barrier and never lengthens the instruction list |
| `Circuits.WithoutBarriersOfBarrierFree` | Circuit_visualize.py:31-39 | removing barriers from a list that has none returns the list unchanged |
| `Circuits.WithoutBarriersAppend` | Circuit_visualize.py:31-39 | removing barriers distributes over concatenation |
| `MultiIteration.BuildZenoCircuit` | Multi_iteration.py:22-33 | the loop builds a well-formed 2-qubit, `n+1`-bit circuit whose instructions are exactly `ZenoProgram(n)` |
| `MultiIteration.ZenoProgramShape` | Multi_iteration.py:22-33 | the list has length `4n+1`; cycle `step` is `ry(pi/n,0)`, `cx(0,1)`, `measure(1,step)`, `reset(1)` at slots `4step..4step+3`; the last instruction is `measure(0,n)`; every operand fits 2 qubits and `n+1` bits |
| `MultiIteration.ZenoProgramAt` | Multi_iteration.py:27-33 | slot `i` is slot `i % 4` of cycle `i / 4`, or the final photon readout |
| `MultiIteration.ZenoRotationsUniform` | Multi_iteration.py:25-28 | every rotation is about qubit 0 by the same angle pi/n, and there are exactly `n` of them |
| `MultiIteration.ZenoClbitWriters` | Multi_iteration.py:30-33 | bit `b < n` is written only by cycle `b`'s measurement of qubit 1, so the bits are written in increasing order; bit `n` is written only by the final measurement of qubit 0; and every bit `0..n` is written |
| `MultiIteration.ClassifyByClbits` | Multi_iteration.py:43-53 | `Classify`, the first-match rule of lines 45-53, read through the bit layout: for a width `n+1` result: Exploded iff some check bit `0..n-1` is `'1'`, whatever the photon bit is; Success iff no check fired and photon bit `n` (the leftmost character) is `'0'`; Inconclusive iff no check fired and the photon bit is not `'0'` |
| `MultiIteration.ClassifyTwoCycleExamples` | Multi_iteration.py:45-53 | for two cycles, `"100"` is Inconclusive, `"000"` is Success, and `"010"`, `"001"`, `"011"`, `"110"` are Exploded |
| `MultiIteration.CountOutcomes` | Multi_iteration.py:39-53 | the counting loop fails (IndexError at `bitstr[0]`) iff some key is empty; otherwise each counter equals the total shots of the keys classified into it |
| `MultiIteration.ClassTotalsPartition` | Multi_iteration.py:43-53 | with `Total` modelling `sum(counts.values())`: every key lands in exactly one counter, so the three counters add up to the sum of all counts |
| `MultiIteration.FractionsSumToOne` | Multi_iteration.py:57-59 | when the counters add up to `SHOTS`, `succ/SHOTS + exp/SHOTS + inc/SHOTS` is exactly 1 |
| `MultiIteration.RunZenoSeries` | Multi_iteration.py:15-59 | the sweep fails iff some simulated result has an empty key; otherwise `results['N']` is the cycle list in input order, all four columns have its length, row `k` holds the three fractions of cycle count `k`'s counts over `SHOTS`, and each row whose counts sum to `SHOTS` adds up to 1 |
| `SingleIteration.BuildSingleShotCircuit` | single_iteration.py:15-19 | the built circuit is well-formed, has 2 qubits and 2 bits, and its instructions are exactly `SingleShotProgram()` |
| `SingleIteration.SingleShotLayout` | single_iteration.py:15-19 | the circuit is exactly `h(0)`, `cx(0,1)`, `h(0)`, `measure(0,0)`, `measure(1,1)`: the photon goes to bit 0 and the bomb to bit 1 |
| `CountsDict.Get` | single_iteration.py:26-28 | `counts.get(k, d)` is `d` when `k` is absent, and otherwise the count stored under `k` |
| `CountsDict.GetIsKeySum` | single_iteration.py:26-28 | in a dictionary, `get(k, 0)` equals the total of the shots recorded under `k` |
| `SingleIteration.BombReadingKeys` | single_iteration.py:25-28 | reading a key through the circuit layout gives Exploded exactly for `'10'` and `'11'`, Success exactly for `'01'`, Inconclusive exactly for `'00'` |
| `SingleIteration.ParseCountsByClbits` | single_iteration.py:25-28 | `ParseCounts` computes the three `get(..., 0)` sums of lines 26-28; the parsed exploded count is the shots of every key whose bomb bit (leftmost) is `'1'`, success is those of `'01'`, inconclusive those of `'00'` |
| `SingleIteration.ParseCountsPartition` | single_iteration.py:26-30 | of `ParseCounts` and `Total` (`sum(counts.values())`, line 30): when every key is one of the four two-bit strings, exploded + success + inconclusive equals `total = sum(counts.values())` |
| `SingleIteration.ParseCountsBounded` | single_iteration.py:26-30 | in a dictionary the three class counts together never exceed `total` |
| `SingleIteration.ComputeProbabilities` | single_iteration.py:26-35 | the computation raises ZeroDivisionError iff the total is 0; otherwise each probability has a positive denominator, and for a dictionary each lies between 0 and 1 |
| `SingleIteration.ProbabilitiesSumToOne` | single_iteration.py:30-35 | with a positive total and only two-bit keys, the three probabilities add up to exactly 1 |
| `SingleIteration.RunExperiment` | single_iteration.py:13-35 | the experiment parses the simulator's counts for the single-shot circuit; it fails iff the total is 0, and with two-bit keys its probabilities add up to 1 |
| `Rationals.Div` | Multi_iteration.py:57-59 | `a / b` with `b != 0` is a fraction with a positive denominator that equals `a/b` |
| `Rationals.SharesSumToOne` | single_iteration.py:31-35 | three shares of a positive whole, each divided by that whole, add up to exactly 1 |
| `CircuitVisualize.GetBasicCircuit` | Circuit_visualize.py:9-22 | the built circuit is well-formed, has 2 qubits and 2 bits, and its instructions are exactly `BasicProgram()` |
| `CircuitVisualize.BasicMatchesSingleShot` | Circuit_visualize.py:10-22 | the basic circuit has 8 instructions ending in `measure(0,0)`, `measure(1,1)`; without barriers it is exactly the single-shot experiment's circuit |
| `CircuitVisualize.GetIterativeCircuit` | Circuit_visualize.py:24-40 | for `n >= 1` (default 3) the built circuit is well-formed, has 2 qubits and `n+1` bits, and its instructions are exactly `IterativeProgram(n)` |
| `CircuitVisualize.IterativeProgramAt` | Circuit_visualize.py:31-39 | slot `i` is slot `i % 5` of cycle `i / 5`, or one of the two closing instructions |
| `CircuitVisualize.IterativeProgramShape` | Circuit_visualize.py:25-39 | the list has length `5n+2`; cycle `i` is `barrier`, `ry(pi/n,0)`, `cx(0,1)`, `measure(1,i)`, `reset(1)`; the list ends with `barrier`, `measure(0,n)`; every operand fits 2 qubits and `n+1` bits |
| `CircuitVisualize.IterativeClbitWriters` | Circuit_visualize.py:29-39 | bits `0..n-1` are each written once, by cycle `i` in increasing order; bit `n` only by the final measurement of qubit 0; every rotation is about qubit 0 by pi/n |
| `CircuitVisualize.IterativeMatchesZeno` | Circuit_visualize.py:31-39 | without barriers, the drawn `n`-cycle circuit is exactly the sweep's `n`-cycle circuit |

## Left out

- `compare_plot.py` is not part of this model. It evaluates `cos(pi/2N)^(2N)` in floating point and plots it.
- The Aer simulator (`backend.run(...).result().get_counts()`) is a foreign engine. It is the parameter `simulate`, a total function from a circuit snapshot and a shot count to a counts dictionary. Backend failures are not modelled.
- Whether the counts a simulator returns sum to `SHOTS`, or have `n+1`-character keys, is not assumed. The row-sums-to-one property is stated only for rows whose counts sum to `SHOTS`.
- Sampling randomness is not modelled: `simulate` is a function, so the same circuit always yields the same counts, and a cycle count listed twice gets identical rows.
- The quantum-mechanical probabilities of each bit pattern, the Zeno suppression trend and the 25/25/50 single-shot split come from physics, not from the code's logic.
- The numeric value of theta is a float in the source. The model keeps it symbolic as `PiOver(n)`, so float rounding of the angle is not modelled.
- The fractions `count / SHOTS` and `count / total` are floats in the source. The model uses exact rationals, so float rounding of the probabilities is not modelled.
- All printing and drawing are not modelled: `print`, `.draw()`, `plot_zeno_histogram`, `plot_results` and the `__main__` blocks.
- Register names (`'q'`, `'c'`) are not modelled, because they do not affect the instruction list.
- `AerSimulator()` construction is not modelled.
