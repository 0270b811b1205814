# revsynth-researcher: the campaign controller, modelled in Dafny

revsynth-researcher runs a search campaign for reversible circuits. It loads one input:
- a quantum-cost ceiling;
- an ordered list of ant-colony algorithm configurations;
- a target truth table and target permutation vector.

For each configuration, in load order, it then does the following:
1. It builds the synthesizer parameters. The configuration's tunables are copied and the deposit strength is fixed at 100.
2. It runs the synthesizer.
3. It drops a result whose residual complexity is positive.
4. It prices the circuit: cnot costs 1, fredkin costs 5, and any other gate type is fatal.
5. It drops a circuit whose cost exceeds the ceiling.
6. It writes every other circuit to a DynamoDB table.

The stored row holds a fresh uuid, the target vector rendered as `[1, 0, 1]`, the cost as a decimal number, and the gates rendered last-first as `fredkin([0], [1, 2]), cnot([1], [0])`. A failed write is fatal.

The model has six modules:

- `Opt` — an `Option` datatype.
- `Strconv` — Go's `strconv.Itoa` (`Itoa`), with a parser `ParseInt` that inverts it. The parser is not part of the program. It is a reference definition, used to show that the decimal text written to the table determines the integer.
- `Circuit` — a gate: its type name, target bits and control bits.
- `Render` — `strings.Join` (`Join`), `vectorToStr` (method `VectorToStr`, proved equal to `VectorText`) and `gatesToStr` (method `GatesToStr`, proved equal to `GatesText`). `ParseVector` is a reference parser for vector strings.
- `Cost` — `calcQuantumCost`. The method `CalcQuantumCost` is proved equal to the function `QuantumCost`. An unknown gate type is the outcome `UnknownGateType(name)` instead of a process exit.
- `Campaign` — the rest of the controller:
  - the configuration copy (`SynthConfigFor`);
  - the acceptance filter (`Filter`), and the solutions it accepts from a list of results (`Accepted`);
  - the stored record (`ItemFor`);
  - the repository handle as a class. Its rows are the rows written through it, and they grow by one per successful write (`Repository.SaveSolution`);
  - one pass over the configurations (`RunRound`), proved equal to the function `RunSpec`. Its properties are stated as lemmas about `RunSpec`.

Things outside the controller are parameters:
- The synthesizer's answer for configuration i is `results[i]`.
- The uuid generator and the network are an oracle: `env(n)` gives the id and the success of the n-th write.

## Model

| member | source | states |
|---|---|---|
| Strconv.NatToDecimal | main.go:65 | the digits of a magnitude form a canonical decimal: non-empty, digits only, no leading zero; the text is "0" exactly when the number is 0 |
| Strconv.Itoa | main.go:65 | the text is non-empty, starts with '-' exactly when the integer is negative, and never contains ',' or ' ', so it cannot be confused with the ", " separator |
| Strconv.ItoaRoundTrip | main.go:97 | parsing the decimal text written for a quantum cost gives back that cost |
| Strconv.ItoaParseInt | main.go:97 | a string parses to i exactly when it is the text Itoa writes for i, in both directions |
| Strconv.ItoaInjective | main.go:97 | distinct costs are written as distinct texts |
| Render.Join | main.go:68-79 | strings.Join as called at main.go:68 and main.go:79. It has no contract of its own: VectorTextExample, VectorTextParse, GatesTextSnoc and GatesTextThree state what it produces |
| Render.VectorToStr | main.go:62-69 | the loop that appends each element's decimal and then joins and brackets them returns VectorText(v) |
| Render.VectorTextExample | main.go:62-69 | [] renders as "[]" and [1, 0, 1] renders as "[1, 0, 1]" |
| Render.VectorTextSignedExample | main.go:64-68 | a negative, multi-digit element keeps its sign and digits: [-12, 7] renders as "[-12, 7]" |
| Render.VectorTextParse | main.go:62-69 | the rendering is lossless: a string parses to v exactly when it is v's rendering |
| Render.VectorTextInjective | main.go:62-69 | distinct vectors get distinct strings |
| Render.GatesToStr | main.go:71-80 | the loop running from the last gate down to the first returns GatesText(gates) |
| Render.EntriesLastFirstAt | main.go:74-77 | there is one entry per gate, and entry k is the rendering of the k-th gate counted from the end |
| Render.GatesTextSnoc | main.go:71-80 | no gates render as ""; appending a gate to the synthesizer's list puts its rendering first, followed by ", " and the old text |
| Render.GatesTextThree | main.go:74-79 | gates g0, g1, g2 render as g2, g1, g0, each as TypeName(targets, controls) |
| Cost.Weight | main.go:138-145 | a type name has a weight exactly when it is "fredkin" or "cnot" |
| Cost.CalcQuantumCost | main.go:135-148 | the accumulating loop returns QuantumCost(gates), and stops at the first unknown type |
| Cost.QuantumCostCounts | main.go:135-148 | pricing succeeds exactly when every gate is a cnot or a fredkin, and the cost is then 1 per cnot plus 5 per fredkin |
| Cost.QuantumCostFirstUnknown | main.go:137-145 | when gate i is the first unknown one, the failure names gate i's type |
| Cost.QuantumCostStopsAtUnknown | main.go:143-144 | once the prefix before gate i prices fine and gate i is unknown, later gates do not change the failure |
| Cost.QuantumCostAppend | main.go:136-146 | pricing is additive over concatenation, and an unknown type in the first part decides the outcome first |
| Cost.QuantumCostBounds | main.go:137-142 | a priced sequence costs between 1 and 5 per gate |
| Cost.CountKnownTypes | main.go:138-142 | in a sequence of known gates, the cnot count plus the fredkin count is the length |
| Campaign.SynthConfigFor | main.go:159-168 | the synthesizer parameters carry the configuration's seven tunables unchanged and deposit strength 100 |
| Campaign.SynthConfigForInjective | main.go:159-168 | distinct configurations get distinct parameters |
| Campaign.SynthConfigsForAt | main.go:157-168 | the k-th parameters issued in a round belong to the k-th configuration in load order |
| Campaign.Filter | main.go:179-188 | the verdict on one synthesis result: skip a positive complexity, stop on an unknown gate type, skip a cost over the ceiling, otherwise save. It has no contract of its own: FilterSaves and FilterFatal state it |
| Campaign.FilterSaves | main.go:179-194 | a result is saved exactly when its complexity is not positive, all gates are known and their cost is within the ceiling; the solution carries that cost, the input's target vector and the result's gates |
| Campaign.FilterFatal | main.go:179-184 | the filter is fatal exactly when the complexity is not positive and some gate type is unknown; a positive complexity skips pricing |
| Campaign.AcceptedAppend | main.go:157-198 | acceptance is decided result by result: the solutions accepted from a + b are a's, then b's |
| Campaign.AcceptedEntries | main.go:179-194 | every accepted solution carries the input's target vector and a cost within the ceiling that is the price of its own gates, and comes from an exact result |
| Campaign.AcceptedExample | main.go:179-194 | with ceiling 3: an exact cnot is saved at cost 1, an exact fredkin is rejected at cost 5, and a complexity-2 result is rejected |
| Campaign.ItemDecodes | main.go:83-102 | the stored record carries the write's id, and its vector and cost attributes parse back to the solution's target vector and cost |
| Campaign.Repository.constructor | main.go:131-132 | a fresh handle has written no rows and made no writes |
| Campaign.Repository.SaveSolution | main.go:82-105 | every call makes one write with the next oracle id; it reports an error exactly when that write fails; on success the rows written through the handle gain exactly the row ItemFor(id, s), otherwise they are unchanged |
| Campaign.HandleResult | main.go:179-197 | the per-configuration step stops on an unknown gate type exactly when the filter is fatal; it writes exactly when the filter saves, and stops exactly when that write fails; the rows gain exactly ItemFor(id of that write, the solution) when the write succeeds, and are unchanged otherwise |
| Campaign.RunConfig | main.go:170-197 | handling configuration i carries the round from results[..i] to results[..i + 1] as RunSpec says, keeps the rows equal to the earlier rows followed by the records of the stored solutions, and a stop is at configuration i |
| Campaign.RunRound | main.go:157-198 | the configuration loop ends as RunSpec says; the earlier rows are untouched and are followed by exactly the records of RunSpec's stored solutions, in order, each under the id of its own write (RowsWritten); the parameters issued are those of the configurations reached, in load order |
| Campaign.RunSpecStopsForGood | main.go:143-197 | once a round has stopped, at the exit for an unknown gate type (main.go:143-144) or for a failed write (main.go:195-197), no later result is looked at |
| Campaign.RunSpecStoppedWithin | main.go:195-197 | a round that stopped within the first i results has the same effect whatever results follow |
| Campaign.RunSpecEffect | main.go:157-198 | for the n configurations a round handled in full: it stored exactly their accepted solutions in order, each with a successful write, and none was fatal; a stop names its configuration and its cause |
| Campaign.RunSpecCompletes | main.go:157-198 | a completed round stored exactly the accepted solutions of all results, made one write per solution, and met no unknown gate type |

## Left out

- The unbounded outer loop (main.go:155) is not modelled. One round is modelled, and a campaign is that round repeated until a stop.
- readInput (main.go:107-120) is not modelled, because it does file I/O and JSON decoding. Its result is the `Input` parameter.
- createDDBRepository (main.go:122-133) is not modelled, because it configures the AWS client. Only the `Repository` object it yields is modelled.
- Rows that the DynamoDB table already holds when the program starts are not represented, because the program never reads them. `Repository.rows` is the rows written through this handle.
- The synthesizer is not modelled, because it lives in another repository. Its result for configuration i is the parameter `results[i]`, and the fixed gate-factory list it receives is not represented.
- The uuid generator and the PutItem call are not modelled, because they are randomness and network. They are the oracle `env`: the n-th write uses `env(n).id` and succeeds when `env(n).ok`. DynamoDB's attribute typing is not modelled: the N-typed quantum-cost attribute is kept as its decimal string.
- Logging (log.Println) is not modelled, because it does output only. A process exit through log.Fatalln is modelled as a stop outcome.
- Float64 tunables are not modelled numerically, because they are only copied. Each is kept as its 64-bit pattern.
- The width of the deposit-strength field is not modelled, because aco.Config is not part of this model. The field is assumed to be an integer.
- Campaign.Filter: a complexity of 0 means the synthesizer matched the target exactly, yet main.go:179 skips only a positive complexity. The model follows the code, so a negative complexity goes on to pricing.
- Cost.QuantumCost: Go's int is 64 bits and the model's costs are unbounded. The cost grows by at most 5 per gate, so a wrap-around would need more than 10^18 gates.
