/**
 * The search-campaign controller of main.go: for each algorithm configuration in load order,
 * build the synthesizer parameters, run the (external) synthesizer, filter its result by
 * complexity and quantum cost, and store accepted solutions. A store failure or an unknown
 * gate type stops the whole campaign.
 */
module Campaign {
  import opened Opt
  import opened Strconv
  import opened Circuit
  import opened Render
  import opened Cost

  /** An IEEE-754 double kept as its bit pattern: the controller only copies these values. */
  datatype Float64 = Float64(bits: bv64)

  /** One algorithm configuration as loaded from the input file. */
  datatype AlgConfig = AlgConfig(
    numOfAnts: int,
    numOfIterations: int,
    alpha: Float64,
    beta: Float64,
    evaporationRate: Float64,
    localLoops: int,
    searchDepth: int)

  /** The loaded input: cost ceiling, configurations in load order, truth table, target vector. */
  datatype Input = Input(
    targetQuantumCost: int,
    acoConfigs: seq<AlgConfig>,
    inputTT: seq<seq<int>>,
    targetVector: seq<int>)

  /** The parameters handed to the ant-colony synthesizer for one configuration. */
  datatype SynthConfig = SynthConfig(
    numOfAnts: int,
    numOfIterations: int,
    alpha: Float64,
    beta: Float64,
    evaporationRate: Float64,
    depositStrength: int,
    localLoops: int,
    searchDepth: int)

  /** The deposit strength every configuration runs with; it is not read from the input. */
  const DepositStrengthDefault: int := 100

  /** The tunables a synthesizer parameterisation carries, as an input configuration. */
  function Tunables(sc: SynthConfig): AlgConfig {
    AlgConfig(sc.numOfAnts, sc.numOfIterations, sc.alpha, sc.beta, sc.evaporationRate,
              sc.localLoops, sc.searchDepth)
  }

  /** The synthesizer parameters for a configuration: its tunables unchanged, deposit fixed. */
  function SynthConfigFor(c: AlgConfig): (sc: SynthConfig)
    ensures Tunables(sc) == c
    ensures sc.depositStrength == DepositStrengthDefault
  {
    SynthConfig(c.numOfAnts, c.numOfIterations, c.alpha, c.beta, c.evaporationRate,
                DepositStrengthDefault, c.localLoops, c.searchDepth)
  }

  /** The synthesizer parameters for each configuration, in load order. */
  function SynthConfigsFor(cs: seq<AlgConfig>): (scs: seq<SynthConfig>)
    ensures |scs| == |cs|
  {
    if cs == [] then [] else SynthConfigsFor(cs[..|cs| - 1]) + [SynthConfigFor(cs[|cs| - 1])]
  }

  lemma SynthConfigsForStep(cs: seq<AlgConfig>, i: nat)
    requires i < |cs|
    ensures SynthConfigsFor(cs[..i + 1]) == SynthConfigsFor(cs[..i]) + [SynthConfigFor(cs[i])]
  {
    assert cs[..i + 1][..i] == cs[..i];
  }

  /** Entry k of the parameters belongs to configuration k. */
  lemma {:induction false} SynthConfigsForAt(cs: seq<AlgConfig>, k: nat)
    requires k < |cs|
    ensures SynthConfigsFor(cs)[k] == SynthConfigFor(cs[k])
  {
    if k < |cs| - 1 {
      var front := cs[..|cs| - 1];
      SynthConfigsForAt(front, k);
      assert front[k] == cs[k];
    }
  }

  /** Distinct configurations get distinct parameters, and the parameters differ only there. */
  lemma SynthConfigForInjective(c: AlgConfig, d: AlgConfig)
    ensures SynthConfigFor(c) == SynthConfigFor(d) <==> c == d
  {
    assert Tunables(SynthConfigFor(c)) == c && Tunables(SynthConfigFor(d)) == d;
  }

  /** What the synthesizer returns: a residual complexity (0 is an exact match) and gates. */
  datatype SynthesisResult = SynthesisResult(complexity: int, gates: seq<Gate>)

  /** An accepted circuit: its cost, the target vector it realises, its gates. */
  datatype Solution = Solution(quantumCost: int, targetVector: seq<int>, gates: seq<Gate>)

  /** The decision taken on one synthesis result. */
  datatype Verdict =
    | SkipComplexity(complexity: int)
    | SkipCost(qc: int)
    | Save(solution: Solution)
    | FatalUnknownGate(name: string)

  /**
   * The acceptance filter: skip a result whose complexity is positive (its gates are not
   * priced then), otherwise price it and skip it when over the target cost.
   */
  function Filter(input: Input, res: SynthesisResult): Verdict {
    if res.complexity > 0 then SkipComplexity(res.complexity)
    else
      var cost := QuantumCost(res.gates);
      if cost.UnknownGateType? then FatalUnknownGate(cost.name)
      else if cost.qc > input.targetQuantumCost then SkipCost(cost.qc)
      else Save(Solution(cost.qc, input.targetVector, res.gates))
  }

  /** The cost the filter compares against the ceiling, by gate counts. */
  function CountedCost(gates: seq<Gate>): int {
    CnotWeight * Count(gates, CnotName) + FredkinWeight * Count(gates, FredkinName)
  }

  /**
   * A result is saved exactly when its complexity is not positive, all its gates are cnot or
   * fredkin, and their cost is within the ceiling; the saved solution carries that cost, the
   * input's target vector and the result's own gates.
   */
  lemma FilterSaves(input: Input, res: SynthesisResult)
    ensures Filter(input, res).Save? <==>
      res.complexity <= 0 && AllKnown(res.gates) && CountedCost(res.gates) <= input.targetQuantumCost
    ensures Filter(input, res).Save? ==>
      Filter(input, res).solution == Solution(CountedCost(res.gates), input.targetVector, res.gates)
  {
    QuantumCostCounts(res.gates);
  }

  /**
   * The filter is fatal exactly when the complexity is not positive and some gate has an
   * unknown type: a positive complexity short-circuits before any gate is priced.
   */
  lemma FilterFatal(input: Input, res: SynthesisResult)
    ensures Filter(input, res).FatalUnknownGate? <==> res.complexity <= 0 && !AllKnown(res.gates)
  {
    QuantumCostCounts(res.gates);
  }

  /** The solutions a run over these results saves, in order, when no save fails. */
  function Accepted(input: Input, results: seq<SynthesisResult>): seq<Solution> {
    if results == [] then []
    else
      var v := Filter(input, results[|results| - 1]);
      Accepted(input, results[..|results| - 1]) + if v.Save? then [v.solution] else []
  }

  /** Acceptance is decided result by result: a run over a + b saves a's solutions, then b's. */
  lemma {:induction false} AcceptedAppend(input: Input, a: seq<SynthesisResult>, b: seq<SynthesisResult>)
    ensures Accepted(input, a + b) == Accepted(input, a) + Accepted(input, b)
  {
    if b == [] {
      assert a + b == a;
    } else {
      var b' := b[..|b| - 1];
      assert (a + b)[..|a + b| - 1] == a + b';
      assert (a + b)[|a + b| - 1] == b[|b| - 1];
      AcceptedAppend(input, a, b');
    }
  }

  /** A single result contributes its solution when the filter saves it, and nothing else. */
  lemma AcceptedSingle(input: Input, res: SynthesisResult)
    ensures Accepted(input, [res]) == if Filter(input, res).Save? then [Filter(input, res).solution] else []
  {
    assert [res][..0] == [];
  }

  /** Handling result i after results[..i] adds at most its own solution. */
  lemma AcceptedStep(input: Input, results: seq<SynthesisResult>, i: nat)
    requires i < |results|
    ensures Accepted(input, results[..i + 1]) ==
      Accepted(input, results[..i]) + if Filter(input, results[i]).Save? then [Filter(input, results[i]).solution] else []
  {
    assert results[..i + 1][..i] == results[..i];
  }

  /**
   * Every accepted solution carries the input's target vector, a cost within the ceiling that
   * is the price of its own gates, and the gates of an exact result.
   */
  lemma {:induction false} AcceptedEntries(input: Input, results: seq<SynthesisResult>, s: Solution)
    requires s in Accepted(input, results)
    ensures s.targetVector == input.targetVector
    ensures s.quantumCost <= input.targetQuantumCost
    ensures QuantumCost(s.gates) == Cost(s.quantumCost)
    ensures exists i :: 0 <= i < |results| && results[i].complexity <= 0 && results[i].gates == s.gates
  {
    var front := results[..|results| - 1];
    var last := results[|results| - 1];
    if s in Accepted(input, front) {
      AcceptedEntries(input, front, s);
      var i :| 0 <= i < |front| && front[i].complexity <= 0 && front[i].gates == s.gates;
      assert results[i] == front[i];
    } else {
      assert Filter(input, last) == Save(s);
      assert results[|results| - 1] == last;
    }
  }

  /**
   * With a ceiling of 3: an exact single cnot (cost 1) is saved, an exact single fredkin
   * (cost 5) is rejected on cost, and an inexact pair of cnots is rejected on complexity.
   */
  lemma AcceptedExample(configs: seq<AlgConfig>, tt: seq<seq<int>>, tv: seq<int>, t: seq<int>, c: seq<int>)
    ensures var input := Input(3, configs, tt, tv);
      var cnot := Gate(CnotName, t, c);
      var fredkin := Gate(FredkinName, t, c);
      var results := [SynthesisResult(0, [cnot]), SynthesisResult(0, [fredkin]), SynthesisResult(2, [cnot, cnot])];
      && Filter(input, results[1]) == SkipCost(5)
      && Filter(input, results[2]) == SkipComplexity(2)
      && Accepted(input, results) == [Solution(1, tv, [cnot])]
  {
    var input := Input(3, configs, tt, tv);
    var cnot := Gate(CnotName, t, c);
    var fredkin := Gate(FredkinName, t, c);
    var results := [SynthesisResult(0, [cnot]), SynthesisResult(0, [fredkin]), SynthesisResult(2, [cnot, cnot])];
    assert [cnot][..0] == [] && [fredkin][..0] == [];
    assert QuantumCost([cnot]) == Cost(1);
    assert QuantumCost([fredkin]) == Cost(5);
    AcceptedStep(input, results, 0);
    AcceptedStep(input, results, 1);
    AcceptedStep(input, results, 2);
    assert results[..0] == [] && results[..3] == results;
  }

  /** The stored record: id, truth-vector string, quantum-cost decimal, gate-sequence string. */
  datatype Item = Item(id: string, truthVector: string, quantumCost: string, gates: string)

  /** The attributes SaveSolution writes for a solution under a given id. */
  function ItemFor(id: string, s: Solution): Item {
    Item(id, VectorText(s.targetVector), Itoa(s.quantumCost), GatesText(s.gates))
  }

  /** A stored record gives back the solution's target vector and cost exactly. */
  lemma ItemDecodes(id: string, s: Solution)
    ensures ItemFor(id, s).id == id
    ensures ParseVector(ItemFor(id, s).truthVector) == Some(s.targetVector)
    ensures ParseInt(ItemFor(id, s).quantumCost) == Some(s.quantumCost)
  {
    VectorTextRoundTrip(s.targetVector);
    ItoaRoundTrip(s.quantumCost);
  }

  /** Row i holds, under its own id, the rendering of solution i. */
  ghost predicate RowRenders(rows: seq<Item>, saved: seq<Solution>, i: nat)
    requires i < |rows| && i < |saved|
  {
    rows[i] == ItemFor(rows[i].id, saved[i])
  }

  /** What the n-th write to the store yields: the fresh id it used and whether it succeeded. */
  datatype PutOutcome = PutOutcome(id: string, ok: bool)

  /**
   * A handle on the result store. rows are the rows written through this handle, in the order
   * of the writes; rows the table already held are not represented, and the program never
   * reads them. saved is the solutions the rows were written from. The id generator and the
   * network are an oracle: env(n) is the outcome of the n-th write.
   */
  class Repository {
    var rows: seq<Item>
    ghost var saved: seq<Solution>
    var puts: nat
    const env: nat -> PutOutcome

    ghost predicate Valid()
      reads this
    {
      |rows| == |saved| &&
      forall i {:trigger RowRenders(rows, saved, i)} :: 0 <= i < |rows| ==> RowRenders(rows, saved, i)
    }

    constructor (env: nat -> PutOutcome)
      ensures Valid()
      ensures rows == [] && saved == [] && puts == 0 && this.env == env
    {
      rows := [];
      saved := [];
      puts := 0;
      this.env := env;
    }

    /** SaveSolution: render the solution, write it under a fresh id, report a failed write. */
    method SaveSolution(s: Solution) returns (err: bool)
      requires Valid()
      modifies this
      ensures Valid()
      ensures puts == old(puts) + 1
      ensures err == !env(old(puts)).ok
      ensures saved == if err then old(saved) else old(saved) + [s]
      ensures rows == if err then old(rows) else old(rows) + [ItemFor(env(old(puts)).id, s)]
    {
      var outcome := env(puts);
      var vectorS := VectorToStr(s.targetVector);
      var gatesS := GatesToStr(s.gates);
      var item := Item(outcome.id, vectorS, Itoa(s.quantumCost), gatesS);
      puts := puts + 1;
      if outcome.ok {
        ghost var rows0, saved0 := rows, saved;
        rows := rows + [item];
        saved := saved + [s];
        forall i | 0 <= i < |rows|
          ensures RowRenders(rows, saved, i)
        {
          if i < |rows0| {
            assert RowRenders(rows0, saved0, i);
          }
        }
      }
      err := !outcome.ok;
    }
  }

  /** Row i, one of those after rows0, is the record of its stored solution under its write's id. */
  ghost predicate RowWritten(rows0: seq<Item>, rows: seq<Item>, stored: seq<Solution>, env: nat -> PutOutcome,
                             p0: nat, i: nat)
  {
    && |rows0| <= i < |rows|
    && i - |rows0| < |stored|
    && rows[i] == ItemFor(env(p0 + (i - |rows0|)).id, stored[i - |rows0|])
  }

  /**
   * rows is rows0 followed by the records of stored, in order, each under the id of the
   * next write counted from write number p0.
   */
  ghost predicate RowsWritten(rows0: seq<Item>, rows: seq<Item>, stored: seq<Solution>, env: nat -> PutOutcome, p0: nat)
  {
    && |rows| == |rows0| + |stored|
    && rows[..|rows0|] == rows0
    && forall i :: |rows0| <= i < |rows| ==> RowWritten(rows0, rows, stored, env, p0, i)
  }

  /** One successful write appends exactly the record of its solution under the write's id. */
  lemma RowsWrittenOne(rows0: seq<Item>, s: Solution, env: nat -> PutOutcome, p0: nat)
    ensures RowsWritten(rows0, rows0 + [ItemFor(env(p0).id, s)], [s], env, p0)
  {
    var rows := rows0 + [ItemFor(env(p0).id, s)];
    assert rows[..|rows0|] == rows0;
    assert RowWritten(rows0, rows, [s], env, p0, |rows0|);
  }

  /** A row of the first batch stays in place when a second batch is appended. */
  lemma RowWrittenEarlier(rows0: seq<Item>, rows1: seq<Item>, rows2: seq<Item>, stored: seq<Solution>,
                          more: seq<Solution>, env: nat -> PutOutcome, p0: nat, i: nat)
    requires RowWritten(rows0, rows1, stored, env, p0, i)
    requires |rows1| <= |rows2| && rows2[..|rows1|] == rows1
    ensures RowWritten(rows0, rows2, stored + more, env, p0, i)
  {
    assert rows2[i] == rows2[..|rows1|][i];
    assert (stored + more)[i - |rows0|] == stored[i - |rows0|];
  }

  /** A row of the second batch is, counted from rows0, the next of the combined batch. */
  lemma RowWrittenLater(rows0: seq<Item>, rows1: seq<Item>, rows2: seq<Item>, stored: seq<Solution>,
                        more: seq<Solution>, env: nat -> PutOutcome, p0: nat, i: nat)
    requires |rows1| == |rows0| + |stored|
    requires RowWritten(rows1, rows2, more, env, p0 + |stored|, i)
    ensures RowWritten(rows0, rows2, stored + more, env, p0, i)
  {
    assert p0 + |stored| + (i - |rows1|) == p0 + (i - |rows0|);
    assert (stored + more)[i - |rows0|] == more[i - |rows1|];
  }

  /** Two batches of writes, the second starting where the first left off, make one batch. */
  lemma RowsWrittenAppend(rows0: seq<Item>, rows1: seq<Item>, rows2: seq<Item>, stored: seq<Solution>,
                          more: seq<Solution>, env: nat -> PutOutcome, p0: nat)
    requires RowsWritten(rows0, rows1, stored, env, p0)
    requires RowsWritten(rows1, rows2, more, env, p0 + |stored|)
    ensures RowsWritten(rows0, rows2, stored + more, env, p0)
  {
    assert rows2[..|rows0|] == rows2[..|rows1|][..|rows0|];
    forall i | |rows0| <= i < |rows2|
      ensures RowWritten(rows0, rows2, stored + more, env, p0, i)
    {
      if i < |rows1| {
        RowWrittenEarlier(rows0, rows1, rows2, stored, more, env, p0, i);
      } else {
        RowWrittenLater(rows0, rows1, rows2, stored, more, env, p0, i);
      }
    }
  }

  /** How handling one configuration ends: go on to the next one, or stop the campaign. */
  datatype StepOutcome = Continue | StopUnknownGate(name: string) | StopSaveFailed

  /**
   * The body of the configuration loop for one synthesis result: filter it and, when it is
   * accepted, save it. Only an accepted result touches the store.
   */
  method HandleResult(input: Input, res: SynthesisResult, repo: Repository) returns (step: StepOutcome)
    requires repo.Valid()
    modifies repo
    ensures repo.Valid()
    ensures step.StopUnknownGate? <==> Filter(input, res).FatalUnknownGate?
    ensures step.StopUnknownGate? ==> Filter(input, res) == FatalUnknownGate(step.name)
    ensures step.StopSaveFailed? ==> Filter(input, res).Save?
    ensures Filter(input, res).Save? ==>
      && repo.puts == old(repo.puts) + 1
      && (step.StopSaveFailed? <==> !repo.env(old(repo.puts)).ok)
      && repo.saved == if step.Continue? then old(repo.saved) + [Filter(input, res).solution] else old(repo.saved)
    ensures !Filter(input, res).Save? ==> repo.puts == old(repo.puts) && repo.saved == old(repo.saved)
    ensures repo.rows == old(repo.rows) +
      if Filter(input, res).Save? && step.Continue? then [ItemFor(repo.env(old(repo.puts)).id, Filter(input, res).solution)] else []
    ensures RowsWritten(old(repo.rows), repo.rows,
                        if Filter(input, res).Save? && step.Continue? then [Filter(input, res).solution] else [],
                        repo.env, old(repo.puts))
  {
    if res.complexity > 0 {
      return Continue;
    }
    var cost := CalcQuantumCost(res.gates);
    if cost.UnknownGateType? {
      return StopUnknownGate(cost.name);
    }
    if cost.qc > input.targetQuantumCost {
      return Continue;
    }
    ghost var rows0 := repo.rows;
    var err := repo.SaveSolution(Solution(cost.qc, input.targetVector, res.gates));
    if !err {
      RowsWrittenOne(rows0, Solution(cost.qc, input.targetVector, res.gates), repo.env, old(repo.puts));
    }
    if err {
      return StopSaveFailed;
    }
    return Continue;
  }

  /** How a round ends: all configurations handled, or stopped at configuration `at`. */
  datatype RoundOutcome =
    | RoundCompleted
    | StoppedUnknownGate(at: nat, name: string)
    | StoppedSaveFailed(at: nat)

  /** The round outcome that the step for configuration `at` leads to. */
  function StepEnds(step: StepOutcome, at: nat): RoundOutcome {
    match step
    case StopUnknownGate(name) => StoppedUnknownGate(at, name)
    case StopSaveFailed => StoppedSaveFailed(at)
    case Continue => RoundCompleted
  }

  /** The effect of a round: how it ended, the solutions it stored, the writes it issued. */
  datatype RoundEffect = RoundEffect(outcome: RoundOutcome, stored: seq<Solution>, puts: nat)

  /**
   * Handling configuration `at`, whose result got verdict v, after a round that has had
   * effect `before`: nothing happens once the round has stopped; a fatal verdict stops it; a
   * save issues the next write, which either stores the solution or stops the round.
   */
  function Advance(before: RoundEffect, at: nat, v: Verdict, env: nat -> PutOutcome): RoundEffect {
    if !before.outcome.RoundCompleted? then before
    else if v.FatalUnknownGate? then RoundEffect(StoppedUnknownGate(at, v.name), before.stored, before.puts)
    else if !v.Save? then before
    else if env(before.puts).ok then RoundEffect(RoundCompleted, before.stored + [v.solution], before.puts + 1)
    else RoundEffect(StoppedSaveFailed(at), before.stored, before.puts + 1)
  }

  /**
   * The round over the given results, configuration by configuration, when the store's
   * write counter starts at `puts`: a fatal verdict or a failed write ends it, and the
   * results after that point are never looked at.
   */
  function RunSpec(input: Input, results: seq<SynthesisResult>, env: nat -> PutOutcome, puts: nat): RoundEffect {
    if results == [] then RoundEffect(RoundCompleted, [], puts)
    else
      var at := |results| - 1;
      Advance(RunSpec(input, results[..at], env, puts), at, Filter(input, results[at]), env)
  }

  /** The number of configurations a round handled in full. */
  function Handled(outcome: RoundOutcome, total: nat): nat {
    if outcome.RoundCompleted? then total else outcome.at
  }

  lemma RunSpecStep(input: Input, results: seq<SynthesisResult>, env: nat -> PutOutcome, puts: nat, i: nat)
    requires i < |results|
    ensures RunSpec(input, results[..i + 1], env, puts) ==
      Advance(RunSpec(input, results[..i], env, puts), i, Filter(input, results[i]), env)
  {
    assert results[..i + 1][..i] == results[..i];
  }

  /** Once a round has stopped, further results change nothing: no later configuration runs. */
  lemma {:induction false} RunSpecStopsForGood(input: Input, results: seq<SynthesisResult>, more: seq<SynthesisResult>, env: nat -> PutOutcome, puts: nat)
    requires !RunSpec(input, results, env, puts).outcome.RoundCompleted?
    ensures RunSpec(input, results + more, env, puts) == RunSpec(input, results, env, puts)
  {
    if more == [] {
      assert results + more == results;
    } else {
      var more' := more[..|more| - 1];
      RunSpecStopsForGood(input, results, more', env, puts);
      assert (results + more)[..|results + more| - 1] == results + more';
    }
  }

  /** A round that stopped within the first i results ignores all the others. */
  lemma RunSpecStoppedWithin(input: Input, results: seq<SynthesisResult>, env: nat -> PutOutcome, puts: nat, i: nat)
    requires i <= |results|
    requires !RunSpec(input, results[..i], env, puts).outcome.RoundCompleted?
    ensures RunSpec(input, results, env, puts) == RunSpec(input, results[..i], env, puts)
  {
    RunSpecStopsForGood(input, results[..i], results[i..], env, puts);
    assert results[..i] + results[i..] == results;
  }

  /**
   * What a round did: with n the number of configurations it handled in full, it stored
   * exactly the accepted solutions of the first n results, in order, each with a successful
   * write, and none of those n results was fatal. A stop names the configuration that caused
   * it: a result with an unknown gate type, or an accepted result whose write failed.
   */
  ghost predicate RoundEffectHolds(input: Input, results: seq<SynthesisResult>, env: nat -> PutOutcome, puts: nat, r: RoundEffect) {
    var n := Handled(r.outcome, |results|);
    && n <= |results|
    && (!r.outcome.RoundCompleted? ==> r.outcome.at < |results|)
    && r.stored == Accepted(input, results[..n])
    && (forall k :: 0 <= k < n ==> !Filter(input, results[k]).FatalUnknownGate?)
    && (forall j :: puts <= j < puts + |r.stored| ==> env(j).ok)
    && r.puts == puts + |r.stored| + (if r.outcome.StoppedSaveFailed? then 1 else 0)
    && (r.outcome.StoppedUnknownGate? ==> Filter(input, results[n]) == FatalUnknownGate(r.outcome.name))
    && (r.outcome.StoppedSaveFailed? ==> Filter(input, results[n]).Save? && !env(r.puts - 1).ok)
  }

  /** Handling one more result keeps the description of what the round did. */
  lemma RoundEffectAdvance(input: Input, results: seq<SynthesisResult>, env: nat -> PutOutcome, puts: nat, before: RoundEffect)
    requires results != []
    requires RoundEffectHolds(input, results[..|results| - 1], env, puts, before)
    ensures RoundEffectHolds(input, results, env, puts, Advance(before, |results| - 1, Filter(input, results[|results| - 1]), env))
  {
    if before.outcome.RoundCompleted? {
      RoundEffectContinue(input, results, env, puts, before);
    } else {
      var at := |results| - 1;
      var n := before.outcome.at;
      assert results[..at][..n] == results[..n];
    }
  }

  lemma RoundEffectContinue(input: Input, results: seq<SynthesisResult>, env: nat -> PutOutcome, puts: nat, before: RoundEffect)
    requires results != [] && before.outcome.RoundCompleted?
    requires RoundEffectHolds(input, results[..|results| - 1], env, puts, before)
    ensures RoundEffectHolds(input, results, env, puts, Advance(before, |results| - 1, Filter(input, results[|results| - 1]), env))
  {
    var at := |results| - 1;
    assert results[..at][..at] == results[..at];
    assert results[..at + 1] == results;
    AcceptedStep(input, results, at);
    forall k | 0 <= k < at
      ensures !Filter(input, results[k]).FatalUnknownGate?
    {
      assert results[k] == results[..at][k];
    }
  }

  lemma {:induction false} RunSpecEffect(input: Input, results: seq<SynthesisResult>, env: nat -> PutOutcome, puts: nat)
    ensures RoundEffectHolds(input, results, env, puts, RunSpec(input, results, env, puts))
  {
    if results != [] {
      var front := results[..|results| - 1];
      RunSpecEffect(input, front, env, puts);
      RoundEffectAdvance(input, results, env, puts, RunSpec(input, front, env, puts));
    }
  }

  /** A round completes exactly when no result is fatal and every accepted result is written. */
  lemma RunSpecCompletes(input: Input, results: seq<SynthesisResult>, env: nat -> PutOutcome, puts: nat)
    ensures var r := RunSpec(input, results, env, puts);
      r.outcome.RoundCompleted? ==>
        && r.stored == Accepted(input, results)
        && r.puts == puts + |Accepted(input, results)|
        && (forall k :: 0 <= k < |results| ==> !Filter(input, results[k]).FatalUnknownGate?)
  {
    RunSpecEffect(input, results, env, puts);
    assert results[..|results|] == results;
  }

  /**
   * A step that behaves as HandleResult promises for verdict v advances a running round
   * exactly as the round's specification does.
   */
  lemma AdvanceByStep(stored: seq<Solution>, puts0: nat, puts1: nat, at: nat, v: Verdict,
                      env: nat -> PutOutcome, step: StepOutcome)
    requires step.StopUnknownGate? <==> v.FatalUnknownGate?
    requires step.StopUnknownGate? ==> v == FatalUnknownGate(step.name)
    requires step.StopSaveFailed? ==> v.Save?
    requires v.Save? ==> puts1 == puts0 + 1 && (step.StopSaveFailed? <==> !env(puts0).ok)
    requires !v.Save? ==> puts1 == puts0
    ensures Advance(RoundEffect(RoundCompleted, stored, puts0), at, v, env) ==
      RoundEffect(StepEnds(step, at), stored + if v.Save? && step.Continue? then [v.solution] else [], puts1)
  {
    assert stored + [] == stored;
  }

  /**
   * The store's contents after the round has handled results[..i], starting from rows0,
   * saved0 and write number p0: the round so far is RunSpec's, and the rows added are the
   * records of the stored solutions under the ids of consecutive successful writes.
   */
  ghost predicate Progress(input: Input, results: seq<SynthesisResult>, i: nat,
                           rows: seq<Item>, saved: seq<Solution>, puts: nat, env: nat -> PutOutcome,
                           rows0: seq<Item>, saved0: seq<Solution>, p0: nat,
                           outcome: RoundOutcome, stored: seq<Solution>)
  {
    && i <= |results|
    && saved == saved0 + stored
    && puts == p0 + |stored| + (if outcome.StoppedSaveFailed? then 1 else 0)
    && RowsWritten(rows0, rows, stored, env, p0)
    && RunSpec(input, results[..i], env, p0) == RoundEffect(outcome, stored, puts)
  }

  /**
   * A step that behaves as HandleResult promises for results[i] carries the round's
   * specification, the saved solutions and the write counter from results[..i] to
   * results[..i + 1].
   */
  lemma EffectStep(input: Input, results: seq<SynthesisResult>, i: nat, env: nat -> PutOutcome,
                   saved0: seq<Solution>, p0: nat, stored: seq<Solution>,
                   saved1: seq<Solution>, puts1: nat, saved2: seq<Solution>, puts2: nat, step: StepOutcome)
    requires i < |results|
    requires saved1 == saved0 + stored && puts1 == p0 + |stored|
    requires RunSpec(input, results[..i], env, p0) == RoundEffect(RoundCompleted, stored, puts1)
    requires var v := Filter(input, results[i]);
      && (step.StopUnknownGate? <==> v.FatalUnknownGate?)
      && (step.StopUnknownGate? ==> v == FatalUnknownGate(step.name))
      && (step.StopSaveFailed? ==> v.Save?)
      && (v.Save? ==>
            && puts2 == puts1 + 1
            && (step.StopSaveFailed? <==> !env(puts1).ok)
            && saved2 == if step.Continue? then saved1 + [v.solution] else saved1)
      && (!v.Save? ==> puts2 == puts1 && saved2 == saved1)
    ensures var v := Filter(input, results[i]);
      var stored' := stored + if v.Save? && step.Continue? then [v.solution] else [];
      && saved2 == saved0 + stored'
      && puts2 == p0 + |stored'| + (if StepEnds(step, i).StoppedSaveFailed? then 1 else 0)
      && RunSpec(input, results[..i + 1], env, p0) == RoundEffect(StepEnds(step, i), stored', puts2)
  {
    var v := Filter(input, results[i]);
    RunSpecStep(input, results, env, p0, i);
    AdvanceByStep(stored, puts1, puts2, i, v, env, step);
    assert saved2 == saved1 + if v.Save? && step.Continue? then [v.solution] else [];
  }

  /**
   * A step that behaves as HandleResult promises for results[i] carries the round's progress
   * from results[..i] to results[..i + 1].
   */
  lemma ProgressStep(input: Input, results: seq<SynthesisResult>, i: nat, env: nat -> PutOutcome,
                     rows0: seq<Item>, saved0: seq<Solution>, p0: nat, stored: seq<Solution>,
                     rows1: seq<Item>, saved1: seq<Solution>, puts1: nat,
                     rows2: seq<Item>, saved2: seq<Solution>, puts2: nat, step: StepOutcome)
    requires i < |results|
    requires Progress(input, results, i, rows1, saved1, puts1, env, rows0, saved0, p0, RoundCompleted, stored)
    requires var v := Filter(input, results[i]);
      && (step.StopUnknownGate? <==> v.FatalUnknownGate?)
      && (step.StopUnknownGate? ==> v == FatalUnknownGate(step.name))
      && (step.StopSaveFailed? ==> v.Save?)
      && (v.Save? ==>
            && puts2 == puts1 + 1
            && (step.StopSaveFailed? <==> !env(puts1).ok)
            && saved2 == if step.Continue? then saved1 + [v.solution] else saved1)
      && (!v.Save? ==> puts2 == puts1 && saved2 == saved1)
      && RowsWritten(rows1, rows2, if v.Save? && step.Continue? then [v.solution] else [], env, puts1)
    ensures var v := Filter(input, results[i]);
      Progress(input, results, i + 1, rows2, saved2, puts2, env, rows0, saved0, p0, StepEnds(step, i),
               stored + if v.Save? && step.Continue? then [v.solution] else [])
  {
    var v := Filter(input, results[i]);
    EffectStep(input, results, i, env, saved0, p0, stored, saved1, puts1, saved2, puts2, step);
    RowsWrittenAppend(rows0, rows1, rows2, stored, if v.Save? && step.Continue? then [v.solution] else [], env, p0);
  }

  /** The store after the round has handled results[..i], as Progress says, and consistent. */
  ghost predicate RoundProgress(input: Input, results: seq<SynthesisResult>, i: nat, repo: Repository,
                                rows0: seq<Item>, saved0: seq<Solution>, p0: nat,
                                outcome: RoundOutcome, stored: seq<Solution>)
    reads repo
  {
    && repo.Valid()
    && Progress(input, results, i, repo.rows, repo.saved, repo.puts, repo.env, rows0, saved0, p0, outcome, stored)
  }

  /** One configuration of the round: handle its result and account for it. */
  method RunConfig(input: Input, results: seq<SynthesisResult>, i: nat, repo: Repository,
                   ghost rows0: seq<Item>, ghost saved0: seq<Solution>, ghost p0: nat, ghost stored: seq<Solution>)
    returns (outcome: RoundOutcome, ghost stored': seq<Solution>)
    requires i < |results|
    requires RoundProgress(input, results, i, repo, rows0, saved0, p0, RoundCompleted, stored)
    modifies repo
    ensures RoundProgress(input, results, i + 1, repo, rows0, saved0, p0, outcome, stored')
    ensures !outcome.RoundCompleted? ==> outcome.at == i
  {
    ghost var rows1, saved1, puts1 := repo.rows, repo.saved, repo.puts;
    var step := HandleResult(input, results[i], repo);
    outcome := StepEnds(step, i);
    stored' := stored + if Filter(input, results[i]).Save? && step.Continue? then [Filter(input, results[i]).solution] else [];
    ProgressStep(input, results, i, repo.env, rows0, saved0, p0, stored, rows1, saved1, puts1,
                 repo.rows, repo.saved, repo.puts, step);
  }

  /**
   * One round of the campaign: results[i] is what the synthesizer returned for configuration
   * i. Returns how the round ended and the synthesizer parameters it issued, in order.
   */
  method RunRound(input: Input, results: seq<SynthesisResult>, repo: Repository)
    returns (outcome: RoundOutcome, issued: seq<SynthConfig>)
    requires |results| == |input.acoConfigs|
    requires repo.Valid()
    modifies repo
    ensures repo.Valid()
    ensures var r := RunSpec(input, results, repo.env, old(repo.puts));
      outcome == r.outcome && repo.saved == old(repo.saved) + r.stored && repo.puts == r.puts
    ensures RowsWritten(old(repo.rows), repo.rows, RunSpec(input, results, repo.env, old(repo.puts)).stored,
                        repo.env, old(repo.puts))
    ensures |issued| <= |results|
    ensures |issued| == if outcome.RoundCompleted? then |results| else outcome.at + 1
    ensures issued == SynthConfigsFor(input.acoConfigs[..|issued|])
  {
    issued := [];
    ghost var stored: seq<Solution> := [];
    for i := 0 to |input.acoConfigs|
      invariant issued == SynthConfigsFor(input.acoConfigs[..i])
      invariant RoundProgress(input, results, i, repo, old(repo.rows), old(repo.saved), old(repo.puts), RoundCompleted, stored)
    {
      issued := issued + [SynthConfigFor(input.acoConfigs[i])];
      SynthConfigsForStep(input.acoConfigs, i);
      outcome, stored := RunConfig(input, results, i, repo, old(repo.rows), old(repo.saved), old(repo.puts), stored);
      if !outcome.RoundCompleted? {
        RunSpecStoppedWithin(input, results, repo.env, old(repo.puts), i + 1);
        return;
      }
    }
    assert results[..|results|] == results;
    outcome := RoundCompleted;
  }
}
