/**
 * calcQuantumCost: the quantum cost of a gate sequence, one weight per gate type.
 * A gate type outside the weight table is fatal in the source (the process logs and exits);
 * here that outcome is the UnknownGateType value, carrying the offending name.
 */
module Cost {
  import opened Opt
  import opened Circuit

  const CnotName: string := "cnot"
  const FredkinName: string := "fredkin"
  const CnotWeight: nat := 1
  const FredkinWeight: nat := 5

  /** The weight table: "fredkin" costs 5, "cnot" costs 1, and nothing else has a weight. */
  function Weight(typeName: string): (w: Option<nat>)
    ensures w.Some? <==> typeName == FredkinName || typeName == CnotName
  {
    if typeName == FredkinName then Some(FredkinWeight)
    else if typeName == CnotName then Some(CnotWeight)
    else None
  }

  predicate Known(g: Gate) {
    Weight(g.typeName).Some?
  }

  predicate AllKnown(gates: seq<Gate>) {
    forall i :: 0 <= i < |gates| ==> Known(gates[i])
  }

  datatype CostOutcome = Cost(qc: int) | UnknownGateType(name: string)

  /**
   * The cost accumulated gate by gate from the front; the first gate without a weight
   * ends the computation with its type name.
   */
  function QuantumCost(gates: seq<Gate>): CostOutcome {
    if gates == [] then Cost(0)
    else
      var front := QuantumCost(gates[..|gates| - 1]);
      var last := gates[|gates| - 1];
      if front.UnknownGateType? then front
      else if !Known(last) then UnknownGateType(last.typeName)
      else Cost(front.qc + Weight(last.typeName).value)
  }

  /** The number of gates of the given type. */
  function Count(gates: seq<Gate>, typeName: string): (n: nat)
    ensures n <= |gates|
  {
    if gates == [] then 0
    else Count(gates[..|gates| - 1], typeName) + (if gates[|gates| - 1].typeName == typeName then 1 else 0)
  }

  /** calcQuantumCost: accumulate the weight of each gate in order, stopping at the first
   * unknown type. */
  method CalcQuantumCost(gates: seq<Gate>) returns (r: CostOutcome)
    ensures r == QuantumCost(gates)
  {
    var qc := 0;
    for i := 0 to |gates|
      invariant QuantumCost(gates[..i]) == Cost(qc)
    {
      assert gates[..i + 1][..i] == gates[..i];
      match Weight(gates[i].typeName)
      case None =>
        QuantumCostStopsAtUnknown(gates, i);
        return UnknownGateType(gates[i].typeName);
      case Some(w) =>
        qc := qc + w;
    }
    assert gates[..|gates|] == gates;
    r := Cost(qc);
  }

  /**
   * Cost is additive over concatenation, and an unknown type in the first part decides the
   * outcome before the second part is looked at.
   */
  lemma {:induction false} QuantumCostAppend(a: seq<Gate>, b: seq<Gate>)
    ensures QuantumCost(a + b) ==
      if QuantumCost(a).UnknownGateType? then QuantumCost(a)
      else if QuantumCost(b).UnknownGateType? then QuantumCost(b)
      else Cost(QuantumCost(a).qc + QuantumCost(b).qc)
  {
    if b == [] {
      assert a + b == a;
    } else {
      var b' := b[..|b| - 1];
      assert (a + b)[..|a + b| - 1] == a + b';
      assert (a + b)[|a + b| - 1] == b[|b| - 1];
      QuantumCostAppend(a, b');
    }
  }

  /** When the first unknown gate sits at index i, the outcome names its type. */
  lemma {:induction false} QuantumCostStopsAtUnknown(gates: seq<Gate>, i: nat)
    requires i < |gates| && QuantumCost(gates[..i]).Cost? && !Known(gates[i])
    ensures QuantumCost(gates) == UnknownGateType(gates[i].typeName)
  {
    var front := gates[..|gates| - 1];
    if i < |gates| - 1 {
      assert front[..i] == gates[..i] && front[i] == gates[i];
      QuantumCostStopsAtUnknown(front, i);
    }
  }

  /**
   * The computation succeeds exactly when every gate is a cnot or a fredkin, and then the
   * cost is one per cnot plus five per fredkin.
   */
  lemma {:induction false} QuantumCostCounts(gates: seq<Gate>)
    ensures QuantumCost(gates).Cost? <==> AllKnown(gates)
    ensures AllKnown(gates) ==>
      QuantumCost(gates) == Cost(CnotWeight * Count(gates, CnotName) + FredkinWeight * Count(gates, FredkinName))
  {
    if gates != [] {
      var front := gates[..|gates| - 1];
      QuantumCostCounts(front);
      assert forall i :: 0 <= i < |front| ==> front[i] == gates[i];
    }
  }

  /** The first gate of unknown type, scanning from the front, names the failure. */
  lemma QuantumCostFirstUnknown(gates: seq<Gate>, i: nat)
    requires i < |gates| && AllKnown(gates[..i]) && !Known(gates[i])
    ensures QuantumCost(gates) == UnknownGateType(gates[i].typeName)
  {
    QuantumCostCounts(gates[..i]);
    QuantumCostStopsAtUnknown(gates, i);
  }

  /** A cost lies between one and five per gate. */
  lemma QuantumCostBounds(gates: seq<Gate>)
    requires AllKnown(gates)
    ensures QuantumCost(gates).Cost? && |gates| <= QuantumCost(gates).qc <= 5 * |gates|
  {
    QuantumCostCounts(gates);
    CountKnownTypes(gates);
  }

  lemma {:induction false} CountKnownTypes(gates: seq<Gate>)
    requires AllKnown(gates)
    ensures Count(gates, CnotName) + Count(gates, FredkinName) == |gates|
  {
    if gates != [] {
      var front := gates[..|gates| - 1];
      assert forall i :: 0 <= i < |front| ==> front[i] == gates[i];
      CountKnownTypes(front);
    }
  }
}
