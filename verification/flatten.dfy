/** Flattening of the parsed circuit into index-based records for the bit
    level simulator: signal names become their rank in the sorted set of
    all signal names, and every gate becomes a fixed-capacity record with
    at most 15 fan-ins and 15 fan-outs.

    The record array comes from `new CudaGate[n]`, so its initial content
    is whatever the caller passes; the map iteration order of the gate
    loop is the parameter `order`. */
module Flatten {
  import opened Text
  import opened Wrappers
  import opened Implication

  const MAX_FANIN_SIZE: nat := 15
  const MAX_FANOUT_SIZE: nat := 15

  datatype CudaGateType = AND | OR | NOT | XOR | NAND | NOR | BUFF | XNOR | INPUT

  /** `gateType` is `None` while no type has been stored. */
  datatype CudaGate = CudaGate(gateType: Option<CudaGateType>, faninSize: int, fanoutSize: int,
                               fanin: seq<int>, fanout: seq<int>)

  /** The fixed-size fan-in and fan-out arrays of a record. */
  predicate Allocated(g: CudaGate)
  {
    |g.fanin| == MAX_FANIN_SIZE && |g.fanout| == MAX_FANOUT_SIZE
  }

  // ---------------------------------------------------------------------
  // Signal mapping

  /** `createSignalsSet`: the names the circuit holds a state for. */
  function SignalsSet(c: CCircuit): (r: set<string>)
    ensures forall n :: n in r <==> n in c.state
  {
    c.state.Keys
  }

  /** The members of `s` ordered before `x`. */
  function Before(s: set<string>, x: string): set<string>
  {
    set y | y in s && StrLess(y, x)
  }

  /** `getSignalMapping`: the distance from the start of the sorted set to
      `find(x)`, which is the end (the size) for a non-member. */
  function Mapping(s: set<string>, x: string): int
  {
    if x in s then |Before(s, x)| else |s|
  }

  /** Members map into [0, |s|); a non-member maps to |s|. */
  lemma MappingRange(s: set<string>, x: string)
    ensures x in s ==> 0 <= Mapping(s, x) < |s|
    ensures x !in s ==> Mapping(s, x) == |s|
  {
    if x in s {
      StrLessIrreflexive(x);
      assert x !in Before(s, x);
      StrictSubsetSize(Before(s, x), s);
    }
  }

  /** The mapping follows the lexicographic order of the names. */
  lemma MappingMonotone(s: set<string>, x: string, y: string)
    requires x in s && y in s && StrLess(x, y)
    ensures Mapping(s, x) < Mapping(s, y)
  {
    forall z | z in Before(s, x)
      ensures z in Before(s, y)
    {
      StrLessTransitive(z, x, y);
    }
    StrLessIrreflexive(x);
    assert x in Before(s, y) && x !in Before(s, x);
    StrictSubsetSize(Before(s, x), Before(s, y));
  }

  /** Distinct members get distinct indices. */
  lemma MappingInjective(s: set<string>, x: string, y: string)
    requires x in s && y in s && x != y
    ensures Mapping(s, x) != Mapping(s, y)
  {
    StrLessTotal(x, y);
    if StrLess(x, y) {
      MappingMonotone(s, x, y);
    } else {
      MappingMonotone(s, y, x);
    }
  }

  // ---------------------------------------------------------------------
  // Gate records

  /** The type names recognised in upper or lower case. */
  function TypeOf(t: string): (r: Option<CudaGateType>)
    ensures r == Some(INPUT) <==> t == "INPUT" || t == "input"
    ensures r == Some(NOT) <==> t == "NOT" || t == "not"
    ensures r == Some(BUFF) <==> t == "BUFF" || t == "buff"
  {
    if t == "BUFF" || t == "buff" then Some(BUFF)
    else if t == "NOT" || t == "not" then Some(NOT)
    else if t == "AND" || t == "and" then Some(AND)
    else if t == "NAND" || t == "nand" then Some(NAND)
    else if t == "OR" || t == "or" then Some(OR)
    else if t == "NOR" || t == "nor" then Some(NOR)
    else if t == "XOR" || t == "xor" then Some(XOR)
    else if t == "XNOR" || t == "xnor" then Some(XNOR)
    else if t == "INPUT" || t == "input" then Some(INPUT)
    else None
  }

  /** The size checks that precede every record write. */
  predicate Fits(g: CGate)
  {
    |g.inputs| <= MAX_FANIN_SIZE && |g.outputs| <= MAX_FANOUT_SIZE
  }

  function MapInto(slots: seq<int>, names: seq<string>, s: set<string>): (r: seq<int>)
    requires |names| <= |slots|
    ensures |r| == |slots|
    ensures forall i :: 0 <= i < |names| ==> r[i] == Mapping(s, names[i])
    ensures forall i :: |names| <= i < |slots| ==> r[i] == slots[i]
    decreases |names|
  {
    if |names| == 0 then slots
    else MapInto(slots, names[..|names| - 1], s)[|names| - 1 := Mapping(s, names[|names| - 1])]
  }

  /** One record write: the type when it is recognised (an unrecognised
      type leaves the stored one), the sizes, and the mapped fan-in and
      fan-out names; array slots past the sizes keep their content. */
  function Fill(old_: CudaGate, g: CGate, s: set<string>): (r: CudaGate)
    requires Allocated(old_) && Fits(g)
    ensures Allocated(r)
    ensures r.gateType == if TypeOf(g.gateType).Some? then TypeOf(g.gateType) else old_.gateType
    ensures r.faninSize == |g.inputs| && r.fanoutSize == |g.outputs|
    ensures forall i :: 0 <= i < |g.inputs| ==> r.fanin[i] == Mapping(s, g.inputs[i])
    ensures forall i :: 0 <= i < |g.outputs| ==> r.fanout[i] == Mapping(s, g.outputs[i])
    ensures forall i :: |g.inputs| <= i < MAX_FANIN_SIZE ==> r.fanin[i] == old_.fanin[i]
    ensures forall i :: |g.outputs| <= i < MAX_FANOUT_SIZE ==> r.fanout[i] == old_.fanout[i]
  {
    CudaGate(if TypeOf(g.gateType).Some? then TypeOf(g.gateType) else old_.gateType,
             |g.inputs|, |g.outputs|,
             MapInto(old_.fanin, g.inputs, s), MapInto(old_.fanout, g.outputs, s))
  }

  predicate AllAllocated(st: seq<CudaGate>)
  {
    forall j :: 0 <= j < |st| ==> Allocated(st[j])
  }

  /** The gates `createCircuitStructure` visits, in visiting order, and
      what writing their records needs: each has a gate and a slot. */
  predicate Visitable(c: CCircuit, order: seq<string>, s: set<string>)
  {
    forall i :: 0 <= i < |order| ==> order[i] in c.gates && order[i] in s
  }

  /** How many gates are written before the first one that is too wide. */
  function Cutoff(c: CCircuit, order: seq<string>): (k: nat)
    requires forall i :: 0 <= i < |order| ==> order[i] in c.gates
    ensures k <= |order|
    ensures forall j :: 0 <= j < k ==> Fits(c.gates[order[j]])
    ensures k < |order| ==> !Fits(c.gates[order[k]])
    decreases |order|
  {
    if |order| == 0 || !Fits(c.gates[order[0]]) then 0
    else 1 + Cutoff(c, order[1..])
  }

  /** `createCircuitStructure`. */
  function CreateStructure(st: seq<CudaGate>, c: CCircuit, order: seq<string>, s: set<string>): (r: seq<CudaGate>)
    requires |st| == |s| && AllAllocated(st) && Visitable(c, order, s)
    ensures |r| == |st| && AllAllocated(r)
    decreases |order|
  {
    if |order| == 0 then st
    else
      var g := c.gates[order[0]];
      if !Fits(g) then st
      else
        var m := Mapping(s, order[0]);
        MappingRange(s, order[0]);
        CreateStructure(st[m := Fill(st[m], g, s)], c, order[1..], s)
  }

  predicate DistinctNames(order: seq<string>)
  {
    forall i, j :: 0 <= i < j < |order| ==> order[i] != order[j]
  }

  /** One step of the gate loop, unfolded. */
  lemma CreateStructureStep(st: seq<CudaGate>, c: CCircuit, order: seq<string>, s: set<string>)
    requires |st| == |s| && AllAllocated(st) && Visitable(c, order, s)
    requires |order| > 0 && Fits(c.gates[order[0]])
    ensures 0 <= Mapping(s, order[0]) < |st|
    ensures var m := Mapping(s, order[0]);
      var st1 := st[m := Fill(st[m], c.gates[order[0]], s)];
      AllAllocated(st1) && Visitable(c, order[1..], s) &&
      CreateStructure(st, c, order, s) == CreateStructure(st1, c, order[1..], s) &&
      Cutoff(c, order) == 1 + Cutoff(c, order[1..])
  {
    MappingRange(s, order[0]);
  }

  /** Every gate before the first too-wide one has its record at its own
      index, filled from that gate.  Which records get written thus
      depends on the visiting order. */
  lemma {:induction false} CreateStructureWrites(st: seq<CudaGate>, c: CCircuit, order: seq<string>, s: set<string>, k: nat)
    requires |st| == |s| && AllAllocated(st) && Visitable(c, order, s) && DistinctNames(order)
    requires k < Cutoff(c, order)
    ensures 0 <= Mapping(s, order[k]) < |st|
    ensures CreateStructure(st, c, order, s)[Mapping(s, order[k])] == Fill(st[Mapping(s, order[k])], c.gates[order[k]], s)
    decreases |order|
  {
    CreateStructureStep(st, c, order, s);
    var m := Mapping(s, order[0]);
    var st1 := st[m := Fill(st[m], c.gates[order[0]], s)];
    var rest := order[1..];
    assert DistinctNames(rest);
    MappingRange(s, order[k]);
    if k == 0 {
      forall k' | 0 <= k' < Cutoff(c, rest)
        ensures Mapping(s, rest[k']) != m
      {
        assert rest[k'] == order[k' + 1];
        MappingInjective(s, rest[k'], order[0]);
      }
      CreateStructureKeeps(st1, c, rest, s, m);
    } else {
      assert order[k] == rest[k - 1];
      CreateStructureWrites(st1, c, rest, s, k - 1);
      MappingInjective(s, order[k], order[0]);
    }
  }

  /** A record no written gate maps to is left as it was. */
  lemma {:induction false} CreateStructureKeeps(st: seq<CudaGate>, c: CCircuit, order: seq<string>, s: set<string>, j: nat)
    requires |st| == |s| && AllAllocated(st) && Visitable(c, order, s) && DistinctNames(order)
    requires j < |st| && forall k :: 0 <= k < Cutoff(c, order) ==> Mapping(s, order[k]) != j
    ensures CreateStructure(st, c, order, s)[j] == st[j]
    decreases |order|
  {
    if |order| > 0 && Fits(c.gates[order[0]]) {
      CreateStructureStep(st, c, order, s);
      var m := Mapping(s, order[0]);
      var st1 := st[m := Fill(st[m], c.gates[order[0]], s)];
      var rest := order[1..];
      assert DistinctNames(rest);
      forall k | 0 <= k < Cutoff(c, rest)
        ensures Mapping(s, rest[k]) != j
      {
        assert rest[k] == order[k + 1];
      }
      CreateStructureKeeps(st1, c, rest, s, j);
    }
  }

  /** `createCircuitOutputs`: slot i of the output array holds the index
      of the i-th primary output; later slots keep their content. */
  method CreateOutputs(outs0: seq<int>, c: CCircuit, s: set<string>) returns (outs: seq<int>)
    requires |c.outputs| <= |outs0|
    ensures |outs| == |outs0|
    ensures forall i :: 0 <= i < |c.outputs| ==> outs[i] == Mapping(s, c.outputs[i])
    ensures forall i :: |c.outputs| <= i < |outs0| ==> outs[i] == outs0[i]
  {
    outs := outs0;
    var i := 0;
    while i < |c.outputs|
      invariant 0 <= i <= |c.outputs| && |outs| == |outs0|
      invariant forall j :: 0 <= j < i ==> outs[j] == Mapping(s, c.outputs[j])
      invariant forall j :: i <= j < |outs0| ==> outs[j] == outs0[j]
    {
      outs := outs[i := Mapping(s, c.outputs[i])];
      i := i + 1;
    }
  }

  /** With the set of the circuit's own signals, every primary output that
      has a state gets a distinct in-range index. */
  lemma OutputsDistinct(c: CCircuit, i: nat, j: nat)
    requires i < |c.outputs| && j < |c.outputs| && c.outputs[i] in c.state && c.outputs[j] in c.state
    requires c.outputs[i] != c.outputs[j]
    ensures 0 <= Mapping(SignalsSet(c), c.outputs[i]) < |SignalsSet(c)|
    ensures Mapping(SignalsSet(c), c.outputs[i]) != Mapping(SignalsSet(c), c.outputs[j])
  {
    MappingRange(SignalsSet(c), c.outputs[i]);
    MappingInjective(SignalsSet(c), c.outputs[i], c.outputs[j]);
  }
}
