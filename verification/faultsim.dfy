/** The serial bit-level fault simulator over the flattened records.  For
    every test vector it makes 2N+1 runs over the N signals in traversal
    order: run 0 is fault-free, run k >= 1 holds signal (k-1)/2 stuck at
    0 (k-1 even) or 1 (k-1 odd).  A fault is detected by a vector when some
    primary output differs from the fault-free run.

    States are bytes (`bv8`).  The local state array is uninitialised in
    the source; every run here starts from whatever the previous run left,
    and `RunIgnoresStart` shows the written part does not depend on it. */
module FaultSim {
  import opened Roth
  import opened Wrappers
  import opened Flatten

  const LIMIT_NUM_SIGNALS: nat := 10240

  // ---------------------------------------------------------------------
  // Gate evaluation

  /** C's `!` on a byte (or an int): 1 for zero, 0 otherwise. */
  function LNot(x: int): (r: bv8)
    ensures r == 1 <==> x == 0
    ensures r == 0 || r == 1
  {
    if x == 0 then 1 else 0
  }

  datatype BitOp = BitAnd | BitOr | BitXor

  function BitApply(op: BitOp, a: bv8, b: bv8): bv8
  {
    match op
    case BitAnd => a & b
    case BitOr => a | b
    case BitXor => a ^ b
  }

  /** The record can be evaluated against `s`: every fan-in index it reads
      names a slot of `s`. */
  predicate Readable(g: CudaGate, s: seq<bv8>)
  {
    Span(g) <= |g.fanin| && forall i :: 0 <= i < Span(g) ==> 0 <= g.fanin[i] < |s|
  }

  /** The fan-ins the evaluation reads: fan-in 0 always, then up to the
      recorded fan-in size. */
  function Span(g: CudaGate): (n: int)
    ensures n >= 1 && (g.faninSize >= 1 ==> n == g.faninSize)
  {
    if g.faninSize < 1 then 1 else g.faninSize
  }

  /** The fold loop `val op= s[fanin[i]]` for i in [1, n), seeded with the
      state of fan-in 0. */
  function BitFold(op: BitOp, g: CudaGate, s: seq<bv8>, n: nat): bv8
    requires Readable(g, s) && 1 <= n <= Span(g)
  {
    if n == 1 then s[g.fanin[0]] else BitApply(op, BitFold(op, g, s, n - 1), s[g.fanin[n - 1]])
  }

  /** The switch of `faultSim_serial` as written.  NOT applies `!` to the
      fan-in index instead of its state; BUFF, INPUT and an unset type copy
      fan-in 0. */
  function GateValue(g: CudaGate, s: seq<bv8>): bv8
    requires Readable(g, s)
  {
    match g.gateType
    case Some(AND) => BitFold(BitAnd, g, s, Span(g))
    case Some(OR) => BitFold(BitOr, g, s, Span(g))
    case Some(NOT) => LNot(g.fanin[0])
    case Some(XOR) => BitFold(BitXor, g, s, Span(g))
    case Some(NAND) => LNot(BitFold(BitAnd, g, s, Span(g)) as int)
    case Some(NOR) => LNot(BitFold(BitOr, g, s, Span(g)) as int)
    case Some(XNOR) => LNot(BitFold(BitXor, g, s, Span(g)) as int)
    case _ => s[g.fanin[0]]
  }

  /** The evaluation with NOT reading its fan-in's state. */
  function IntendedGateValue(g: CudaGate, s: seq<bv8>): bv8
    requires Readable(g, s)
  {
    if g.gateType == Some(NOT) then LNot(s[g.fanin[0]] as int) else GateValue(g, s)
  }

  /** Which NOT evaluation a run uses: `!` on the fan-in index, as the
      source is written, or on the fan-in's state, as intended. */
  datatype NotRule = NotOfIndex | NotOfState

  /** The gate evaluation under a NOT rule. */
  function RuleValue(rule: NotRule, g: CudaGate, s: seq<bv8>): bv8
    requires Readable(g, s)
  {
    if rule == NotOfIndex then GateValue(g, s) else IntendedGateValue(g, s)
  }

  /** A NOT gate whose fan-in is signal 1 with value 0 yields 0 as written,
      where an inverter yields 1. */
  lemma NotAsWrittenDiffers()
    ensures var g := CudaGate(Some(NOT), 1, 0, [1] + seq(14, _ => 0), seq(15, _ => 0));
      var s: seq<bv8> := [1, 0];
      Readable(g, s) && s[g.fanin[0]] == 0 && GateValue(g, s) == 0 && IntendedGateValue(g, s) == 1
  {
    var g := CudaGate(Some(NOT), 1, 0, [1] + seq(14, _ => 0), seq(15, _ => 0));
    assert g.fanin[0] == 1;
  }

  /** The value only depends on the fan-in slots. */
  lemma {:induction false} BitFoldLocal(op: BitOp, g: CudaGate, s1: seq<bv8>, s2: seq<bv8>, n: nat)
    requires Readable(g, s1) && Readable(g, s2) && 1 <= n <= Span(g)
    requires forall i :: 0 <= i < Span(g) ==> s1[g.fanin[i]] == s2[g.fanin[i]]
    ensures BitFold(op, g, s1, n) == BitFold(op, g, s2, n)
  {
    if n > 1 {
      BitFoldLocal(op, g, s1, s2, n - 1);
    }
  }

  lemma RuleValueLocal(rule: NotRule, g: CudaGate, s1: seq<bv8>, s2: seq<bv8>)
    requires Readable(g, s1) && Readable(g, s2)
    requires forall i :: 0 <= i < Span(g) ==> s1[g.fanin[i]] == s2[g.fanin[i]]
    ensures RuleValue(rule, g, s1) == RuleValue(rule, g, s2)
  {
    BitFoldLocal(BitAnd, g, s1, s2, Span(g));
    BitFoldLocal(BitOr, g, s1, s2, Span(g));
    BitFoldLocal(BitXor, g, s1, s2, Span(g));
  }

  predicate IsBit(b: bv8)
  {
    b == 0 || b == 1
  }

  /** A 0/1 byte as a Roth value. */
  function ToSignal(b: bv8): (v: Signal)
    ensures IsBinary(v)
  {
    if b == 0 then ZERO else ONE
  }

  function RothOp(op: BitOp): Op
  {
    match op
    case BitAnd => AndOp
    case BitOr => OrOp
    case BitXor => XorOp
  }

  /** The Roth values of the first n fan-ins. */
  function FaninSignals(g: CudaGate, s: seq<bv8>, n: nat): (vs: seq<Signal>)
    requires Readable(g, s) && n <= Span(g)
    ensures |vs| == n && forall i :: 0 <= i < n ==> vs[i] == ToSignal(s[g.fanin[i]])
  {
    if n == 0 then [] else FaninSignals(g, s, n - 1) + [ToSignal(s[g.fanin[n - 1]])]
  }

  predicate BitFanins(g: CudaGate, s: seq<bv8>)
    requires Readable(g, s)
  {
    forall i :: 0 <= i < Span(g) ==> IsBit(s[g.fanin[i]])
  }

  /** On 0/1 states the bit fold is the Roth fold of the fan-in values. */
  lemma {:induction false} BitFoldAgreesWithRoth(op: BitOp, g: CudaGate, s: seq<bv8>, n: nat)
    requires Readable(g, s) && 1 <= n <= Span(g) && BitFanins(g, s)
    ensures IsBit(BitFold(op, g, s, n))
    ensures ToSignal(BitFold(op, g, s, n)) == Combine(RothOp(op), FaninSignals(g, s, n))
  {
    var vs := FaninSignals(g, s, n);
    if n > 1 {
      BitFoldAgreesWithRoth(op, g, s, n - 1);
      var pre := FaninSignals(g, s, n - 1);
      assert vs == pre + [vs[n - 1]];
      assert vs[1..] == pre[1..] + [vs[n - 1]];
      FoldAppend(RothOp(op), vs[0], pre[1..], [vs[n - 1]]);
      var a := BitFold(op, g, s, n - 1);
      var b := s[g.fanin[n - 1]];
      assert IsBit(b);
      BinaryRestrictionIsBoolean(ToSignal(a), ToSignal(b));
    }
  }

  /** The Roth gate function of a record type: AND/OR/XOR fold,
      NAND/NOR/XNOR invert the fold, NOT inverts fan-in 0, and BUFF and
      INPUT copy it. */
  function RothGate(t: CudaGateType, vs: seq<Signal>): Signal
    requires |vs| > 0
  {
    match t
    case AND => Combine(AndOp, vs)
    case OR => Combine(OrOp, vs)
    case XOR => Combine(XorOp, vs)
    case NAND => Not(Combine(AndOp, vs))
    case NOR => Not(Combine(OrOp, vs))
    case XNOR => Not(Combine(XorOp, vs))
    case NOT => Not(vs[0])
    case BUFF => vs[0]
    case INPUT => vs[0]
  }

  /** The corrected evaluation is the Roth gate function restricted to
      0/1. */
  lemma IntendedAgreesWithRoth(g: CudaGate, s: seq<bv8>)
    requires Readable(g, s) && BitFanins(g, s) && g.gateType.Some?
    ensures IsBit(IntendedGateValue(g, s))
    ensures ToSignal(IntendedGateValue(g, s)) == RothGate(g.gateType.value, FaninSignals(g, s, Span(g)))
  {
    match g.gateType.value
    case AND => BitFoldAgreesWithRoth(BitAnd, g, s, Span(g));
    case NAND => BitFoldAgreesWithRoth(BitAnd, g, s, Span(g));
    case OR => BitFoldAgreesWithRoth(BitOr, g, s, Span(g));
    case NOR => BitFoldAgreesWithRoth(BitOr, g, s, Span(g));
    case XOR => BitFoldAgreesWithRoth(BitXor, g, s, Span(g));
    case XNOR => BitFoldAgreesWithRoth(BitXor, g, s, Span(g));
    case NOT =>
    case BUFF =>
    case INPUT =>
  }

  /** The fold loop of one gate. */
  method FoldFanins(op: BitOp, g: CudaGate, s: seq<bv8>) returns (val: bv8)
    requires Readable(g, s)
    ensures val == BitFold(op, g, s, Span(g))
  {
    val := s[g.fanin[0]];
    var i := 1;
    while i < Span(g)
      invariant 1 <= i <= Span(g)
      invariant val == BitFold(op, g, s, i)
    {
      val := BitApply(op, val, s[g.fanin[i]]);
      i := i + 1;
    }
  }

  /** The switch of `faultSim_serial`, with the NOT case under `rule`. */
  method EvalGate(rule: NotRule, g: CudaGate, s: seq<bv8>) returns (val: bv8)
    requires Readable(g, s)
    ensures val == RuleValue(rule, g, s)
    ensures g.gateType == Some(NOT) && rule == NotOfIndex ==> val == LNot(g.fanin[0])
    ensures g.gateType == Some(NOT) && rule == NotOfState ==> val == LNot(s[g.fanin[0]] as int)
    ensures g.gateType.None? || g.gateType == Some(BUFF) || g.gateType == Some(INPUT) ==> val == s[g.fanin[0]]
  {
    val := s[g.fanin[0]];
    match g.gateType
    case Some(AND) => val := FoldFanins(BitAnd, g, s);
    case Some(OR) => val := FoldFanins(BitOr, g, s);
    case Some(NOT) => val := if rule == NotOfIndex then LNot(g.fanin[0]) else LNot(s[g.fanin[0]] as int);
    case Some(XOR) => val := FoldFanins(BitXor, g, s);
    case Some(NAND) => val := FoldFanins(BitAnd, g, s); val := LNot(val as int);
    case Some(NOR) => val := FoldFanins(BitOr, g, s); val := LNot(val as int);
    case Some(XNOR) => val := FoldFanins(BitXor, g, s); val := LNot(val as int);
    case _ =>
  }

  // ---------------------------------------------------------------------
  // Runs

  /** The arguments of `faultSim_serial` (the unused input list left out),
      and the NOT rule its gate evaluation uses: `NotOfIndex` is the
      source as written. */
  datatype Sim = Sim(numSignals: int, structure: seq<CudaGate>, order: seq<int>, numInputs: int,
                     numOutputs: int, outputs: seq<int>, numVectors: int, vectors: seq<bv8>, notRule: NotRule)

  /** What the source needs of its arguments to stay inside its arrays and
      read only states written earlier in the same run. */
  predicate SimReady(m: Sim)
  {
    0 <= m.numInputs <= m.numSignals <= LIMIT_NUM_SIGNALS &&
    0 <= m.numOutputs <= LIMIT_NUM_SIGNALS && m.numOutputs <= |m.outputs| &&
    (forall i :: 0 <= i < m.numOutputs ==> 0 <= m.outputs[i] < m.numSignals) &&
    0 <= m.numVectors && m.numVectors * m.numInputs <= |m.vectors| &&
    m.numSignals <= |m.order| && m.numSignals <= |m.structure| &&
    (forall p :: 0 <= p < m.numSignals ==> 0 <= m.order[p] < m.numSignals) &&
    (forall i :: 0 <= i < m.numOutputs ==> m.outputs[i] in m.order[..m.numSignals]) &&
    (forall p :: m.numInputs <= p < m.numSignals ==> FaninsBefore(m, p))
  }

  /** The fan-ins the record at traversal position p reads are all at
      earlier positions. */
  predicate FaninsBefore(m: Sim, p: int)
    requires 0 <= p < |m.order| && 0 <= m.order[p] < |m.structure|
  {
    var g := m.structure[m.order[p]];
    Span(g) <= |g.fanin| &&
    forall i :: 0 <= i < Span(g) ==> g.fanin[i] in m.order[..p]
  }

  /** Run k holds signal `sig` stuck. */
  predicate Forced(k: int, sig: int)
  {
    k != 0 && (k - 1) / 2 == sig
  }

  function StuckValue(k: int): bv8
  {
    if (k - 1) % 2 == 0 then 0 else 1
  }

  function Width(m: Sim): int
  {
    2 * m.numSignals
  }

  lemma VectorIndex(m: Sim, v: int, p: int)
    requires SimReady(m) && 0 <= v < m.numVectors && 0 <= p < m.numInputs
    ensures 0 <= v * m.numInputs + p < |m.vectors|
  {
    assert v * m.numInputs + p < (v + 1) * m.numInputs;
    MulMono(v + 1, m.numVectors, m.numInputs);
  }

  lemma MulMono(a: int, b: int, c: int)
    requires 0 <= a <= b && 0 <= c
    ensures a * c <= b * c
  {
  }

  /** The value written at traversal position p of run k of vector v. */
  function NewValue(m: Sim, s: seq<bv8>, v: int, k: int, p: int): bv8
    requires SimReady(m) && 0 <= v < m.numVectors && 0 <= p < m.numSignals && |s| == LIMIT_NUM_SIGNALS
  {
    var sig := m.order[p];
    if Forced(k, sig) then StuckValue(k)
    else if p < m.numInputs then
      VectorIndex(m, v, p);
      m.vectors[v * m.numInputs + p]
    else
      var g := m.structure[sig];
      assert FaninsBefore(m, p);
      RuleValue(m.notRule, g, s)
  }

  /** The state after the first p positions of a run started from `s0`. */
  function Run(m: Sim, s0: seq<bv8>, v: int, k: int, p: int): (s: seq<bv8>)
    requires SimReady(m) && 0 <= v < m.numVectors && 0 <= p <= m.numSignals && |s0| == LIMIT_NUM_SIGNALS
    ensures |s| == LIMIT_NUM_SIGNALS
  {
    if p == 0 then s0
    else
      var s := Run(m, s0, v, k, p - 1);
      s[m.order[p - 1] := NewValue(m, s, v, k, p - 1)]
  }

  /** Positions already visited keep the value they were given. */
  lemma {:induction false} RunKeeps(m: Sim, s0: seq<bv8>, v: int, k: int, q: int, p: int)
    requires SimReady(m) && 0 <= v < m.numVectors && |s0| == LIMIT_NUM_SIGNALS && DistinctOrder(m)
    requires 0 <= q < p <= m.numSignals
    ensures Run(m, s0, v, k, p)[m.order[q]] == Run(m, s0, v, k, q + 1)[m.order[q]]
    decreases p
  {
    if p > q + 1 {
      RunKeeps(m, s0, v, k, q, p - 1);
    }
  }

  /** What a run writes does not depend on the state it starts from. */
  lemma {:induction false} RunIgnoresStart(m: Sim, a: seq<bv8>, b: seq<bv8>, v: int, k: int, p: int)
    requires SimReady(m) && 0 <= v < m.numVectors && 0 <= p <= m.numSignals
    requires |a| == LIMIT_NUM_SIGNALS && |b| == LIMIT_NUM_SIGNALS
    ensures forall q :: 0 <= q < p ==> Run(m, a, v, k, p)[m.order[q]] == Run(m, b, v, k, p)[m.order[q]]
    decreases p
  {
    if p > 0 {
      RunIgnoresStart(m, a, b, v, k, p - 1);
      var sa := Run(m, a, v, k, p - 1);
      var sb := Run(m, b, v, k, p - 1);
      if p - 1 >= m.numInputs && !Forced(k, m.order[p - 1]) {
        var g := m.structure[m.order[p - 1]];
        assert FaninsBefore(m, p - 1);
        forall i | 0 <= i < Span(g)
          ensures sa[g.fanin[i]] == sb[g.fanin[i]]
        {
          assert g.fanin[i] in m.order[..p - 1];
        }
        RuleValueLocal(m.notRule, g, sa, sb);
      }
    }
  }

  /** Every state a run writes is 0 or 1 when the test-vector bytes are. */
  lemma {:induction false} RunStaysBinary(m: Sim, s0: seq<bv8>, v: int, k: int, p: int)
    requires SimReady(m) && 0 <= v < m.numVectors && 0 <= p <= m.numSignals && |s0| == LIMIT_NUM_SIGNALS
    requires forall j :: 0 <= j < |m.vectors| ==> IsBit(m.vectors[j])
    ensures forall q :: 0 <= q < p ==> IsBit(Run(m, s0, v, k, p)[m.order[q]])
    decreases p
  {
    if p > 0 {
      RunStaysBinary(m, s0, v, k, p - 1);
      NewValueIsBit(m, Run(m, s0, v, k, p - 1), v, k, p - 1);
    }
  }

  /** One step writes 0 or 1 when every state visited before it is 0 or 1. */
  lemma NewValueIsBit(m: Sim, s: seq<bv8>, v: int, k: int, p: int)
    requires SimReady(m) && 0 <= v < m.numVectors && 0 <= p < m.numSignals && |s| == LIMIT_NUM_SIGNALS
    requires forall j :: 0 <= j < |m.vectors| ==> IsBit(m.vectors[j])
    requires forall q :: 0 <= q < p ==> IsBit(s[m.order[q]])
    ensures IsBit(NewValue(m, s, v, k, p))
  {
    if p >= m.numInputs && !Forced(k, m.order[p]) {
      var g := m.structure[m.order[p]];
      assert FaninsBefore(m, p);
      forall i | 0 <= i < Span(g)
        ensures IsBit(s[g.fanin[i]])
      {
        assert g.fanin[i] in m.order[..p];
      }
      BitFoldAgreesWithRoth(BitAnd, g, s, Span(g));
      BitFoldAgreesWithRoth(BitOr, g, s, Span(g));
      BitFoldAgreesWithRoth(BitXor, g, s, Span(g));
    } else if p < m.numInputs && !Forced(k, m.order[p]) {
      VectorIndex(m, v, p);
    }
  }

  /** The traversal order visits each signal once. */
  predicate DistinctOrder(m: Sim)
    requires m.numSignals <= |m.order|
  {
    forall p, q :: 0 <= p < q < m.numSignals ==> m.order[p] != m.order[q]
  }

  /** At the end of a run every unforced gate position holds its gate's
      value over the final state, and the forced signal holds its stuck
      value: the run solves the netlist equations. */
  lemma RunSolvesGates(m: Sim, s0: seq<bv8>, v: int, k: int, p: int)
    requires SimReady(m) && 0 <= v < m.numVectors && |s0| == LIMIT_NUM_SIGNALS && DistinctOrder(m)
    requires 0 <= p < m.numSignals
    ensures var s := Run(m, s0, v, k, m.numSignals);
      Readable(m.structure[m.order[p]], s) || p < m.numInputs
    ensures var s := Run(m, s0, v, k, m.numSignals);
      Forced(k, m.order[p]) ==> s[m.order[p]] == StuckValue(k)
    ensures var s := Run(m, s0, v, k, m.numSignals);
      p >= m.numInputs && !Forced(k, m.order[p]) ==> s[m.order[p]] == RuleValue(m.notRule, m.structure[m.order[p]], s)
  {
    var n := m.numSignals;
    var s := Run(m, s0, v, k, n);
    RunKeeps(m, s0, v, k, p, n);
    if p >= m.numInputs {
      var g := m.structure[m.order[p]];
      var sp := Run(m, s0, v, k, p);
      assert FaninsBefore(m, p);
      forall i | 0 <= i < Span(g)
        ensures s[g.fanin[i]] == sp[g.fanin[i]]
      {
        assert g.fanin[i] in m.order[..p];
        var q :| 0 <= q < p && m.order[q] == g.fanin[i];
        RunKeeps(m, s0, v, k, q, n);
        RunKeeps(m, s0, v, k, q, p);
      }
      RuleValueLocal(m.notRule, g, s, sp);
    }
  }

  /** With the corrected NOT and 0/1 test vectors a run solves the netlist
      in the Roth algebra: every unforced gate position ends up holding
      the Roth value of its gate over the final values of its fan-ins. */
  lemma CorrectedRunIsRoth(m: Sim, s0: seq<bv8>, v: int, k: int, p: int)
    requires SimReady(m) && m.notRule == NotOfState && DistinctOrder(m)
    requires 0 <= v < m.numVectors && |s0| == LIMIT_NUM_SIGNALS
    requires forall j :: 0 <= j < |m.vectors| ==> IsBit(m.vectors[j])
    requires m.numInputs <= p < m.numSignals && !Forced(k, m.order[p])
    requires m.structure[m.order[p]].gateType.Some?
    ensures var s := Run(m, s0, v, k, m.numSignals); var g := m.structure[m.order[p]];
      Readable(g, s) &&
      ToSignal(s[m.order[p]]) == RothGate(g.gateType.value, FaninSignals(g, s, Span(g)))
  {
    var s := Run(m, s0, v, k, m.numSignals);
    var g := m.structure[m.order[p]];
    RunSolvesGates(m, s0, v, k, p);
    RunStaysBinary(m, s0, v, k, m.numSignals);
    assert FaninsBefore(m, p);
    forall i | 0 <= i < Span(g)
      ensures IsBit(s[g.fanin[i]])
    {
      assert g.fanin[i] in m.order[..p];
    }
    IntendedAgreesWithRoth(g, s);
  }

  // ---------------------------------------------------------------------
  // Detection

  function Zeros(): (s: seq<bv8>)
    ensures |s| == LIMIT_NUM_SIGNALS
  {
    seq(LIMIT_NUM_SIGNALS, _ => 0)
  }

  /** Fault k is detected by vector v: some primary output of run k differs
      from the fault-free run. */
  ghost predicate Detects(m: Sim, v: int, k: int)
    requires SimReady(m) && 0 <= v < m.numVectors
  {
    exists i :: 0 <= i < m.numOutputs &&
      Run(m, Zeros(), v, 0, m.numSignals)[m.outputs[i]] != Run(m, Zeros(), v, k, m.numSignals)[m.outputs[i]]
  }

  /** The detection bit stored at index j of the matrix. */
  ghost function Expected(m: Sim, j: int): bv8
    requires SimReady(m) && 0 <= j < m.numVectors * Width(m)
  {
    WidthPositive(m, j);
    if Detects(m, j / Width(m), j % Width(m) + 1) then 1 else 0
  }

  lemma WidthPositive(m: Sim, j: int)
    requires SimReady(m) && 0 <= j < m.numVectors * Width(m)
    ensures Width(m) > 0 && 0 <= j / Width(m) < m.numVectors
  {
    MulSign(m.numVectors, Width(m));
    DivBelow(j, Width(m), m.numVectors);
  }

  lemma MulSign(a: int, b: int)
    requires a >= 0 && b >= 0
    ensures a * b > 0 ==> b > 0
  {
  }

  lemma DivBelow(j: int, w: int, n: int)
    requires 0 <= j < n * w && w > 0
    ensures 0 <= j / w < n
  {
    var q := j / w;
    assert q * w <= j;
    MulStrict(q, n, w);
  }

  lemma MulStrict(a: int, b: int, c: int)
    requires c > 0 && a >= 0 && b >= 0
    ensures a * c < b * c ==> a < b
  {
    if b <= a {
      MulMono(b, a, c);
    }
  }

  /** Index v*2N + k-1 holds fault k of vector v: the map from (vector,
      fault) to index is one-to-one onto [0, vectors*2N). */
  lemma DetectionLayout(m: Sim, v: int, k: int)
    requires SimReady(m) && 0 <= v < m.numVectors && 1 <= k <= Width(m)
    ensures var j := v * Width(m) + k - 1;
      0 <= j < m.numVectors * Width(m) && j / Width(m) == v && j % Width(m) == k - 1
  {
    var w := Width(m);
    var j := v * w + k - 1;
    MulMono(v + 1, m.numVectors, w);
    assert (v + 1) * w == v * w + w;
    DivModUnique(j, w, v, k - 1);
  }

  lemma DivModUnique(a: int, b: int, q: int, r: int)
    requires b > 0 && 0 <= r < b && a == q * b + r
    ensures a / b == q && a % b == r
  {
    var q' := a / b;
    var r' := a % b;
    assert a == q' * b + r';
    var d := q - q';
    assert d * b == q * b - q' * b;
    MulPos(d, b);
  }

  lemma MulPos(d: int, b: int)
    requires b > 0
    ensures d > 0 ==> d * b >= b
    ensures d < 0 ==> d * b <= -b
  {
    if d > 0 {
      MulMono(1, d, b);
    } else if d < 0 {
      MulMono(1, -d, b);
      assert (-d) * b == -(d * b);
    }
  }

  /** The correct outputs of run 0 against the outputs of run k, as the
      comparison loop reads them. */
  method CompareOutputs(m: Sim, correct: seq<bv8>, s: seq<bv8>) returns (bit: bv8)
    requires SimReady(m) && |correct| >= m.numOutputs && |s| == LIMIT_NUM_SIGNALS
    ensures bit == 1 <==> exists i :: 0 <= i < m.numOutputs && correct[i] != s[m.outputs[i]]
    ensures bit == 0 || bit == 1
  {
    bit := 0;
    var i := 0;
    while i < m.numOutputs
      invariant 0 <= i <= m.numOutputs
      invariant bit == 1 <==> exists i' :: 0 <= i' < i && correct[i'] != s[m.outputs[i']]
      invariant bit == 0 || bit == 1
    {
      if correct[i] != s[m.outputs[i]] {
        bit := 1;
      }
      i := i + 1;
    }
  }

  /** One run: inputs from the vector, then gates in traversal order, the
      forced signal overridden wherever it is visited. */
  method SimulateRun(m: Sim, s0: seq<bv8>, v: int, k: int) returns (s: seq<bv8>)
    requires SimReady(m) && 0 <= v < m.numVectors && |s0| == LIMIT_NUM_SIGNALS
    ensures s == Run(m, s0, v, k, m.numSignals)
  {
    s := s0;
    var p := 0;
    while p < m.numInputs
      invariant 0 <= p <= m.numInputs
      invariant s == Run(m, s0, v, k, p)
    {
      VectorIndex(m, v, p);
      var val := m.vectors[v * m.numInputs + p];
      var sig := m.order[p];
      if Forced(k, sig) {
        val := StuckValue(k);
      }
      s := s[sig := val];
      p := p + 1;
    }
    while p < m.numSignals
      invariant m.numInputs <= p <= m.numSignals
      invariant s == Run(m, s0, v, k, p)
    {
      var sig := m.order[p];
      assert FaninsBefore(m, p);
      var val := EvalGate(m.notRule, m.structure[sig], s);
      if Forced(k, sig) {
        val := StuckValue(k);
      }
      s := s[sig := val];
      p := p + 1;
    }
  }

  /** The outputs of the fault-free run. */
  method CorrectOutputs(m: Sim, s: seq<bv8>) returns (correct: seq<bv8>)
    requires SimReady(m) && |s| == LIMIT_NUM_SIGNALS
    ensures |correct| == m.numOutputs
    ensures forall i :: 0 <= i < m.numOutputs ==> correct[i] == s[m.outputs[i]]
  {
    correct := [];
    var i := 0;
    while i < m.numOutputs
      invariant 0 <= i <= m.numOutputs && |correct| == i
      invariant forall i' :: 0 <= i' < i ==> correct[i'] == s[m.outputs[i']]
    {
      correct := correct + [s[m.outputs[i]]];
      i := i + 1;
    }
  }

  /** Run k of vector v, seen through the outputs, matches the run from a
      zeroed state. */
  lemma OutputsIgnoreStart(m: Sim, s0: seq<bv8>, v: int, k: int)
    requires SimReady(m) && 0 <= v < m.numVectors && |s0| == LIMIT_NUM_SIGNALS
    ensures forall i :: 0 <= i < m.numOutputs ==>
      Run(m, s0, v, k, m.numSignals)[m.outputs[i]] == Run(m, Zeros(), v, k, m.numSignals)[m.outputs[i]]
  {
    RunIgnoresStart(m, s0, Zeros(), v, k, m.numSignals);
    forall i | 0 <= i < m.numOutputs
      ensures Run(m, s0, v, k, m.numSignals)[m.outputs[i]] == Run(m, Zeros(), v, k, m.numSignals)[m.outputs[i]]
    {
      assert m.outputs[i] in m.order[..m.numSignals];
    }
  }

  /** The 2N faulty runs of vector v after its fault-free run: row v of the
      detection matrix is filled and nothing outside it changes. */
  method DetectRow(m: Sim, v: int, s0: seq<bv8>, detected0: seq<bv8>) returns (detected: seq<bv8>, s: seq<bv8>)
    requires SimReady(m) && 0 <= v < m.numVectors && |s0| == LIMIT_NUM_SIGNALS
    requires m.numVectors * Width(m) <= |detected0|
    ensures |detected| == |detected0| && |s| == LIMIT_NUM_SIGNALS
    ensures forall j :: v * Width(m) <= j < v * Width(m) + Width(m) ==> j < m.numVectors * Width(m) && detected[j] == Expected(m, j)
    ensures forall j :: 0 <= j < |detected0| && !(v * Width(m) <= j < v * Width(m) + Width(m)) ==> detected[j] == detected0[j]
  {
    var w := Width(m);
    var base := v * w;
    MulMono(v + 1, m.numVectors, w);
    assert (v + 1) * w == base + w;
    s := SimulateRun(m, s0, v, 0);
    OutputsIgnoreStart(m, s0, v, 0);
    var correct := CorrectOutputs(m, s);
    detected := detected0;
    var k := 1;
    while k <= w
      invariant 1 <= k <= w + 1 && |detected| == |detected0| && |s| == LIMIT_NUM_SIGNALS
      invariant forall j :: base <= j < base + k - 1 ==> detected[j] == Expected(m, j)
      invariant forall j :: 0 <= j < |detected0| && !(base <= j < base + k - 1) ==> detected[j] == detected0[j]
    {
      var start := s;
      s := SimulateRun(m, start, v, k);
      OutputsIgnoreStart(m, start, v, k);
      DetectionLayout(m, v, k);
      var bit := CompareOutputs(m, correct, s);
      detected := detected[base + k - 1 := bit];
      k := k + 1;
    }
  }

  /** `faultSim_serial`: for every vector, the fault-free run, then one
      run per stuck-at fault; index v*2N + k-1 of the detection matrix is
      1 exactly when fault k is detected by vector v, every index of the
      matrix is written, and nothing past it is touched. */
  method FaultSimSerial(m: Sim, detected0: seq<bv8>) returns (detected: seq<bv8>)
    requires SimReady(m) && m.numVectors * Width(m) <= |detected0|
    ensures |detected| == |detected0|
    ensures forall j :: 0 <= j < m.numVectors * Width(m) ==> detected[j] == Expected(m, j)
    ensures forall j :: m.numVectors * Width(m) <= j < |detected0| ==> detected[j] == detected0[j]
  {
    detected := detected0;
    var w := Width(m);
    var st := Zeros();
    var v := 0;
    while v < m.numVectors
      invariant 0 <= v <= m.numVectors && |detected| == |detected0| && |st| == LIMIT_NUM_SIGNALS
      invariant v * w <= m.numVectors * w
      invariant forall j :: 0 <= j < v * w ==> detected[j] == Expected(m, j)
      invariant forall j :: v * w <= j < |detected0| ==> detected[j] == detected0[j]
    {
      MulMono(v + 1, m.numVectors, w);
      assert (v + 1) * w == v * w + w;
      detected, st := DetectRow(m, v, st, detected);
      v := v + 1;
    }
  }
}
