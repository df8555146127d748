/** The event-driven implication engine of the C++ fault simulator: a
    circuit whose gates are keyed by output signal name, the five-valued
    signal state, the injected fault, the D-frontier, and the recursive
    evaluation that propagates an input assignment downstream while
    overriding the value at the fault site and merging return codes.

    `std::unordered_map::operator[]` value-initialises the entry of a
    signal the state does not hold yet, so it reads as ZERO, the first
    enumerator (`StateOf`).  A netlist has no feedback; the model makes
    that explicit with a `rank` map that strictly decreases along every
    fan-out edge, which is what makes the recursion terminate. */
module Implication {
  import opened Roth
  import opened Text
  import opened Wrappers

  // ---------------------------------------------------------------------
  // Return codes

  datatype ImplyCode = ERROR | MASKED | NORMAL | ACTIVATED | DETECTED

  /** The return-code priority rule applied after each fan-out evaluation:
      `code` is the code so far, `next` the fan-out's code. */
  function Merge(code: ImplyCode, next: ImplyCode): ImplyCode
  {
    if code == MASKED && (next == DETECTED || next == ACTIVATED) then ERROR
    else if code == ERROR || next == ERROR then ERROR
    else if next == DETECTED then next
    else if next == ACTIVATED && code != DETECTED then next
    else if next == MASKED then
      (if code == DETECTED || code == ACTIVATED then ERROR else next)
    else code
  }

  /** The information order behind the codes: NORMAL knows nothing, a
      masked fault and an activated one contradict each other (ERROR),
      and detection refines activation. */
  predicate Le(a: ImplyCode, b: ImplyCode)
  {
    a == b || a == NORMAL || b == ERROR || (a == ACTIVATED && b == DETECTED)
  }

  /** The merge is the least upper bound in that order, hence commutative,
      associative and idempotent: the merged code of a fan-out list does
      not depend on the order the fan-outs are visited in. */
  lemma MergeIsJoin(a: ImplyCode, b: ImplyCode, u: ImplyCode)
    ensures Le(a, Merge(a, b)) && Le(b, Merge(a, b))
    ensures Le(a, u) && Le(b, u) ==> Le(Merge(a, b), u)
  {
  }

  lemma MergeLaws(a: ImplyCode, b: ImplyCode, e: ImplyCode)
    ensures Merge(a, b) == Merge(b, a)
    ensures Merge(Merge(a, b), e) == Merge(a, Merge(b, e))
    ensures Merge(a, a) == a
  {
  }

  /** ERROR absorbs, NORMAL is neutral on both sides, a masked fault next
      to an activated or detected one is an error, and detection is never
      downgraded. */
  lemma MergeProperties(a: ImplyCode)
    ensures Merge(a, ERROR) == ERROR && Merge(ERROR, a) == ERROR
    ensures Merge(a, NORMAL) == a && Merge(NORMAL, a) == a
    ensures Merge(MASKED, ACTIVATED) == ERROR && Merge(ACTIVATED, MASKED) == ERROR
    ensures Merge(MASKED, DETECTED) == ERROR && Merge(DETECTED, MASKED) == ERROR
    ensures Merge(DETECTED, a) == DETECTED || Merge(DETECTED, a) == ERROR
    ensures Merge(ACTIVATED, DETECTED) == DETECTED && Merge(DETECTED, ACTIVATED) == DETECTED
  {
  }

  // ---------------------------------------------------------------------
  // Circuit

  /** `Gate`: the type string as read from the netlist, the fan-in names
      and the fan-out (consumer) names. */
  datatype CGate = CGate(gateType: string, inputs: seq<string>, outputs: seq<string>)

  datatype CCircuit = CCircuit(
    gates: map<string, CGate>,
    state: map<string, Signal>,
    inputs: seq<string>,
    outputs: seq<string>,
    signals: seq<string>,
    faultLocation: string,
    faultValue: Signal,
    dfrontier: set<string>)

  /** `theCircuitState[n]`: a signal not in the map reads as ZERO.  The
      entry that `operator[]` inserts keeps ZERO: the code only ever writes
      gate outputs and primary inputs, which all have entries already. */
  function StateOf(c: CCircuit, n: string): Signal
  {
    if n in c.state then c.state[n] else ZERO
  }

  /** What the recursive evaluation needs of a circuit: every gate has a
      state entry, every fan-out is a gate with at least one fan-in, and
      every primary input is a gate. */
  predicate Evaluable(c: CCircuit)
  {
    && (forall n :: n in c.gates ==> n in c.state)
    && (forall n, j :: n in c.gates && 0 <= j < |c.gates[n].outputs| ==>
          c.gates[n].outputs[j] in c.gates && |c.gates[c.gates[n].outputs[j]].inputs| > 0)
    && (forall i :: 0 <= i < |c.inputs| ==> c.inputs[i] in c.gates)
  }

  /** `rank` witnesses that the netlist has no feedback: it strictly
      decreases along every fan-out edge. */
  predicate Ranked(c: CCircuit, rank: map<string, nat>)
  {
    forall n :: n in c.gates ==>
      n in rank && forall j :: 0 <= j < |c.gates[n].outputs| ==>
        c.gates[n].outputs[j] in rank && rank[c.gates[n].outputs[j]] < rank[n]
  }

  /** No gate feeds a primary input. */
  predicate InputsAreSources(c: CCircuit)
  {
    forall n, j :: n in c.gates && 0 <= j < |c.gates[n].outputs| ==> c.gates[n].outputs[j] !in c.inputs
  }

  predicate Below(rank: map<string, nat>, m: string, n: string)
  {
    m in rank && n in rank && rank[m] < rank[n]
  }

  /** Only the state and the D-frontier differ, over the same signals. */
  predicate SameShape(c: CCircuit, d: CCircuit)
  {
    d == c.(state := d.state, dfrontier := d.dfrontier) && d.state.Keys == c.state.Keys
  }

  /** Nothing changed except at `n` (when `inclusive`) and below `n`. */
  ghost predicate ChangedOnlyBelow(c: CCircuit, d: CCircuit, rank: map<string, nat>, n: string, inclusive: bool)
  {
    forall m :: !(inclusive && m == n) && !Below(rank, m, n) ==>
      StateOf(d, m) == StateOf(c, m) && (m in d.dfrontier <==> m in c.dfrontier)
  }

  predicate InputsKept(c: CCircuit, d: CCircuit)
  {
    forall i :: 0 <= i < |c.inputs| ==> StateOf(d, c.inputs[i]) == StateOf(c, c.inputs[i])
  }

  // ---------------------------------------------------------------------
  // Fault injection

  /** `setCircuitFault`: accepted only for a D or D_b value on a known
      signal; otherwise the circuit is unchanged. */
  function SetCircuitFault(c: CCircuit, location: string, value: Signal): (r: (CCircuit, bool))
    ensures r.1 <==> IsFaultEffect(value) && location in c.signals
    ensures r.1 ==> r.0 == c.(faultLocation := location, faultValue := value)
    ensures !r.1 ==> r.0 == c
  {
    if value != D && value != D_b then (c, false)
    else if Contains(c.signals, location) then (c.(faultLocation := location, faultValue := value), true)
    else (c, false)
  }

  // ---------------------------------------------------------------------
  // One gate

  datatype Kind = Buff | Inv | Folded(op: Op, invert: bool) | Unmatched

  /** The gate types the evaluator recognises, upper or lower case. */
  function KindOf(t: string): Kind
  {
    if t == "BUFF" || t == "buff" then Buff
    else if t == "NOT" || t == "not" then Inv
    else if t == "AND" || t == "and" then Folded(AndOp, false)
    else if t == "NAND" || t == "nand" then Folded(AndOp, true)
    else if t == "OR" || t == "or" then Folded(OrOp, false)
    else if t == "NOR" || t == "nor" then Folded(OrOp, true)
    else if t == "XOR" || t == "xor" then Folded(XorOp, false)
    else if t == "XNOR" || t == "xnor" then Folded(XorOp, true)
    else Unmatched
  }

  /** The current values of a list of signals. */
  function ValuesOf(c: CCircuit, names: seq<string>): (vs: seq<Signal>)
    ensures |vs| == |names|
    ensures forall i :: 0 <= i < |names| ==> vs[i] == StateOf(c, names[i])
  {
    seq(|names|, i requires 0 <= i < |names| => StateOf(c, names[i]))
  }

  /** The outcome of evaluating one gate on the current state: its new
      value, whether a scanned fan-in carries a fault effect, and whether
      its type was recognised. */
  datatype GateEval = GateEval(value: Signal, dInput: bool, matched: bool)

  /** The value a gate computes: the first fan-in for BUFF (and for an
      unrecognised type), its inversion for NOT, and the left fold of the
      table over the fan-ins in order for the others, inverted for
      NAND/NOR/XNOR.  Only the fold loop scans fan-ins past the first for
      fault effects. */
  function EvalOne(c: CCircuit, g: CGate): (e: GateEval)
    requires |g.inputs| > 0
    ensures e.matched <==> !KindOf(g.gateType).Unmatched?
    ensures KindOf(g.gateType).Folded? ==>
      var v := Combine(KindOf(g.gateType).op, ValuesOf(c, g.inputs));
      e.value == (if KindOf(g.gateType).invert then Not(v) else v)
    ensures KindOf(g.gateType).Folded? ==>
      (e.dInput <==> exists i :: 0 <= i < |g.inputs| && IsFaultEffect(StateOf(c, g.inputs[i])))
    ensures !KindOf(g.gateType).Folded? ==> e.dInput == IsFaultEffect(StateOf(c, g.inputs[0]))
    ensures KindOf(g.gateType).Inv? ==> e.value == Not(StateOf(c, g.inputs[0]))
    ensures KindOf(g.gateType).Buff? || KindOf(g.gateType).Unmatched? ==> e.value == StateOf(c, g.inputs[0])
  {
    var first := StateOf(c, g.inputs[0]);
    match KindOf(g.gateType)
    case Buff => GateEval(first, IsFaultEffect(first), true)
    case Inv => GateEval(Not(first), IsFaultEffect(first), true)
    case Unmatched => GateEval(first, IsFaultEffect(first), false)
    case Folded(op, invert) =>
      var vs := ValuesOf(c, g.inputs);
      var v := Fold(op, first, vs[1..]);
      var found := exists i :: 0 <= i < |g.inputs| && IsFaultEffect(StateOf(c, g.inputs[i]));
      GateEval(if invert then Not(v) else v, found, true)
  }

  lemma {:induction false} AndFoldOfZero(acc: Signal, rest: seq<Signal>)
    requires acc == ZERO || ZERO in rest
    ensures Fold(AndOp, acc, rest) == ZERO
    decreases |rest|
  {
    if |rest| > 0 {
      var acc' := Apply(AndOp, acc, rest[0]);
      if acc' != ZERO {
        assert rest == [rest[0]] + rest[1..];
      }
      AndFoldOfZero(acc', rest[1..]);
    }
  }

  /** A fan-in the state has no entry for (a wire no line defines) reads
      as ZERO, which decides an AND or NAND gate: the gate gets a binary
      value and never joins the D-frontier, whatever its other fan-ins
      carry. */
  lemma UndefinedFaninDecidesAnd(c: CCircuit, n: string, k: nat)
    requires n in c.gates && n in c.state && k < |c.gates[n].inputs|
    requires c.gates[n].inputs[k] !in c.state
    requires KindOf(c.gates[n].gateType) == Folded(AndOp, false) || KindOf(c.gates[n].gateType) == Folded(AndOp, true)
    ensures EvalOne(c, c.gates[n]).value == (if KindOf(c.gates[n].gateType).invert then ONE else ZERO)
    ensures n !in Settle(c, n).circuit.dfrontier
  {
    var vs := ValuesOf(c, c.gates[n].inputs);
    if k == 0 {
      AndFoldOfZero(vs[0], vs[1..]);
    } else {
      assert vs[1..][k - 1] == ZERO;
      AndFoldOfZero(vs[0], vs[1..]);
    }
  }

  /** The override at the fault site: the value stored (None: the entry
      is left as it was) and the code.  Away from the site, or for an X
      value, the computed value is stored. */
  function Override(c: CCircuit, n: string, v: Signal, code: ImplyCode): (r: (Option<Signal>, ImplyCode))
    ensures n != c.faultLocation || v == X ==> r == (Some(v), code)
    ensures n == c.faultLocation && v != X && c.faultValue == D ==>
      r == (if v == ZERO then (Some(ZERO), MASKED) else (Some(D), ACTIVATED))
    ensures n == c.faultLocation && v != X && c.faultValue == D_b ==>
      r == (if v == ONE then (Some(ONE), MASKED) else (Some(D_b), ACTIVATED))
  {
    if n == c.faultLocation && v != X then
      if c.faultValue == D then
        (if v == ZERO then (Some(v), MASKED) else (Some(D), ACTIVATED))
      else if c.faultValue == D_b then
        (if v == ONE then (Some(v), MASKED) else (Some(D_b), ACTIVATED))
      else (None, code)
    else (Some(v), code)
  }

  function Store(c: CCircuit, n: string, v: Option<Signal>): (d: CCircuit)
  {
    match v
    case None => c
    case Some(s) => c.(state := c.state[n := s])
  }

  // ---------------------------------------------------------------------
  // Recursive implication

  datatype Implied = Implied(circuit: CCircuit, code: ImplyCode)

  /** The local part of `evaluateGateRecursive(n)`: evaluate the gate,
      update the D-frontier (member iff the value is X while a fault
      effect reaches a scanned fan-in), store the value with the
      fault-site override and compute the gate's own code (DETECTED at a
      primary output carrying a fault effect, ERROR for an unrecognised
      type unless the override or detection replaces it). */
  function Settle(c: CCircuit, n: string): (r: Implied)
    requires n in c.gates && |c.gates[n].inputs| > 0 && n in c.state
    ensures SameShape(c, r.circuit)
    ensures forall m :: m != n ==> StateOf(r.circuit, m) == StateOf(c, m) && (m in r.circuit.dfrontier <==> m in c.dfrontier)
    ensures var e := EvalOne(c, c.gates[n]);
      (n in r.circuit.dfrontier <==> e.value == X && e.dInput)
    ensures var e := EvalOne(c, c.gates[n]);
      StateOf(r.circuit, n) == (match Override(c, n, e.value, NORMAL).0
                                case None => StateOf(c, n)
                                case Some(s) => s)
    ensures var e := EvalOne(c, c.gates[n]);
      Contains(c.outputs, n) && IsFaultEffect(e.value) ==> r.code == DETECTED
    ensures var e := EvalOne(c, c.gates[n]);
      !e.matched && n != c.faultLocation && !Contains(c.outputs, n) ==> r.code == ERROR
    ensures var e := EvalOne(c, c.gates[n]);
      e.matched && n != c.faultLocation && !(Contains(c.outputs, n) && IsFaultEffect(e.value)) ==> r.code == NORMAL
  {
    var g := c.gates[n];
    var e := EvalOne(c, g);
    var code0 := if e.matched then NORMAL else ERROR;
    var df := if e.value == X && e.dInput then c.dfrontier + {n} else c.dfrontier - {n};
    var o := Override(c, n, e.value, code0);
    var code1 := if Contains(c.outputs, n) && IsFaultEffect(e.value) then DETECTED else o.1;
    Implied(Store(c.(dfrontier := df), n, o.0), code1)
  }

  /** `evaluateGateRecursive(n)`: settle the gate, then re-evaluate its
      fan-outs only when the computed value differs from the value the
      signal held before; the gate's own code is merged with theirs. */
  function EvalGate(c: CCircuit, ghost rank: map<string, nat>, n: string): (r: Implied)
    requires Evaluable(c) && Ranked(c, rank)
    requires n in c.gates && |c.gates[n].inputs| > 0
    ensures SameShape(c, r.circuit)
    ensures ChangedOnlyBelow(c, r.circuit, rank, n, true)
    ensures var s := Settle(c, n);
      StateOf(r.circuit, n) == StateOf(s.circuit, n) && (n in r.circuit.dfrontier <==> n in s.circuit.dfrontier)
    ensures Le(Settle(c, n).code, r.code)
    ensures EvalOne(c, c.gates[n]).value == StateOf(c, n) ==> r == Settle(c, n)
    ensures InputsAreSources(c) && n !in c.inputs ==> InputsKept(c, r.circuit)
    decreases rank[n], 1
  {
    var s := Settle(c, n);
    if EvalOne(c, c.gates[n]).value != StateOf(c, n) then
      var r := EvalFanouts(s.circuit, rank, n, 0, s.code);
      BelowAcross(c, s.circuit, r.circuit, rank, n);
      KeptAcross(c, s.circuit, r.circuit, n);
      r
    else s
  }

  /** A primary output whose computed value carries a fault effect makes
      the evaluation report DETECTED, unless a fan-out raises an error. */
  lemma DetectedAtOutput(c: CCircuit, rank: map<string, nat>, n: string)
    requires Evaluable(c) && Ranked(c, rank)
    requires n in c.gates && |c.gates[n].inputs| > 0
    requires Contains(c.outputs, n) && IsFaultEffect(EvalOne(c, c.gates[n]).value)
    ensures EvalGate(c, rank, n).code == DETECTED || EvalGate(c, rank, n).code == ERROR
  {
  }

  /** A change at `n` followed by changes below `n` changes nothing but
      `n` and what lies below it, and leaves `n` as the first step set it. */
  lemma BelowAcross(c: CCircuit, c1: CCircuit, d: CCircuit, rank: map<string, nat>, n: string)
    requires forall m :: m != n ==> StateOf(c1, m) == StateOf(c, m) && (m in c1.dfrontier <==> m in c.dfrontier)
    requires ChangedOnlyBelow(c1, d, rank, n, false)
    ensures ChangedOnlyBelow(c, d, rank, n, true)
    ensures StateOf(d, n) == StateOf(c1, n) && (n in d.dfrontier <==> n in c1.dfrontier)
  {
    assert !Below(rank, n, n);
  }

  /** The same for the primary inputs other than `n`. */
  lemma KeptAcross(c: CCircuit, c1: CCircuit, d: CCircuit, n: string)
    requires c1.inputs == c.inputs && c1.gates == c.gates
    requires forall m :: m != n ==> StateOf(c1, m) == StateOf(c, m)
    requires InputsAreSources(c1) ==> InputsKept(c1, d)
    ensures InputsAreSources(c) ==>
      forall i :: 0 <= i < |c.inputs| && c.inputs[i] != n ==> StateOf(d, c.inputs[i]) == StateOf(c, c.inputs[i])
  {
  }

  /** The fan-out loop of `parent` from position `i`: each fan-out is
      evaluated in list order on the state the previous one left, and
      its code merged into `code`. */
  function EvalFanouts(c: CCircuit, ghost rank: map<string, nat>, parent: string, i: nat, code: ImplyCode): (r: Implied)
    requires Evaluable(c) && Ranked(c, rank)
    requires parent in c.gates && i <= |c.gates[parent].outputs|
    ensures SameShape(c, r.circuit)
    ensures ChangedOnlyBelow(c, r.circuit, rank, parent, false)
    ensures Le(code, r.code)
    ensures InputsAreSources(c) ==> InputsKept(c, r.circuit)
    decreases rank[parent], 0, |c.gates[parent].outputs| - i
  {
    var outs := c.gates[parent].outputs;
    if i == |outs| then Implied(c, code)
    else
      var r := EvalGate(c, rank, outs[i]);
      MergeIsJoin(code, r.code, ERROR);
      var next := EvalFanouts(r.circuit, rank, parent, i + 1, Merge(code, r.code));
      LeIsTransitive(code, Merge(code, r.code), next.code);
      next
  }

  lemma LeIsTransitive(a: ImplyCode, b: ImplyCode, e: ImplyCode)
    ensures Le(a, b) && Le(b, e) ==> Le(a, e)
  {
  }

  // ---------------------------------------------------------------------
  // Input assignment

  /** The assignment part of `setAndImplyCircuitInput` for a valid value
      on a primary input: away from the fault site (or for X) the value is
      stored as given; at the site a D fault turns 0 into a masked ZERO
      and 1 into D, a D_b fault turns 1 into a masked ONE and 0 into D_b,
      the code being DETECTED when the input is also a primary output. */
  function AssignInput(c: CCircuit, name: string, value: Signal): (r: Implied)
    requires name in c.gates && name in c.state
    ensures SameShape(c, r.circuit) && r.circuit.dfrontier == c.dfrontier
    ensures forall m :: m != name ==> StateOf(r.circuit, m) == StateOf(c, m)
    ensures value == X || name != c.faultLocation ==> StateOf(r.circuit, name) == value && r.code == NORMAL
    ensures name == c.faultLocation && c.faultValue == D && value == ZERO ==>
      StateOf(r.circuit, name) == ZERO && r.code == MASKED
    ensures name == c.faultLocation && c.faultValue == D && value == ONE ==>
      StateOf(r.circuit, name) == D && r.code == (if name in c.outputs then DETECTED else ACTIVATED)
    ensures name == c.faultLocation && c.faultValue == D_b && value == ONE ==>
      StateOf(r.circuit, name) == ONE && r.code == MASKED
    ensures name == c.faultLocation && c.faultValue == D_b && value == ZERO ==>
      StateOf(r.circuit, name) == D_b && r.code == (if name in c.outputs then DETECTED else ACTIVATED)
  {
    var hit := if Contains(c.outputs, name) then DETECTED else ACTIVATED;
    var assign: (Option<Signal>, ImplyCode) :=
      if name == c.faultLocation && value != X then
        if c.faultValue == D then
          (if value == ZERO then (Some(ZERO), MASKED) else (Some(D), hit))
        else if c.faultValue == D_b then
          (if value == ONE then (Some(ONE), MASKED) else (Some(D_b), hit))
        else (None, NORMAL)
      else (Some(value), NORMAL);
    Implied(Store(c, name, assign.0), assign.1)
  }

  /** `setAndImplyCircuitInput`: a value other than 0, 1, X or a name that
      is not a primary input is an ERROR with nothing changed; otherwise
      the input is assigned and every fan-out is evaluated, whatever the
      input held before.  The input itself keeps the assigned value and
      the code only rises from the assignment's code. */
  function SetAndImply(c: CCircuit, ghost rank: map<string, nat>, name: string, value: Signal): (r: Implied)
    requires Evaluable(c) && Ranked(c, rank)
    ensures !IsBinaryOrX(value) || name !in c.inputs ==> r == Implied(c, ERROR)
    ensures SameShape(c, r.circuit)
    ensures IsBinaryOrX(value) && name in c.inputs ==>
      && ChangedOnlyBelow(c, r.circuit, rank, name, true)
      && StateOf(r.circuit, name) == StateOf(AssignInput(c, name, value).circuit, name)
      && Le(AssignInput(c, name, value).code, r.code)
    ensures InputsAreSources(c) ==> forall i :: 0 <= i < |c.inputs| && c.inputs[i] != name ==>
      StateOf(r.circuit, c.inputs[i]) == StateOf(c, c.inputs[i])
  {
    if value != ONE && value != ZERO && value != X then Implied(c, ERROR)
    else if !Contains(c.inputs, name) then Implied(c, ERROR)
    else
      var a := AssignInput(c, name, value);
      var r := EvalFanouts(a.circuit, rank, name, 0, a.code);
      BelowAcross(c, a.circuit, r.circuit, rank, name);
      KeptAcross(c, a.circuit, r.circuit, name);
      r
  }

  /** X is never overridden.  At the fault site a masking value is stored
      as given and reports MASKED (or ERROR), while an activating one stores
      the fault effect and never reports NORMAL or MASKED. */
  lemma SetAndImplyAtSite(c: CCircuit, rank: map<string, nat>, name: string, value: Signal)
    requires Evaluable(c) && Ranked(c, rank) && name in c.inputs && IsBinaryOrX(value)
    ensures var r := SetAndImply(c, rank, name, value);
      (value == X || name != c.faultLocation ==> StateOf(r.circuit, name) == value)
    ensures var r := SetAndImply(c, rank, name, value);
      name == c.faultLocation && IsFaultEffect(c.faultValue) && value != X ==>
        ((value == ZERO) == (c.faultValue == D) ==> r.code == MASKED || r.code == ERROR) &&
        ((value == ONE) == (c.faultValue == D) ==> r.code == ACTIVATED || r.code == DETECTED || r.code == ERROR)
    ensures var r := SetAndImply(c, rank, name, value);
      name == c.faultLocation && IsFaultEffect(c.faultValue) && value != X ==>
        ((value == ZERO) == (c.faultValue == D) ==> StateOf(r.circuit, name) == value) &&
        ((value == ONE) == (c.faultValue == D) ==> StateOf(r.circuit, name) == c.faultValue)
  {
  }

  predicate IsBinaryOrX(v: Signal)
  {
    v == ZERO || v == ONE || v == X
  }

  /** `resetCircuit`: imply X on every primary input in order, from
      position `i`. */
  function ResetFrom(c: CCircuit, ghost rank: map<string, nat>, i: nat): (r: CCircuit)
    requires Evaluable(c) && Ranked(c, rank) && i <= |c.inputs|
    ensures SameShape(c, r)
    ensures InputsAreSources(c) ==> forall k :: i <= k < |c.inputs| ==> StateOf(r, c.inputs[k]) == X
    ensures InputsAreSources(c) ==> forall k :: 0 <= k < i && c.inputs[k] !in c.inputs[i..] ==>
      StateOf(r, c.inputs[k]) == StateOf(c, c.inputs[k])
    decreases |c.inputs| - i
  {
    if i == |c.inputs| then c
    else
      var c1 := SetAndImply(c, rank, c.inputs[i], X).circuit;
      ResetFrom(c1, rank, i + 1)
  }

  /** After `resetCircuit` every primary input is X. */
  function ResetCircuit(c: CCircuit, ghost rank: map<string, nat>): (r: CCircuit)
    requires Evaluable(c) && Ranked(c, rank)
    ensures SameShape(c, r)
    ensures InputsAreSources(c) ==> forall k :: 0 <= k < |c.inputs| ==> StateOf(r, c.inputs[k]) == X
  {
    ResetFrom(c, rank, 0)
  }

  /** `getCurrCircuitInputValues`: exactly the primary inputs, with a
      fault effect read as its fault-free value. */
  function InputValues(c: CCircuit): (m: map<string, Signal>)
    ensures m.Keys == set i | 0 <= i < |c.inputs| :: c.inputs[i]
    ensures forall n :: n in m ==> !IsFaultEffect(m[n])
    ensures forall n :: n in m ==> (IsBinaryOrX(StateOf(c, n)) ==> m[n] == StateOf(c, n))
    ensures forall n :: n in m ==> (StateOf(c, n) == D ==> m[n] == ONE) && (StateOf(c, n) == D_b ==> m[n] == ZERO)
  {
    map n | n in (set i | 0 <= i < |c.inputs| :: c.inputs[i]) ::
      (if StateOf(c, n) == D then ONE else if StateOf(c, n) == D_b then ZERO else StateOf(c, n))
  }
}
