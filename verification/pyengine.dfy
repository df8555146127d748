/** The Python reference engine: `Roth.operate` over integer lookup tables,
    the `Gate` record and its evaluation rule, and the `Circuit` operations
    (resets, `set_inputs`, `get_outputs`, two-pass `add_gates`, the
    frontier-with-deferral `evaluate`, and `write_state`).

    Python exceptions become `Fail` outcomes.  An operation that mutates the
    circuit returns a `Step`: the circuit as it is after the call, together
    with `Pass` or the exception raised, because several of them raise after
    having mutated part of the state. */
module PyEngine {
  import opened Roth
  import opened Text
  import opened Wrappers

  // ---------------------------------------------------------------------
  // Exceptions and results

  datatype PyError =
    | UnknownOptype(optype: string)               // KeyError in Roth.operate
    | InvalidBridgetype(bridgetype: string)       // KeyError in BridgeFault.__init__
    | NotAFault                                   // TypeError in FaultClass.add_equivalent
    | NotAFaultClass                              // TypeError in FaultClass.add_dominated
    | ListIndex                                   // IndexError: list index out of range
    | BadLiteral                                  // ValueError: int() or Roth() of a bad value
    | EmptyReduce                                 // TypeError: reduce() of an empty sequence
    | InvalidGatetype(gatetype: string)           // KeyError in Gate.__init__
    | UnknownGate(name: string)                   // KeyError: gatemap[name]
    | EmptyFanin                                  // IndexError: statein[0]
    | MissingFanin(fanin: string, signal: string) // KeyError in add_gates
    | LengthMismatch                              // IndexError in set_inputs
    | FeedbackLoop                                // RuntimeError in evaluate
    | NoPathToOutput                              // RuntimeError in evaluate

  datatype Result<T> = Ok(value: T) | Err(error: PyError)

  datatype Outcome = Pass | Fail(error: PyError)

  // ---------------------------------------------------------------------
  // Roth.invert and Roth.operate

  /** The `invert` dictionary of `Roth.invert`. */
  function Invert(v: Signal): Signal
  {
    match v
    case ZERO => ONE
    case ONE => ZERO
    case D => D_b
    case D_b => D
    case X => X
  }

  const PyAndTable: seq<seq<int>> :=
    [[0, 0, 0, 0, 0], [0, 1, 2, 3, 4], [0, 2, 2, 0, 4], [0, 3, 0, 3, 4], [0, 4, 4, 4, 4]]
  const PyOrTable: seq<seq<int>> :=
    [[0, 1, 2, 3, 4], [1, 1, 1, 1, 1], [2, 1, 2, 1, 4], [3, 1, 1, 3, 4], [4, 1, 4, 4, 4]]
  const PyXorTable: seq<seq<int>> :=
    [[0, 1, 2, 3, 4], [1, 0, 3, 2, 4], [2, 3, 0, 1, 4], [3, 2, 1, 0, 4], [4, 4, 4, 4, 4]]

  /** The `optables` dictionary: the operation named by an optype key. */
  function OpNamed(optype: string): Option<Op>
  {
    if optype == "AND" then Some(AndOp)
    else if optype == "OR" then Some(OrOp)
    else if optype == "XOR" then Some(XorOp)
    else None
  }

  function PyTable(op: Op): seq<seq<int>>
  {
    match op
    case AndOp => PyAndTable
    case OrOp => PyOrTable
    case XorOp => PyXorTable
  }

  /** Every Python table entry is the ordinal of the C++ table entry. */
  lemma PyTableAgrees(op: Op, a: Signal, b: Signal)
    ensures PyTable(op)[Ord(a)][Ord(b)] == Ord(Apply(op, a, b))
  {
  }

  lemma InvertAgrees(v: Signal)
    ensures Invert(v) == Not(v)
  {
  }

  /** `functools.reduce(lambda a, b: table[a][b], ints)` from `acc`. */
  function PyFold(op: Op, acc: nat, rest: seq<Signal>): nat
    requires acc < 5
    decreases |rest|
  {
    if |rest| == 0 then acc
    else
      var n := PyTable(op)[acc][Ord(rest[0])];
      if 0 <= n < 5 then PyFold(op, n, rest[1..]) else acc
  }

  lemma {:induction false} PyFoldAgrees(op: Op, acc: Signal, rest: seq<Signal>)
    ensures PyFold(op, Ord(acc), rest) == Ord(Fold(op, acc, rest))
    decreases |rest|
  {
    if |rest| > 0 {
      PyTableAgrees(op, acc, rest[0]);
      PyFoldAgrees(op, Apply(op, acc, rest[0]), rest[1..]);
    }
  }

  /** `Roth.operate(optype, inputs)`. */
  function Operate(optype: string, inputs: seq<Signal>): (r: Result<Signal>)
    ensures OpNamed(optype).None? ==> r == Err(UnknownOptype(optype))
    ensures OpNamed(optype).Some? && |inputs| == 0 ==> r == Err(EmptyReduce)
    ensures r.Ok? <==> OpNamed(optype).Some? && |inputs| > 0
    ensures r.Ok? ==> r.value == Combine(OpNamed(optype).value, inputs)
  {
    match OpNamed(optype)
    case None => Err(UnknownOptype(optype))
    case Some(op) =>
      if |inputs| == 0 then Err(EmptyReduce)
      else
        PyFoldAgrees(op, inputs[0], inputs[1..]);
        Ok(FromOrd(PyFold(op, Ord(inputs[0]), inputs[1..])))
  }

  // ---------------------------------------------------------------------
  // Gates

  datatype GateType = AND | NAND | OR | NOR | XOR | XNOR | BUFF | NOT | DFF | INPUT | UNDEFINED

  /** The entry of `Gate.types` for each gate type. */
  function TypeName(t: GateType): string
  {
    match t
    case AND => "AND"
    case NAND => "NAND"
    case OR => "OR"
    case NOR => "NOR"
    case XOR => "XOR"
    case XNOR => "XNOR"
    case BUFF => "BUFF"
    case NOT => "NOT"
    case DFF => "DFF"
    case INPUT => "INPUT"
    case UNDEFINED => "UNDEFINED"
  }

  /** Membership test `gatetype in Gate.types`. */
  function ParseGateType(s: string): (r: Option<GateType>)
  {
    if s == "AND" then Some(AND)
    else if s == "NAND" then Some(NAND)
    else if s == "OR" then Some(OR)
    else if s == "NOR" then Some(NOR)
    else if s == "XOR" then Some(XOR)
    else if s == "XNOR" then Some(XNOR)
    else if s == "BUFF" then Some(BUFF)
    else if s == "NOT" then Some(NOT)
    else if s == "DFF" then Some(DFF)
    else if s == "INPUT" then Some(INPUT)
    else if s == "UNDEFINED" then Some(UNDEFINED)
    else None
  }

  /** The recognised type strings are exactly the eleven names. */
  lemma ParseGateTypeIsInverse(s: string, t: GateType)
    ensures ParseGateType(s) == Some(t) <==> s == TypeName(t)
  {
  }

  datatype Gate = Gate(
    name: string,
    gatetype: GateType,
    fanin: seq<string>,
    fanout: seq<string>,
    value: Signal,
    output: bool,
    flag: bool)

  /** `Gate(name, gatetype, fanin, fanout)`. */
  function NewGate(name: string, gatetype: string, fanin: seq<string>, fanout: seq<string>): (r: Result<Gate>)
    ensures r.Ok? <==> gatetype in ["AND", "NAND", "OR", "NOR", "XOR", "XNOR", "BUFF", "NOT", "DFF", "INPUT", "UNDEFINED"]
    ensures r.Err? ==> r.error == InvalidGatetype(gatetype)
    ensures r.Ok? ==> TypeName(r.value.gatetype) == gatetype && r.value.name == name
    ensures r.Ok? ==> r.value.fanin == fanin && r.value.fanout == fanout
    ensures r.Ok? ==> r.value.value == X && !r.value.output && !r.value.flag
  {
    match ParseGateType(gatetype)
    case None => Err(InvalidGatetype(gatetype))
    case Some(t) =>
      ParseGateTypeIsInverse(gatetype, t);
      Ok(Gate(name, t, fanin, fanout, X, false, false))
  }

  /** `tuple(ckt.gatemap[fi].value for fi in fanin)`; the first missing
      name raises KeyError. */
  function FaninValues(gm: map<string, Gate>, fanin: seq<string>): (r: Result<seq<Signal>>)
    ensures r.Ok? <==> forall i :: 0 <= i < |fanin| ==> fanin[i] in gm
    ensures r.Ok? ==> |r.value| == |fanin|
    ensures r.Ok? ==> forall i :: 0 <= i < |fanin| ==> r.value[i] == gm[fanin[i]].value
    ensures r.Err? ==> r.error.UnknownGate? && r.error.name in fanin && r.error.name !in gm
    decreases |fanin|
  {
    if |fanin| == 0 then Ok([])
    else if fanin[0] !in gm then Err(UnknownGate(fanin[0]))
    else
      match FaninValues(gm, fanin[1..])
      case Err(e) => Err(e)
      case Ok(vs) => Ok([gm[fanin[0]].value] + vs)
  }

  /** The value `Gate.evaluate` computes for `g` from the fan-in values. */
  function GateOutput(gm: map<string, Gate>, g: Gate): (r: Result<Signal>)
    ensures FaninValues(gm, g.fanin).Err? ==> r.Err? && r.error.UnknownGate?
    ensures FaninValues(gm, g.fanin).Ok? ==>
      var vs := FaninValues(gm, g.fanin).value;
      && (g.gatetype in {AND, OR, XOR, NAND, NOR, XNOR} && |vs| == 0 ==> r == Err(EmptyReduce))
      && (g.gatetype in {BUFF, NOT} && |vs| == 0 ==> r == Err(EmptyFanin))
      && (|vs| > 0 ==>
          && (g.gatetype == AND ==> r == Ok(Combine(AndOp, vs)))
          && (g.gatetype == OR ==> r == Ok(Combine(OrOp, vs)))
          && (g.gatetype == XOR ==> r == Ok(Combine(XorOp, vs)))
          && (g.gatetype == NAND ==> r == Ok(Not(Combine(AndOp, vs))))
          && (g.gatetype == NOR ==> r == Ok(Not(Combine(OrOp, vs))))
          && (g.gatetype == XNOR ==> r == Ok(Not(Combine(XorOp, vs))))
          && (g.gatetype == BUFF ==> r == Ok(vs[0]))
          && (g.gatetype == NOT ==> r == Ok(Not(vs[0]))))
      && (g.gatetype in {DFF, UNDEFINED} ==> r == Ok(X))
      && (g.gatetype == INPUT ==> r == Ok(g.value))
    ensures r.Err? ==> r.error.UnknownGate? || r.error == EmptyReduce || r.error == EmptyFanin
  {
    match FaninValues(gm, g.fanin)
    case Err(e) => Err(e)
    case Ok(statein) =>
      match g.gatetype
      case AND => Operate("AND", statein)
      case NAND => (match Operate("AND", statein) case Ok(v) => InvertAgrees(v); Ok(Invert(v)) case Err(e) => Err(e))
      case OR => Operate("OR", statein)
      case NOR => (match Operate("OR", statein) case Ok(v) => InvertAgrees(v); Ok(Invert(v)) case Err(e) => Err(e))
      case XOR => Operate("XOR", statein)
      case XNOR => (match Operate("XOR", statein) case Ok(v) => InvertAgrees(v); Ok(Invert(v)) case Err(e) => Err(e))
      case BUFF => if |statein| == 0 then Err(EmptyFanin) else Ok(statein[0])
      case NOT => if |statein| == 0 then Err(EmptyFanin) else InvertAgrees(statein[0]); Ok(Invert(statein[0]))
      case DFF => Ok(X)
      case UNDEFINED => Ok(X)
      case INPUT => Ok(g.value)
  }

  /** `Gate.evaluate`: the gate with its value replaced by the computed one
      (the value Python also returns), or the exception raised. */
  function EvaluateGate(gm: map<string, Gate>, g: Gate): (r: Result<Gate>)
    ensures r.Ok? <==> GateOutput(gm, g).Ok?
    ensures r.Ok? ==> r.value == g.(value := GateOutput(gm, g).value)
    ensures r.Err? ==> r.error == GateOutput(gm, g).error
  {
    match GateOutput(gm, g)
    case Ok(v) => Ok(g.(value := v))
    case Err(e) => Err(e)
  }

  /** The computed value depends only on the gate and its fan-in values. */
  lemma GateOutputDependsOnFanin(gm: map<string, Gate>, gm': map<string, Gate>, g: Gate)
    requires forall f :: f in g.fanin ==> (f in gm <==> f in gm')
    requires forall f :: f in g.fanin && f in gm ==> gm[f].value == gm'[f].value
    ensures GateOutput(gm, g) == GateOutput(gm', g)
  {
    FaninValuesDependOnFanin(gm, gm', g.fanin);
  }

  lemma {:induction false} FaninValuesDependOnFanin(gm: map<string, Gate>, gm': map<string, Gate>, fanin: seq<string>)
    requires forall f :: f in fanin ==> (f in gm <==> f in gm')
    requires forall f :: f in fanin && f in gm ==> gm[f].value == gm'[f].value
    ensures FaninValues(gm, fanin) == FaninValues(gm', fanin)
    decreases |fanin|
  {
    if |fanin| > 0 {
      FaninValuesDependOnFanin(gm, gm', fanin[1..]);
    }
  }

  // ---------------------------------------------------------------------
  // Circuits

  datatype Circuit = Circuit(inputs: seq<string>, gatemap: map<string, Gate>, outputs: seq<string>)

  datatype Step = Step(circuit: Circuit, outcome: Outcome)

  /** What `add_gates` establishes for a fully linked circuit: every name
      the evaluator looks up resolves. */
  predicate WellFormed(c: Circuit)
  {
    && (forall i :: 0 <= i < |c.inputs| ==> c.inputs[i] in c.gatemap)
    && (forall i :: 0 <= i < |c.outputs| ==> c.outputs[i] in c.gatemap)
    && (forall n, i :: n in c.gatemap && 0 <= i < |c.gatemap[n].fanin| ==> c.gatemap[n].fanin[i] in c.gatemap)
    && (forall n, i :: n in c.gatemap && 0 <= i < |c.gatemap[n].fanout| ==> c.gatemap[n].fanout[i] in c.gatemap)
  }

  /** `reset_flags`. */
  function ResetFlags(c: Circuit): (r: Circuit)
    ensures r.inputs == c.inputs && r.outputs == c.outputs
    ensures r.gatemap.Keys == c.gatemap.Keys
    ensures forall n :: n in r.gatemap ==> !r.gatemap[n].flag
    ensures forall n :: n in r.gatemap ==> r.gatemap[n].(flag := c.gatemap[n].flag) == c.gatemap[n]
  {
    Circuit(c.inputs, map n | n in c.gatemap :: c.gatemap[n].(flag := false), c.outputs)
  }

  /** `reset_values`. */
  function ResetValues(c: Circuit): (r: Circuit)
    ensures r.inputs == c.inputs && r.outputs == c.outputs
    ensures r.gatemap.Keys == c.gatemap.Keys
    ensures forall n :: n in r.gatemap ==> r.gatemap[n].value == X
    ensures forall n :: n in r.gatemap ==> r.gatemap[n].(value := c.gatemap[n].value) == c.gatemap[n]
  {
    Circuit(c.inputs, map n | n in c.gatemap :: c.gatemap[n].(value := X), c.outputs)
  }

  /** Both resets are idempotent and commute with each other. */
  lemma ResetsCommuteAndAreIdempotent(c: Circuit)
    ensures ResetFlags(ResetFlags(c)) == ResetFlags(c)
    ensures ResetValues(ResetValues(c)) == ResetValues(c)
    ensures ResetFlags(ResetValues(c)) == ResetValues(ResetFlags(c))
  {
  }

  /** The loop of `set_inputs`: assign `values[i]` to gate `names[i]`. */
  function AssignValues(gm: map<string, Gate>, names: seq<string>, values: seq<Signal>): (r: map<string, Gate>)
    requires |names| == |values|
    requires forall i :: 0 <= i < |names| ==> names[i] in gm
    ensures r.Keys == gm.Keys
    ensures forall n :: n in gm && n !in names ==> r[n] == gm[n]
    ensures forall n :: n in gm ==> r[n] == gm[n].(value := r[n].value)
    ensures forall i :: 0 <= i < |names| && names[i] !in names[i + 1..] ==> r[names[i]].value == values[i]
    decreases |names|
  {
    if |names| == 0 then gm
    else
      var rest := AssignValues(gm[names[0] := gm[names[0]].(value := values[0])], names[1..], values[1..]);
      rest
  }

  /** `set_inputs(values)`: a length mismatch raises before anything is
      written; otherwise input `i` receives `values[i]` (the last write
      wins for a name listed twice) and no other gate or field changes. */
  function SetInputs(c: Circuit, values: seq<Signal>): (r: Step)
    requires forall i :: 0 <= i < |c.inputs| ==> c.inputs[i] in c.gatemap
    ensures |values| != |c.inputs| ==> r == Step(c, Fail(LengthMismatch))
    ensures |values| == |c.inputs| ==> r.outcome == Pass
    ensures r.circuit.inputs == c.inputs && r.circuit.outputs == c.outputs
    ensures r.circuit.gatemap.Keys == c.gatemap.Keys
    ensures forall n :: n in c.gatemap && n !in c.inputs ==> r.circuit.gatemap[n] == c.gatemap[n]
    ensures forall n :: n in c.gatemap ==> r.circuit.gatemap[n] == c.gatemap[n].(value := r.circuit.gatemap[n].value)
    ensures |values| == |c.inputs| ==>
      forall i :: 0 <= i < |c.inputs| && c.inputs[i] !in c.inputs[i + 1..] ==> r.circuit.gatemap[c.inputs[i]].value == values[i]
  {
    if |values| != |c.inputs| then Step(c, Fail(LengthMismatch))
    else Step(Circuit(c.inputs, AssignValues(c.gatemap, c.inputs, values), c.outputs), Pass)
  }

  /** `get_outputs()`: the primary-output values in declared order. */
  function GetOutputs(c: Circuit): (r: seq<Signal>)
    requires forall i :: 0 <= i < |c.outputs| ==> c.outputs[i] in c.gatemap
    ensures |r| == |c.outputs|
    ensures forall i :: 0 <= i < |r| ==> r[i] == c.gatemap[c.outputs[i]].value
  {
    seq(|c.outputs|, i requires 0 <= i < |c.outputs| => c.gatemap[c.outputs[i]].value)
  }

  // ---------------------------------------------------------------------
  // add_gates

  function InputNames(gates: seq<Gate>): seq<string>
  {
    if |gates| == 0 then []
    else (if gates[0].gatetype == INPUT then [gates[0].name] else []) + InputNames(gates[1..])
  }

  function OutputNames(gates: seq<Gate>): seq<string>
  {
    if |gates| == 0 then []
    else (if gates[0].output then [gates[0].name] else []) + OutputNames(gates[1..])
  }

  function NamesOf(gates: seq<Gate>): set<string>
  {
    set i | 0 <= i < |gates| :: gates[i].name
  }

  /** Gate `i` is the last one in the list with its name. */
  predicate LastWithName(gates: seq<Gate>, i: int)
    requires 0 <= i < |gates|
  {
    forall j :: i < j < |gates| ==> gates[j].name != gates[i].name
  }

  /** The first loop of `add_gates`. */
  function InsertGates(c: Circuit, gates: seq<Gate>): (r: Circuit)
    ensures r.inputs == c.inputs + InputNames(gates)
    ensures r.outputs == c.outputs + OutputNames(gates)
    ensures r.gatemap.Keys == c.gatemap.Keys + NamesOf(gates)
    ensures forall n :: n in c.gatemap && n !in NamesOf(gates) ==> r.gatemap[n] == c.gatemap[n]
    ensures forall i :: 0 <= i < |gates| && LastWithName(gates, i) ==> r.gatemap[gates[i].name] == gates[i]
    decreases |gates|
  {
    if |gates| == 0 then c
    else
      var g := gates[0];
      var c1 := Circuit(
        c.inputs + (if g.gatetype == INPUT then [g.name] else []),
        c.gatemap[g.name := g],
        c.outputs + (if g.output then [g.name] else []));
      var r := InsertGates(c1, gates[1..]);
      NamesOfCons(gates);
      r
  }

  /** The names of a list are its head's name and the names of its tail,
      and a gate last with its name stays so in the tail. */
  lemma NamesOfCons(gates: seq<Gate>)
    requires |gates| > 0
    ensures NamesOf(gates) == {gates[0].name} + NamesOf(gates[1..])
    ensures forall i :: 1 <= i < |gates| && LastWithName(gates, i) ==> LastWithName(gates[1..], i - 1)
  {
    forall n | n in NamesOf(gates) ensures n in {gates[0].name} + NamesOf(gates[1..]) {
      var i :| 0 <= i < |gates| && gates[i].name == n;
      if i > 0 { assert gates[1..][i - 1].name == n; }
    }
  }

  /** What linking the fan-in list `fanin` of gate `consumer` into `gm`
      gives (`r`): only fan-out lists change, each by appending `consumer`;
      it passes iff every fan-in exists, and then every fan-in lists the
      consumer; otherwise it reports a missing fan-in. */
  ghost predicate LinkedFanin(gm: map<string, Gate>, fanin: seq<string>, consumer: string, r: (map<string, Gate>, Outcome))
  {
    && r.0.Keys == gm.Keys
    && (forall n :: n in gm ==> r.0[n] == gm[n].(fanout := r.0[n].fanout) && gm[n].fanout <= r.0[n].fanout)
    && (r.1 == Pass <==> forall i :: 0 <= i < |fanin| ==> fanin[i] in gm)
    && (r.1 == Pass ==> forall i :: 0 <= i < |fanin| ==> consumer in r.0[fanin[i]].fanout)
    && (forall n, k :: n in gm && |gm[n].fanout| <= k < |r.0[n].fanout| ==> r.0[n].fanout[k] == consumer)
    && (r.1 != Pass ==>
          (r.1.error.MissingFanin? && r.1.error.signal == consumer && r.1.error.fanin in fanin && r.1.error.fanin !in gm))
  }

  /** The inner loop of the second pass: link one gate's fan-in. */
  function LinkFanin(gm: map<string, Gate>, fanin: seq<string>, consumer: string): (r: (map<string, Gate>, Outcome))
    ensures LinkedFanin(gm, fanin, consumer, r)
    decreases |fanin|
  {
    if |fanin| == 0 then (gm, Pass)
    else
      var f := fanin[0];
      if f !in gm then (gm, Fail(MissingFanin(f, consumer)))
      else
        var gm1 := gm[f := gm[f].(fanout := gm[f].fanout + [consumer])];
        var r := LinkFanin(gm1, fanin[1..], consumer);
        LinkFaninStep(gm, fanin, consumer, gm1, r);
        r
  }

  lemma LinkFaninStep(gm: map<string, Gate>, fanin: seq<string>, consumer: string,
                      gm1: map<string, Gate>, r: (map<string, Gate>, Outcome))
    requires |fanin| > 0 && fanin[0] in gm
    requires gm1 == gm[fanin[0] := gm[fanin[0]].(fanout := gm[fanin[0]].fanout + [consumer])]
    requires LinkedFanin(gm1, fanin[1..], consumer, r)
    ensures LinkedFanin(gm, fanin, consumer, r)
  {
    var f := fanin[0];
    assert consumer in gm1[f].fanout;
    assert forall i :: 1 <= i < |fanin| ==> fanin[i] == fanin[1..][i - 1];
    forall n, k | n in gm && |gm[n].fanout| <= k < |r.0[n].fanout|
      ensures r.0[n].fanout[k] == consumer
    {
      if k < |gm1[n].fanout| {
        assert r.0[n].fanout[k] == gm1[n].fanout[k];
      }
    }
  }

  /** What linking the fan-ins of `gates` into `gm` gives (`r`), stopping
      at the first dangling fan-in: only fan-out lists change, each by
      appending names of `gates`; it passes iff every fan-in exists, and
      then every fan-in lists its consumer; otherwise the error names a
      missing fan-in of one of the gates. */
  ghost predicate LinkedGates(gm: map<string, Gate>, gates: seq<Gate>, r: (map<string, Gate>, Outcome))
  {
    && r.0.Keys == gm.Keys
    && (forall n :: n in gm ==> r.0[n] == gm[n].(fanout := r.0[n].fanout) && gm[n].fanout <= r.0[n].fanout)
    && (r.1 == Pass <==> forall i, j :: 0 <= i < |gates| && 0 <= j < |gates[i].fanin| ==> gates[i].fanin[j] in gm)
    && (r.1 == Pass ==>
          forall i, j :: 0 <= i < |gates| && 0 <= j < |gates[i].fanin| ==> gates[i].name in r.0[gates[i].fanin[j]].fanout)
    && (forall n, k :: n in gm && |gm[n].fanout| <= k < |r.0[n].fanout| ==> r.0[n].fanout[k] in NamesOf(gates))
    && (r.1 != Pass ==>
          (r.1.error.MissingFanin? && r.1.error.fanin !in gm
           && exists i :: 0 <= i < |gates| && gates[i].name == r.1.error.signal && r.1.error.fanin in gates[i].fanin))
  }

  /** The second loop of `add_gates`, stopping at the first dangling fan-in. */
  function LinkGates(gm: map<string, Gate>, gates: seq<Gate>): (r: (map<string, Gate>, Outcome))
    ensures LinkedGates(gm, gates, r)
    decreases |gates|
  {
    if |gates| == 0 then (gm, Pass)
    else
      var first := LinkFanin(gm, gates[0].fanin, gates[0].name);
      if first.1 != Pass then
        LinkGatesStop(gm, gates, first);
        first
      else
        var r := LinkGates(first.0, gates[1..]);
        LinkGatesStep(gm, gates, first.0, r);
        r
  }

  lemma LinkGatesStop(gm: map<string, Gate>, gates: seq<Gate>, first: (map<string, Gate>, Outcome))
    requires |gates| > 0 && LinkedFanin(gm, gates[0].fanin, gates[0].name, first) && first.1 != Pass
    ensures LinkedGates(gm, gates, first)
  {
    assert gates[0].name in NamesOf(gates);
    var f := first.1.error.fanin;
    var j :| 0 <= j < |gates[0].fanin| && gates[0].fanin[j] == f;
  }

  lemma LinkGatesStep(gm: map<string, Gate>, gates: seq<Gate>, gm1: map<string, Gate>, r: (map<string, Gate>, Outcome))
    requires |gates| > 0 && LinkedFanin(gm, gates[0].fanin, gates[0].name, (gm1, Pass))
    requires LinkedGates(gm1, gates[1..], r)
    ensures LinkedGates(gm, gates, r)
  {
    assert forall i :: 1 <= i < |gates| ==> gates[i] == gates[1..][i - 1];
    assert NamesOf(gates[1..]) <= NamesOf(gates) by {
      forall n | n in NamesOf(gates[1..]) ensures n in NamesOf(gates) {
        var i :| 0 <= i < |gates[1..]| && gates[1..][i].name == n;
        assert gates[i + 1].name == n;
      }
    }
    assert gates[0].name in NamesOf(gates);
    forall n, k | n in gm && |gm[n].fanout| <= k < |r.0[n].fanout|
      ensures r.0[n].fanout[k] in NamesOf(gates)
    {
      if k < |gm1[n].fanout| {
        assert r.0[n].fanout[k] == gm1[n].fanout[k];
      }
    }
    if r.1 == Pass {
      forall i, j | 0 <= i < |gates| && 0 <= j < |gates[i].fanin|
        ensures gates[i].name in r.0[gates[i].fanin[j]].fanout
      {
        if i == 0 {
          var f := gates[0].fanin[j];
          assert gates[0].name in gm1[f].fanout;
          assert gm1[f].fanout <= r.0[f].fanout;
        }
      }
    }
    if r.1 != Pass {
      var i :| 0 <= i < |gates[1..]| && gates[1..][i].name == r.1.error.signal && r.1.error.fanin in gates[1..][i].fanin;
      assert gates[i + 1] == gates[1..][i];
    }
  }

  /** `add_gates(gates)`.  The first pass always runs to completion, so on
      a dangling fan-in the new gates are already in the map (and some
      fan-out lists already extended): the call is not atomic.  Either
      way, an old gate no new gate replaces, and the last new gate of each
      name, keep every field but the fan-out list, which only grows, by
      names of new gates. */
  function AddGates(c: Circuit, gates: seq<Gate>): (r: Step)
    ensures r.circuit.inputs == c.inputs + InputNames(gates)
    ensures r.circuit.outputs == c.outputs + OutputNames(gates)
    ensures r.circuit.gatemap.Keys == c.gatemap.Keys + NamesOf(gates)
    ensures forall n :: n in c.gatemap && n !in NamesOf(gates) ==>
      r.circuit.gatemap[n] == c.gatemap[n].(fanout := r.circuit.gatemap[n].fanout) &&
      c.gatemap[n].fanout <= r.circuit.gatemap[n].fanout
    ensures forall i :: 0 <= i < |gates| && LastWithName(gates, i) ==>
      r.circuit.gatemap[gates[i].name] == gates[i].(fanout := r.circuit.gatemap[gates[i].name].fanout) &&
      gates[i].fanout <= r.circuit.gatemap[gates[i].name].fanout
    ensures forall n, k ::
      n in c.gatemap && n !in NamesOf(gates) && |c.gatemap[n].fanout| <= k < |r.circuit.gatemap[n].fanout| ==>
        r.circuit.gatemap[n].fanout[k] in NamesOf(gates)
    ensures forall i, k ::
      0 <= i < |gates| && LastWithName(gates, i) && |gates[i].fanout| <= k < |r.circuit.gatemap[gates[i].name].fanout| ==>
        r.circuit.gatemap[gates[i].name].fanout[k] in NamesOf(gates)
    ensures r.outcome == Pass <==>
      forall i, j :: 0 <= i < |gates| && 0 <= j < |gates[i].fanin| ==>
        gates[i].fanin[j] in c.gatemap.Keys + NamesOf(gates)
    ensures r.outcome == Pass ==>
      forall i, j :: 0 <= i < |gates| && 0 <= j < |gates[i].fanin| ==>
        gates[i].name in r.circuit.gatemap[gates[i].fanin[j]].fanout
    ensures r.outcome != Pass ==>
      (r.outcome.error.MissingFanin? && r.outcome.error.fanin !in c.gatemap.Keys + NamesOf(gates)
       && exists i :: 0 <= i < |gates| && gates[i].name == r.outcome.error.signal && r.outcome.error.fanin in gates[i].fanin)
  {
    var c1 := InsertGates(c, gates);
    var (gm, o) := LinkGates(c1.gatemap, gates);
    Step(Circuit(c1.inputs, gm, c1.outputs), o)
  }

  lemma {:induction false} InputNamesAreNames(gates: seq<Gate>)
    ensures forall i :: 0 <= i < |InputNames(gates)| ==> InputNames(gates)[i] in NamesOf(gates)
    ensures forall i :: 0 <= i < |OutputNames(gates)| ==> OutputNames(gates)[i] in NamesOf(gates)
    decreases |gates|
  {
    if |gates| > 0 {
      InputNamesAreNames(gates[1..]);
      forall n | n in NamesOf(gates[1..]) ensures n in NamesOf(gates) {
        var i :| 0 <= i < |gates[1..]| && gates[1..][i].name == n;
        assert gates[i + 1].name == n;
      }
      assert gates[0].name in NamesOf(gates);
    }
  }

  /** After the first pass every name the circuit mentions is a key,
      provided the new gates mention only keys. */
  lemma InsertedNamesResolve(c: Circuit, gates: seq<Gate>)
    requires WellFormed(c)
    requires forall i, j :: 0 <= i < |gates| && 0 <= j < |gates[i].fanout| ==>
      gates[i].fanout[j] in c.gatemap.Keys + NamesOf(gates)
    requires forall i, j :: 0 <= i < |gates| && 0 <= j < |gates[i].fanin| ==>
      gates[i].fanin[j] in c.gatemap.Keys + NamesOf(gates)
    ensures WellFormed(InsertGates(c, gates))
  {
    var c1 := InsertGates(c, gates);
    InputNamesAreNames(gates);
    forall n | n in c1.gatemap
      ensures forall i :: 0 <= i < |c1.gatemap[n].fanin| ==> c1.gatemap[n].fanin[i] in c1.gatemap
      ensures forall i :: 0 <= i < |c1.gatemap[n].fanout| ==> c1.gatemap[n].fanout[i] in c1.gatemap
    {
      if n !in NamesOf(gates) {
        assert c1.gatemap[n] == c.gatemap[n];
      } else {
        var i :| 0 <= i < |gates| && gates[i].name == n;
        var last := LastIndexOfName(gates, i);
        assert c1.gatemap[n] == gates[last];
      }
    }
  }

  /** Linking keeps a circuit well formed when it appends only known names. */
  lemma LinkedWellFormed(c1: Circuit, names: set<string>, gm: map<string, Gate>)
    requires WellFormed(c1) && names <= c1.gatemap.Keys
    requires gm.Keys == c1.gatemap.Keys
    requires forall n :: n in c1.gatemap ==>
      gm[n] == c1.gatemap[n].(fanout := gm[n].fanout) && c1.gatemap[n].fanout <= gm[n].fanout
    requires forall n, k :: n in c1.gatemap && |c1.gatemap[n].fanout| <= k < |gm[n].fanout| ==> gm[n].fanout[k] in names
    ensures WellFormed(Circuit(c1.inputs, gm, c1.outputs))
  {
    forall n, i | n in gm && 0 <= i < |gm[n].fanout|
      ensures gm[n].fanout[i] in gm
    {
      if i >= |c1.gatemap[n].fanout| {
        assert gm[n].fanout[i] in names;
      } else {
        assert gm[n].fanout[i] == c1.gatemap[n].fanout[i];
      }
    }
    forall n, i | n in gm && 0 <= i < |gm[n].fanin|
      ensures gm[n].fanin[i] in gm
    {
      assert gm[n].fanin == c1.gatemap[n].fanin;
    }
  }

  /** A successful `add_gates` on a well-formed circuit, whose new gates
      declare only fan-outs that end up in the map, leaves a well-formed
      circuit: the precondition of `Evaluate`. */
  lemma AddGatesKeepsWellFormed(c: Circuit, gates: seq<Gate>)
    requires WellFormed(c)
    requires forall i, j :: 0 <= i < |gates| && 0 <= j < |gates[i].fanout| ==>
      gates[i].fanout[j] in c.gatemap.Keys + NamesOf(gates)
    requires AddGates(c, gates).outcome == Pass
    ensures WellFormed(AddGates(c, gates).circuit)
  {
    var c1 := InsertGates(c, gates);
    var lg := LinkGates(c1.gatemap, gates);
    InsertedNamesResolve(c, gates);
    LinkedWellFormed(c1, NamesOf(gates), lg.0);
  }

  /** Whatever `add_gates` returns, including after a dangling fan-in,
      its primary inputs and outputs are keys, which is all `set_inputs`
      and `get_outputs` need. */
  lemma AddGatesKeepsPorts(c: Circuit, gates: seq<Gate>)
    requires forall i :: 0 <= i < |c.inputs| ==> c.inputs[i] in c.gatemap
    requires forall i :: 0 <= i < |c.outputs| ==> c.outputs[i] in c.gatemap
    ensures var d := AddGates(c, gates).circuit;
      (forall i :: 0 <= i < |d.inputs| ==> d.inputs[i] in d.gatemap) &&
      (forall i :: 0 <= i < |d.outputs| ==> d.outputs[i] in d.gatemap)
  {
    var d := AddGates(c, gates).circuit;
    InputNamesAreNames(gates);
    AppendedIn(c.inputs, InputNames(gates), c.gatemap.Keys, NamesOf(gates));
    AppendedIn(c.outputs, OutputNames(gates), c.gatemap.Keys, NamesOf(gates));
    assert d.gatemap.Keys == c.gatemap.Keys + NamesOf(gates);
  }

  lemma AppendedIn(a: seq<string>, b: seq<string>, ka: set<string>, kb: set<string>)
    requires forall i :: 0 <= i < |a| ==> a[i] in ka
    requires forall i :: 0 <= i < |b| ==> b[i] in kb
    ensures forall i :: 0 <= i < |a + b| ==> (a + b)[i] in ka + kb
  {
    forall i | 0 <= i < |a + b| ensures (a + b)[i] in ka + kb {
      if i >= |a| { assert (a + b)[i] == b[i - |a|]; }
    }
  }

  /** The last position in `gates` holding the name of gate `i`. */
  lemma LastIndexOfName(gates: seq<Gate>, i: int) returns (k: int)
    requires 0 <= i < |gates|
    ensures i <= k < |gates| && gates[k].name == gates[i].name && LastWithName(gates, k)
    decreases |gates| - i
  {
    if exists j :: i < j < |gates| && gates[j].name == gates[i].name {
      var j :| i < j < |gates| && gates[j].name == gates[i].name;
      k := LastIndexOfName(gates, j);
    } else {
      k := i;
    }
  }

  // ---------------------------------------------------------------------
  // evaluate

  /** The gates fed directly by a primary input. */
  function SeedFrontier(c: Circuit): (r: set<string>)
    requires WellFormed(c)
    ensures r <= c.gatemap.Keys
  {
    set i, j | 0 <= i < |c.inputs| && 0 <= j < |c.gatemap[c.inputs[i]].fanout| :: c.gatemap[c.inputs[i]].fanout[j]
  }

  /** The fan-outs of `t` that are not flagged yet. */
  function NewFrontier(c: Circuit, gm: map<string, Gate>, t: string): (r: set<string>)
    requires WellFormed(c) && gm.Keys == c.gatemap.Keys && t in c.gatemap
    ensures r <= c.gatemap.Keys
  {
    set j | 0 <= j < |c.gatemap[t].fanout| && !gm[c.gatemap[t].fanout[j]].flag :: c.gatemap[t].fanout[j]
  }

  /** Same gate apart from value and flag. */
  predicate SameShape(g: Gate, h: Gate)
  {
    g.(value := h.value, flag := h.flag) == h
  }

  predicate AllFaninIn(g: Gate, s: set<string>)
  {
    forall i :: 0 <= i < |g.fanin| ==> g.fanin[i] in s
  }

  predicate NoDuplicates(s: seq<string>)
  {
    forall i, j :: 0 <= i < j < |s| ==> s[i] != s[j]
  }

  // The loop invariant of `evaluate`, in parts.  `visited` mirrors the
  // flags and `order` lists the gates evaluated so far.

  ghost predicate Shaped(c: Circuit, gm: map<string, Gate>)
  {
    && WellFormed(c)
    && gm.Keys == c.gatemap.Keys
    && (forall n :: n in gm ==> SameShape(c.gatemap[n], gm[n]))
  }

  ghost predicate Mirrors(gm: map<string, Gate>, visited: set<string>)
  {
    && visited <= gm.Keys
    && (forall n {:trigger gm[n]} :: n in gm ==> (gm[n].flag <==> n in visited))
  }

  /** The primary inputs are the seeds; every other flagged gate was
      evaluated exactly once. */
  ghost predicate Seeded(c: Circuit, visited: set<string>, order: seq<string>)
  {
    && (forall i :: 0 <= i < |c.inputs| ==> c.inputs[i] in visited)
    && (forall n :: n in visited ==> n in c.inputs || n in order)
    && (forall k :: 0 <= k < |order| ==> order[k] in visited && order[k] !in c.inputs)
    && NoDuplicates(order)
  }

  /** Every evaluated gate was evaluated after all its fan-ins settled. */
  ghost predicate Topological(c: Circuit, order: seq<string>)
  {
    forall k, i :: 0 <= k < |order| && order[k] in c.gatemap && 0 <= i < |c.gatemap[order[k]].fanin| ==>
      c.gatemap[order[k]].fanin[i] in c.inputs || c.gatemap[order[k]].fanin[i] in order[..k]
  }

  /** Every evaluated gate still holds the value its rule gives. */
  ghost predicate Current(gm: map<string, Gate>, order: seq<string>)
  {
    forall k :: 0 <= k < |order| ==> order[k] in gm && GateOutput(gm, gm[order[k]]) == Ok(gm[order[k]].value)
  }

  /** Only evaluated gates have a new value: the primary inputs and the
      gates not reached keep theirs. */
  ghost predicate ValuesKept(c: Circuit, gm: map<string, Gate>, order: seq<string>)
  {
    forall n :: n in c.gatemap && n in gm && n !in order ==> gm[n].value == c.gatemap[n].value
  }

  /** Deferred gates wait for an unsettled fan-in. */
  ghost predicate Waiting(c: Circuit, visited: set<string>, delayed: set<string>)
  {
    && delayed <= c.gatemap.Keys
    && (forall n :: n in delayed ==> n !in visited && !AllFaninIn(c.gatemap[n], visited))
  }

  /** Every fan-out of a settled gate is settled, pending or deferred. */
  ghost predicate Covered(c: Circuit, visited: set<string>, frontier: set<string>, delayed: set<string>)
  {
    && frontier <= c.gatemap.Keys
    && (forall n, j {:trigger c.gatemap[n].fanout[j]} :: n in visited && n in c.gatemap && 0 <= j < |c.gatemap[n].fanout| ==>
          c.gatemap[n].fanout[j] in visited + frontier + delayed)
  }

  ghost predicate EvalInv(c: Circuit, gm: map<string, Gate>, visited: set<string>,
                          frontier: set<string>, delayed: set<string>, order: seq<string>)
  {
    && Shaped(c, gm) && Mirrors(gm, visited) && Seeded(c, visited, order)
    && Topological(c, order) && Current(gm, order) && ValuesKept(c, gm, order)
    && Waiting(c, visited, delayed) && Covered(c, visited, frontier, delayed)
  }

  /** Flag the primary inputs after `reset_flags`. */
  function SeedMap(c: Circuit): (gm: map<string, Gate>)
    requires WellFormed(c)
    ensures gm.Keys == c.gatemap.Keys
    ensures forall n :: n in gm ==> SameShape(c.gatemap[n], gm[n]) && gm[n].value == c.gatemap[n].value
    ensures forall n :: n in gm ==> (gm[n].flag <==> n in c.inputs)
  {
    map n | n in c.gatemap :: c.gatemap[n].(flag := n in c.inputs)
  }

  /** What `Circuit.evaluate()` guarantees, for the circuit and outcome in
      `r` and the evaluation sequence `order`:
      - nothing but values and flags changes, and only evaluated gates
        change their value: the primary inputs keep theirs;
      - the flagged gates are the primary inputs and the evaluated gates;
      - every gate is evaluated at most once, never a primary input, and
        only after all its fan-ins were flagged;
      - unless a gate itself raised, every evaluated gate holds the value
        its rule gives on the final values of its fan-ins;
      - on `Pass` every primary output is flagged;
      - on `Pass` and on NoPathToOutput the flagged set is closed under
        fan-out, and NoPathToOutput means some output is unflagged;
      - FeedbackLoop means some unflagged gate has an unflagged fan-in;
      - the only other failures are the gate-level EmptyReduce and
        EmptyFanin. */
  ghost predicate EvaluatePost(c: Circuit, r: Step, order: seq<string>)
    requires WellFormed(c)
  {
    && r.circuit.inputs == c.inputs && r.circuit.outputs == c.outputs
    && r.circuit.gatemap.Keys == c.gatemap.Keys
    && (forall n :: n in c.gatemap ==> SameShape(c.gatemap[n], r.circuit.gatemap[n]))
    && (forall n :: n in c.gatemap && n !in order ==> r.circuit.gatemap[n].value == c.gatemap[n].value)
    && NoDuplicates(order)
    && (forall k :: 0 <= k < |order| ==> order[k] in c.gatemap && order[k] !in c.inputs)
    && (forall n :: n in c.gatemap ==> (r.circuit.gatemap[n].flag <==> n in c.inputs || n in order))
    && (forall k, i :: 0 <= k < |order| && 0 <= i < |c.gatemap[order[k]].fanin| ==>
          c.gatemap[order[k]].fanin[i] in c.inputs || c.gatemap[order[k]].fanin[i] in order[..k])
    && (r.outcome == Pass || r.outcome == Fail(FeedbackLoop) || r.outcome == Fail(NoPathToOutput) ==>
          forall k :: 0 <= k < |order| ==>
            GateOutput(r.circuit.gatemap, r.circuit.gatemap[order[k]]) == Ok(r.circuit.gatemap[order[k]].value))
    && (r.outcome == Pass ==> forall i :: 0 <= i < |c.outputs| ==> r.circuit.gatemap[c.outputs[i]].flag)
    && (r.outcome == Pass || r.outcome == Fail(NoPathToOutput) ==>
          forall n, j {:trigger c.gatemap[n].fanout[j]} ::
            n in c.gatemap && r.circuit.gatemap[n].flag && 0 <= j < |c.gatemap[n].fanout| ==>
              r.circuit.gatemap[c.gatemap[n].fanout[j]].flag)
    && (r.outcome == Fail(NoPathToOutput) ==>
          exists i :: 0 <= i < |c.outputs| && !r.circuit.gatemap[c.outputs[i]].flag)
    && (r.outcome == Fail(FeedbackLoop) ==>
          exists n :: n in c.gatemap && !r.circuit.gatemap[n].flag &&
            exists i :: 0 <= i < |c.gatemap[n].fanin| && !r.circuit.gatemap[c.gatemap[n].fanin[i]].flag)
    && (r.outcome.Fail? ==> r.outcome.error in {FeedbackLoop, NoPathToOutput, EmptyReduce, EmptyFanin})
  }

  /** `Circuit.evaluate()`: frontier expansion with deferral.  `order` is
      the sequence of gates evaluated (the order of the debug log lines). */
  method Evaluate(c: Circuit) returns (r: Step, order: seq<string>)
    requires WellFormed(c)
    ensures EvaluatePost(c, r, order)
  {
    var gm, frontier, delayed, outcome;
    ghost var visited;
    gm, visited, frontier, delayed, order, outcome := Expand(c);
    if outcome == Pass {
      outcome := Verdict(c, gm, delayed);
    }
    Conclude(c, gm, visited, frontier, delayed, order, outcome);
    r := Step(Circuit(c.inputs, gm, c.outputs), outcome);
  }

  /** The main loop of `Circuit.evaluate()`: it ends with an empty frontier,
      or at the first gate whose evaluation raises. */
  method Expand(c: Circuit)
    returns (gm: map<string, Gate>, ghost visited: set<string>, frontier: set<string>,
             delayed: set<string>, order: seq<string>, outcome: Outcome)
    requires WellFormed(c)
    ensures EvalInv(c, gm, visited, frontier, delayed, order)
    ensures outcome == Pass ==> frontier == {}
    ensures outcome != Pass ==> frontier != {} && outcome.Fail? && outcome.error in {EmptyReduce, EmptyFanin}
  {
    gm := SeedMap(c);
    visited := set i | 0 <= i < |c.inputs| :: c.inputs[i];
    frontier := SeedFrontier(c);
    delayed := {};
    outcome := Pass;
    order := [];
    InitInv(c);
    while frontier != {}
      invariant EvalInv(c, gm, visited, frontier, delayed, order)
      decreases gm.Keys - visited, frontier
    {
      var t :| t in frontier;
      if gm[t].flag {
        SkipStep(c, gm, visited, frontier, delayed, order, t);
        frontier := frontier - {t};
        continue;
      }
      if exists i :: 0 <= i < |c.gatemap[t].fanin| && !gm[c.gatemap[t].fanin[i]].flag {
        DelayStep(c, gm, visited, frontier, delayed, order, t);
        frontier := frontier - {t};
        delayed := delayed + {t};
        continue;
      }
      FaninResolves(c, gm, t);
      var res := EvaluateGate(gm, gm[t]);
      if res.Err? {
        outcome := Fail(res.error);
        return;
      }
      EvaluateStep(c, gm, visited, frontier, delayed, order, t, res.value);
      gm := gm[t := res.value.(flag := true)];
      visited := visited + {t};
      order := order + [t];
      frontier := (frontier - {t}) + NewFrontier(c, gm, t) + delayed;
      delayed := {};
    }
  }

  /** The outcome once the frontier is empty: gates still deferred mean a
      feedback loop, else an unflagged primary output means no path. */
  function Verdict(c: Circuit, gm: map<string, Gate>, delayed: set<string>): (o: Outcome)
    requires forall i :: 0 <= i < |c.outputs| ==> c.outputs[i] in gm
    ensures o == Fail(FeedbackLoop) <==> delayed != {}
    ensures o == Pass <==> delayed == {} && forall i :: 0 <= i < |c.outputs| ==> gm[c.outputs[i]].flag
    ensures o == Fail(NoPathToOutput) <==>
      delayed == {} && exists i :: 0 <= i < |c.outputs| && !gm[c.outputs[i]].flag
  {
    if delayed != {} then Fail(FeedbackLoop)
    else if exists i :: 0 <= i < |c.outputs| && !gm[c.outputs[i]].flag then Fail(NoPathToOutput)
    else Pass
  }

  /** The invariant at the exit of the loop gives the postcondition. */
  lemma Conclude(c: Circuit, gm: map<string, Gate>, visited: set<string>, frontier: set<string>,
                 delayed: set<string>, order: seq<string>, outcome: Outcome)
    requires EvalInv(c, gm, visited, frontier, delayed, order)
    requires outcome.Fail? && outcome.error !in {FeedbackLoop, NoPathToOutput} ==>
      outcome.error == EmptyReduce || outcome.error == EmptyFanin
    requires outcome == Pass || outcome == Fail(FeedbackLoop) || outcome == Fail(NoPathToOutput) ==> frontier == {}
    requires outcome == Fail(FeedbackLoop) <==> outcome.Fail? && frontier == {} && delayed != {}
    requires outcome == Pass || outcome == Fail(NoPathToOutput) ==> delayed == {}
    requires outcome == Pass ==> forall i :: 0 <= i < |c.outputs| ==> gm[c.outputs[i]].flag
    requires outcome == Fail(NoPathToOutput) ==> exists i :: 0 <= i < |c.outputs| && !gm[c.outputs[i]].flag
    ensures EvaluatePost(c, Step(Circuit(c.inputs, gm, c.outputs), outcome), order)
  {
    if outcome == Pass || outcome == Fail(NoPathToOutput) {
      ClosedAtEnd(c, gm, visited, order);
    }
    if outcome == Fail(FeedbackLoop) {
      var n :| n in delayed;
      StuckAtEnd(c, gm, visited, delayed, order, n);
    }
  }

  /** One evaluation of gate `t`, all of whose fan-ins are flagged, keeps the
      invariant: no evaluated gate reads `t`, so their values stay current. */
  lemma EvaluateStep(c: Circuit, gm: map<string, Gate>, visited: set<string>, frontier: set<string>,
                     delayed: set<string>, order: seq<string>, t: string, g: Gate)
    requires EvalInv(c, gm, visited, frontier, delayed, order)
    requires t in frontier && t !in visited
    requires forall i :: 0 <= i < |c.gatemap[t].fanin| ==> gm[c.gatemap[t].fanin[i]].flag
    requires EvaluateGate(gm, gm[t]) == Ok(g)
    ensures
      var gm' := gm[t := g.(flag := true)];
      EvalInv(c, gm', visited + {t}, (frontier - {t}) + NewFrontier(c, gm', t) + delayed, {}, order + [t])
    ensures gm[t := g.(flag := true)].Keys - (visited + {t}) < gm.Keys - visited
  {
    var gm' := gm[t := g.(flag := true)];
    StepShaped(c, gm, visited, t, g);
    StepSeeded(c, visited, order, t);
    StepTopological(c, gm, visited, order, t);
    StepCurrent(c, gm, visited, order, t, g);
    StepCovered(c, gm', visited, frontier, delayed, t);
    StepKept(c, gm, order, t, g);
    assert t in gm.Keys - visited;
  }

  lemma StepShaped(c: Circuit, gm: map<string, Gate>, visited: set<string>, t: string, g: Gate)
    requires Shaped(c, gm) && Mirrors(gm, visited) && t in gm
    requires EvaluateGate(gm, gm[t]) == Ok(g)
    ensures Shaped(c, gm[t := g.(flag := true)])
    ensures Mirrors(gm[t := g.(flag := true)], visited + {t})
  {
  }

  lemma StepKept(c: Circuit, gm: map<string, Gate>, order: seq<string>, t: string, g: Gate)
    requires ValuesKept(c, gm, order)
    ensures ValuesKept(c, gm[t := g.(flag := true)], order + [t])
  {
    forall n | n in c.gatemap && n in gm[t := g.(flag := true)] && n !in order + [t]
      ensures gm[t := g.(flag := true)][n].value == c.gatemap[n].value
    {
      assert n != t && n !in order;
    }
  }

  lemma StepSeeded(c: Circuit, visited: set<string>, order: seq<string>, t: string)
    requires Seeded(c, visited, order) && t !in visited
    ensures Seeded(c, visited + {t}, order + [t])
  {
    assert t !in c.inputs && t !in order;
  }

  lemma StepTopological(c: Circuit, gm: map<string, Gate>, visited: set<string>, order: seq<string>, t: string)
    requires Shaped(c, gm) && Mirrors(gm, visited) && Seeded(c, visited, order) && Topological(c, order)
    requires t in gm
    requires forall i :: 0 <= i < |c.gatemap[t].fanin| ==> gm[c.gatemap[t].fanin[i]].flag
    ensures Topological(c, order + [t])
  {
    var order' := order + [t];
    forall k, i | 0 <= k < |order'| && order'[k] in c.gatemap && 0 <= i < |c.gatemap[order'[k]].fanin|
      ensures c.gatemap[order'[k]].fanin[i] in c.inputs || c.gatemap[order'[k]].fanin[i] in order'[..k]
    {
      if k < |order| {
        assert order'[..k] == order[..k];
      } else {
        assert order'[..k] == order;
        assert c.gatemap[t].fanin[i] in visited;
      }
    }
  }

  /** The fan-ins of an evaluated gate are all flagged. */
  lemma EvaluatedReadsVisited(c: Circuit, visited: set<string>, order: seq<string>, k: int)
    requires Seeded(c, visited, order) && Topological(c, order)
    requires 0 <= k < |order| && order[k] in c.gatemap
    ensures AllFaninIn(c.gatemap[order[k]], visited)
  {
    var fanin := c.gatemap[order[k]].fanin;
    forall i | 0 <= i < |fanin| ensures fanin[i] in visited {
      assert fanin[i] in c.inputs || fanin[i] in order[..k];
    }
  }

  lemma StepCurrent(c: Circuit, gm: map<string, Gate>, visited: set<string>, order: seq<string>, t: string, g: Gate)
    requires Shaped(c, gm) && Mirrors(gm, visited) && Seeded(c, visited, order) && Topological(c, order)
    requires Current(gm, order)
    requires t in gm && t !in visited
    requires forall i :: 0 <= i < |c.gatemap[t].fanin| ==> gm[c.gatemap[t].fanin[i]].flag
    requires EvaluateGate(gm, gm[t]) == Ok(g)
    ensures Current(gm[t := g.(flag := true)], order + [t])
  {
    var gm' := gm[t := g.(flag := true)];
    var order' := order + [t];
    forall k | 0 <= k < |order'|
      ensures order'[k] in gm' && GateOutput(gm', gm'[order'[k]]) == Ok(gm'[order'[k]].value)
    {
      var n := order'[k];
      var h := gm'[n];
      assert h.fanin == c.gatemap[n].fanin;
      if k < |order| {
        EvaluatedReadsVisited(c, visited, order, k);
        assert forall i :: 0 <= i < |h.fanin| ==> h.fanin[i] != t;
        GateOutputDependsOnFanin(gm, gm', h);
        assert h == gm[n];
      } else {
        assert forall i :: 0 <= i < |h.fanin| ==> h.fanin[i] != t;
        GateOutputDependsOnFanin(gm, gm', h);
        assert GateOutput(gm, h) == GateOutput(gm, gm[t]);
      }
    }
  }

  lemma StepCovered(c: Circuit, gm': map<string, Gate>, visited: set<string>, frontier: set<string>,
                    delayed: set<string>, t: string)
    requires Covered(c, visited, frontier, delayed) && delayed <= c.gatemap.Keys && t in frontier
    requires WellFormed(c) && gm'.Keys == c.gatemap.Keys && t in c.gatemap
    requires Mirrors(gm', visited + {t})
    ensures Covered(c, visited + {t}, (frontier - {t}) + NewFrontier(c, gm', t) + delayed, {})
    ensures Waiting(c, visited + {t}, {})
  {
    var f' := (frontier - {t}) + NewFrontier(c, gm', t) + delayed;
    forall n, j | n in visited + {t} && n in c.gatemap && 0 <= j < |c.gatemap[n].fanout|
      ensures c.gatemap[n].fanout[j] in (visited + {t}) + f' + {}
    {
      if n == t && !gm'[c.gatemap[t].fanout[j]].flag {
        assert c.gatemap[t].fanout[j] in NewFrontier(c, gm', t);
      }
    }
  }

  /** Dropping a flagged gate from the frontier keeps the invariant. */
  lemma SkipStep(c: Circuit, gm: map<string, Gate>, visited: set<string>, frontier: set<string>,
                 delayed: set<string>, order: seq<string>, t: string)
    requires EvalInv(c, gm, visited, frontier, delayed, order)
    requires t in visited
    ensures EvalInv(c, gm, visited, frontier - {t}, delayed, order)
  {
    assert Covered(c, visited, frontier - {t}, delayed);
  }

  /** Deferring a gate with an unflagged fan-in keeps the invariant. */
  lemma DelayStep(c: Circuit, gm: map<string, Gate>, visited: set<string>, frontier: set<string>,
                  delayed: set<string>, order: seq<string>, t: string)
    requires EvalInv(c, gm, visited, frontier, delayed, order)
    requires t in frontier && t !in visited
    requires exists i :: 0 <= i < |c.gatemap[t].fanin| && !gm[c.gatemap[t].fanin[i]].flag
    ensures EvalInv(c, gm, visited, frontier - {t}, delayed + {t}, order)
  {
    assert !AllFaninIn(c.gatemap[t], visited);
    assert Waiting(c, visited, delayed + {t});
    assert Covered(c, visited, frontier - {t}, delayed + {t});
  }

  /** With nothing pending or deferred, the flagged set is closed under
      fan-out. */
  lemma ClosedAtEnd(c: Circuit, gm: map<string, Gate>, visited: set<string>, order: seq<string>)
    requires EvalInv(c, gm, visited, {}, {}, order)
    ensures forall n, j {:trigger c.gatemap[n].fanout[j]} :: n in c.gatemap && gm[n].flag && 0 <= j < |c.gatemap[n].fanout| ==>
      gm[c.gatemap[n].fanout[j]].flag
  {
    forall n, j | n in c.gatemap && gm[n].flag && 0 <= j < |c.gatemap[n].fanout|
      ensures gm[c.gatemap[n].fanout[j]].flag
    {
      assert c.gatemap[n].fanout[j] in visited + {} + {};
    }
  }

  /** A deferred gate is unflagged and has an unflagged fan-in. */
  lemma StuckAtEnd(c: Circuit, gm: map<string, Gate>, visited: set<string>, delayed: set<string>,
                   order: seq<string>, n: string)
    requires EvalInv(c, gm, visited, {}, delayed, order) && n in delayed
    ensures n in c.gatemap && !gm[n].flag
    ensures exists i :: 0 <= i < |c.gatemap[n].fanin| && !gm[c.gatemap[n].fanin[i]].flag
  {
    assert !AllFaninIn(c.gatemap[n], visited);
    var i :| 0 <= i < |c.gatemap[n].fanin| && c.gatemap[n].fanin[i] !in visited;
    assert !gm[c.gatemap[n].fanin[i]].flag;
  }

  /** Under the invariant every fan-in of a gate resolves. */
  lemma FaninResolves(c: Circuit, gm: map<string, Gate>, t: string)
    requires Shaped(c, gm) && t in gm
    ensures FaninValues(gm, gm[t].fanin).Ok?
    ensures GateOutput(gm, gm[t]).Err? ==> GateOutput(gm, gm[t]).error in {EmptyReduce, EmptyFanin}
  {
    assert gm[t].fanin == c.gatemap[t].fanin;
  }

  /** The seeded state satisfies the invariant. */
  lemma InitInv(c: Circuit)
    requires WellFormed(c)
    ensures EvalInv(c, SeedMap(c), set i | 0 <= i < |c.inputs| :: c.inputs[i], SeedFrontier(c), {}, [])
  {
    var visited := set i | 0 <= i < |c.inputs| :: c.inputs[i];
    forall n, j | n in visited && n in c.gatemap && 0 <= j < |c.gatemap[n].fanout|
      ensures c.gatemap[n].fanout[j] in visited + SeedFrontier(c) + {}
    {
      var i :| 0 <= i < |c.inputs| && c.inputs[i] == n;
      assert c.gatemap[c.inputs[i]].fanout[j] in SeedFrontier(c);
    }
  }

  // ---------------------------------------------------------------------
  // write_state

  /** The text after `name: ` on a state line: the digit for Zero/One, the
      member name otherwise. */
  function ValueText(v: Signal): string
  {
    match v
    case ZERO => "0"
    case ONE => "1"
    case D => "D"
    case D_b => "D_b"
    case X => "X"
  }

  lemma ValueTextIsInjective(a: Signal, b: Signal)
    ensures ValueText(a) == ValueText(b) ==> a == b
  {
  }

  function StateLine(name: string, v: Signal): string
  {
    name + ": " + ValueText(v)
  }

  predicate StrictlySorted(s: seq<string>)
  {
    forall i, j :: 0 <= i < j < |s| ==> StrLess(s[i], s[j])
  }

  /** `write_state(outfile)`: the lines written (without their newlines).
      `names` is the sorted gate order the lines follow. */
  method WriteState(c: Circuit) returns (names: seq<string>, lines: seq<string>)
    ensures StrictlySorted(names)
    ensures forall i :: 0 <= i < |names| ==> names[i] in c.gatemap
    ensures forall n :: n in c.gatemap ==> n in names
    ensures |lines| == |names| + 2
    ensures lines[0] == "Circuit State" && lines[|lines| - 1] == "$"
    ensures forall i :: 0 <= i < |names| ==> lines[i + 1] == StateLine(names[i], c.gatemap[names[i]].value)
  {
    var remaining := c.gatemap.Keys;
    names := [];
    lines := ["Circuit State"];
    while remaining != {}
      invariant remaining <= c.gatemap.Keys
      invariant forall i :: 0 <= i < |names| ==> names[i] in c.gatemap && names[i] !in remaining
      invariant forall n :: n in c.gatemap ==> n in names || n in remaining
      invariant StrictlySorted(names)
      invariant forall i, n :: 0 <= i < |names| && n in remaining ==> StrLess(names[i], n)
      invariant |lines| == |names| + 1 && lines[0] == "Circuit State"
      invariant forall i :: 0 <= i < |names| ==> lines[i + 1] == StateLine(names[i], c.gatemap[names[i]].value)
      decreases remaining
    {
      var m := Least(remaining);
      names := names + [m];
      lines := lines + [StateLine(m, c.gatemap[m].value)];
      remaining := remaining - {m};
    }
    lines := lines + ["$"];
  }

  /** The least name of a non-empty set. */
  method Least(s: set<string>) returns (m: string)
    requires s != {}
    ensures m in s
    ensures forall n :: n in s && n != m ==> StrLess(m, n)
  {
    m :| m in s;
    var rest := s - {m};
    while rest != {}
      invariant m in s && rest <= s
      invariant forall n :: n in s && n !in rest && n != m ==> StrLess(m, n)
      decreases rest
    {
      var n :| n in rest;
      if StrLess(n, m) {
        forall k | k in s && k !in rest && k != m
          ensures StrLess(n, k)
        {
          StrLessTransitive(n, m, k);
        }
        StrLessAsymmetric(n, m);
        m := n;
      } else if n != m {
        StrLessTotal(m, n);
      }
      rest := rest - {n};
    }
  }
}
