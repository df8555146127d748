/** The serial PODEM test generator built on the implication engine:
    success test at the primary outputs, objective selection (activation
    of the fault, else propagation through a D-frontier gate), backtrace
    from an objective to a primary-input decision, and the recursive
    branch-and-bound search that tries a decision, then its complement,
    then undoes it.

    Hash-container iteration order is a parameter: `first` (or
    `pick(theDFrontier)`) is the gate `theDFrontier.begin()` yields,
    `order` the D-frontier in iteration order.  A `level` map that
    strictly increases along every fan-in edge witnesses that the
    backtrace walk terminates whenever it can move. */
module Podem {
  import opened Roth
  import opened Text
  import opened Wrappers
  import opened Implication

  // ---------------------------------------------------------------------
  // Success test

  /** `errorAtPO`: the scan of the primary outputs from position `i`. */
  function ErrorAtPOFrom(c: CCircuit, i: nat): (b: bool)
    requires i <= |c.outputs|
    ensures b <==> exists k :: i <= k < |c.outputs| && IsFaultEffect(StateOf(c, c.outputs[k]))
    decreases |c.outputs| - i
  {
    if i == |c.outputs| then false
    else if StateOf(c, c.outputs[i]) == D || StateOf(c, c.outputs[i]) == D_b then true
    else ErrorAtPOFrom(c, i + 1)
  }

  /** True iff some primary output carries a fault effect. */
  function ErrorAtPO(c: CCircuit): (b: bool)
    ensures b <==> exists k :: 0 <= k < |c.outputs| && IsFaultEffect(StateOf(c, c.outputs[k]))
  {
    ErrorAtPOFrom(c, 0)
  }

  // ---------------------------------------------------------------------
  // Objectives

  /** `getNonControllingValue`: ONE for AND/NAND, ZERO for OR/NOR/XOR/XNOR
      and (after an error message) for any other type. */
  function NonControlling(t: string): (v: Signal)
    ensures v == ONE <==> t == "AND" || t == "and" || t == "NAND" || t == "nand"
    ensures IsBinary(v)
  {
    if t == "AND" || t == "and" || t == "NAND" || t == "nand" then ONE
    else if t == "OR" || t == "or" || t == "NOR" || t == "nor" then ZERO
    else if t == "XOR" || t == "xor" || t == "XNOR" || t == "xnor" then ZERO
    else ZERO
  }

  /** The value is indeed non-controlling: on a fan-in of a recognised
      fold gate it leaves the accumulated value unchanged. */
  lemma NonControllingIsNeutral(t: string, a: Signal)
    requires KindOf(t).Folded?
    ensures Apply(KindOf(t).op, a, NonControlling(t)) == a
  {
  }

  /** `theCircuit[n]`: a name without a gate reads as an empty gate. */
  function GateAt(c: CCircuit, n: string): CGate
  {
    if n in c.gates then c.gates[n] else CGate("", [], [])
  }

  /** The activation objective: drive the fault site to the value that
      exposes the fault (ONE for a D fault, ZERO otherwise). */
  function Activation(c: CCircuit): (string, Signal)
  {
    (c.faultLocation, if c.faultValue == D then ONE else ZERO)
  }

  /** The first X-valued name of `ins`.  A name without a state entry
      reads ZERO, so it is never chosen. */
  function FirstX(c: CCircuit, ins: seq<string>): (r: Option<string>)
    ensures r.Some? ==> exists k :: 0 <= k < |ins| && ins[k] == r.value && StateOf(c, ins[k]) == X &&
                                   forall j :: 0 <= j < k ==> StateOf(c, ins[j]) != X
    ensures r.Some? ==> r.value in c.state
    ensures r.None? <==> forall k :: 0 <= k < |ins| ==> StateOf(c, ins[k]) != X
  {
    if |ins| == 0 then None
    else if StateOf(c, ins[0]) == X then Some(ins[0])
    else
      var r := FirstX(c, ins[1..]);
      assert forall k :: 1 <= k < |ins| ==> ins[k] == ins[1..][k - 1];
      r
  }

  /** `getObjective`: activation while the fault site is X; otherwise the
      first X fan-in of the D-frontier gate `first`, with that gate's
      non-controlling value, or ("", X) when it has none. */
  function Objective(c: CCircuit, first: string): (r: (string, Signal))
    ensures StateOf(c, c.faultLocation) == X ==> r == Activation(c)
    ensures StateOf(c, c.faultLocation) != X ==>
      if r == ("", X) then forall k :: 0 <= k < |GateAt(c, first).inputs| ==> StateOf(c, GateAt(c, first).inputs[k]) != X
      else r.0 in GateAt(c, first).inputs && StateOf(c, r.0) == X && r.1 == NonControlling(GateAt(c, first).gateType)
  {
    if StateOf(c, c.faultLocation) == X then Activation(c)
    else
      var g := GateAt(c, first);
      match FirstX(c, g.inputs)
      case Some(n) => (n, NonControlling(g.gateType))
      case None => ("", X)
  }

  /** The propagation objectives a list of D-frontier gates offers, in
      iteration order: every X fan-in of every gate, paired with the
      gate's non-controlling value. */
  function Candidates(c: CCircuit, ins: seq<string>, v: Signal): (r: seq<(string, Signal)>)
    ensures forall k :: 0 <= k < |r| ==> r[k].0 in ins && StateOf(c, r[k].0) == X && r[k].1 == v
    decreases |ins|
  {
    if |ins| == 0 then []
    else
      Candidates(c, ins[..|ins| - 1], v)
      + (if StateOf(c, ins[|ins| - 1]) == X then [(ins[|ins| - 1], v)] else [])
  }

  function AllObjectives(c: CCircuit, order: seq<string>): (r: seq<(string, Signal)>)
    decreases |order|
  {
    if |order| == 0 then []
    else
      var g := GateAt(c, order[|order| - 1]);
      AllObjectives(c, order[..|order| - 1]) + Candidates(c, g.inputs, NonControlling(g.gateType))
  }

  /** Every listed objective is an X fan-in of a listed gate, with that
      gate's non-controlling value. */
  lemma {:induction false} AllObjectivesAreFanins(c: CCircuit, order: seq<string>, k: nat)
    requires k < |AllObjectives(c, order)|
    ensures var o := AllObjectives(c, order)[k];
      StateOf(c, o.0) == X &&
      exists j :: 0 <= j < |order| && o.0 in GateAt(c, order[j]).inputs && o.1 == NonControlling(GateAt(c, order[j]).gateType)
    decreases |order|
  {
    var g := GateAt(c, order[|order| - 1]);
    var pre := AllObjectives(c, order[..|order| - 1]);
    if k < |pre| {
      AllObjectivesAreFanins(c, order[..|order| - 1], k);
      var o := pre[k];
      var j :| 0 <= j < |order| - 1 && o.0 in GateAt(c, order[..|order| - 1][j]).inputs
        && o.1 == NonControlling(GateAt(c, order[..|order| - 1][j]).gateType);
      assert order[..|order| - 1][j] == order[j];
    } else {
      var cs := Candidates(c, g.inputs, NonControlling(g.gateType));
      assert AllObjectives(c, order)[k] == cs[k - |pre|];
    }
  }

  /** The size_t value of the `int` cap (a negative cap wraps to a huge
      bound, 64-bit size_t). */
  function SizeT(n: int): nat
    requires -0x8000_0000 <= n
  {
    if n < 0 then n + 0x1_0000_0000_0000_0000 else n
  }

  function Take<T>(s: seq<T>, n: nat): (r: seq<T>)
    ensures |r| == if |s| <= n then |s| else n
  {
    if |s| <= n then s else s[..n]
  }

  lemma TakeFull<T>(a: seq<T>, b: seq<T>, n: nat)
    requires |Take(a, n)| >= n
    ensures Take(a + b, n) == Take(a, n)
  {
  }

  lemma TakeFullAssoc<T>(a: seq<T>, b: seq<T>, d: seq<T>, n: nat)
    requires |Take(a + b, n)| >= n
    ensures Take(a + (b + d), n) == Take(a + b, n)
  {
    assert a + (b + d) == (a + b) + d;
    TakeFull(a + b, d, n);
  }

  lemma TakeGrow<T>(a: seq<T>, x: T, n: nat)
    requires |Take(a, n)| < n
    ensures Take(a + [x], n) == Take(a, n) + [x]
  {
  }

  /** `getMultipleObjectives`: the activation objective alone while the
      fault site is X; otherwise the propagation objectives in iteration
      order, cut off at the cap. */
  method MultipleObjectives(c: CCircuit, order: seq<string>, maxObjectives: int) returns (objs: seq<(string, Signal)>)
    requires -0x8000_0000 <= maxObjectives < 0x8000_0000
    ensures StateOf(c, c.faultLocation) == X ==> objs == [Activation(c)]
    ensures StateOf(c, c.faultLocation) != X ==> objs == Take(AllObjectives(c, order), SizeT(maxObjectives))
  {
    if StateOf(c, c.faultLocation) == X {
      return [Activation(c)];
    }
    var cap := SizeT(maxObjectives);
    objs := [];
    var k := 0;
    while k < |order|
      invariant 0 <= k <= |order|
      invariant objs == Take(AllObjectives(c, order[..k]), cap)
    {
      if |objs| >= cap {
        AllObjectivesAppend(c, order[..k], order[k..]);
        assert order[..k] + order[k..] == order;
        TakeFull(AllObjectives(c, order[..k]), AllObjectives(c, order[k..]), cap);
        return;
      }
      var g := GateAt(c, order[k]);
      objs := GateObjectives(c, g.inputs, NonControlling(g.gateType), AllObjectives(c, order[..k]), objs, cap);
      assert order[..k + 1][..k] == order[..k];
      k := k + 1;
    }
    assert order[..k] == order;
  }

  /** The inner loop of `getMultipleObjectives`: the X fan-ins of one
      D-frontier gate, appended while the cap allows. */
  method GateObjectives(c: CCircuit, ins: seq<string>, v: Signal, ghost before: seq<(string, Signal)>,
                        objs0: seq<(string, Signal)>, cap: nat) returns (objs: seq<(string, Signal)>)
    requires objs0 == Take(before, cap)
    ensures objs == Take(before + Candidates(c, ins, v), cap)
  {
    objs := objs0;
    var j := 0;
    assert before + Candidates(c, ins[..0], v) == before;
    while j < |ins|
      invariant 0 <= j <= |ins|
      invariant objs == Take(before + Candidates(c, ins[..j], v), cap)
    {
      CandidatesStep(c, ins, v, j);
      if StateOf(c, ins[j]) == X {
        if |objs| >= cap {
          CapReached(c, ins, v, before, j, cap);
          return;
        }
        TakeGrow(before + Candidates(c, ins[..j], v), (ins[j], v), cap);
        assert before + Candidates(c, ins[..j + 1], v) == before + Candidates(c, ins[..j], v) + [(ins[j], v)];
        objs := objs + [(ins[j], v)];
      }
      j := j + 1;
    }
    assert ins[..j] == ins;
  }

  /** One more fan-in adds its candidate, if any, at the end. */
  lemma CandidatesStep(c: CCircuit, ins: seq<string>, v: Signal, j: int)
    requires 0 <= j < |ins|
    ensures Candidates(c, ins[..j + 1], v) ==
      Candidates(c, ins[..j], v) + (if StateOf(c, ins[j]) == X then [(ins[j], v)] else [])
  {
    assert ins[..j + 1][..j] == ins[..j];
  }

  /** Once the cap is reached the remaining fan-ins change nothing. */
  lemma CapReached(c: CCircuit, ins: seq<string>, v: Signal, before: seq<(string, Signal)>, j: int, cap: nat)
    requires 0 <= j <= |ins| && |Take(before + Candidates(c, ins[..j], v), cap)| >= cap
    ensures Take(before + Candidates(c, ins, v), cap) == Take(before + Candidates(c, ins[..j], v), cap)
  {
    CandidatesAppend(c, ins[..j], ins[j..], v);
    assert ins[..j] + ins[j..] == ins;
    TakeFullAssoc(before, Candidates(c, ins[..j], v), Candidates(c, ins[j..], v), cap);
  }

  lemma {:induction false} CandidatesAppend(c: CCircuit, a: seq<string>, b: seq<string>, v: Signal)
    ensures Candidates(c, a + b, v) == Candidates(c, a, v) + Candidates(c, b, v)
    decreases |b|
  {
    if |b| == 0 {
      assert a + b == a;
    } else {
      CandidatesAppend(c, a, b[..|b| - 1], v);
      assert (a + b)[..|a + b| - 1] == a + b[..|b| - 1];
      assert (a + b)[|a + b| - 1] == b[|b| - 1];
    }
  }

  lemma {:induction false} AllObjectivesAppend(c: CCircuit, a: seq<string>, b: seq<string>)
    ensures AllObjectives(c, a + b) == AllObjectives(c, a) + AllObjectives(c, b)
    decreases |b|
  {
    if |b| == 0 {
      assert a + b == a;
    } else {
      var b' := b[..|b| - 1];
      AllObjectivesAppend(c, a, b');
      assert (a + b)[..|a + b| - 1] == a + b';
      assert (a + b)[|a + b| - 1] == b[|b| - 1];
      var g := GateAt(c, b[|b| - 1]);
      var cs := Candidates(c, g.inputs, NonControlling(g.gateType));
      assert AllObjectives(c, a + b) == AllObjectives(c, a + b') + cs;
      assert AllObjectives(c, b) == AllObjectives(c, b') + cs;
      assert (AllObjectives(c, a) + AllObjectives(c, b')) + cs == AllObjectives(c, a) + (AllObjectives(c, b') + cs);
    }
  }

  /** The single objective is the first of the multiple objectives when
      the first D-frontier gate offers one. */
  lemma ObjectiveIsFirstOfMany(c: CCircuit, order: seq<string>)
    requires |order| > 0 && StateOf(c, c.faultLocation) != X
    requires FirstX(c, GateAt(c, order[0]).inputs).Some?
    ensures |AllObjectives(c, order)| > 0 && Objective(c, order[0]) == AllObjectives(c, order)[0]
  {
    var g := GateAt(c, order[0]);
    var v := NonControlling(g.gateType);
    AllObjectivesAppend(c, [order[0]], order[1..]);
    assert [order[0]] + order[1..] == order;
    assert [order[0]][..0] == [];
    FirstCandidate(c, g.inputs, v);
  }

  lemma {:induction false} FirstCandidate(c: CCircuit, ins: seq<string>, v: Signal)
    requires FirstX(c, ins).Some?
    ensures |Candidates(c, ins, v)| > 0 && Candidates(c, ins, v)[0] == (FirstX(c, ins).value, v)
    decreases |ins|
  {
    if StateOf(c, ins[0]) != X {
      FirstCandidate(c, ins[1..], v);
      CandidatesCons(c, ins, v);
    } else {
      CandidatesCons(c, ins, v);
    }
  }

  lemma {:induction false} CandidatesCons(c: CCircuit, ins: seq<string>, v: Signal)
    requires |ins| > 0
    ensures Candidates(c, ins, v) ==
      (if StateOf(c, ins[0]) == X then [(ins[0], v)] else []) + Candidates(c, ins[1..], v)
    decreases |ins|
  {
    if |ins| > 1 {
      CandidatesCons(c, ins[..|ins| - 1], v);
      assert ins[..|ins| - 1][1..] == ins[1..][..|ins[1..]| - 1];
      assert ins[..|ins| - 1][0] == ins[0];
    } else {
      assert ins[..|ins| - 1] == [];
      assert ins[1..] == [];
    }
  }

  // ---------------------------------------------------------------------
  // Backtrace

  /** NAND, NOR, XNOR and NOT invert the value on the way back. */
  predicate IsBubble(t: string)
  {
    t == "NAND" || t == "nand" || t == "NOR" || t == "nor" || t == "XNOR" || t == "xnor" || t == "NOT" || t == "not"
  }

  /** The flip of the backtrace loop: ONE becomes ZERO, anything else ONE. */
  function Flip(v: Signal): Signal
  {
    if v == ONE then ZERO else ONE
  }

  function FlipTimes(v: Signal, k: nat): Signal
  {
    if k == 0 then v else Flip(FlipTimes(v, k - 1))
  }

  /** On a Boolean value, flipping k times is inversion iff k is odd. */
  lemma {:induction false} FlipParity(v: Signal, k: nat)
    requires IsBinary(v)
    ensures FlipTimes(v, k) == if k % 2 == 0 then v else Not(v)
  {
    if k > 0 {
      FlipParity(v, k - 1);
    }
  }

  /** `level` strictly increases along every fan-in edge. */
  predicate Leveled(c: CCircuit, level: map<string, nat>)
  {
    forall n :: n in c.gates ==>
      n in level && forall i :: 0 <= i < |c.gates[n].inputs| ==>
        c.gates[n].inputs[i] in level && level[c.gates[n].inputs[i]] < level[n]
  }

  function LevelOf(level: map<string, nat>, n: string): nat
  {
    if n in level then level[n] else 0
  }

  datatype Backtraced = Decision(signal: string, value: Signal) | Diverges

  /** The walk `doBacktrace` takes from `sig`: to the first X fan-in of
      each gate until a primary input; it ends at a non-input without an
      X fan-in (where the source loop spins forever). */
  ghost function Walk(c: CCircuit, level: map<string, nat>, sig: string): (w: seq<string>)
    requires Leveled(c, level)
    ensures |w| > 0 && w[0] == sig
    decreases LevelOf(level, sig)
  {
    if sig in c.inputs then [sig]
    else
      match FirstX(c, GateAt(c, sig).inputs)
      case None => [sig]
      case Some(next) => [sig] + Walk(c, level, next)
  }

  /** How many bubble gates the walk passes (the end is not passed). */
  ghost function Bubbles(c: CCircuit, w: seq<string>): nat
  {
    if |w| <= 1 then 0
    else (if IsBubble(GateAt(c, w[0]).gateType) then 1 else 0) + Bubbles(c, w[1..])
  }

  /** `doBacktrace`: follow the walk to a primary input, flipping the value
      at every bubble gate passed. */
  function Backtrace(c: CCircuit, ghost level: map<string, nat>, sig: string, value: Signal): (r: Backtraced)
    requires Leveled(c, level)
    ensures r.Decision? ==> r.signal in c.inputs && (r.signal == sig || StateOf(c, r.signal) == X)
    decreases LevelOf(level, sig)
  {
    if Contains(c.inputs, sig) then Decision(sig, value)
    else
      var g := GateAt(c, sig);
      match FirstX(c, g.inputs)
      case None => Diverges
      case Some(next) => Backtrace(c, level, next, if IsBubble(g.gateType) then Flip(value) else value)
  }

  /** The backtrace ends where the walk ends: at a primary input, with
      the value flipped once per bubble gate passed, or, when the walk
      stops at a gate without an X fan-in, nowhere. */
  lemma {:induction false} BacktraceFollowsWalk(c: CCircuit, level: map<string, nat>, sig: string, value: Signal)
    requires Leveled(c, level)
    ensures FollowsWalk(c, level, sig, value)
    decreases LevelOf(level, sig)
  {
    if sig !in c.inputs {
      var g := GateAt(c, sig);
      match FirstX(c, g.inputs)
      case None =>
      case Some(next) =>
        BacktraceFollowsWalk(c, level, next, if IsBubble(g.gateType) then Flip(value) else value);
        FollowsWalkStep(c, level, sig, next, value);
    }
  }

  /** The backtrace from `sig` ends at the end of the walk from `sig`, with
      the value flipped once per bubble gate passed; it diverges exactly
      when the walk ends at a non-input. */
  ghost predicate FollowsWalk(c: CCircuit, level: map<string, nat>, sig: string, value: Signal)
    requires Leveled(c, level)
  {
    var w := Walk(c, level, sig);
    var r := Backtrace(c, level, sig, value);
    (r.Decision? ==> r.signal == w[|w| - 1] && r.value == FlipTimes(value, Bubbles(c, w))) &&
    (r.Diverges? <==> w[|w| - 1] !in c.inputs)
  }

  /** One step of the walk: if the backtrace from the first X fan-in
      follows its walk, the backtrace from the gate follows its own. */
  lemma FollowsWalkStep(c: CCircuit, level: map<string, nat>, sig: string, next: string, value: Signal)
    requires Leveled(c, level) && sig !in c.inputs && FirstX(c, GateAt(c, sig).inputs) == Some(next)
    requires FollowsWalk(c, level, next, if IsBubble(GateAt(c, sig).gateType) then Flip(value) else value)
    ensures FollowsWalk(c, level, sig, value)
  {
    var b := IsBubble(GateAt(c, sig).gateType);
    var v' := if b then Flip(value) else value;
    var w := Walk(c, level, next);
    var r := Backtrace(c, level, next, v');
    FlipShift(value, Bubbles(c, w), b);
    var ws := [sig] + w;
    WalkUnfold(c, level, sig, next);
    assert ws[1..] == w;
    var k := Bubbles(c, ws);
    assert k == (if b then 1 else 0) + Bubbles(c, w);
    assert ws[|ws| - 1] == w[|w| - 1];
    BacktraceUnfold(c, level, sig, next, value);
    assert FlipTimes(v', Bubbles(c, w)) == FlipTimes(value, Bubbles(c, w) + if b then 1 else 0);
    assert FlipTimes(v', Bubbles(c, w)) == FlipTimes(value, k);
  }

  lemma WalkUnfold(c: CCircuit, level: map<string, nat>, sig: string, next: string)
    requires Leveled(c, level) && sig !in c.inputs && FirstX(c, GateAt(c, sig).inputs) == Some(next)
    ensures Walk(c, level, sig) == [sig] + Walk(c, level, next)
  {
  }

  lemma BacktraceUnfold(c: CCircuit, level: map<string, nat>, sig: string, next: string, value: Signal)
    requires Leveled(c, level) && sig !in c.inputs && FirstX(c, GateAt(c, sig).inputs) == Some(next)
    ensures Backtrace(c, level, sig, value) ==
      Backtrace(c, level, next, if IsBubble(GateAt(c, sig).gateType) then Flip(value) else value)
  {
    assert !Contains(c.inputs, sig);
  }

  lemma FlipShift(v: Signal, k: nat, b: bool)
    ensures FlipTimes(if b then Flip(v) else v, k) == FlipTimes(v, k + if b then 1 else 0)
  {
    if b {
      FlipCommutes(v, k);
    }
  }

  lemma {:induction false} FlipCommutes(v: Signal, k: nat)
    ensures FlipTimes(Flip(v), k) == Flip(FlipTimes(v, k))
  {
    if k > 0 {
      FlipCommutes(v, k - 1);
    }
  }

  /** On Boolean objectives the decision is the objective value, inverted
      iff an odd number of NAND/NOR/XNOR/NOT gates was passed; XOR and
      BUFF never flip. */
  lemma BacktraceParity(c: CCircuit, level: map<string, nat>, sig: string, value: Signal)
    requires Leveled(c, level) && IsBinary(value)
    requires Backtrace(c, level, sig, value).Decision?
    ensures var w := Walk(c, level, sig);
      Backtrace(c, level, sig, value).value == if Bubbles(c, w) % 2 == 0 then value else Not(value)
  {
    BacktraceFollowsWalk(c, level, sig, value);
    FlipParity(value, Bubbles(c, Walk(c, level, sig)));
  }

  // ---------------------------------------------------------------------
  // Serial search

  datatype PodemResult = Answer(values: map<string, Signal>) | Stuck

  /** The primary inputs still unassigned. */
  function XInputs(c: CCircuit): set<string>
  {
    set i | 0 <= i < |c.inputs| && StateOf(c, c.inputs[i]) == X :: c.inputs[i]
  }

  predicate SearchReady(c: CCircuit, rank: map<string, nat>, level: map<string, nat>)
  {
    Evaluable(c) && Ranked(c, rank) && Leveled(c, level) && InputsAreSources(c)
  }

  predicate SameInputs(c: CCircuit, d: CCircuit)
  {
    forall i :: 0 <= i < |c.inputs| ==> StateOf(d, c.inputs[i]) == StateOf(c, c.inputs[i])
  }

  /** An assignment that fixes an unassigned input and touches no other
      input shrinks the set of unassigned inputs. */
  lemma XInputsShrink(c: CCircuit, d: CCircuit, n: string)
    requires d.inputs == c.inputs && n in c.inputs && StateOf(c, n) == X && StateOf(d, n) != X
    requires forall i :: 0 <= i < |c.inputs| && c.inputs[i] != n ==> StateOf(d, c.inputs[i]) == StateOf(c, c.inputs[i])
    ensures XInputs(d) < XInputs(c)
  {
    var i :| 0 <= i < |c.inputs| && c.inputs[i] == n;
    assert n in XInputs(c);
  }

  /** `runPODEMRecursiveSerial`.  An answer with values means a fault
      effect reached a primary output, the values being the input
      assignment at that point; an empty answer means failure, and then
      the primary inputs are as they were.  `Stuck` stands for a step
      where the decision would not assign an unassigned primary input,
      where the source's recursion need not terminate. */
  function Search(c: CCircuit, ghost rank: map<string, nat>, ghost level: map<string, nat>, pick: set<string> -> string)
    : (r: (CCircuit, PodemResult))
    requires SearchReady(c, rank, level)
    ensures SameShape(c, r.0)
    ensures r.1.Answer? && r.1.values != map[] ==> ErrorAtPO(r.0) && r.1.values == InputValues(r.0)
    ensures ErrorAtPO(c) ==> r == (c, Answer(InputValues(c)))
    ensures !ErrorAtPO(c) && c.dfrontier == {} && StateOf(c, c.faultLocation) != X ==> r == (c, Answer(map[]))
    ensures r.1 == Answer(map[]) ==> SameInputs(c, r.0)
    decreases XInputs(c), 2
  {
    if ErrorAtPO(c) then (c, Answer(InputValues(c)))
    else if c.dfrontier == {} && StateOf(c, c.faultLocation) != X then (c, Answer(map[]))
    else
      var obj := Objective(c, pick(c.dfrontier));
      match Backtrace(c, level, obj.0, obj.1)
      case Diverges => (c, Stuck)
      case Decision(d, v) => Decide(c, rank, level, pick, d, v)
  }

  /** The decision `d := v`, the recursive search under it and, when that
      fails, the retry.  A failure is only reported for a decision on an
      unassigned primary input, and leaves that input unassigned again. */
  function Decide(c: CCircuit, ghost rank: map<string, nat>, ghost level: map<string, nat>,
                  pick: set<string> -> string, d: string, v: Signal): (r: (CCircuit, PodemResult))
    requires SearchReady(c, rank, level)
    ensures SameShape(c, r.0)
    ensures r.1.Answer? && r.1.values != map[] ==> ErrorAtPO(r.0) && r.1.values == InputValues(r.0)
    ensures r.1 == Answer(map[]) ==> SameInputs(c, r.0)
    ensures r.1 == Answer(map[]) ==> d in c.inputs && StateOf(c, d) == X && StateOf(r.0, d) == X
    decreases XInputs(c), 1
  {
    var c1 := SetAndImply(c, rank, d, v).circuit;
    if !(d in c.inputs && StateOf(c, d) == X && StateOf(c1, d) != X) then (c1, Stuck)
    else
      XInputsShrink(c, c1, d);
      ReadyKept(c, c1, rank, level);
      var first := Search(c1, rank, level, pick);
      if first.1.Stuck? || first.1.values != map[] then first
      else Retry(c, first.0, rank, level, pick, d, v)
  }

  /** The complement decision after the first one failed on `c1`, then the
      undo: on failure the decision input is X again. */
  function Retry(c: CCircuit, c1: CCircuit, ghost rank: map<string, nat>, ghost level: map<string, nat>,
                 pick: set<string> -> string, d: string, v: Signal): (r: (CCircuit, PodemResult))
    requires SearchReady(c, rank, level) && SameShape(c, c1)
    requires d in c.inputs && StateOf(c, d) == X
    requires forall i :: 0 <= i < |c.inputs| && c.inputs[i] != d ==> StateOf(c1, c.inputs[i]) == StateOf(c, c.inputs[i])
    ensures SameShape(c, r.0)
    ensures r.1.Answer? && r.1.values != map[] ==> ErrorAtPO(r.0) && r.1.values == InputValues(r.0)
    ensures r.1 == Answer(map[]) ==> SameInputs(c, r.0)
    ensures r.1 == Answer(map[]) ==> StateOf(r.0, d) == X
    decreases XInputs(c), 0
  {
    ReadyKept(c, c1, rank, level);
    var c2 := SetAndImply(c1, rank, d, Flip(v)).circuit;
    if StateOf(c2, d) == X then (c2, Stuck)
    else
      XInputsShrink(c, c2, d);
      ReadyKept(c, c2, rank, level);
      var second := Search(c2, rank, level, pick);
      ReadyKept(c, second.0, rank, level);
      var c3 := SetAndImply(second.0, rank, d, X).circuit;
      if second.1.Stuck? || second.1.values != map[] then second
      else (c3, Answer(map[]))
  }

  /** The search preconditions only depend on the netlist, not on the
      signal values. */
  lemma ReadyKept(c: CCircuit, d: CCircuit, rank: map<string, nat>, level: map<string, nat>)
    requires SearchReady(c, rank, level) && SameShape(c, d)
    ensures SearchReady(d, rank, level)
  {
  }
}
