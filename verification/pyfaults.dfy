/** The Python fault objects: single stuck-at `Fault`s with their display
    string, `FaultClass` objects holding equivalent faults and references
    to the classes they dominate, with their indented report, and
    `BridgeFault`. */
module PyFaults {
  import opened Roth
  import opened Text
  import opened Wrappers
  import opened PyEngine

  // ---------------------------------------------------------------------
  // Fault

  /** A stuck-at fault on the stem `stem`, or on its branch into `branch`. */
  datatype Fault = Fault(value: Signal, stem: string, branch: Option<string>)

  /** `Fault.is_branch`. */
  predicate IsBranch(f: Fault)
  {
    f.branch.Some?
  }

  const StuckAt: string := " stuck-at "

  /** `str(fault.value.value)`: the ordinal as a single digit. */
  function ValueDigit(v: Signal): (s: string)
    ensures |s| == 1 && IsDigit(s[0]) && DigitValue(s[0]) == Ord(v)
  {
    [DigitChar(Ord(v))]
  }

  /** `Fault.__str__`. */
  function FaultString(f: Fault): string
  {
    match f.branch
    case Some(b) => f.stem + "->" + b + StuckAt + ValueDigit(f.value)
    case None => f.stem + StuckAt + ValueDigit(f.value)
  }

  predicate ArrowAt(s: string, k: int)
  {
    0 <= k && k + 1 < |s| && s[k] == '-' && s[k + 1] == '>'
  }

  predicate NoArrow(s: string)
  {
    forall k :: 0 <= k < |s| ==> !ArrowAt(s, k)
  }

  /** The position of the first `->` at or after `from`. */
  function FindArrow(s: string, from: nat): (r: Option<nat>)
    ensures r.Some? ==> from <= r.value && ArrowAt(s, r.value)
    ensures r.Some? ==> forall k :: from <= k < r.value ==> !ArrowAt(s, k)
    ensures r.None? ==> forall k :: from <= k < |s| ==> !ArrowAt(s, k)
    decreases |s| - from
  {
    if from + 1 >= |s| then None
    else if ArrowAt(s, from) then Some(from)
    else FindArrow(s, from + 1)
  }

  /** Reads a fault back from its display string, splitting stem from
      branch at the first `->`. */
  function ParseFault(s: string): Option<Fault>
  {
    var n := |StuckAt| + 1;
    if |s| < n || s[|s| - n..|s| - 1] != StuckAt || !IsDigit(s[|s| - 1]) || DigitValue(s[|s| - 1]) >= 5 then None
    else
      var v := FromOrd(DigitValue(s[|s| - 1]));
      var head := s[..|s| - n];
      match FindArrow(head, 0)
      case None => Some(Fault(v, head, None))
      case Some(k) => Some(Fault(v, head[..k], Some(head[k + 2..])))
  }

  /** The display string determines the fault, as long as the stem name
      does not itself contain `->` (branch names may contain anything). */
  lemma FaultStringRoundTrip(f: Fault)
    requires NoArrow(f.stem)
    ensures ParseFault(FaultString(f)) == Some(f)
  {
    var s := FaultString(f);
    var n := |StuckAt| + 1;
    var head := match f.branch case Some(b) => f.stem + "->" + b case None => f.stem;
    assert s == head + StuckAt + ValueDigit(f.value);
    assert s[..|s| - n] == head;
    assert s[|s| - n..|s| - 1] == StuckAt;
    OrdIsInjective(f.value, f.value);
    match f.branch
    case None =>
      assert head == f.stem;
    case Some(b) =>
      assert ArrowAt(head, |f.stem|);
      forall k | 0 <= k < |f.stem| ensures !ArrowAt(head, k) {
        if k + 1 < |f.stem| {
          assert !ArrowAt(f.stem, k);
        }
      }
      assert head[..|f.stem|] == f.stem;
      assert head[|f.stem| + 2..] == b;
  }

  /** The display string says whether the fault is on a branch, whatever
      the branch name holds. */
  lemma FaultStringShowsBranch(f: Fault)
    requires NoArrow(f.stem)
    ensures IsBranch(f) <==> !NoArrow(FaultString(f))
  {
    var s := FaultString(f);
    if IsBranch(f) {
      assert ArrowAt(s, |f.stem|);
    } else {
      assert s == f.stem + StuckAt + ValueDigit(f.value);
      forall k | 0 <= k < |s| ensures !ArrowAt(s, k) {
        if k + 1 < |f.stem| {
          assert !ArrowAt(f.stem, k);
        }
      }
    }
  }

  // ---------------------------------------------------------------------
  // FaultClass

  /** A `FaultClass` object, named by its position in the `Classes` store:
      Python keeps references, so a class added as dominated is shared,
      and whatever is later added to it shows in every class that
      dominates it. */
  type ClassId = nat

  /** `equivalent[0]` is the representative; `dominated` holds the
      classes this class dominates, by reference. */
  datatype FaultClass = FaultClass(equivalent: seq<Fault>, dominated: seq<ClassId>)

  /** All `FaultClass` objects alive. */
  type Classes = seq<FaultClass>

  /** Every class has a representative (the constructor always gives one
      and nothing removes it) and refers only to live classes. */
  predicate ValidClasses(h: Classes)
  {
    forall id :: 0 <= id < |h| ==>
      |h[id].equivalent| > 0 && forall j :: 0 <= j < |h[id].dominated| ==> h[id].dominated[j] < |h|
  }

  /** `rank` witnesses that dominance has no cycle: a class dominated by
      another has a smaller rank. */
  predicate Ranked(h: Classes, rank: seq<nat>)
  {
    |rank| == |h| &&
    forall id, j :: 0 <= id < |h| && 0 <= j < |h[id].dominated| && h[id].dominated[j] < |h| ==>
      rank[h[id].dominated[j]] < rank[id]
  }

  /** `FaultClass(fault)`: a new object, returned with its id. */
  function NewFaultClass(h: Classes, f: Fault): (r: (Classes, ClassId))
    requires ValidClasses(h)
    ensures ValidClasses(r.0) && r.1 == |h| && |r.0| == |h| + 1
    ensures r.0[..|h|] == h
    ensures r.0[r.1].equivalent == [f] && r.0[r.1].dominated == []
  {
    (h + [FaultClass([f], [])], |h|)
  }

  /** A dynamically typed argument, for the `isinstance` checks. */
  datatype PyObject = FaultObj(fault: Fault) | ClassObj(id: ClassId) | OtherObj

  /** `fc.add_equivalent(eqfault)`, for `fc` the class `id`. */
  function AddEquivalent(h: Classes, id: ClassId, o: PyObject): (r: (Classes, Outcome))
    requires ValidClasses(h) && id < |h|
    ensures ValidClasses(r.0) && |r.0| == |h|
    ensures forall k :: 0 <= k < |h| && k != id ==> r.0[k] == h[k]
    ensures r.0[id].equivalent[0] == h[id].equivalent[0] && r.0[id].dominated == h[id].dominated
    ensures o.FaultObj? <==> r.1 == Pass
    ensures o.FaultObj? ==> r.0[id].equivalent == h[id].equivalent + [o.fault]
    ensures !o.FaultObj? ==> r == (h, Fail(NotAFault))
  {
    match o
    case FaultObj(f) => (h[id := h[id].(equivalent := h[id].equivalent + [f])], Pass)
    case _ => (h, Fail(NotAFault))
  }

  /** `fc.add_dominated(domfclass)`, for `fc` the class `id`: the
      reference is appended, not a copy. */
  function AddDominated(h: Classes, id: ClassId, o: PyObject): (r: (Classes, Outcome))
    requires ValidClasses(h) && id < |h| && (o.ClassObj? ==> o.id < |h|)
    ensures ValidClasses(r.0) && |r.0| == |h|
    ensures forall k :: 0 <= k < |h| && k != id ==> r.0[k] == h[k]
    ensures r.0[id].equivalent == h[id].equivalent
    ensures o.ClassObj? <==> r.1 == Pass
    ensures o.ClassObj? ==> r.0[id].dominated == h[id].dominated + [o.id]
    ensures !o.ClassObj? ==> r == (h, Fail(NotAFaultClass))
  {
    match o
    case ClassObj(d) => (h[id := h[id].(dominated := h[id].dominated + [d])], Pass)
    case _ => (h, Fail(NotAFaultClass))
  }

  /** Any series of `add_equivalent` calls keeps the representative. */
  lemma {:induction false} RepresentativeIsStable(h: Classes, id: ClassId, os: seq<PyObject>)
    requires ValidClasses(h) && id < |h|
    ensures ValidClasses(AddAllEquivalent(h, id, os)) && |AddAllEquivalent(h, id, os)| == |h|
    ensures AddAllEquivalent(h, id, os)[id].equivalent[0] == h[id].equivalent[0]
    decreases |os|
  {
    if |os| > 0 {
      RepresentativeIsStable(AddEquivalent(h, id, os[0]).0, id, os[1..]);
    }
  }

  /** Feed each object to `add_equivalent` in turn, ignoring TypeErrors. */
  function AddAllEquivalent(h: Classes, id: ClassId, os: seq<PyObject>): Classes
    requires ValidClasses(h) && id < |h|
    decreases |os|
  {
    if |os| == 0 then h
    else
      var h1 := AddEquivalent(h, id, os[0]).0;
      AddAllEquivalent(h1, id, os[1..])
  }

  /** `level * "    "`. */
  function Pad(level: nat): (s: string)
    ensures |s| == 4 * level
    ensures forall i :: 0 <= i < |s| ==> s[i] == ' '
  {
    if level == 0 then "" else Pad(level - 1) + "    "
  }

  /** The header line of a class written at `level`. */
  function Header(fc: FaultClass, level: nat): string
    requires |fc.equivalent| > 0
  {
    Pad(level) + (if level > 0 then NatToString(level) + "-D> " else "H> ") + FaultString(fc.equivalent[0])
  }

  lemma StartsWithShorter(s: string, p: string, q: string)
    requires StartsWith(s, p + q)
    ensures StartsWith(s, p)
  {
    assert s[..|p|] == (p + q)[..|p|];
  }

  /** `fc.write(filep, level)` for `fc` the class `id`: the lines written,
      without their newlines, from the classes as they are now.  The first
      line is the header (`H>` at level 0, `level-D>` below); every other
      line is indented further, so the header is the only line of the
      block whose text right after the level's padding is not a space. */
  function Write(h: Classes, ghost rank: seq<nat>, id: ClassId, level: nat): (lines: seq<string>)
    requires ValidClasses(h) && Ranked(h, rank) && id < |h|
    ensures |lines| > 0 && lines[0] == Header(h[id], level)
    ensures forall i :: 1 <= i < |lines| ==> StartsWith(lines[i], Pad(level) + "   ")
    decreases rank[id], |h[id].dominated| + 1
  {
    var fc := h[id];
    var pad := Pad(level);
    var eqLines :=
      if |fc.equivalent| > 1 then
        TitledIndented(pad + "   ", "Equivalent faults:", EquivalentLines(fc.equivalent[1..], pad));
        [pad + "   " + "Equivalent faults:"] + EquivalentLines(fc.equivalent[1..], pad)
      else [];
    var domLines :=
      if |fc.dominated| > 0 then
        var blocks := WriteDominated(h, rank, id, 0, level + 1);
        DeeperIndented(level, blocks);
        TitledIndented(pad + "   ", "Dominates:", blocks);
        [pad + "   " + "Dominates:"] + blocks
      else [];
    [Header(fc, level)] + eqLines + domLines
  }

  /** A titled section: the title line and the lines under it all start
      with `indent`. */
  lemma TitledIndented(indent: string, title: string, body: seq<string>)
    requires forall k :: 0 <= k < |body| ==> StartsWith(body[k], indent)
    ensures forall i :: 0 <= i < |body| + 1 ==> StartsWith(([indent + title] + body)[i], indent)
  {
    StartsWithAppend(indent, title);
  }

  /** Lines padded one level deeper start with this level's padding and
      three spaces. */
  lemma DeeperIndented(level: nat, lines: seq<string>)
    requires forall k :: 0 <= k < |lines| ==> StartsWith(lines[k], Pad(level + 1))
    ensures forall k :: 0 <= k < |lines| ==> StartsWith(lines[k], Pad(level) + "   ")
  {
    forall k | 0 <= k < |lines| ensures StartsWith(lines[k], Pad(level) + "   ") {
      assert Pad(level + 1) == Pad(level) + "   " + " ";
      StartsWithShorter(lines[k], Pad(level) + "   ", " ");
    }
  }

  /** The `E>` lines of the non-representative equivalent faults. */
  function EquivalentLines(fs: seq<Fault>, pad: string): (lines: seq<string>)
    ensures |lines| == |fs|
    ensures forall i :: 0 <= i < |fs| ==> lines[i] == pad + "   E> " + FaultString(fs[i])
    ensures forall i :: 0 <= i < |fs| ==> StartsWith(lines[i], pad + "   ")
  {
    var lines := seq(|fs|, i requires 0 <= i < |fs| => pad + "   E> " + FaultString(fs[i]));
    assert forall i :: 0 <= i < |fs| ==> lines[i] == pad + "   " + ("E> " + FaultString(fs[i]));
    forall i | 0 <= i < |fs| ensures StartsWith(lines[i], pad + "   ") {
      StartsWithAppend(pad + "   ", "E> " + FaultString(fs[i]));
    }
    lines
  }

  /** The blocks of the classes that class `id` dominates, from the
      `i`-th on, at `level`. */
  function WriteDominated(h: Classes, ghost rank: seq<nat>, id: ClassId, i: nat, level: nat): (lines: seq<string>)
    requires ValidClasses(h) && Ranked(h, rank) && id < |h| && i <= |h[id].dominated|
    ensures forall k :: 0 <= k < |lines| ==> StartsWith(lines[k], Pad(level))
    decreases rank[id], |h[id].dominated| - i
  {
    if i == |h[id].dominated| then []
    else
      var d := h[id].dominated[i];
      var block := Write(h, rank, d, level);
      var rest := WriteDominated(h, rank, id, i + 1, level);
      assert StartsWith(block[0], Pad(level)) by {
        var hd := Header(h[d], level);
        assert hd == Pad(level) + (hd[|Pad(level)|..]);
        StartsWithAppend(Pad(level), hd[|Pad(level)|..]);
      }
      forall k | 1 <= k < |block| ensures StartsWith(block[k], Pad(level)) {
        StartsWithShorter(block[k], Pad(level), "   ");
      }
      block + rest
  }

  /** The report of a class contains the whole block of every class it
      dominates, written one level deeper. */
  lemma {:induction false} DominatedBlockIn(h: Classes, rank: seq<nat>, id: ClassId, i: nat, j: nat, level: nat)
    requires ValidClasses(h) && Ranked(h, rank) && id < |h| && i <= j < |h[id].dominated|
    ensures forall l :: l in Write(h, rank, h[id].dominated[j], level) ==> l in WriteDominated(h, rank, id, i, level)
    decreases j - i
  {
    var block := Write(h, rank, h[id].dominated[i], level);
    var rest := WriteDominated(h, rank, id, i + 1, level);
    assert WriteDominated(h, rank, id, i, level) == block + rest;
    if i < j {
      DominatedBlockIn(h, rank, id, i + 1, j, level);
    }
  }

  /** Dominated classes are shared, not copied: a fault added to a class
      after another class took it as dominated shows up in that other
      class's report. */
  lemma LaterEquivalentShows(h: Classes, rank: seq<nat>, p: ClassId, j: nat, f: Fault, level: nat)
    requires ValidClasses(h) && Ranked(h, rank) && p < |h| && j < |h[p].dominated|
    ensures var h' := AddEquivalent(h, h[p].dominated[j], FaultObj(f)).0;
      Ranked(h', rank) &&
      Pad(level + 1) + "   E> " + FaultString(f) in Write(h', rank, p, level)
  {
    var d := h[p].dominated[j];
    var h' := AddEquivalent(h, d, FaultObj(f)).0;
    assert Ranked(h', rank) by {
      forall id, k | 0 <= id < |h'| && 0 <= k < |h'[id].dominated| && h'[id].dominated[k] < |h'|
        ensures rank[h'[id].dominated[k]] < rank[id]
      {
        assert h'[id].dominated == h[id].dominated;
      }
    }
    assert h'[p].dominated == h[p].dominated;
    var block := Write(h', rank, d, level + 1);
    var eq := h'[d].equivalent;
    var pad := Pad(level + 1);
    var line := pad + "   E> " + FaultString(f);
    var eqLines := EquivalentLines(eq[1..], pad);
    assert eq[1..][|eq| - 2] == f;
    assert eqLines[|eq| - 2] == line;
    assert block == [Header(h'[d], level + 1)] + ([pad + "   " + "Equivalent faults:"] + eqLines) +
      (if |h'[d].dominated| > 0 then [pad + "   " + "Dominates:"] + WriteDominated(h', rank, d, 0, level + 2) else []);
    assert line in block;
    DominatedBlockIn(h', rank, p, 0, j, level + 1);
    assert line in WriteDominated(h', rank, p, 0, level + 1);
  }

  // ---------------------------------------------------------------------
  // BridgeFault

  datatype BridgeType = BridgeAnd | BridgeOr

  datatype BridgeFault = BridgeFault(sites: seq<string>, bridgetype: BridgeType, flag: bool)

  /** `BridgeFault(sites, bridgetype)`: only "AND" and "OR" are accepted. */
  function NewBridge(sites: seq<string>, bridgetype: string): (r: Result<BridgeFault>)
    ensures r.Ok? <==> bridgetype == "AND" || bridgetype == "OR"
    ensures r.Err? ==> r.error == InvalidBridgetype(bridgetype)
    ensures r.Ok? ==> r.value.sites == sites && !r.value.flag
    ensures r.Ok? ==> (r.value.bridgetype == BridgeAnd <==> bridgetype == "AND")
  {
    if bridgetype == "AND" then Ok(BridgeFault(sites, BridgeAnd, false))
    else if bridgetype == "OR" then Ok(BridgeFault(sites, BridgeOr, false))
    else Err(InvalidBridgetype(bridgetype))
  }
}
