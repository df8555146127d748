/** The ISCAS netlist reader of the implication engine: line tokenising,
    the first pass that counts how often each wire is consumed, and the
    second pass that builds the gate map, splitting every wire with more
    than one consumer into a stem and one BUFF branch per consumer.

    The file is a sequence of lines (what `std::getline` yields).  A
    non-skipped line with fewer than two tokens makes the source index
    past the end of its token vector; `Parsable` excludes it. */
module Netlist {
  import opened Roth
  import opened Text
  import opened Implication

  // ---------------------------------------------------------------------
  // Tokenising

  /** The characters `remove_brackets`, `remove_commas` and
      `remove_equals_sign` turn into spaces. */
  predicate IsPunct(ch: char)
  {
    ch == '(' || ch == ')' || ch == ',' || ch == '='
  }

  predicate IsSeparator(ch: char)
  {
    CIsSpace(ch) || IsPunct(ch)
  }

  /** The line with every punctuation character replaced by a space. */
  function Blank(s: string): (r: string)
    ensures |r| == |s|
    ensures forall i :: 0 <= i < |s| ==> r[i] == (if IsPunct(s[i]) then ' ' else s[i])
  {
    if |s| == 0 then [] else [if IsPunct(s[0]) then ' ' else s[0]] + Blank(s[1..])
  }

  /** `tokenize_line`: blank the punctuation, then read whitespace-separated
      tokens. */
  function Tokenize(line: string): seq<string>
  {
    Split(CIsSpace, Blank(line))
  }

  lemma {:induction false} BlankSplit(s: string, cur: string)
    requires NoneSatisfy(IsSeparator, cur)
    ensures SplitFrom(CIsSpace, Blank(s), cur) == SplitFrom(IsSeparator, s, cur)
    decreases |s|
  {
    if |s| > 0 {
      var b := Blank(s);
      assert b[1..] == Blank(s[1..]);
      if IsSeparator(s[0]) {
        BlankSplit(s[1..], []);
      } else {
        assert b[0] == s[0];
        BlankSplit(s[1..], cur + [s[0]]);
      }
    }
  }

  /** Tokenising is a split on whitespace and the four punctuation
      characters alike: no token is empty or contains any of them. */
  lemma TokenizeSplitsOnSeparators(line: string)
    ensures Tokenize(line) == Split(IsSeparator, line)
    ensures forall i :: 0 <= i < |Tokenize(line)| ==> IsToken(IsSeparator, Tokenize(line)[i])
  {
    BlankSplit(line, []);
  }

  // ---------------------------------------------------------------------
  // Line classes

  /** Comment, end-of-file marker and blank lines are skipped by both
      passes. */
  predicate Skipped(line: string)
  {
    StartsWith(line, "#") || StartsWith(line, "$") || AllSatisfy(CIsSpace, line)
  }

  /** What both passes need of a line they do not skip: two tokens. */
  predicate Parsable(line: string)
  {
    Skipped(line) || |Tokenize(line)| >= 2
  }

  predicate AllParsable(lines: seq<string>)
  {
    forall i :: 0 <= i < |lines| ==> Parsable(lines[i])
  }

  predicate IsPortKeyword(t: string)
  {
    t == "INPUT" || t == "input" || t == "OUTPUT" || t == "output"
  }

  /** The raw-prefix tests the passes use to route a line (unlike
      `get_wire_names`, which looks at the first token). */
  predicate InputLine(line: string)
  {
    StartsWith(line, "INPUT") || StartsWith(line, "input")
  }

  predicate OutputLine(line: string)
  {
    StartsWith(line, "OUTPUT") || StartsWith(line, "output")
  }

  /** A line the first pass counts fan-ins of. */
  predicate GateLine(line: string)
  {
    !Skipped(line) && !InputLine(line) && !OutputLine(line)
  }

  /** `get_wire_names`: the declared wire of a port line, otherwise every
      token after the gate's output and type. */
  function WireNames(line: string): (r: seq<string>)
    requires |Tokenize(line)| >= 2
    ensures forall i :: 0 <= i < |r| ==> r[i] in Tokenize(line)[1..]
  {
    var ts := Tokenize(line);
    if IsPortKeyword(ts[0]) then [ts[1]] else ts[2..]
  }

  /** The wire a gate line defines (`tokenize_line(line)[0]`). */
  function Output(line: string): string
    requires |Tokenize(line)| >= 2
  {
    Tokenize(line)[0]
  }

  // ---------------------------------------------------------------------
  // First pass: `get_wire_cnt`

  datatype Scan = Scan(inputs: seq<string>, outputs: seq<string>, wireCnt: map<string, seq<string>>)

  /** `wire_cnt[w]`, reading a missing wire as no consumers. */
  function Consumers(wc: map<string, seq<string>>, w: string): seq<string>
  {
    if w in wc then wc[w] else []
  }

  function Repeat(x: string, n: nat): (r: seq<string>)
    ensures |r| == n && forall i :: 0 <= i < n ==> r[i] == x
  {
    if n == 0 then [] else [x] + Repeat(x, n - 1)
  }

  lemma {:induction false} RepeatAdd(x: string, a: nat, b: nat)
    ensures Repeat(x, a) + Repeat(x, b) == Repeat(x, a + b)
  {
    assert |Repeat(x, a) + Repeat(x, b)| == a + b;
    assert forall i :: 0 <= i < a + b ==> (Repeat(x, a) + Repeat(x, b))[i] == x;
  }

  /** The loop over one gate line's fan-ins: each occurrence of a wire
      appends the gate to that wire's consumers. */
  function AddConsumers(wc: map<string, seq<string>>, names: seq<string>, g: string): map<string, seq<string>>
    decreases |names|
  {
    if |names| == 0 then wc
    else AddConsumers(wc[names[0] := Consumers(wc, names[0]) + [g]], names[1..], g)
  }

  /** A wire used k times by the gate gains the gate k times at the end
      of its consumer list, and no other wire changes. */
  lemma {:induction false} AddConsumersCounts(wc: map<string, seq<string>>, names: seq<string>, g: string, w: string)
    ensures Consumers(AddConsumers(wc, names, g), w) == Consumers(wc, w) + Repeat(g, multiset(names)[w])
    decreases |names|
  {
    if |names| == 0 {
      assert Repeat(g, 0) == [];
    } else {
      var wc1 := wc[names[0] := Consumers(wc, names[0]) + [g]];
      AddConsumersCounts(wc1, names[1..], g, w);
      assert names == [names[0]] + names[1..];
      assert multiset(names)[w] == (if w == names[0] then 1 else 0) + multiset(names[1..])[w];
      RepeatAdd(g, if w == names[0] then 1 else 0, multiset(names[1..])[w]);
      assert Repeat(g, 1) == [g];
    }
  }

  /** One line of the first pass: port lines append their wire to the
      inputs or the outputs in file order; a gate line appends its output
      wire to the consumers of each fan-in, once per occurrence. */
  function CountLine(s: Scan, line: string): (r: Scan)
    requires Parsable(line)
    ensures Skipped(line) ==> r == s
    ensures !Skipped(line) && InputLine(line) ==> r == s.(inputs := s.inputs + WireNames(line))
    ensures !Skipped(line) && !InputLine(line) && OutputLine(line) ==> r == s.(outputs := s.outputs + WireNames(line))
    ensures GateLine(line) ==>
      (r.inputs == s.inputs && r.outputs == s.outputs &&
       forall w :: Consumers(r.wireCnt, w) == Consumers(s.wireCnt, w) + Repeat(Output(line), multiset(WireNames(line))[w]))
  {
    if Skipped(line) then s
    else
      var names := WireNames(line);
      if InputLine(line) then s.(inputs := s.inputs + names)
      else if OutputLine(line) then s.(outputs := s.outputs + names)
      else
        var wc := AddConsumers(s.wireCnt, names, Output(line));
        assert forall w :: Consumers(wc, w) == Consumers(s.wireCnt, w) + Repeat(Output(line), multiset(names)[w]) by {
          forall w
            ensures Consumers(wc, w) == Consumers(s.wireCnt, w) + Repeat(Output(line), multiset(names)[w])
          {
            AddConsumersCounts(s.wireCnt, names, Output(line), w);
          }
        }
        s.(wireCnt := wc)
  }

  /** `get_wire_cnt` over the whole file. */
  function WireCount(lines: seq<string>): Scan
    requires AllParsable(lines)
    decreases |lines|
  {
    if |lines| == 0 then Scan([], [], map[])
    else CountLine(WireCount(lines[..|lines| - 1]), lines[|lines| - 1])
  }

  /** How many times the gate lines of the file use `w` as a fan-in. */
  ghost function Uses(lines: seq<string>, w: string): nat
    requires AllParsable(lines)
    decreases |lines|
  {
    if |lines| == 0 then 0
    else
      var line := lines[|lines| - 1];
      Uses(lines[..|lines| - 1], w) + (if GateLine(line) then multiset(WireNames(line))[w] else 0)
  }

  /** `g` is the output of a gate line of the file that reads wire `w`. */
  ghost predicate ConsumerIn(lines: seq<string>, w: string, g: string)
    requires AllParsable(lines)
  {
    exists i :: 0 <= i < |lines| && GateLine(lines[i]) && w in WireNames(lines[i]) && g == Output(lines[i])
  }

  /** The consumer list of a wire has one entry per use of the wire as a
      fan-in, and each entry is the output of a gate line using it. */
  lemma {:induction false} WireCountCounts(lines: seq<string>, w: string)
    requires AllParsable(lines)
    ensures |Consumers(WireCount(lines).wireCnt, w)| == Uses(lines, w)
    ensures forall k :: 0 <= k < |Consumers(WireCount(lines).wireCnt, w)| ==>
      ConsumerIn(lines, w, Consumers(WireCount(lines).wireCnt, w)[k])
    decreases |lines|
  {
    if |lines| > 0 {
      var pre := lines[..|lines| - 1];
      var line := lines[|lines| - 1];
      assert AllParsable(pre);
      WireCountCounts(pre, w);
      var before := Consumers(WireCount(pre).wireCnt, w);
      var after := Consumers(WireCount(lines).wireCnt, w);
      assert WireCount(lines) == CountLine(WireCount(pre), line);
      if GateLine(line) {
        assert after == before + Repeat(Output(line), multiset(WireNames(line))[w]);
      } else {
        assert after == before;
      }
      forall k | 0 <= k < |after|
        ensures ConsumerIn(lines, w, after[k])
      {
        if k < |before| {
          assert after[k] == before[k];
          assert ConsumerIn(pre, w, before[k]);
          var i :| 0 <= i < |pre| && GateLine(pre[i]) && w in WireNames(pre[i]) && before[k] == Output(pre[i]);
          assert lines[i] == pre[i];
        } else {
          assert GateLine(line);
          assert multiset(WireNames(line))[w] > 0;
          assert after[k] == Output(lines[|lines| - 1]);
        }
      }
    }
  }

  /** `n` is declared by an INPUT line of the file. */
  ghost predicate DeclaredInput(lines: seq<string>, n: string)
    requires AllParsable(lines)
  {
    exists i :: 0 <= i < |lines| && !Skipped(lines[i]) && InputLine(lines[i]) && n in WireNames(lines[i])
  }

  /** `n` is declared by an OUTPUT line of the file. */
  ghost predicate DeclaredOutput(lines: seq<string>, n: string)
    requires AllParsable(lines)
  {
    exists i :: 0 <= i < |lines| && !Skipped(lines[i]) && !InputLine(lines[i]) && OutputLine(lines[i]) && n in WireNames(lines[i])
  }

  lemma DeclaredGrows(lines: seq<string>, n: string)
    requires |lines| > 0 && AllParsable(lines)
    ensures AllParsable(lines[..|lines| - 1])
    ensures DeclaredInput(lines[..|lines| - 1], n) ==> DeclaredInput(lines, n)
    ensures DeclaredOutput(lines[..|lines| - 1], n) ==> DeclaredOutput(lines, n)
  {
    var pre := lines[..|lines| - 1];
    assert forall i :: 0 <= i < |pre| ==> pre[i] == lines[i];
    if DeclaredInput(pre, n) {
      var i :| 0 <= i < |pre| && !Skipped(pre[i]) && InputLine(pre[i]) && n in WireNames(pre[i]);
      assert lines[i] == pre[i];
    }
    if DeclaredOutput(pre, n) {
      var i :| 0 <= i < |pre| && !Skipped(pre[i]) && !InputLine(pre[i]) && OutputLine(pre[i]) && n in WireNames(pre[i]);
      assert lines[i] == pre[i];
    }
  }

  /** The primary inputs and outputs come from port lines only: every
      name on either list is declared by an INPUT (OUTPUT) line. */
  lemma {:induction false} PortsFromPortLines(lines: seq<string>)
    requires AllParsable(lines)
    ensures forall k :: 0 <= k < |WireCount(lines).inputs| ==> DeclaredInput(lines, WireCount(lines).inputs[k])
    ensures forall k :: 0 <= k < |WireCount(lines).outputs| ==> DeclaredOutput(lines, WireCount(lines).outputs[k])
    decreases |lines|
  {
    if |lines| > 0 {
      var pre := lines[..|lines| - 1];
      var last := |lines| - 1;
      DeclaredGrows(lines, "");
      PortsFromPortLines(pre);
      var s0 := WireCount(pre);
      var s := WireCount(lines);
      assert s == CountLine(s0, lines[last]);
      forall k | 0 <= k < |s.inputs|
        ensures DeclaredInput(lines, s.inputs[k])
      {
        if k < |s0.inputs| {
          assert s.inputs[k] == s0.inputs[k];
          DeclaredGrows(lines, s0.inputs[k]);
        } else {
          assert s.inputs[k] in WireNames(lines[last]);
        }
      }
      forall k | 0 <= k < |s.outputs|
        ensures DeclaredOutput(lines, s.outputs[k])
      {
        if k < |s0.outputs| {
          assert s.outputs[k] == s0.outputs[k];
          DeclaredGrows(lines, s0.outputs[k]);
        } else {
          assert s.outputs[k] in WireNames(lines[last]);
        }
      }
    }
  }

  // ---------------------------------------------------------------------
  // Branch names

  /** `w + "_BRANCH" + std::to_string(k) + "_" + g`. */
  function BranchName(w: string, k: nat, g: string): string
  {
    w + "_BRANCH" + NatToString(k) + "_" + g
  }

  /** Different branch numbers give different names. */
  lemma BranchNameInjective(w: string, g: string, j: nat, k: nat)
    ensures BranchName(w, j, g) == BranchName(w, k, g) ==> j == k
  {
    var nj := NatToString(j);
    var nk := NatToString(k);
    var p := w + "_BRANCH";
    if BranchName(w, j, g) == BranchName(w, k, g) {
      var a := BranchName(w, j, g);
      assert |nj| == |nk|;
      assert a == p + nj + ("_" + g);
      assert a[|p|..|p| + |nj|] == nj;
      assert BranchName(w, k, g)[|p|..|p| + |nk|] == nk;
      NatToStringIsInjective(j, k);
    }
  }

  ghost function BranchSet(w: string, g: string, n: nat): (r: set<string>)
    ensures forall x :: x in r <==> exists j :: 0 <= j < n && x == BranchName(w, j, g)
  {
    set j | 0 <= j < n :: BranchName(w, j, g)
  }

  lemma {:induction false} BranchSetSize(w: string, g: string, n: nat)
    ensures |BranchSet(w, g, n)| == n
  {
    if n > 0 {
      BranchSetSize(w, g, n - 1);
      assert BranchSet(w, g, n) == BranchSet(w, g, n - 1) + {BranchName(w, n - 1, g)};
      forall j | 0 <= j < n - 1
        ensures BranchName(w, j, g) != BranchName(w, n - 1, g)
      {
        BranchNameInjective(w, g, j, n - 1);
      }
    }
  }

  lemma {:induction false} ElementsSize(s: seq<string>)
    ensures |set x | x in s| <= |s|
  {
    if |s| > 0 {
      ElementsSize(s[1..]);
      assert (set x | x in s) == (set x | x in s[1..]) + {s[0]};
    }
  }

  /** Pigeonhole: `taken` cannot hold more than |taken| branch names of
      one wire, so the numbering loop stops by |taken|. */
  lemma Pigeonhole(w: string, g: string, taken: seq<string>, n: nat)
    requires forall j :: 0 <= j < n ==> BranchName(w, j, g) in taken
    ensures n <= |taken|
  {
    BranchSetSize(w, g, n);
    ElementsSize(taken);
    SubsetSize(BranchSet(w, g, n), set x | x in taken);
  }

  /** The numbering loop of `populate_circuit`: the smallest branch number
      from `k` on whose name `taken` does not hold yet. */
  function FirstFree(w: string, g: string, taken: seq<string>, k: nat): (r: nat)
    requires forall j :: 0 <= j < k ==> BranchName(w, j, g) in taken
    ensures k <= r && BranchName(w, r, g) !in taken
    ensures forall j :: 0 <= j < r ==> BranchName(w, j, g) in taken
    decreases |taken| - k
  {
    Pigeonhole(w, g, taken, k);
    if BranchName(w, k, g) in taken then FirstFree(w, g, taken, k + 1) else k
  }

  /** The name the numbering loop settles on. */
  function FreshBranch(w: string, g: string, taken: seq<string>): string
  {
    BranchName(w, FirstFree(w, g, taken, 0), g)
  }

  /** The settled name is new and uses the smallest number that is. */
  lemma FreshBranchIsLeast(w: string, g: string, taken: seq<string>)
    ensures FreshBranch(w, g, taken) !in taken
    ensures exists k: nat :: (FreshBranch(w, g, taken) == BranchName(w, k, g) &&
                              forall j :: 0 <= j < k ==> BranchName(w, j, g) in taken)
  {
    var k := FirstFree(w, g, taken, 0);
    assert FreshBranch(w, g, taken) == BranchName(w, k, g);
  }

  /** A branch name is longer than its stem, so never the stem itself. */
  lemma BranchNameIsNotStem(w: string, k: nat, g: string)
    ensures BranchName(w, k, g) != w
  {
    assert |BranchName(w, k, g)| > |w|;
  }

  // ---------------------------------------------------------------------
  // Second pass: `populate_circuit`

  /** The structures the second pass fills. */
  datatype Built = Built(gates: map<string, CGate>, state: map<string, Signal>, signals: seq<string>)

  /** Every signal created so far is X, is listed in `signals`, and has a
      gate. */
  predicate WellBuilt(b: Built)
  {
    (forall n :: n in b.state ==> b.state[n] == X) &&
    (forall n :: n in b.state ==> n in b.signals) &&
    (forall i :: 0 <= i < |b.signals| ==> b.signals[i] in b.state) &&
    b.gates.Keys == b.state.Keys
  }

  /** The fan-in list of a gate: a wire with more than one consumer is
      replaced by a fresh branch name of it, numbered against the fan-ins
      already placed. */
  function BranchInputs(wc: map<string, seq<string>>, names: seq<string>, g: string, acc: seq<string>): (r: seq<string>)
    ensures |r| == |acc| + |names| && r[..|acc|] == acc
    ensures forall i :: 0 <= i < |names| ==>
      r[|acc| + i] == if |Consumers(wc, names[i])| > 1 then FreshBranch(names[i], g, r[..|acc| + i]) else names[i]
    decreases |names|
  {
    if |names| == 0 then acc
    else
      var w := names[0];
      var n := if |Consumers(wc, w)| > 1 then FreshBranch(w, g, acc) else w;
      var r := BranchInputs(wc, names[1..], g, acc + [n]);
      BranchInputsStep(wc, names, g, acc, acc + [n], r);
      r
  }

  /** The placement rule for the head of `names` and the rule for its tail
      (placed after it) give the rule for all of `names`. */
  lemma BranchInputsStep(wc: map<string, seq<string>>, names: seq<string>, g: string,
                         acc: seq<string>, acc': seq<string>, r: seq<string>)
    requires |names| > 0
    requires acc' == acc + [if |Consumers(wc, names[0])| > 1 then FreshBranch(names[0], g, acc) else names[0]]
    requires |r| == |acc'| + |names[1..]| && r[..|acc'|] == acc'
    requires forall i :: 0 <= i < |names[1..]| ==>
      r[|acc'| + i] ==
        if |Consumers(wc, names[1..][i])| > 1 then FreshBranch(names[1..][i], g, r[..|acc'| + i]) else names[1..][i]
    ensures |r| == |acc| + |names| && r[..|acc|] == acc
    ensures forall i :: 0 <= i < |names| ==>
      r[|acc| + i] == if |Consumers(wc, names[i])| > 1 then FreshBranch(names[i], g, r[..|acc| + i]) else names[i]
  {
    assert r[..|acc'|][..|acc|] == r[..|acc|];
    forall i | 0 <= i < |names|
      ensures r[|acc| + i] == if |Consumers(wc, names[i])| > 1 then FreshBranch(names[i], g, r[..|acc| + i]) else names[i]
    {
      if i > 0 {
        assert names[i] == names[1..][i - 1];
        assert |acc'| + (i - 1) == |acc| + i;
      } else {
        assert r[..|acc|] == acc;
        assert r[|acc|] == r[..|acc'|][|acc|];
      }
    }
  }

  /** Branch fan-ins never repeat a fan-in placed before them. */
  lemma BranchInputsFresh(wc: map<string, seq<string>>, names: seq<string>, g: string, i: nat)
    requires i < |names| && |Consumers(wc, names[i])| > 1
    ensures var r := BranchInputs(wc, names, g, []);
      r[i] !in r[..i] && exists k: nat :: r[i] == BranchName(names[i], k, g)
  {
    var r := BranchInputs(wc, names, g, []);
    assert r[i] == FreshBranch(names[i], g, r[..i]);
    FreshBranchIsLeast(names[i], g, r[..i]);
    var k := FirstFree(names[i], g, r[..i], 0);
    assert r[i] == BranchName(names[i], k, g);
  }

  /** The branch names of a stem, one per consumer in consumer order, each
      numbered against the names already given. */
  function StemNames(stem: string, bs: seq<string>, acc: seq<string>): (r: seq<string>)
    ensures |r| == |acc| + |bs| && r[..|acc|] == acc
    ensures forall i :: 0 <= i < |bs| ==> r[|acc| + i] == FreshBranch(stem, bs[i], r[..|acc| + i])
    decreases |bs|
  {
    if |bs| == 0 then acc
    else
      var r := StemNames(stem, bs[1..], acc + [FreshBranch(stem, bs[0], acc)]);
      assert r[..|acc| + 1][..|acc|] == r[..|acc|];
      assert forall i :: 1 <= i < |bs| ==> bs[i] == bs[1..][i - 1] && |acc| + 1 + (i - 1) == |acc| + i;
      r
  }

  predicate Distinct(s: seq<string>)
  {
    forall i, j :: 0 <= i < j < |s| ==> s[i] != s[j]
  }

  /** The branch names of a stem are pairwise distinct, and none is the
      stem itself. */
  lemma StemNamesDistinct(stem: string, bs: seq<string>)
    ensures Distinct(StemNames(stem, bs, []))
    ensures forall i :: 0 <= i < |bs| ==> StemNames(stem, bs, [])[i] != stem
  {
    var r := StemNames(stem, bs, []);
    forall i, j | 0 <= i < j < |r|
      ensures r[i] != r[j]
    {
      FreshBranchIsLeast(stem, bs[j], r[..j]);
      assert r[i] in r[..j];
    }
    forall i | 0 <= i < |bs|
      ensures r[i] != stem
    {
      BranchNameIsNotStem(stem, FirstFree(stem, bs[i], r[..i], 0), bs[i]);
    }
  }

  /** One BUFF per branch name: its only fan-in is the stem, its only
      fan-out the consumer, its state X. */
  function AddBuffers(b: Built, stem: string, bs: seq<string>, names: seq<string>): (r: Built)
    requires |names| == |bs|
    ensures r.signals == b.signals + names
    ensures forall n :: n in r.state <==> n in b.state || n in names
    ensures forall n :: n in r.gates <==> n in b.gates || n in names
    ensures forall n :: n in r.state ==> r.state[n] == if n in names then X else b.state[n]
    ensures forall n :: n in b.gates && n !in names ==> r.gates[n] == b.gates[n]
    decreases |names|
  {
    if |names| == 0 then b
    else
      var n := names[|names| - 1];
      var r := AddBuffers(b, stem, bs[..|bs| - 1], names[..|names| - 1]);
      assert names == names[..|names| - 1] + [n];
      Built(r.gates[n := CGate("BUFF", [stem], [bs[|bs| - 1]])], r.state[n := X], r.signals + [n])
  }

  /** With distinct names, every name ends up with its own BUFF. */
  lemma {:induction false} AddBuffersGates(b: Built, stem: string, bs: seq<string>, names: seq<string>)
    requires |names| == |bs| && Distinct(names)
    ensures forall i :: 0 <= i < |names| ==> AddBuffers(b, stem, bs, names).gates[names[i]] == CGate("BUFF", [stem], [bs[i]])
    decreases |names|
  {
    if |names| > 0 {
      var last := |names| - 1;
      var pre := names[..last];
      assert Distinct(pre);
      AddBuffersGates(b, stem, bs[..last], pre);
      forall i | 0 <= i < last
        ensures names[i] != names[last] && pre[i] == names[i] && bs[..last][i] == bs[i]
      {
      }
    }
  }

  /** The gate of a line, with the buffers a stem output needs. */
  function PopulateLine(b: Built, wc: map<string, seq<string>>, line: string): (r: Built)
    requires Parsable(line)
  {
    if Skipped(line) || OutputLine(line) then b
    else
      var ts := Tokenize(line);
      var isIn := InputLine(line);
      var g := if isIn then ts[1] else ts[0];
      var t := if isIn then "INPUT" else ts[1];
      var ins := if isIn then [] else BranchInputs(wc, WireNames(line), g, []);
      var cs := Consumers(wc, g);
      var names := StemNames(g, cs, []);
      var b1 := if |cs| > 1 then AddBuffers(b, g, cs, names) else b;
      var outs := if |cs| > 1 then names else cs;
      Define(b1, g, CGate(t, ins, outs))
  }

  /** Record the gate driving `g`, its X state and the signal. */
  function Define(b: Built, g: string, gate: CGate): Built
  {
    Built(b.gates[g := gate], b.state[g := X], b.signals + [g])
  }

  /** The defined wire of a line `populate_circuit` builds a gate for. */
  function Defined(line: string): string
    requires |Tokenize(line)| >= 2
  {
    if InputLine(line) then Tokenize(line)[1] else Tokenize(line)[0]
  }

  lemma AddBuffersKeepsBuilt(b: Built, stem: string, bs: seq<string>, names: seq<string>)
    requires |names| == |bs| && WellBuilt(b)
    ensures WellBuilt(AddBuffers(b, stem, bs, names))
  {
    var a := AddBuffers(b, stem, bs, names);
    forall i | 0 <= i < |a.signals|
      ensures a.signals[i] in a.state
    {
      if i >= |b.signals| {
        assert a.signals[i] == names[i - |b.signals|];
      }
    }
  }

  lemma DefineKeepsBuilt(b: Built, g: string, gate: CGate)
    requires WellBuilt(b)
    ensures WellBuilt(Define(b, g, gate))
  {
  }

  /** Every signal a line creates is X and recorded, and has a gate. */
  lemma PopulateLineKeepsBuilt(b: Built, wc: map<string, seq<string>>, line: string)
    requires Parsable(line) && WellBuilt(b)
    ensures WellBuilt(PopulateLine(b, wc, line))
  {
    if !Skipped(line) && !OutputLine(line) {
      var g := Defined(line);
      var cs := Consumers(wc, g);
      var names := StemNames(g, cs, []);
      if |cs| > 1 {
        AddBuffersKeepsBuilt(b, g, cs, names);
        DefineKeepsBuilt(AddBuffers(b, g, cs, names), g, PopulateLine(b, wc, line).gates[g]);
      } else {
        DefineKeepsBuilt(b, g, PopulateLine(b, wc, line).gates[g]);
      }
    }
  }

  /** The gate type, fan-ins and fan-outs a line's gate is given. */
  function LineGate(wc: map<string, seq<string>>, line: string): CGate
    requires |Tokenize(line)| >= 2
  {
    var g := Defined(line);
    var cs := Consumers(wc, g);
    CGate(if InputLine(line) then "INPUT" else Tokenize(line)[1],
          if InputLine(line) then [] else BranchInputs(wc, WireNames(line), g, []),
          if |cs| > 1 then StemNames(g, cs, []) else cs)
  }

  lemma PopulateLineUnfold(b: Built, wc: map<string, seq<string>>, line: string)
    requires Parsable(line) && !Skipped(line) && !OutputLine(line)
    ensures var g := Defined(line); var cs := Consumers(wc, g);
      PopulateLine(b, wc, line) ==
        Define(if |cs| > 1 then AddBuffers(b, g, cs, StemNames(g, cs, [])) else b, g, LineGate(wc, line))
  {
  }

  /** A gate line builds its gate with the branch fan-ins; an INPUT line
      builds an INPUT gate without fan-ins; the defined wire is X; a wire
      with at most one consumer fans out to its consumers directly. */
  lemma PopulateLineBuilds(b: Built, wc: map<string, seq<string>>, line: string)
    requires Parsable(line) && !Skipped(line) && !OutputLine(line)
    ensures var r := PopulateLine(b, wc, line); var g := Defined(line); var cs := Consumers(wc, g);
      g in r.gates && g in r.state && r.state[g] == X &&
      r.gates[g].gateType == (if InputLine(line) then "INPUT" else Tokenize(line)[1]) &&
      r.gates[g].inputs == (if InputLine(line) then [] else BranchInputs(wc, WireNames(line), g, [])) &&
      |r.gates[g].outputs| == |cs| &&
      (|cs| <= 1 ==> r.gates[g].outputs == cs)
  {
    PopulateLineUnfold(b, wc, line);
  }

  /** A stem with several consumers fans out to distinct fresh branch
      names, one BUFF per consumer, each fed by the stem alone. */
  lemma PopulateLineBranchesStem(b: Built, wc: map<string, seq<string>>, line: string)
    requires Parsable(line) && !Skipped(line) && !OutputLine(line)
    requires |Consumers(wc, Defined(line))| > 1
    ensures var r := PopulateLine(b, wc, line); var g := Defined(line); var cs := Consumers(wc, g);
      g in r.gates && Distinct(r.gates[g].outputs) && |r.gates[g].outputs| == |cs| &&
      forall i :: 0 <= i < |cs| ==> r.gates[r.gates[g].outputs[i]] == CGate("BUFF", [g], [cs[i]])
  {
    var g := Defined(line);
    var cs := Consumers(wc, g);
    var names := StemNames(g, cs, []);
    PopulateLineUnfold(b, wc, line);
    StemNamesDistinct(g, cs);
    DefineStem(b, g, cs, names, LineGate(wc, line));
  }

  lemma DefineStem(b: Built, g: string, cs: seq<string>, names: seq<string>, gate: CGate)
    requires |names| == |cs| && Distinct(names) && gate.outputs == names
    requires forall i :: 0 <= i < |names| ==> names[i] != g
    ensures var r := Define(AddBuffers(b, g, cs, names), g, gate);
      g in r.gates && r.gates[g] == gate &&
      forall i :: 0 <= i < |cs| ==> r.gates[names[i]] == CGate("BUFF", [g], [cs[i]])
  {
    AddBuffersGates(b, g, cs, names);
  }

  /** `populate_circuit` over the whole file. */
  function Populate(lines: seq<string>, wc: map<string, seq<string>>): (r: Built)
    requires AllParsable(lines)
    ensures WellBuilt(r)
    decreases |lines|
  {
    if |lines| == 0 then Built(map[], map[], [])
    else
      var b := Populate(lines[..|lines| - 1], wc);
      PopulateLineKeepsBuilt(b, wc, lines[|lines| - 1]);
      PopulateLine(b, wc, lines[|lines| - 1])
  }

  /** The file constructor: both passes, no fault, empty D-frontier. */
  function Parse(lines: seq<string>): (c: CCircuit)
    requires AllParsable(lines)
    ensures forall n :: n in c.state ==> c.state[n] == X
    ensures forall n :: n in c.state ==> n in c.signals
    ensures forall i :: 0 <= i < |c.signals| ==> c.signals[i] in c.state
    ensures c.gates.Keys == c.state.Keys
    ensures c.inputs == WireCount(lines).inputs && c.outputs == WireCount(lines).outputs
    ensures c.faultLocation == "" && c.faultValue == X && c.dfrontier == {}
  {
    var scan := WireCount(lines);
    var b := Populate(lines, scan.wireCnt);
    CCircuit(b.gates, b.state, scan.inputs, scan.outputs, b.signals, "", X, {})
  }
}
