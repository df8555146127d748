/** Per-line decoding of the Python command stream (`read_commands`) and
    test-set stream (`read_testset`).  The file loops themselves are not
    modelled: each function takes one line as the file iterator yields it
    (trailing newline included). */
module PyStreams {
  import opened Roth
  import opened Text
  import opened Wrappers
  import opened PyEngine
  import opened PyFaults

  // ---------------------------------------------------------------------
  // `re.split(r'[\(,\)]', line)`

  predicate IsCommandSep(c: char)
  {
    c == '(' || c == ',' || c == ')'
  }

  predicate NoCommandSep(s: string)
  {
    forall i :: 0 <= i < |s| ==> !IsCommandSep(s[i])
  }

  /** Split at every separator, keeping empty fields; `cur` is the field
      read so far. */
  function FieldsFrom(s: string, cur: string): (r: seq<string>)
    requires NoCommandSep(cur)
    ensures |r| > 0
    ensures forall i :: 0 <= i < |r| ==> NoCommandSep(r[i])
    decreases |s|
  {
    if |s| == 0 then [cur]
    else if IsCommandSep(s[0]) then [cur] + FieldsFrom(s[1..], [])
    else FieldsFrom(s[1..], cur + [s[0]])
  }

  function Fields(s: string): (r: seq<string>)
    ensures |r| > 0
  {
    FieldsFrom(s, [])
  }

  function CountSeps(s: string): nat
  {
    if |s| == 0 then 0 else (if IsCommandSep(s[0]) then 1 else 0) + CountSeps(s[1..])
  }

  /** There is one more field than there are separators. */
  lemma {:induction false} FieldsCount(s: string, cur: string)
    requires NoCommandSep(cur)
    ensures |FieldsFrom(s, cur)| == CountSeps(s) + 1
    decreases |s|
  {
    if |s| > 0 {
      if IsCommandSep(s[0]) {
        FieldsCount(s[1..], []);
      } else {
        FieldsCount(s[1..], cur + [s[0]]);
      }
    }
  }

  /** A separator-free run followed by a separator closes the field. */
  lemma {:induction false} FieldsGather(t: string, sep: char, rest: string, cur: string)
    requires NoCommandSep(cur) && NoCommandSep(t) && IsCommandSep(sep)
    ensures FieldsFrom(t + [sep] + rest, cur) == [cur + t] + FieldsFrom(rest, [])
    decreases |t|
  {
    if |t| == 0 {
      assert t + [sep] + rest == [sep] + rest;
      assert ([sep] + rest)[1..] == rest;
      assert cur + t == cur;
    } else {
      assert (t + [sep] + rest)[0] == t[0];
      assert (t + [sep] + rest)[1..] == t[1..] + [sep] + rest;
      assert cur + [t[0]] + t[1..] == cur + t;
      FieldsGather(t[1..], sep, rest, cur + [t[0]]);
    }
  }

  // ---------------------------------------------------------------------
  // Python `int(s)` and `Roth(n)`

  /** `s` with leading and trailing whitespace removed. */
  function Strip(s: string): (r: string)
    ensures |r| <= |s|
    decreases |s|
  {
    if |s| > 0 && PyIsSpace(s[0]) then Strip(s[1..])
    else if |s| > 0 && PyIsSpace(s[|s| - 1]) then Strip(s[..|s| - 1])
    else s
  }

  lemma StripDigits(s: string)
    requires forall i :: 0 <= i < |s| ==> IsDigit(s[i])
    ensures Strip(s) == s
  {
  }

  predicate AllDigits(s: string)
  {
    forall i :: 0 <= i < |s| ==> IsDigit(s[i])
  }

  /** `int(s)` for ASCII decimal literals: surrounding whitespace, an
      optional sign, then at least one digit. */
  function PyInt(s: string): (r: Result<int>)
    ensures r.Ok? && AllDigits(s) && |s| > 0 ==> r.value == DigitsValue(s)
  {
    var t := Strip(s);
    if |t| > 0 && (t[0] == '+' || t[0] == '-') && |t| > 1 && AllDigits(t[1..]) then
      Ok(if t[0] == '-' then 0 - DigitsValue(t[1..]) as int else DigitsValue(t[1..]) as int)
    else if |t| > 0 && AllDigits(t) then
      Ok(DigitsValue(t))
    else Err(BadLiteral)
  }

  /** `Roth(n)`: the member whose value is `n`. */
  function RothOf(n: int): (r: Result<Signal>)
    ensures r.Ok? <==> 0 <= n < 5
    ensures r.Ok? ==> Ord(r.value) == n
  {
    if 0 <= n < 5 then Ok(FromOrd(n)) else Err(BadLiteral)
  }

  // ---------------------------------------------------------------------
  // Commands

  datatype Command =
    | FaultSite(gate: string, value: Signal)
    | Imply(gate: string, value: Signal)
    | DFrontier
    | JFrontier
    | XPath
    | DisplayLines

  /** `(cmd, parts[1], Roth(int(parts[2])))`. */
  function SiteArgs(line: string): (r: Result<(string, Signal)>)
  {
    var parts := Fields(line);
    if |parts| < 3 then Err(ListIndex)
    else
      match PyInt(parts[2])
      case Err(e) => Err(e)
      case Ok(n) =>
        match RothOf(n)
        case Err(e) => Err(e)
        case Ok(v) => Ok((parts[1], v))
  }

  /** The tuples one line of a command file yields, in order; the first
      exception ends the stream. */
  function DecodeCommandLine(line: string): (r: Result<seq<Command>>)
    ensures StartsWith(line, "#") ==> r == Ok([])
    ensures r.Ok? && |r.value| > 0 ==> !StartsWith(line, "#")
  {
    if StartsWith(line, "#") then Ok([])
    else
      var site :=
        if StartsWith(line, "fault_site") then
          (match SiteArgs(line) case Ok(a) => Ok([FaultSite(a.0, a.1)]) case Err(e) => Err(e))
        else Ok([]);
      match site
      case Err(e) => Err(e)
      case Ok(s1) =>
        var imply :=
          if StartsWith(line, "imply") then
            (match SiteArgs(line) case Ok(a) => Ok([Imply(a.0, a.1)]) case Err(e) => Err(e))
          else Ok([]);
        match imply
        case Err(e) => Err(e)
        case Ok(s2) =>
          Ok(s1 + s2
             + (if StartsWith(line, "D_frontier") then [DFrontier] else [])
             + (if StartsWith(line, "J_frontier") then [JFrontier] else [])
             + (if StartsWith(line, "x-path") then [XPath] else [])
             + (if StartsWith(line, "display_lines") then [DisplayLines] else []))
  }

  /** A line that starts with a keyword starts with its first character. */
  lemma FirstChar(line: string, k: string)
    ensures |k| > 0 && StartsWith(line, k) ==> |line| > 0 && line[0] == k[0]
  {
    if |k| > 0 && StartsWith(line, k) {
      assert line[..|k|][0] == line[0];
    }
  }

  lemma KeywordChars(line: string)
    ensures StartsWith(line, "fault_site") ==> |line| > 0 && line[0] == 'f'
    ensures StartsWith(line, "imply") ==> |line| > 0 && line[0] == 'i'
    ensures StartsWith(line, "D_frontier") ==> |line| > 0 && line[0] == 'D'
    ensures StartsWith(line, "J_frontier") ==> |line| > 0 && line[0] == 'J'
    ensures StartsWith(line, "x-path") ==> |line| > 0 && line[0] == 'x'
    ensures StartsWith(line, "display_lines") ==> |line| > 0 && line[0] == 'd'
    ensures StartsWith(line, "#") ==> |line| > 0 && line[0] == '#'
  {
    FirstChar(line, "fault_site");
    FirstChar(line, "imply");
    FirstChar(line, "D_frontier");
    FirstChar(line, "J_frontier");
    FirstChar(line, "x-path");
    FirstChar(line, "display_lines");
    FirstChar(line, "#");
  }

  /** The keywords are mutually exclusive (their first characters differ),
      so a line yields at most one command, and a line matching no keyword
      yields none. */
  lemma AtMostOneCommand(line: string)
    ensures DecodeCommandLine(line).Ok? ==> |DecodeCommandLine(line).value| <= 1
    ensures (!StartsWith(line, "fault_site") && !StartsWith(line, "imply") && !StartsWith(line, "D_frontier")
             && !StartsWith(line, "J_frontier") && !StartsWith(line, "x-path") && !StartsWith(line, "display_lines"))
            ==> DecodeCommandLine(line) == Ok([])
  {
    KeywordChars(line);
  }

  /** The keyword a command is written with. */
  function Keyword(c: Command): string
  {
    match c
    case FaultSite(_, _) => "fault_site"
    case Imply(_, _) => "imply"
    case DFrontier => "D_frontier"
    case JFrontier => "J_frontier"
    case XPath => "x-path"
    case DisplayLines => "display_lines"
  }

  /** The command file text of a command (before the line's tail). */
  function EncodeCommand(c: Command): string
  {
    match c
    case FaultSite(g, v) => Keyword(c) + "(" + g + "," + ValueDigit(v) + ")"
    case Imply(g, v) => Keyword(c) + "(" + g + "," + ValueDigit(v) + ")"
    case _ => Keyword(c)
  }

  /** Round trip: an encoded command, followed by anything (a newline, a
      comment), decodes to exactly that command, provided the gate name
      contains none of the separators `(`, `,`, `)`. */
  lemma CommandRoundTrip(c: Command, tail: string)
    requires (c.FaultSite? || c.Imply?) ==> NoCommandSep(c.gate)
    ensures DecodeCommandLine(EncodeCommand(c) + tail) == Ok([c])
  {
    if c.FaultSite? || c.Imply? {
      SiteCommandRoundTrip(c, tail);
    } else {
      FlagCommandRoundTrip(c, tail);
    }
  }

  lemma SiteCommandRoundTrip(c: Command, tail: string)
    requires (c.FaultSite? || c.Imply?) && NoCommandSep(c.gate)
    ensures DecodeCommandLine(EncodeCommand(c) + tail) == Ok([c])
  {
    var line := EncodeCommand(c) + tail;
    var k := Keyword(c);
    var rest := "(" + c.gate + "," + ValueDigit(c.value) + ")" + tail;
    assert line == k + rest;
    SiteArgsOfEncoded(k, c.gate, c.value, tail);
    StartsWithAppend(k, rest);
    if c.FaultSite? {
      DecodeSiteLine(line);
    } else {
      DecodeImplyLine(line);
    }
  }

  lemma FlagCommandRoundTrip(c: Command, tail: string)
    requires !c.FaultSite? && !c.Imply?
    ensures DecodeCommandLine(EncodeCommand(c) + tail) == Ok([c])
  {
    var line := EncodeCommand(c) + tail;
    var k := Keyword(c);
    assert line == k + tail;
    StartsWithAppend(k, tail);
    KeywordChars(line);
    FirstChar(line, k);
    assert !StartsWith(line, "#") && !StartsWith(line, "fault_site") && !StartsWith(line, "imply");
    assert StartsWith(line, "D_frontier") <==> c.DFrontier?;
    assert StartsWith(line, "J_frontier") <==> c.JFrontier?;
    assert StartsWith(line, "x-path") <==> c.XPath?;
    assert StartsWith(line, "display_lines") <==> c.DisplayLines?;
    DecodeBareLine(line);
    assert [] + (if c.DFrontier? then [DFrontier] else []) + (if c.JFrontier? then [JFrontier] else [])
      + (if c.XPath? then [XPath] else []) + (if c.DisplayLines? then [DisplayLines] else []) == [c];
  }

  /** A line with no comment marker and no site keyword yields the flag
      commands whose keywords it starts with. */
  lemma DecodeBareLine(line: string)
    requires !StartsWith(line, "#") && !StartsWith(line, "fault_site") && !StartsWith(line, "imply")
    ensures DecodeCommandLine(line) ==
      Ok([] + (if StartsWith(line, "D_frontier") then [DFrontier] else [])
            + (if StartsWith(line, "J_frontier") then [JFrontier] else [])
            + (if StartsWith(line, "x-path") then [XPath] else [])
            + (if StartsWith(line, "display_lines") then [DisplayLines] else []))
  {
    var none: seq<Command> := [];
    assert none + none == none;
  }

  /** A `fault_site` line yields the site command, or the error of its
      arguments. */
  lemma DecodeSiteLine(line: string)
    requires StartsWith(line, "fault_site")
    ensures SiteArgs(line).Ok? ==>
      DecodeCommandLine(line) == Ok([FaultSite(SiteArgs(line).value.0, SiteArgs(line).value.1)])
    ensures SiteArgs(line).Err? ==> DecodeCommandLine(line) == Err(SiteArgs(line).error)
  {
    KeywordChars(line);
    assert !StartsWith(line, "#") && !StartsWith(line, "imply");
    assert !StartsWith(line, "D_frontier") && !StartsWith(line, "J_frontier");
    assert !StartsWith(line, "x-path") && !StartsWith(line, "display_lines");
    if SiteArgs(line).Ok? {
      var a := SiteArgs(line).value;
      assert [FaultSite(a.0, a.1)] + [] + [] + [] + [] + [] == [FaultSite(a.0, a.1)];
    }
  }

  /** An `imply` line yields the implication command, or the error of its
      arguments. */
  lemma DecodeImplyLine(line: string)
    requires StartsWith(line, "imply")
    ensures SiteArgs(line).Ok? ==>
      DecodeCommandLine(line) == Ok([Imply(SiteArgs(line).value.0, SiteArgs(line).value.1)])
    ensures SiteArgs(line).Err? ==> DecodeCommandLine(line) == Err(SiteArgs(line).error)
  {
    KeywordChars(line);
    assert !StartsWith(line, "#") && !StartsWith(line, "fault_site");
    assert !StartsWith(line, "D_frontier") && !StartsWith(line, "J_frontier");
    assert !StartsWith(line, "x-path") && !StartsWith(line, "display_lines");
    if SiteArgs(line).Ok? {
      var a := SiteArgs(line).value;
      assert [] + [Imply(a.0, a.1)] + [] + [] + [] + [] == [Imply(a.0, a.1)];
    }
  }

  /** The arguments of an encoded `keyword(gate,digit)` line. */
  lemma SiteArgsOfEncoded(k: string, g: string, v: Signal, tail: string)
    requires NoCommandSep(k) && NoCommandSep(g)
    ensures SiteArgs(k + "(" + g + "," + ValueDigit(v) + ")" + tail) == Ok((g, v))
  {
    var d := ValueDigit(v);
    var line := k + "(" + g + "," + d + ")" + tail;
    assert Fields(line) == [k, g, d] + FieldsFrom(tail, []) by {
      assert line == k + ['('] + (g + [','] + (d + [')'] + tail));
      FieldsGather(k, '(', g + [','] + (d + [')'] + tail), []);
      assert g + [','] + (d + [')'] + tail) == g + [','] + (d + [')'] + tail);
      FieldsGather(g, ',', d + [')'] + tail, []);
      FieldsGather(d, ')', tail, []);
      assert [] + k == k && [] + g == g && [] + d == d;
    }
    SingleCharInt(d[0]);
    assert d == [d[0]];
    OrdIsInjective(v, FromOrd(Ord(v)));
  }

  // ---------------------------------------------------------------------
  // Test set

  /** `int(c)` of one character succeeds exactly on a digit. */
  lemma SingleCharInt(c: char)
    ensures IsDigit(c) ==> PyInt([c]) == Ok(DigitValue(c) as int)
    ensures !IsDigit(c) ==> PyInt([c]).Err?
  {
    if PyIsSpace(c) {
      assert Strip([c]) == Strip([]);
    } else {
      assert Strip([c]) == [c];
    }
    if IsDigit(c) {
      assert DigitsValue([c]) == DigitsValue([]) * 10 + DigitValue(c);
    }
  }

  /** One character of the input column: `x`/`X` is X, anything else is
      `Roth(int(c))`. */
  function DecodeTestChar(c: char): (r: Result<Signal>)
    ensures r.Ok? <==> c == 'x' || c == 'X' || (IsDigit(c) && DigitValue(c) < 5)
    ensures (c == 'x' || c == 'X') ==> r == Ok(X)
    ensures IsDigit(c) && DigitValue(c) < 5 ==> r.Ok? && Ord(r.value) == DigitValue(c)
  {
    if c == 'x' || c == 'X' then Ok(X)
    else
      SingleCharInt(c);
      match PyInt([c])
      case Err(e) => Err(e)
      case Ok(n) => RothOf(n)
  }

  function DecodeVector(s: string): (r: Result<seq<Signal>>)
    ensures r.Ok? ==> |r.value| == |s|
    ensures r.Ok? ==> forall i :: 0 <= i < |s| ==> DecodeTestChar(s[i]) == Ok(r.value[i])
    ensures r.Ok? <==> forall i :: 0 <= i < |s| ==> DecodeTestChar(s[i]).Ok?
    decreases |s|
  {
    if |s| == 0 then Ok([])
    else
      match DecodeTestChar(s[0])
      case Err(e) => Err(e)
      case Ok(v) =>
        match DecodeVector(s[1..])
        case Err(e) => Err(e)
        case Ok(vs) => Ok([v] + vs)
  }

  /** One line of a test-set file: `None` when the line does not split into
      exactly three whitespace-separated fields (it is skipped); otherwise
      the decoded input column.  The test number and the output column are
      not read. */
  function DecodeTestLine(line: string): (r: Result<Option<seq<Signal>>>)
    ensures |Split(PyIsSpace, line)| != 3 <==> r == Ok(None)
    ensures |Split(PyIsSpace, line)| == 3 ==> r.Ok? ==> r.value.Some? && |r.value.value| == |Split(PyIsSpace, line)[1]|
  {
    var tokens := Split(PyIsSpace, line);
    if |tokens| != 3 then Ok(None)
    else
      match DecodeVector(tokens[1])
      case Err(e) => Err(e)
      case Ok(vs) => Ok(Some(vs))
  }

  /** The character a value is written with in the input column. */
  function TestChar(v: Signal): char
  {
    if v == X then 'X' else DigitChar(Ord(v))
  }

  function EncodeVector(vs: seq<Signal>): (s: string)
    ensures |s| == |vs| && forall i :: 0 <= i < |vs| ==> s[i] == TestChar(vs[i])
  {
    seq(|vs|, i requires 0 <= i < |vs| => TestChar(vs[i]))
  }

  lemma {:induction false} SplitTrailing(t: string, w: string)
    requires IsToken(PyIsSpace, t) && AllSatisfy(PyIsSpace, w)
    ensures Split(PyIsSpace, t + w) == [t]
  {
    if |w| == 0 {
      assert t + w == t;
      SplitLastWord(PyIsSpace, t);
    } else {
      SplitFirstWord(PyIsSpace, t, w, []);
      assert t + w + [] == t + w;
    }
  }

  /** Round trip: a test line `number vector output` followed by a newline
      decodes to the vector, whatever the output column holds.  An empty
      vector cannot round-trip: the line would have only two fields. */
  lemma TestLineRoundTrip(n: nat, vs: seq<Signal>, out: string)
    requires |vs| > 0 && IsToken(PyIsSpace, out)
    ensures DecodeTestLine(NatToString(n) + " " + EncodeVector(vs) + " " + out + "\n") == Ok(Some(vs))
  {
    var num := NatToString(n);
    var vec := EncodeVector(vs);
    assert IsToken(PyIsSpace, num);
    assert IsToken(PyIsSpace, vec) by {
      forall i | 0 <= i < |vec| ensures !PyIsSpace(vec[i]) {
        assert vec[i] == TestChar(vs[i]);
      }
    }
    var line := num + " " + vec + " " + out + "\n";
    assert line == num + " " + (vec + " " + (out + "\n"));
    SplitFirstWord(PyIsSpace, num, " ", vec + " " + (out + "\n"));
    SplitFirstWord(PyIsSpace, vec, " ", out + "\n");
    SplitTrailing(out, "\n");
    assert Split(PyIsSpace, line) == [num, vec, out];
    forall i | 0 <= i < |vec| ensures DecodeTestChar(vec[i]) == Ok(vs[i]) {
      OrdIsInjective(vs[i], FromOrd(Ord(vs[i])));
    }
    assert DecodeVector(vec).Ok?;
    assert DecodeVector(vec).value == vs;
  }

  /** The line of an invalid vector character raises rather than being
      skipped. */
  lemma BadTestCharRaises(n: nat, pre: string, c: char, post: string, out: string)
    requires IsToken(PyIsSpace, out) && !PyIsSpace(c)
    requires NoneSatisfy(PyIsSpace, pre) && NoneSatisfy(PyIsSpace, post)
    requires !(c == 'x' || c == 'X' || (IsDigit(c) && DigitValue(c) < 5))
    ensures DecodeTestLine(NatToString(n) + " " + (pre + [c] + post) + " " + out + "\n").Err?
  {
    var num := NatToString(n);
    var vec := pre + [c] + post;
    assert IsToken(PyIsSpace, num);
    assert IsToken(PyIsSpace, vec);
    var line := num + " " + vec + " " + out + "\n";
    assert line == num + " " + (vec + " " + (out + "\n"));
    SplitFirstWord(PyIsSpace, num, " ", vec + " " + (out + "\n"));
    SplitFirstWord(PyIsSpace, vec, " ", out + "\n");
    SplitTrailing(out, "\n");
    assert vec[|pre|] == c;
  }
}
