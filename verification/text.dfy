/** Character and string helpers shared by the line decoders of both
    engines: whitespace classes (C `isspace` and Python `str.isspace`),
    whitespace splitting, decimal rendering, prefix tests, lexicographic
    string order and sequence membership. */
module Text {

  // ---------------------------------------------------------------------
  // Membership (`vectorContains`)

  /** True iff `x` occurs in `v`; the linear search of `std::ranges::find`. */
  function Contains<T(==)>(v: seq<T>, x: T): (r: bool)
    ensures r <==> x in v
    decreases |v|
  {
    if |v| == 0 then false else v[0] == x || Contains(v[1..], x)
  }

  // ---------------------------------------------------------------------
  // Whitespace

  /** `std::isspace` in the "C" locale: space, \t, \n, \v, \f, \r. */
  predicate CIsSpace(c: char)
  {
    c == ' ' || 9 <= c as int <= 13
  }

  /** Python's `str.isspace` for a single character (the separators that
      `str.split()` with no argument splits on). */
  predicate PyIsSpace(c: char)
  {
    var n := c as int;
    (9 <= n <= 13) || (28 <= n <= 32) || n == 0x85 || n == 0xA0 || n == 0x1680
    || (0x2000 <= n <= 0x200A) || n == 0x2028 || n == 0x2029 || n == 0x202F
    || n == 0x205F || n == 0x3000
  }

  predicate AllSatisfy(p: char -> bool, s: string)
  {
    forall i :: 0 <= i < |s| ==> p(s[i])
  }

  predicate NoneSatisfy(p: char -> bool, s: string)
  {
    forall i :: 0 <= i < |s| ==> !p(s[i])
  }

  /** A token as produced by a whitespace split: non-empty, no separator. */
  predicate IsToken(isSpace: char -> bool, t: string)
  {
    |t| > 0 && NoneSatisfy(isSpace, t)
  }

  // ---------------------------------------------------------------------
  // Whitespace splitting (`std::istringstream >> token`, `str.split()`)

  /** Scan `s` left to right; `cur` is the part of a token read so far. */
  function SplitFrom(isSpace: char -> bool, s: string, cur: string): (r: seq<string>)
    requires NoneSatisfy(isSpace, cur)
    ensures forall i :: 0 <= i < |r| ==> IsToken(isSpace, r[i])
    decreases |s|
  {
    if |s| == 0 then
      (if |cur| == 0 then [] else [cur])
    else if isSpace(s[0]) then
      (if |cur| == 0 then SplitFrom(isSpace, s[1..], [])
       else [cur] + SplitFrom(isSpace, s[1..], []))
    else
      SplitFrom(isSpace, s[1..], cur + [s[0]])
  }

  /** The maximal runs of non-separator characters of `s`, in order. */
  function Split(isSpace: char -> bool, s: string): (r: seq<string>)
    ensures forall i :: 0 <= i < |r| ==> IsToken(isSpace, r[i])
  {
    SplitFrom(isSpace, s, [])
  }

  function Concat(ts: seq<string>): string
  {
    if |ts| == 0 then [] else ts[0] + Concat(ts[1..])
  }

  /** The characters of `s` that are not separators, in order. */
  function Kept(isSpace: char -> bool, s: string): string
  {
    if |s| == 0 then [] else (if isSpace(s[0]) then [] else [s[0]]) + Kept(isSpace, s[1..])
  }

  lemma ConcatAppend(a: seq<string>, b: seq<string>)
    ensures Concat(a + b) == Concat(a) + Concat(b)
  {
    if |a| > 0 {
      assert (a + b)[1..] == a[1..] + b;
      ConcatAppend(a[1..], b);
    } else {
      assert a + b == b;
    }
  }

  /** Splitting loses exactly the separators: the tokens, glued back
      together, are the non-separator characters of the line. */
  lemma {:induction false} SplitKeepsContent(isSpace: char -> bool, s: string, cur: string)
    requires NoneSatisfy(isSpace, cur)
    ensures Concat(SplitFrom(isSpace, s, cur)) == cur + Kept(isSpace, s)
    decreases |s|
  {
    if |s| == 0 {
      assert Concat([cur]) == cur + Concat([]);
    } else if isSpace(s[0]) {
      SplitKeepsContent(isSpace, s[1..], []);
      if |cur| > 0 {
        ConcatAppend([cur], SplitFrom(isSpace, s[1..], []));
        assert Concat([cur]) == cur + Concat([]);
      }
    } else {
      SplitKeepsContent(isSpace, s[1..], cur + [s[0]]);
    }
  }

  lemma {:induction false} SplitSkipsSeparators(isSpace: char -> bool, w: string, rest: string)
    requires AllSatisfy(isSpace, w)
    ensures SplitFrom(isSpace, w + rest, []) == SplitFrom(isSpace, rest, [])
    decreases |w|
  {
    if |w| > 0 {
      assert (w + rest)[0] == w[0];
      assert (w + rest)[1..] == w[1..] + rest;
      SplitSkipsSeparators(isSpace, w[1..], rest);
    } else {
      assert w + rest == rest;
    }
  }

  lemma {:induction false} SplitGathers(isSpace: char -> bool, t: string, rest: string, cur: string)
    requires NoneSatisfy(isSpace, cur) && NoneSatisfy(isSpace, t)
    ensures SplitFrom(isSpace, t + rest, cur) == SplitFrom(isSpace, rest, cur + t)
    decreases |t|
  {
    if |t| > 0 {
      assert (t + rest)[0] == t[0];
      assert (t + rest)[1..] == t[1..] + rest;
      assert cur + [t[0]] + t[1..] == cur + t;
      SplitGathers(isSpace, t[1..], rest, cur + [t[0]]);
    } else {
      assert t + rest == rest;
      assert cur + t == cur;
    }
  }

  /** A token followed by a run of separators is split off as one token. */
  lemma SplitFirstWord(isSpace: char -> bool, t: string, w: string, rest: string)
    requires IsToken(isSpace, t) && |w| > 0 && AllSatisfy(isSpace, w)
    ensures Split(isSpace, t + w + rest) == [t] + Split(isSpace, rest)
  {
    assert t + w + rest == t + (w + rest);
    SplitGathers(isSpace, t, w + rest, []);
    assert [] + t == t;
    assert (w + rest)[0] == w[0];
    assert (w + rest)[1..] == w[1..] + rest;
    SplitSkipsSeparators(isSpace, w[1..], rest);
  }

  lemma SplitLastWord(isSpace: char -> bool, t: string)
    requires IsToken(isSpace, t)
    ensures Split(isSpace, t) == [t]
  {
    SplitGathers(isSpace, t, [], []);
    assert t + [] == t;
    assert [] + t == t;
  }

  /** Tokens joined by a separator string. */
  function JoinWith(ts: seq<string>, sep: string): string
  {
    if |ts| == 0 then []
    else if |ts| == 1 then ts[0]
    else ts[0] + sep + JoinWith(ts[1..], sep)
  }

  /** Round trip: splitting tokens joined by separators gives them back. */
  lemma {:induction false} SplitJoin(isSpace: char -> bool, ts: seq<string>, sep: string)
    requires forall i :: 0 <= i < |ts| ==> IsToken(isSpace, ts[i])
    requires |sep| > 0 && AllSatisfy(isSpace, sep)
    ensures Split(isSpace, JoinWith(ts, sep)) == ts
    decreases |ts|
  {
    if |ts| == 1 {
      SplitLastWord(isSpace, ts[0]);
    } else if |ts| > 1 {
      SplitFirstWord(isSpace, ts[0], sep, JoinWith(ts[1..], sep));
      SplitJoin(isSpace, ts[1..], sep);
      assert [ts[0]] + ts[1..] == ts;
    }
  }

  // ---------------------------------------------------------------------
  // Prefixes

  predicate StartsWith(s: string, p: string)
  {
    |p| <= |s| && s[..|p|] == p
  }

  lemma StartsWithAppend(p: string, rest: string)
    ensures StartsWith(p + rest, p)
  {
    assert (p + rest)[..|p|] == p;
  }

  // ---------------------------------------------------------------------
  // Decimal numbers

  predicate IsDigit(c: char)
  {
    '0' <= c <= '9'
  }

  function DigitChar(d: nat): (c: char)
    requires d < 10
    ensures IsDigit(c)
  {
    ('0' as int + d) as char
  }

  function DigitValue(c: char): (d: nat)
    requires IsDigit(c)
    ensures d < 10
  {
    c as int - '0' as int
  }

  /** `std::to_string` / Python `str` of a non-negative integer. */
  function NatToString(n: nat): (s: string)
    ensures |s| > 0
    ensures forall i :: 0 <= i < |s| ==> IsDigit(s[i])
    decreases n
  {
    if n < 10 then [DigitChar(n)] else NatToString(n / 10) + [DigitChar(n % 10)]
  }

  /** The value of a decimal digit string. */
  function DigitsValue(s: string): nat
    requires forall i :: 0 <= i < |s| ==> IsDigit(s[i])
    decreases |s|
  {
    if |s| == 0 then 0 else DigitsValue(s[..|s| - 1]) * 10 + DigitValue(s[|s| - 1])
  }

  lemma {:induction false} NatToStringRoundTrip(n: nat)
    ensures DigitsValue(NatToString(n)) == n
    decreases n
  {
    var s := NatToString(n);
    if n >= 10 {
      NatToStringRoundTrip(n / 10);
      assert s[..|s| - 1] == NatToString(n / 10);
    }
  }

  lemma NatToStringIsInjective(a: nat, b: nat)
    ensures NatToString(a) == NatToString(b) ==> a == b
  {
    NatToStringRoundTrip(a);
    NatToStringRoundTrip(b);
  }

  // ---------------------------------------------------------------------
  // Lexicographic order (`std::set<std::string>`, Python `sorted`)

  predicate StrLess(a: string, b: string)
    decreases |a|
  {
    |b| > 0 && (|a| == 0 || a[0] < b[0] || (a[0] == b[0] && StrLess(a[1..], b[1..])))
  }

  lemma {:induction false} StrLessIrreflexive(a: string)
    ensures !StrLess(a, a)
    decreases |a|
  {
    if |a| > 0 {
      StrLessIrreflexive(a[1..]);
    }
  }

  lemma {:induction false} StrLessTransitive(a: string, b: string, c: string)
    requires StrLess(a, b) && StrLess(b, c)
    ensures StrLess(a, c)
    decreases |a|
  {
    if |a| > 0 && a[0] == b[0] && b[0] == c[0] {
      StrLessTransitive(a[1..], b[1..], c[1..]);
    }
  }

  lemma {:induction false} StrLessTotal(a: string, b: string)
    requires a != b
    ensures StrLess(a, b) || StrLess(b, a)
    decreases |a|
  {
    if |a| > 0 && |b| > 0 && a[0] == b[0] {
      assert a == [a[0]] + a[1..] && b == [b[0]] + b[1..];
      StrLessTotal(a[1..], b[1..]);
    }
  }

  lemma StrLessAsymmetric(a: string, b: string)
    requires StrLess(a, b)
    ensures !StrLess(b, a)
  {
    if StrLess(b, a) {
      StrLessTransitive(a, b, a);
      StrLessIrreflexive(a);
    }
  }

  // Sizes of sets of names

  lemma SubsetSize(a: set<string>, b: set<string>)
    requires a <= b
    ensures |a| <= |b|
  {
    assert b == a + (b - a);
  }

  lemma StrictSubsetSize(a: set<string>, b: set<string>)
    requires a < b
    ensures |a| < |b|
  {
    assert b - a != {};
    assert b == a + (b - a);
  }
}
