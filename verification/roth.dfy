/** The five-valued Roth algebra shared by both circuit engines.

    A signal is ZERO, ONE, D (good circuit 1, faulty circuit 0), D_b (good
    circuit 0, faulty circuit 1) or X (unknown).  The binary operations are
    the constant 5x5 tables of the C++ header, indexed by the enum ordinal;
    a gate with several fan-ins folds its table from left to right.  The
    lemmas record which algebraic laws the tables obey and which they do
    not: XOR is associative and its fold ignores fan-in order, while AND and
    OR are not associative, so the value of an AND/OR gate can depend on
    the order of its fan-in list. */
module Roth {

  datatype Signal = ZERO | ONE | D | D_b | X

  /** The three binary operations that have tables. */
  datatype Op = AndOp | OrOp | XorOp

  /** The enum ordinal (`ZERO = 0` .. `X = 4`), used to index the tables. */
  function Ord(v: Signal): (n: nat)
    ensures n < 5
    ensures v == ZERO <==> n == 0
    ensures v == X <==> n == 4
  {
    match v
    case ZERO => 0
    case ONE => 1
    case D => 2
    case D_b => 3
    case X => 4
  }

  function FromOrd(n: nat): (v: Signal)
    requires n < 5
    ensures Ord(v) == n
  {
    if n == 0 then ZERO
    else if n == 1 then ONE
    else if n == 2 then D
    else if n == 3 then D_b
    else X
  }

  lemma OrdIsInjective(a: Signal, b: Signal)
    ensures Ord(a) == Ord(b) ==> a == b
    ensures FromOrd(Ord(a)) == a
  {
  }

  // ---------------------------------------------------------------------
  // The constant tables, row = left operand, column = right operand.

  const AndTable: seq<seq<Signal>> := [
    [ZERO, ZERO, ZERO, ZERO, ZERO],
    [ZERO, ONE,  D,    D_b,  X],
    [ZERO, D,    D,    ZERO, X],
    [ZERO, D_b,  ZERO, D_b,  X],
    [ZERO, X,    X,    X,    X]
  ]

  const OrTable: seq<seq<Signal>> := [
    [ZERO, ONE, D,   D_b, X],
    [ONE,  ONE, ONE, ONE, ONE],
    [D,    ONE, D,   ONE, X],
    [D_b,  ONE, ONE, D_b, X],
    [X,    ONE, X,   X,   X]
  ]

  const XorTable: seq<seq<Signal>> := [
    [ZERO, ONE,  D,    D_b,  X],
    [ONE,  ZERO, D_b,  D,    X],
    [D,    D_b,  ZERO, ONE,  X],
    [D_b,  D,    ONE,  ZERO, X],
    [X,    X,    X,    X,    X]
  ]

  const NotTable: seq<Signal> := [ONE, ZERO, D_b, D, X]

  function Not(a: Signal): Signal
  {
    NotTable[Ord(a)]
  }

  function And(a: Signal, b: Signal): Signal
  {
    AndTable[Ord(a)][Ord(b)]
  }

  function Or(a: Signal, b: Signal): Signal
  {
    OrTable[Ord(a)][Ord(b)]
  }

  function Xor(a: Signal, b: Signal): Signal
  {
    XorTable[Ord(a)][Ord(b)]
  }

  function Apply(op: Op, a: Signal, b: Signal): Signal
  {
    match op
    case AndOp => And(a, b)
    case OrOp => Or(a, b)
    case XorOp => Xor(a, b)
  }

  /** Left fold of `op` starting from `acc`: the loop
      `acc = op[acc][v]` over `rest` in list order. */
  function Fold(op: Op, acc: Signal, rest: seq<Signal>): Signal
    decreases |rest|
  {
    if |rest| == 0 then acc else Fold(op, Apply(op, acc, rest[0]), rest[1..])
  }

  /** The value of a gate of kind `op` over a non-empty fan-in list,
      seeded with the first fan-in. */
  function Combine(op: Op, vs: seq<Signal>): Signal
    requires |vs| > 0
  {
    Fold(op, vs[0], vs[1..])
  }

  /** A D or D_b value: the fault effect is visible on this line. */
  predicate IsFaultEffect(v: Signal)
  {
    v == D || v == D_b
  }

  // ---------------------------------------------------------------------
  // Inversion

  lemma NotIsInvolution(a: Signal)
    ensures Not(Not(a)) == a
    ensures Not(ZERO) == ONE && Not(ONE) == ZERO
    ensures Not(D) == D_b && Not(D_b) == D
    ensures Not(a) == a <==> a == X
  {
  }

  // ---------------------------------------------------------------------
  // Symmetry, identities, absorbing elements

  lemma TablesAreSymmetric(op: Op, a: Signal, b: Signal)
    ensures Apply(op, a, b) == Apply(op, b, a)
  {
  }

  lemma Identities(a: Signal)
    ensures And(ONE, a) == a && And(a, ONE) == a
    ensures Or(ZERO, a) == a && Or(a, ZERO) == a
    ensures Xor(ZERO, a) == a && Xor(a, ZERO) == a
  {
  }

  lemma AbsorbingElements(a: Signal)
    ensures And(ZERO, a) == ZERO && And(a, ZERO) == ZERO
    ensures Or(ONE, a) == ONE && Or(a, ONE) == ONE
    ensures Xor(X, a) == X && Xor(a, X) == X
  {
  }

  /** An X operand makes every result X except where a controlling value
      decides it, and no table produces X from determined operands. */
  lemma UnknownOnlyFromUnknown(op: Op, a: Signal, b: Signal)
    ensures Apply(op, a, b) == X ==> a == X || b == X
  {
  }

  // ---------------------------------------------------------------------
  // Associativity

  lemma XorIsAssociative(a: Signal, b: Signal, c: Signal)
    ensures Xor(Xor(a, b), c) == Xor(a, Xor(b, c))
  {
  }

  /** The counterexample to associativity of AND and of OR. */
  lemma AndOrAreNotAssociative()
    ensures And(And(D, D_b), X) == ZERO
    ensures And(D, And(D_b, X)) == X
    ensures Or(Or(D, D_b), X) == ONE
    ensures Or(D, Or(D_b, X)) == X
  {
  }

  /** Consequently the value of an AND gate depends on the order of its
      fan-in list: the same three fan-in values in two orders disagree. */
  lemma AndFoldIsOrderSensitive()
    ensures Combine(AndOp, [D, D_b, X]) == ZERO
    ensures Combine(AndOp, [X, D, D_b]) == X
    ensures Combine(OrOp, [D, D_b, X]) == ONE
    ensures Combine(OrOp, [X, D, D_b]) == X
  {
  }

  // ---------------------------------------------------------------------
  // Restriction to the Boolean values

  predicate IsBinary(v: Signal)
  {
    v == ZERO || v == ONE
  }

  function ToBool(v: Signal): bool
    requires IsBinary(v)
  {
    v == ONE
  }

  function FromBool(b: bool): (v: Signal)
    ensures IsBinary(v) && ToBool(v) == b
  {
    if b then ONE else ZERO
  }

  lemma BinaryRestrictionIsBoolean(a: Signal, b: Signal)
    requires IsBinary(a) && IsBinary(b)
    ensures And(a, b) == FromBool(ToBool(a) && ToBool(b))
    ensures Or(a, b) == FromBool(ToBool(a) || ToBool(b))
    ensures Xor(a, b) == FromBool(ToBool(a) != ToBool(b))
    ensures Not(a) == FromBool(!ToBool(a))
  {
  }

  // ---------------------------------------------------------------------
  // Folds

  /** Folding over a concatenation folds the first part, then the second. */
  lemma {:induction false} FoldAppend(op: Op, acc: Signal, s: seq<Signal>, t: seq<Signal>)
    ensures Fold(op, acc, s + t) == Fold(op, Fold(op, acc, s), t)
    decreases |s|
  {
    if |s| > 0 {
      assert (s + t)[1..] == s[1..] + t;
      FoldAppend(op, Apply(op, acc, s[0]), s[1..], t);
    } else {
      assert s + t == t;
    }
  }

  /** The XOR of a whole fan-in list, seeded with the identity. */
  function XorAll(s: seq<Signal>): Signal
  {
    Fold(XorOp, ZERO, s)
  }

  /** An XOR fold from any seed is the seed XOR the fold of the list. */
  lemma {:induction false} XorFoldFactors(acc: Signal, s: seq<Signal>)
    ensures Fold(XorOp, acc, s) == Xor(acc, XorAll(s))
    decreases |s|
  {
    if |s| > 0 {
      XorFoldFactors(Xor(acc, s[0]), s[1..]);
      XorFoldFactors(Xor(ZERO, s[0]), s[1..]);
      XorIsAssociative(acc, s[0], XorAll(s[1..]));
      Identities(s[0]);
    } else {
      Identities(acc);
    }
  }

  lemma XorAllOfSplit(p: seq<Signal>, v: Signal, q: seq<Signal>)
    ensures XorAll(p + [v] + q) == Xor(v, XorAll(p + q))
  {
    FoldAppend(XorOp, ZERO, p + [v], q);
    FoldAppend(XorOp, ZERO, p, [v]);
    FoldAppend(XorOp, ZERO, p, q);
    XorFoldFactors(Fold(XorOp, ZERO, p + [v]), q);
    XorFoldFactors(XorAll(p), q);
    var a, b := XorAll(p), XorAll(q);
    assert Fold(XorOp, a, [v]) == Xor(a, v);
    XorIsAssociative(a, v, b);
    XorIsAssociative(v, a, b);
    TablesAreSymmetric(XorOp, a, v);
  }

  /** Unlike AND and OR, an XOR (or XNOR) gate's value does not depend on
      the order of its fan-in list: any permutation gives the same fold. */
  lemma {:induction false} XorAllIsOrderFree(a: seq<Signal>, b: seq<Signal>)
    requires multiset(a) == multiset(b)
    ensures XorAll(a) == XorAll(b)
    decreases |a|
  {
    if |a| == 0 {
      assert |b| == |multiset(b)| == 0;
    } else {
      var v := a[0];
      assert v in multiset(b);
      var j :| 0 <= j < |b| && b[j] == v;
      var b' := b[..j] + b[j + 1..];
      assert b == b[..j] + [v] + b[j + 1..];
      assert a == [v] + a[1..];
      calc {
        multiset(b);
        multiset(b[..j] + [v] + b[j + 1..]);
        multiset(b[..j]) + multiset{v} + multiset(b[j + 1..]);
        multiset(b') + multiset{v};
      }
      assert multiset(a) == multiset{v} + multiset(a[1..]);
      assert multiset(a[1..]) == multiset(a) - multiset{v};
      assert multiset(b') == multiset(b) - multiset{v};
      XorAllIsOrderFree(a[1..], b');
      XorAllOfSplit(b[..j], v, b[j + 1..]);
      XorAllOfSplit([], v, a[1..]);
      assert [] + [v] + a[1..] == a;
      assert [] + a[1..] == a[1..];
    }
  }

  /** The XOR gate value itself (seeded with the first fan-in). */
  lemma XorCombineIsOrderFree(a: seq<Signal>, b: seq<Signal>)
    requires |a| > 0 && multiset(a) == multiset(b)
    ensures |b| > 0
    ensures Combine(XorOp, a) == Combine(XorOp, b)
  {
    assert |b| == |multiset(b)| == |multiset(a)| == |a|;
    XorFoldFactors(a[0], a[1..]);
    XorFoldFactors(b[0], b[1..]);
    XorAllOfSplit([], a[0], a[1..]);
    XorAllOfSplit([], b[0], b[1..]);
    assert [] + [a[0]] + a[1..] == a;
    assert [] + a[1..] == a[1..];
    assert [] + [b[0]] + b[1..] == b;
    assert [] + b[1..] == b[1..];
    XorAllIsOrderFree(a, b);
  }
}
