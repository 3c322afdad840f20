/**
 Arithmetic of the witness share field: GF(2)[x] modulo x^8 + x^4 + x^3 + x + 1,
 the field of section 4.2 of FIPS 197.

 A byte is its eight bits, least significant first, so that XOR, shifts and the
 reduction are equations about one bit position at a time.
 */
module Gf256 {
  import opened Common

  type Byte = bits: seq<bool> | |bits| == 8
    witness [false, false, false, false, false, false, false, false]

  const ZERO: Byte := [false, false, false, false, false, false, false, false]
  const ONE: Byte := [true, false, false, false, false, false, false, false]
  /** 0x1B */
  const REDUCTION: Byte := [true, true, false, true, true, false, false, false]

  function Xor(x: Byte, y: Byte): (z: Byte) {
    seq(8, i requires 0 <= i < 8 => x[i] != y[i])
  }

  /** (x << 1) & 0xFF */
  function Shl(x: Byte): (z: Byte) {
    seq(8, i requires 0 <= i < 8 => i != 0 && x[i - 1])
  }

  /** x >> 1 */
  function Shr(x: Byte): (z: Byte) {
    seq(8, i requires 0 <= i < 8 => i != 7 && x[i + 1])
  }

  /** x when c holds, zero otherwise. */
  function Keep(c: bool, x: Byte): (z: Byte) {
    seq(8, i requires 0 <= i < 8 => c && x[i])
  }

  /** Multiplication by the field element x: shift, then reduce when the top bit falls out. */
  function Xtime(a: Byte): (z: Byte) {
    seq(8, i requires 0 <= i < 8 =>
      (i != 0 && a[i - 1]) != (a[7] && (i == 0 || i == 1 || i == 3 || i == 4)))
  }

  /** The sum of the first n partial products of a by b. */
  function MulSteps(a: Byte, b: Byte, n: nat): (z: Byte)
    decreases n
  {
    if n == 0 then ZERO else Xor(Keep(b[0], a), MulSteps(Xtime(a), Shr(b), n - 1))
  }

  function Mul(a: Byte, b: Byte): (z: Byte) {
    MulSteps(a, b, |b|)
  }

  /** Repeated multiplication. */
  function Pow(a: Byte, n: nat): (z: Byte) {
    if n == 0 then ONE else Mul(a, Pow(a, n - 1))
  }

  // ----- bytes as the integers 0..255: & 1, & 0x80, << 1 & 0xFF and >> 1 -----

  function TwoTo(n: nat): (z: nat)
    ensures z > 0
  {
    if n == 0 then 1 else 2 * TwoTo(n - 1)
  }

  function Value(bits: seq<bool>): (n: nat) {
    if bits == [] then 0 else (if bits[0] then 1 else 0) + 2 * Value(bits[1..])
  }

  lemma {:induction false} ValueAppend(bits: seq<bool>, top: bool)
    ensures Value(bits) < TwoTo(|bits|)
    ensures Value(bits + [top]) == Value(bits) + if top then TwoTo(|bits|) else 0
  {
    if bits == [] {
    } else {
      ValueAppend(bits[1..], top);
      assert (bits + [top])[1..] == bits[1..] + [top];
    }
  }

  lemma ShrIsHalf(b: Byte)
    ensures Value(Shr(b)) == Value(b) / 2
    ensures b[0] <==> Value(b) % 2 == 1
  {
    assert Shr(b) == b[1..] + [false];
    ValueAppend(b[1..], false);
  }

  lemma ShlIsDouble(b: Byte)
    ensures Value(b) < 256
    ensures b[7] <==> Value(b) >= 0x80
    ensures Value(Shl(b)) == (2 * Value(b)) % 256
  {
    hide Shl;
    var low := b[..7];
    assert b == low + [b[7]];
    assert TwoTo(|low|) == 128;
    ValueAppend(low, b[7]);
    ShlDropsTop(b);
    assert Value([false] + low) == 2 * Value(low) by {
      assert ([false] + low)[1..] == low;
    }
  }

  lemma ShlDropsTop(b: Byte)
    ensures Shl(b) == [false] + b[..7]
  {}

  /** The bytes the runner writes as 0, 1 and 0x1B. */
  lemma Constants()
    ensures Value(ZERO) == 0 && Value(ONE) == 1 && Value(REDUCTION) == 0x1B
  {
    var none: seq<bool> := [false, false, false];
    assert Value(none) == 0 by { assert none[1..] == [false, false] && [false, false][1..] == [false]; }
    assert ZERO == [false, false, false, false, false] + none;
    assert ONE[1..] == ZERO[1..];
    assert REDUCTION[1..][1..][1..][1..][1..] == none;
    assert ZERO[1..][1..][1..][1..][1..] == none;
  }

  // ----- one-bit facts -----

  lemma ReduceIsXtime(x: Byte)
    ensures Xtime(x) == if x[7] then Xor(Shl(x), REDUCTION) else Shl(x)
  {}

  lemma XtimeXor(a: Byte, b: Byte)
    ensures Xtime(Xor(a, b)) == Xor(Xtime(a), Xtime(b))
  {}

  lemma ShrXor(a: Byte, b: Byte)
    ensures Shr(Xor(a, b)) == Xor(Shr(a), Shr(b))
  {}

  lemma KeepXor(c: bool, a: Byte, b: Byte)
    ensures Keep(c, Xor(a, b)) == Xor(Keep(c, a), Keep(c, b))
  {}

  lemma KeepSplit(c: bool, d: bool, a: Byte)
    ensures Keep(c != d, a) == Xor(Keep(c, a), Keep(d, a))
  {}

  lemma KeepXtime(c: bool, a: Byte)
    ensures Keep(c, Xtime(a)) == Xtime(Keep(c, a))
  {}

  lemma KeepCases(c: bool, a: Byte)
    ensures Keep(c, a) == if c then a else ZERO
  {}

  lemma XorLaws(a: Byte, b: Byte, c: Byte)
    ensures Xor(a, b) == Xor(b, a)
    ensures Xor(Xor(a, b), c) == Xor(a, Xor(b, c))
    ensures Xor(a, a) == ZERO
    ensures Xor(a, ZERO) == a
  {}

  lemma XorSwap(a: Byte, b: Byte, c: Byte, d: Byte)
    ensures Xor(Xor(a, b), Xor(c, d)) == Xor(Xor(a, c), Xor(b, d))
  {}

  lemma XorCancel(a: Byte, b: Byte, c: Byte)
    ensures Xor(Xor(a, b), Xor(b, c)) == Xor(a, c)
  {}

  /** Every byte is its low bit plus x times the rest. */
  lemma Horner(b: Byte)
    ensures b == Xor(Keep(b[0], ONE), Xtime(Shr(b)))
  {}

  // ----- multiplication is bilinear and commutes with Xtime -----

  lemma {:induction false} StepsXtime(a: Byte, b: Byte, n: nat)
    ensures MulSteps(Xtime(a), b, n) == Xtime(MulSteps(a, b, n))
    decreases n
  {
    if n != 0 {
      StepsXtime(Xtime(a), Shr(b), n - 1);
      KeepXtime(b[0], a);
      XtimeXor(Keep(b[0], a), MulSteps(Xtime(a), Shr(b), n - 1));
    }
  }

  lemma {:induction false} StepsXorRight(a: Byte, b: Byte, c: Byte, n: nat)
    ensures MulSteps(a, Xor(b, c), n) == Xor(MulSteps(a, b, n), MulSteps(a, c, n))
    decreases n
  {
    if n != 0 {
      ShrXor(b, c);
      StepsXorRight(Xtime(a), Shr(b), Shr(c), n - 1);
      KeepSplit(b[0], c[0], a);
      XorSwap(Keep(b[0], a), Keep(c[0], a),
              MulSteps(Xtime(a), Shr(b), n - 1), MulSteps(Xtime(a), Shr(c), n - 1));
    }
  }

  lemma {:induction false} StepsXorLeft(a: Byte, b: Byte, c: Byte, n: nat)
    ensures MulSteps(Xor(a, b), c, n) == Xor(MulSteps(a, c, n), MulSteps(b, c, n))
    decreases n
  {
    if n != 0 {
      XtimeXor(a, b);
      StepsXorLeft(Xtime(a), Xtime(b), Shr(c), n - 1);
      KeepXor(c[0], a, b);
      XorSwap(Keep(c[0], a), Keep(c[0], b),
              MulSteps(Xtime(a), Shr(c), n - 1), MulSteps(Xtime(b), Shr(c), n - 1));
    }
  }

  lemma MulXtimeLeft(a: Byte, b: Byte)
    ensures Mul(Xtime(a), b) == Xtime(Mul(a, b))
  {
    StepsXtime(a, b, |b|);
  }

  lemma MulXorRight(a: Byte, b: Byte, c: Byte)
    ensures Mul(a, Xor(b, c)) == Xor(Mul(a, b), Mul(a, c))
  {
    StepsXorRight(a, b, c, |b|);
  }

  lemma MulXorLeft(a: Byte, b: Byte, c: Byte)
    ensures Mul(Xor(a, b), c) == Xor(Mul(a, c), Mul(b, c))
  {
    StepsXorLeft(a, b, c, |c|);
  }

  lemma ZeroShifts()
    ensures Shr(ZERO) == ZERO && Xtime(ZERO) == ZERO
  {}

  lemma {:induction false} StepsZero(a: Byte, n: nat)
    ensures MulSteps(a, ZERO, n) == ZERO && MulSteps(ZERO, a, n) == ZERO
    decreases n
  {
    hide Xor, Keep, Shr, Xtime;
    if n != 0 {
      ZeroShifts();
      XorLaws(ZERO, ZERO, ZERO);
      KeepCases(ZERO[0], a);
      KeepCases(a[0], ZERO);
      StepsZero(Xtime(a), n - 1);
      StepsZero(Shr(a), n - 1);
    }
  }

  lemma MulZero(a: Byte)
    ensures Mul(a, ZERO) == ZERO && Mul(ZERO, a) == ZERO
  {
    StepsZero(a, |a|);
  }

  // ----- one Horner step on either operand -----

  predicate Fits(b: Byte, n: nat) {
    n <= 8 && forall i :: n <= i < 8 ==> !b[i]
  }

  lemma {:induction false} StepsExtra(a: Byte, b: Byte, n: nat)
    requires Fits(b, n)
    ensures MulSteps(a, b, n + 1) == MulSteps(a, b, n)
    decreases n
  {
    if n == 0 {
      KeepCases(b[0], a);
      assert MulSteps(Xtime(a), Shr(b), 0) == ZERO;
      XorLaws(ZERO, ZERO, ZERO);
    } else {
      StepsExtra(Xtime(a), Shr(b), n - 1);
    }
  }

  lemma MulHornerRight(a: Byte, b: Byte)
    ensures Mul(a, b) == Xor(Keep(b[0], a), Xtime(Mul(a, Shr(b))))
  {
    StepsXtime(a, Shr(b), 7);
    StepsExtra(a, Shr(b), 7);
  }

  lemma {:induction false} OneTimes(b: Byte, n: nat)
    requires Fits(b, n)
    ensures Mul(ONE, b) == b
    decreases n
  {
    if n == 0 {
      assert b == ZERO;
      MulZero(ONE);
    } else {
      OneTimes(Shr(b), n - 1);
      MulHornerRight(ONE, b);
      Horner(b);
    }
  }

  lemma MulKeepLeft(c: bool, a: Byte, b: Byte)
    ensures Mul(Keep(c, a), b) == Keep(c, Mul(a, b))
  {
    KeepCases(c, a);
    KeepCases(c, Mul(a, b));
    MulZero(b);
  }

  lemma MulHornerLeft(a: Byte, b: Byte)
    ensures Mul(a, b) == Xor(Keep(a[0], b), Xtime(Mul(Shr(a), b)))
  {
    Horner(a);
    MulXorLeft(Keep(a[0], ONE), Xtime(Shr(a)), b);
    MulXtimeLeft(Shr(a), b);
    MulKeepLeft(a[0], ONE, b);
    OneTimes(b, 8);
  }

  // ----- commutativity and associativity -----

  lemma {:induction false} CommutesUpTo(a: Byte, b: Byte, n: nat)
    requires Fits(b, n)
    ensures Mul(a, b) == Mul(b, a)
    decreases n
  {
    hide Mul, Xor;
    if n == 0 {
      assert b == ZERO;
      MulZero(a);
    } else {
      MulHornerRight(a, b);
      MulHornerLeft(b, a);
      CommutesUpTo(a, Shr(b), n - 1);
    }
  }

  lemma MulCommutes(a: Byte, b: Byte)
    ensures Mul(a, b) == Mul(b, a)
  {
    CommutesUpTo(a, b, 8);
  }

  lemma MulOne(a: Byte)
    ensures Mul(ONE, a) == a && Mul(a, ONE) == a
  {
    OneTimes(a, 8);
    MulCommutes(a, ONE);
  }

  lemma MulXtimeRight(a: Byte, b: Byte)
    ensures Mul(a, Xtime(b)) == Xtime(Mul(a, b))
  {
    hide Mul, Xor;
    MulCommutes(a, Xtime(b));
    MulCommutes(a, b);
    MulXtimeLeft(b, a);
  }

  lemma MulKeepRight(c: bool, a: Byte, b: Byte)
    ensures Mul(a, Keep(c, b)) == Keep(c, Mul(a, b))
  {
    MulCommutes(a, Keep(c, b));
    MulCommutes(a, b);
    MulKeepLeft(c, b, a);
  }

  lemma AssociateStep(a: Byte, b: Byte, c: Byte)
    requires Mul(Mul(a, Shr(b)), c) == Mul(a, Mul(Shr(b), c))
    ensures Mul(Mul(a, b), c) == Mul(a, Mul(b, c))
  {
    hide Mul, Xor;
    var d := Shr(b);
    calc {
      Mul(Mul(a, b), c);
      { MulHornerRight(a, b); MulXorLeft(Keep(b[0], a), Xtime(Mul(a, d)), c); }
      Xor(Mul(Keep(b[0], a), c), Mul(Xtime(Mul(a, d)), c));
      { MulKeepLeft(b[0], a, c); MulXtimeLeft(Mul(a, d), c); }
      Xor(Keep(b[0], Mul(a, c)), Xtime(Mul(a, Mul(d, c))));
      { MulKeepRight(b[0], a, c); MulXtimeRight(a, Mul(d, c)); }
      Xor(Mul(a, Keep(b[0], c)), Mul(a, Xtime(Mul(d, c))));
      { MulHornerLeft(b, c); MulXorRight(a, Keep(b[0], c), Xtime(Mul(d, c))); }
      Mul(a, Mul(b, c));
    }
  }

  lemma {:induction false} AssociatesUpTo(a: Byte, b: Byte, c: Byte, n: nat)
    requires Fits(b, n)
    ensures Mul(Mul(a, b), c) == Mul(a, Mul(b, c))
    decreases n
  {
    hide Mul, Xor;
    if n == 0 {
      assert b == ZERO;
      MulZero(c);
      MulZero(a);
    } else {
      AssociatesUpTo(a, Shr(b), c, n - 1);
      AssociateStep(a, b, c);
    }
  }

  lemma MulAssociates(a: Byte, b: Byte, c: Byte)
    ensures Mul(Mul(a, b), c) == Mul(a, Mul(b, c))
  {
    AssociatesUpTo(a, b, c, 8);
  }

  // ----- squaring -----

  lemma SquareXor(a: Byte, b: Byte)
    ensures Mul(Xor(a, b), Xor(a, b)) == Xor(Mul(a, a), Mul(b, b))
  {
    hide Mul, Xor;
    MulXorLeft(a, b, Xor(a, b));
    MulXorRight(a, a, b);
    MulXorRight(b, a, b);
    MulCommutes(a, b);
    XorCancel(Mul(a, a), Mul(a, b), Mul(b, b));
  }

  /** Bit i of the square of e. */
  function SquareBit(e: Byte, i: nat): (bit: bool)
    requires i < 8
  {
    if i == 0 then (e[0] != e[4]) != e[6]
    else if i == 1 then (e[4] != e[6]) != e[7]
    else if i == 2 then e[1] != e[5]
    else if i == 3 then ((e[4] != e[5]) != e[6]) != e[7]
    else if i == 4 then (e[2] != e[4]) != e[7]
    else if i == 5 then e[5] != e[6]
    else if i == 6 then e[3] != e[5]
    else e[6] != e[7]
  }

  function SquareBits(e: Byte): (z: Byte) {
    seq(8, i requires 0 <= i < 8 => SquareBit(e, i))
  }

  lemma XtimeTwiceBit(c: Byte, i: nat)
    requires i < 8
    ensures Xtime(Xtime(c))[i] ==
            (((2 <= i && c[i - 2]) != (c[7] && (i == 1 || i == 2 || i == 4 || i == 5)))
             != (c[6] && (i == 0 || i == 1 || i == 3 || i == 4)))
  {
    assert Xtime(c)[7] == c[6];
    if 1 <= i {
      assert Xtime(c)[i - 1] == ((2 <= i && c[i - 2]) != (c[7] && (i == 1 || i == 2 || i == 4 || i == 5)));
    }
  }

  lemma SquareBitsHorner(b: Byte)
    ensures SquareBits(b) == Xor(Keep(b[0], ONE), Xtime(Xtime(SquareBits(Shr(b)))))
  {
    var d := Shr(b);
    var c := SquareBits(d);
    forall i | 0 <= i < 8 ensures SquareBit(b, i) == (Xtime(Xtime(c))[i] != (b[0] && i == 0)) {
      XtimeTwiceBit(c, i);
      assert c[7] == b[7] && c[6] == (b[4] != b[6]);
      assert 2 <= i ==> c[i - 2] == SquareBit(d, i - 2);
    }
  }

  lemma KeepOneSquared(c: bool)
    ensures Mul(Keep(c, ONE), Keep(c, ONE)) == Keep(c, ONE)
  {
    KeepCases(c, ONE);
    MulZero(ZERO);
    MulOne(ONE);
  }

  lemma XtimeSquared(c: Byte)
    ensures Mul(Xtime(c), Xtime(c)) == Xtime(Xtime(Mul(c, c)))
  {
    MulXtimeLeft(c, Xtime(c));
    MulXtimeRight(c, c);
  }

  lemma SquareHorner(b: Byte)
    ensures Mul(b, b) == Xor(Keep(b[0], ONE), Xtime(Xtime(Mul(Shr(b), Shr(b)))))
  {
    hide Mul, Xor;
    Horner(b);
    SquareXor(Keep(b[0], ONE), Xtime(Shr(b)));
    KeepOneSquared(b[0]);
    XtimeSquared(Shr(b));
  }

  lemma SquareBitsZero()
    ensures SquareBits(ZERO) == ZERO
  {}

  lemma {:induction false} SquareUpTo(b: Byte, n: nat)
    requires Fits(b, n)
    ensures Mul(b, b) == SquareBits(b)
    decreases n
  {
    hide Mul, Xor, Keep;
    if n == 0 {
      assert b == ZERO;
      MulZero(ZERO);
      SquareBitsZero();
    } else {
      SquareUpTo(Shr(b), n - 1);
      SquareBitsHorner(b);
      SquareHorner(b);
    }
  }

  lemma SquareIsLinear(b: Byte)
    ensures Mul(b, b) == SquareBits(b)
  {
    SquareUpTo(b, 8);
  }

  // ----- the only idempotents are zero and one -----

  lemma FixedBits(e: Byte)
    requires SquareBits(e) == e
    ensures forall i :: 0 <= i < 8 ==> e[i] == SquareBit(e, i)
  {
    forall i | 0 <= i < 8 ensures e[i] == SquareBit(e, i) {
      assert SquareBits(e)[i] == SquareBit(e, i);
    }
  }

  lemma IdempotentIsTrivial(e: Byte)
    requires Mul(e, e) == e
    ensures e == ZERO || e == ONE
  {
    hide Mul;
    SquareIsLinear(e);
    FixedBits(e);
    assert !e[6] by { assert e[5] == SquareBit(e, 5); }
    assert !e[4] by { assert e[0] == SquareBit(e, 0); }
    assert !e[7] by { assert e[6] == SquareBit(e, 6) && e[3] == SquareBit(e, 3); }
    assert !e[1] by { assert e[1] == SquareBit(e, 1); }
    assert !e[2] by { assert e[4] == SquareBit(e, 4); }
    assert !e[5] by { assert e[2] == SquareBit(e, 2); }
    assert !e[3] by { assert e[6] == SquareBit(e, 6); }
    assert e == if e[0] then ONE else ZERO;
  }

  // ----- every element is fixed by eight squarings -----

  function Frobenius(a: Byte, n: nat): (z: Byte)
    decreases n
  {
    if n == 0 then a else Frobenius(Mul(a, a), n - 1)
  }

  lemma {:induction false} FrobeniusXor(a: Byte, b: Byte, n: nat)
    ensures Frobenius(Xor(a, b), n) == Xor(Frobenius(a, n), Frobenius(b, n))
    decreases n
  {
    hide Mul, Xor;
    if n != 0 {
      SquareXor(a, b);
      FrobeniusXor(Mul(a, a), Mul(b, b), n - 1);
    }
  }

  lemma MulPairs(a: Byte, b: Byte, c: Byte, d: Byte)
    ensures Mul(Mul(a, b), Mul(c, d)) == Mul(Mul(a, c), Mul(b, d))
  {
    hide Mul, Xor;
    MulAssociates(a, b, Mul(c, d));
    MulAssociates(b, c, d);
    MulCommutes(b, c);
    MulAssociates(c, b, d);
    MulAssociates(a, c, Mul(b, d));
  }

  lemma {:induction false} FrobeniusMul(a: Byte, b: Byte, n: nat)
    ensures Frobenius(Mul(a, b), n) == Mul(Frobenius(a, n), Frobenius(b, n))
    decreases n
  {
    hide Mul, Xor;
    if n != 0 {
      MulPairs(a, b, a, b);
      FrobeniusMul(Mul(a, a), Mul(b, b), n - 1);
    }
  }

  lemma {:induction false} FrobeniusKeepOne(c: bool, n: nat)
    ensures Frobenius(Keep(c, ONE), n) == Keep(c, ONE)
    decreases n
  {
    hide Mul, Xor, Keep;
    if n != 0 {
      KeepOneSquared(c);
      FrobeniusKeepOne(c, n - 1);
    }
  }

  lemma SquareStep(a: Byte, b: Byte)
    requires forall i :: 0 <= i < 8 ==> b[i] == SquareBit(a, i)
    ensures Mul(a, a) == b
  {
    SquareIsLinear(a);
  }

  /** The byte 0x02, the field element x. */
  const X: Byte := [false, true, false, false, false, false, false, false]

  /** Squaring x eight times runs 02, 04, 10, 1B, 5E, E4, 4D, FA and returns to 02. */
  lemma EightSquaringsFixX()
    ensures Frobenius(X, 8) == X
  {
    hide Mul, Xor, Keep;
    var s1: Byte := [false, false, true, false, false, false, false, false];
    var s2: Byte := [false, false, false, false, true, false, false, false];
    var s3: Byte := [true, true, false, true, true, false, false, false];
    var s4: Byte := [false, true, true, true, true, false, true, false];
    var s5: Byte := [false, false, true, false, false, true, true, true];
    var s6: Byte := [true, false, true, true, false, false, true, false];
    var s7: Byte := [false, true, false, true, true, true, true, true];
    SquareStep(X, s1);
    SquareStep(s1, s2);
    SquareStep(s2, s3);
    SquareStep(s3, s4);
    SquareStep(s4, s5);
    SquareStep(s5, s6);
    SquareStep(s6, s7);
    SquareStep(s7, X);
  }

  lemma XtimeIsMulX(c: Byte)
    ensures Xtime(c) == Mul(X, c)
  {
    assert X == Xtime(ONE);
    MulXtimeLeft(ONE, c);
    MulOne(c);
  }

  lemma {:induction false} EightSquaringsFix(b: Byte, n: nat)
    requires Fits(b, n)
    ensures Frobenius(b, 8) == b
    decreases n
  {
    hide Mul, Xor, Keep;
    if n == 0 {
      assert b == ZERO;
      KeepCases(false, ONE);
      FrobeniusKeepOne(false, 8);
    } else {
      var c := Shr(b);
      EightSquaringsFix(c, n - 1);
      Horner(b);
      FrobeniusXor(Keep(b[0], ONE), Xtime(c), 8);
      FrobeniusKeepOne(b[0], 8);
      XtimeIsMulX(c);
      FrobeniusMul(X, c, 8);
      EightSquaringsFixX();
    }
  }

  // ----- powers and the inverse -----

  lemma {:induction false} PowAdd(a: Byte, m: nat, n: nat)
    ensures Pow(a, m + n) == Mul(Pow(a, m), Pow(a, n))
  {
    hide Mul, Xor;
    if m == 0 {
      MulOne(Pow(a, n));
    } else {
      PowAdd(a, m - 1, n);
      MulAssociates(a, Pow(a, m - 1), Pow(a, n));
    }
  }

  lemma {:induction false} PowOfSquare(a: Byte, n: nat)
    ensures Pow(Mul(a, a), n) == Pow(a, 2 * n)
  {
    hide Mul, Xor;
    if n != 0 {
      PowOfSquare(a, n - 1);
      MulAssociates(a, a, Pow(a, 2 * n - 2));
      assert Pow(a, 2 * n - 1) == Mul(a, Pow(a, 2 * n - 2));
    }
  }

  lemma {:induction false} PowIsFrobenius(a: Byte, n: nat)
    ensures Pow(a, TwoTo(n)) == Frobenius(a, n)
    decreases n
  {
    hide Mul, Xor;
    if n == 0 {
      assert Pow(a, 1) == Mul(a, Pow(a, 0));
      MulOne(a);
    } else {
      PowIsFrobenius(Mul(a, a), n - 1);
      PowOfSquare(a, TwoTo(n - 1));
    }
  }

  lemma FieldPower(a: Byte)
    ensures Pow(a, 256) == a
  {
    hide Mul, Xor;
    PowIsFrobenius(a, 8);
    assert TwoTo(8) == 256;
    EightSquaringsFix(a, 8);
  }

  /** The multiplicative group has order dividing 255: the 254th power is the inverse. */
  lemma InverseLaw(a: Byte)
    requires a != ZERO
    ensures Mul(a, Pow(a, 254)) == ONE
  {
    hide Mul, Xor;
    var e := Pow(a, 255);
    FieldPower(a);
    assert e == Mul(a, Pow(a, 254));
    assert Mul(e, e) == e by {
      PowAdd(a, 255, 255);
      PowAdd(a, 256, 254);
    }
    IdempotentIsTrivial(e);
    assert a == Mul(a, e);
    MulZero(a);
  }

  // ----- the loops of the alternate runner -----

  method GfMul(left0: Byte, right0: Byte) returns (result: Byte)
    ensures result == Mul(left0, right0)
  {
    hide Xor, Keep, Shl, Shr, Xtime;
    var left, right := left0, right0;
    result := ZERO;
    XorLaws(Mul(left0, right0), ZERO, ZERO);
    for i := 0 to 8
      invariant Xor(result, MulSteps(left, right, 8 - i)) == Mul(left0, right0)
    {
      var was, rest := result, MulSteps(Xtime(left), Shr(right), 7 - i);
      XorLaws(was, Keep(right[0], left), rest);
      XorLaws(was, ZERO, ZERO);
      KeepCases(right[0], left);
      if right[0] {
        result := Xor(result, left);
      }
      var high := left[7];
      ReduceIsXtime(left);
      left := Shl(left);
      if high {
        left := Xor(left, REDUCTION);
      }
      right := Shr(right);
    }
    XorLaws(result, ZERO, ZERO);
  }

  method GfPow(value0: Byte, exponent0: nat) returns (result: Byte)
    ensures result == Pow(value0, exponent0)
  {
    hide Mul, Xor;
    var value, exponent := value0, exponent0;
    result := ONE;
    MulOne(Pow(value0, exponent0));
    while exponent != 0
      invariant Mul(result, Pow(value, exponent)) == Pow(value0, exponent0)
    {
      PowOfSquare(value, exponent / 2);
      if exponent % 2 == 1 {
        MulAssociates(result, value, Pow(value, exponent - 1));
        result := GfMul(result, value);
      }
      value := GfMul(value, value);
      exponent := exponent / 2;
    }
    MulOne(result);
  }

  /** None is the raised error: zero has no inverse. */
  method GfInv(value: Byte) returns (r: Option<Byte>)
    ensures r.None? <==> value == ZERO
    ensures r.Some? ==> Mul(value, r.value) == ONE && r.value == Pow(value, 254)
  {
    if value == ZERO {
      return None;
    }
    var inverse := GfPow(value, 254);
    InverseLaw(value);
    return Some(inverse);
  }
}
