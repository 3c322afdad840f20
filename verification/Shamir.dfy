/**
 Threshold reconstruction of a witnessed revision secret.

 A share is one index byte followed by one payload byte per secret byte. The
 payload bytes at one position are the values, at the index bytes, of one
 polynomial whose constant term is the secret byte.
 */
module Shamir {
  import opened Common
  import opened Gf256
  import opened Polynomials

  type Share = seq<Byte>

  /** All shares have the length of the first one, which is not empty. */
  predicate WellShaped(shares: seq<Share>) {
    && shares != []
    && shares[0] != []
    && forall i :: 0 <= i < |shares| ==> |shares[i]| == |shares[0]|
  }

  /** The index bytes. */
  function Indexes(shares: seq<Share>): (xs: seq<Byte>)
    requires WellShaped(shares)
    ensures |xs| == |shares|
  {
    seq(|shares|, i requires 0 <= i < |shares| => shares[i][0])
  }

  /** The payload bytes at one position. */
  function Column(shares: seq<Share>, b: nat): (ys: seq<Byte>)
    requires WellShaped(shares) && b < |shares[0]|
    ensures |ys| == |shares|
  {
    seq(|shares|, i requires 0 <= i < |shares| => shares[i][b])
  }

  /** The byte reconstructed at position b: the interpolated value at zero. */
  function SecretByte(shares: seq<Share>, b: nat): (y: Byte)
    requires WellShaped(shares) && b < |shares[0]|
  {
    Interpolated(Indexes(shares), Column(shares, b), ZERO, |shares|)
  }

  /** The reconstructed bytes of all payload positions. */
  function Payload(shares: seq<Share>): (bytes: seq<Byte>)
    requires WellShaped(shares)
    ensures |bytes| == |shares[0]| - 1
  {
    seq(|shares[0]| - 1, b requires 0 <= b < |shares[0]| - 1 => SecretByte(shares, b + 1))
  }

  /** A repeated index stops the reconstruction as soon as there is a payload byte to reconstruct. */
  predicate Combinable(shares: seq<Share>) {
    WellShaped(shares) && (|shares[0]| == 1 || Distinct(Indexes(shares)))
  }

  function Combined(shares: seq<Share>): (r: Option<seq<Byte>>) {
    if Combinable(shares) then Some(Payload(shares)) else None
  }

  // ----- the loops of the alternate runner -----

  /** coefficient *= gf_mul(xj, gf_inv(xj ^ xi)) over every other share. */
  method LagrangeCoefficient(shares: seq<Share>, index: nat) returns (r: Option<Byte>)
    requires WellShaped(shares) && index < |shares|
    ensures r.Some? <==> forall j :: 0 <= j < |shares| && j != index ==> shares[j][0] != shares[index][0]
    ensures r.Some? ==> r.value == Coefficient(Indexes(shares), index, ZERO, |shares|)
  {
    hide Mul, Xor, Pow;
    var xs := Indexes(shares);
    var xi := shares[index][0];
    var coefficient := ONE;
    for j := 0 to |shares|
      invariant coefficient == Coefficient(xs, index, ZERO, j)
      invariant forall k :: 0 <= k < j && k != index ==> shares[k][0] != xi
    {
      if j != index {
        var xj := shares[j][0];
        XorIsZero(xj, xi);
        var inverse := GfInv(Xor(xj, xi));
        if inverse.None? {
          return None;
        }
        XorZero(xj);
        var factor := GfMul(xj, inverse.value);
        coefficient := GfMul(coefficient, factor);
      }
    }
    return Some(coefficient);
  }

  /** The sum over all shares for one payload position. */
  method CombineByte(shares: seq<Share>, b: nat) returns (r: Option<Byte>)
    requires WellShaped(shares) && b < |shares[0]|
    ensures r.Some? <==> Distinct(Indexes(shares))
    ensures r.Some? ==> r.value == SecretByte(shares, b)
  {
    hide Mul, Xor, Coefficient;
    var value := ZERO;
    for index := 0 to |shares|
      invariant value == Interpolated(Indexes(shares), Column(shares, b), ZERO, index)
      invariant forall i, j :: 0 <= i < index && 0 <= j < |shares| && j != i ==> shares[j][0] != shares[i][0]
    {
      var coefficient := LagrangeCoefficient(shares, index);
      if coefficient.None? {
        var j :| 0 <= j < |shares| && j != index && shares[j][0] == shares[index][0];
        assert Indexes(shares)[j] == Indexes(shares)[index];
        return None;
      }
      var term := GfMul(shares[index][b], coefficient.value);
      value := Xor(value, term);
    }
    return Some(value);
  }

  /** None is a raised error, including the negative buffer length of empty shares. */
  method Combine(shares: seq<Share>) returns (r: Option<seq<Byte>>)
    ensures r == Combined(shares)
  {
    hide SecretByte, Distinct;
    if shares == [] || (exists i :: 0 <= i < |shares| && |shares[i]| != |shares[0]|) || |shares[0]| == 0 {
      return None;
    }
    var output := new Byte[|shares[0]| - 1](i => ZERO);
    for b := 1 to |shares[0]|
      invariant forall k :: 0 <= k < b - 1 ==> output[k] == SecretByte(shares, k + 1)
      invariant b > 1 ==> Distinct(Indexes(shares))
    {
      var value := CombineByte(shares, b);
      if value.None? {
        return None;
      }
      output[b - 1] := value.value;
    }
    assert output[..] == Payload(shares);
    return Some(output[..]);
  }

  // ----- what reconstruction promises -----

  /** The shares hold, at each payload position, the values of the given polynomial at their indexes. */
  ghost predicate SharesOf(shares: seq<Share>, polynomials: seq<Poly>) {
    && WellShaped(shares)
    && |shares[0]| == |polynomials| + 1
    && forall b :: 0 <= b < |polynomials| ==>
      PassesThrough(polynomials[b], Indexes(shares), Column(shares, b + 1))
  }

  /** Any k shares with distinct indexes recover the constant terms of polynomials of degree below k. */
  lemma CombineRecoversSecret(shares: seq<Share>, polynomials: seq<Poly>)
    requires SharesOf(shares, polynomials) && Distinct(Indexes(shares))
    requires forall b :: 0 <= b < |polynomials| ==> 1 <= |polynomials[b]| <= |shares|
    ensures Combined(shares).Some? && |Combined(shares).value| == |polynomials|
    ensures forall b :: 0 <= b < |polynomials| ==> Combined(shares).value[b] == polynomials[b][0]
  {
    hide Interpolated, Eval;
    forall b | 0 <= b < |polynomials| ensures SecretByte(shares, b + 1) == polynomials[b][0] {
      InterpolationRecovers(polynomials[b], Indexes(shares), Column(shares, b + 1), ZERO);
      EvalAtZero(polynomials[b]);
    }
  }

  /**
   One share fewer than the threshold fixes nothing: for every candidate secret
   byte exactly one polynomial with threshold-many coefficients has it as its
   constant term and agrees with all the shares.
   */
  lemma BelowThresholdAnySecret(xs: seq<Byte>, ys: seq<Byte>, secret: Byte) returns (p: Poly)
    requires |xs| == |ys| && Distinct(xs) && ZERO !in xs
    ensures |p| == |xs| + 1 && p[0] == secret && PassesThrough(p, xs, ys)
    ensures forall q: Poly :: |q| == |xs| + 1 && q[0] == secret && PassesThrough(q, xs, ys) ==> q == p
  {
    hide Eval;
    var xs', ys' := [ZERO] + xs, [secret] + ys;
    assert Distinct(xs');
    p := ExactlyOnePolynomial(xs', ys');
    EvalAtZero(p);
    assert Eval(p, xs'[0]) == ys'[0];
    forall i | 0 <= i < |xs| ensures Eval(p, xs[i]) == ys[i] {
      assert Eval(p, xs'[i + 1]) == ys'[i + 1];
    }
    forall q: Poly | |q| == |xs| + 1 && q[0] == secret && PassesThrough(q, xs, ys) ensures q == p {
      EvalAtZero(q);
      assert PassesThrough(q, xs', ys');
    }
  }

  // ----- the order of the shares does not matter -----

  lemma SameMembers(s: seq<Share>, t: seq<Share>, i: nat) returns (k: nat)
    requires multiset(s) == multiset(t) && i < |t|
    ensures k < |s| && s[k] == t[i]
  {
    assert t[i] in multiset(t);
    assert t[i] in s;
    k :| 0 <= k < |s| && s[k] == t[i];
  }

  lemma SameShape(s: seq<Share>, t: seq<Share>)
    requires multiset(s) == multiset(t) && WellShaped(s)
    ensures WellShaped(t) && |t| == |s| && |t[0]| == |s[0]|
  {
    assert |multiset(s)| == |s| && |multiset(t)| == |t|;
    forall i | 0 <= i < |t| ensures |t[i]| == |s[0]| {
      var k := SameMembers(s, t, i);
    }
  }

  lemma TwoCopies(s: seq<Share>, i: nat, j: nat)
    requires i < j < |s| && s[i] == s[j]
    ensures multiset(s)[s[i]] >= 2
  {
    assert s == s[..j] + s[j..];
    assert s[i] in s[..j] && s[j] in s[j..];
    assert multiset(s) == multiset(s[..j]) + multiset(s[j..]);
  }

  lemma OneCopy(s: seq<Share>, v: Share)
    requires multiset(s)[v] >= 2
    ensures exists i, j :: 0 <= i < j < |s| && s[i] == v && s[j] == v
  {
    assert v in multiset(s);
    var i :| 0 <= i < |s| && s[i] == v;
    var rest := s[..i] + s[i + 1..];
    assert s == s[..i] + [s[i]] + s[i + 1..];
    assert multiset(s) == multiset(rest) + multiset{v};
    assert v in multiset(rest);
    var j :| 0 <= j < |rest| && rest[j] == v;
    if j < i {
      assert s[j] == v && s[i] == v;
    } else {
      assert s[i] == v && s[j + 1] == v;
    }
  }

  /** Two shares with one index in t are two shares with one index in s. */
  lemma SameRepeat(s: seq<Share>, t: seq<Share>, i: nat, j: nat) returns (a: nat, b: nat)
    requires multiset(s) == multiset(t) && WellShaped(s) && WellShaped(t)
    requires i < j < |t| && t[i][0] == t[j][0]
    ensures a < |s| && b < |s| && a != b && s[a][0] == s[b][0]
  {
    if t[i] == t[j] {
      TwoCopies(t, i, j);
      OneCopy(s, t[i]);
      a, b :| 0 <= a < b < |s| && s[a] == t[i] && s[b] == t[i];
    } else {
      a := SameMembers(s, t, i);
      b := SameMembers(s, t, j);
    }
  }

  lemma SameDistinctness(s: seq<Share>, t: seq<Share>)
    requires multiset(s) == multiset(t) && WellShaped(s) && WellShaped(t)
    ensures Distinct(Indexes(s)) ==> Distinct(Indexes(t))
  {
    var xs, zs := Indexes(s), Indexes(t);
    if !Distinct(zs) {
      var i, j :| 0 <= i < j < |zs| && zs[i] == zs[j];
      var a, b := SameRepeat(s, t, i, j);
      assert xs[a] == xs[b];
    }
  }

  lemma SameSecretByte(s: seq<Share>, t: seq<Share>, b: nat)
    requires multiset(s) == multiset(t) && WellShaped(s) && WellShaped(t)
    requires b < |s[0]| == |t[0]|
    requires Distinct(Indexes(s)) && Distinct(Indexes(t))
    ensures SecretByte(t, b) == SecretByte(s, b)
  {
    hide Interpolated, Eval, InterpolationPoly;
    assert |multiset(s)| == |s| && |multiset(t)| == |t|;
    var xs, ys := Indexes(s), Column(s, b);
    var p := InterpolationPoly(xs, ys, |xs|);
    InterpolationPasses(xs, ys);
    InterpolationRecovers(p, xs, ys, ZERO);
    forall i | 0 <= i < |t| ensures Eval(p, Indexes(t)[i]) == Column(t, b)[i] {
      var k := SameMembers(s, t, i);
      assert Eval(p, xs[k]) == ys[k];
    }
    InterpolationRecovers(p, Indexes(t), Column(t, b), ZERO);
  }

  lemma OrderHelper(s: seq<Share>, t: seq<Share>)
    requires multiset(s) == multiset(t) && Combinable(s)
    ensures Combined(t) == Combined(s)
  {
    hide SecretByte;
    SameShape(s, t);
    if |s[0]| != 1 {
      SameDistinctness(s, t);
      forall b | 0 <= b < |s[0]| - 1 ensures Payload(t)[b] == Payload(s)[b] {
        SameSecretByte(s, t, b + 1);
      }
    }
    assert Payload(t) == Payload(s);
  }

  /** Reordering shares changes neither the result nor whether there is one, whatever the shares hold. */
  lemma CombineIgnoresOrder(s: seq<Share>, t: seq<Share>)
    requires multiset(s) == multiset(t)
    ensures Combined(s) == Combined(t)
  {
    if Combinable(s) {
      OrderHelper(s, t);
    } else if Combinable(t) {
      OrderHelper(t, s);
    }
  }
}
