/**
 Canonical byte framing of signed and authenticated preimages: big-endian
 integers, length-framed fields, counted lists and domain-separated prefixes.
 */
module Canonical {
  type Octet = n: int | 0 <= n < 256
  type Bytes = seq<Octet>

  const U32_LIMIT := 0x1_0000_0000

  /** The low width bytes of n, most significant first. */
  function BigEndian(n: nat, width: nat): (b: Bytes)
    ensures |b| == width
    decreases width
  {
    if width == 0 then [] else BigEndian(n / 256, width - 1) + [n % 256]
  }

  /** n is less than 256 to the given width. */
  predicate Fits(n: nat, width: nat)
    decreases width
  {
    if width == 0 then n == 0 else Fits(n / 256, width - 1)
  }

  lemma FitsU32(n: nat)
    ensures Fits(n, 4) <==> n < U32_LIMIT
  {
    assert Fits(n, 4) == Fits(n / 256, 3) == Fits(n / 256 / 256, 2) == Fits(n / 256 / 256 / 256, 1);
  }

  // ----- framing -----

  function Concat(parts: seq<Bytes>): (b: Bytes) {
    if parts == [] then [] else parts[0] + Concat(parts[1..])
  }

  function Field(value: Bytes): (b: Bytes) {
    BigEndian(|value|, 4) + value
  }

  function Fields(values: seq<Bytes>): (b: Bytes) {
    if values == [] then [] else Field(values[0]) + Fields(values[1..])
  }

  function ListBytes(values: seq<Bytes>): (b: Bytes) {
    BigEndian(|values|, 4) + Fields(values)
  }

  function ListFixed(values: seq<Bytes>): (b: Bytes) {
    BigEndian(|values|, 4) + Concat(values)
  }

  /** The prefix of every preimage: the domain, a NUL and the two-byte suite. */
  function Jce(domain: Bytes): (b: Bytes) {
    domain + [0, 0, 1]
  }

  predicate Frameable(value: Bytes) {
    |value| < U32_LIMIT
  }

  predicate AllFrameable(values: seq<Bytes>) {
    |values| < U32_LIMIT && forall i :: 0 <= i < |values| ==> Frameable(values[i])
  }

  predicate AllWide(values: seq<Bytes>, width: nat) {
    forall i :: 0 <= i < |values| ==> |values[i]| == width
  }

  // ----- reading -----

  function Pow256(n: nat): (p: nat)
    ensures p > 0
  {
    if n == 0 then 1 else 256 * Pow256(n - 1)
  }

  /** The number that bytes spell, the first byte weighing most. */
  function Number(b: Bytes): (n: nat) {
    if b == [] then 0 else b[0] * Pow256(|b| - 1) + Number(b[1..])
  }

  lemma {:induction false} NumberAppend(b: Bytes, last: Octet)
    ensures Number(b + [last]) == 256 * Number(b) + last
  {
    if b == [] {
      assert [last][1..] == [];
    } else {
      assert (b + [last])[0] == b[0] && (b + [last])[1..] == b[1..] + [last];
      NumberAppend(b[1..], last);
      assert b[0] * Pow256(|b|) == 256 * (b[0] * Pow256(|b| - 1));
    }
  }

  /** An integer that fits is spelled by its bytes, most significant first. */
  lemma {:induction false} BigEndianSpells(n: nat, width: nat)
    requires Fits(n, width)
    ensures Number(BigEndian(n, width)) == n
    decreases width
  {
    if width == 0 {
    } else {
      BigEndianSpells(n / 256, width - 1);
      NumberAppend(BigEndian(n / 256, width - 1), n % 256);
    }
  }

  /** A value and the bytes behind it. */
  datatype Read<+T> = NotRead | Read(value: T, rest: Bytes)

  /** Four bytes of length, then that many bytes. */
  function ReadField(b: Bytes): (r: Read<Bytes>) {
    if |b| < 4 || |b| - 4 < Number(b[..4]) then NotRead
    else Read(b[4..4 + Number(b[..4])], b[4 + Number(b[..4])..])
  }

  function ReadFields(b: Bytes, count: nat): (r: Read<seq<Bytes>>)
    decreases count
  {
    if count == 0 then Read([], b)
    else
      match ReadField(b)
      case NotRead => NotRead
      case Read(first, rest) =>
        match ReadFields(rest, count - 1)
        case NotRead => NotRead
        case Read(others, end) => Read([first] + others, end)
  }

  /** Four bytes of count, then that many fields. */
  function ReadList(b: Bytes): (r: Read<seq<Bytes>>) {
    if |b| < 4 then NotRead else ReadFields(b[4..], Number(b[..4]))
  }

  lemma LengthSpelled(n: nat, x: Bytes)
    requires n < U32_LIMIT
    ensures (BigEndian(n, 4) + x)[..4] == BigEndian(n, 4) && (BigEndian(n, 4) + x)[4..] == x
    ensures Number(BigEndian(n, 4)) == n
  {
    hide BigEndian, Number;
    FitsU32(n);
    BigEndianSpells(n, 4);
  }

  /** A framed field is read back from in front of any bytes. */
  lemma FieldRead(value: Bytes, x: Bytes)
    requires Frameable(value)
    ensures ReadField(Field(value) + x) == Read(value, x)
  {
    hide BigEndian, Number;
    var b := Field(value) + x;
    assert b == BigEndian(|value|, 4) + (value + x);
    LengthSpelled(|value|, value + x);
    assert b[4..4 + |value|] == (value + x)[..|value|] == value;
    assert b[4 + |value|..] == (value + x)[|value|..] == x;
  }

  lemma {:induction false} FieldsRead(values: seq<Bytes>, x: Bytes)
    requires forall k :: 0 <= k < |values| ==> Frameable(values[k])
    ensures ReadFields(Fields(values) + x, |values|) == Read(values, x)
  {
    hide Field, ReadField;
    if values == [] {
      assert Fields(values) + x == x;
    } else {
      assert Fields(values) + x == Field(values[0]) + (Fields(values[1..]) + x);
      FieldRead(values[0], Fields(values[1..]) + x);
      FieldsRead(values[1..], x);
      assert values == [values[0]] + values[1..];
    }
  }

  /** A framed list is read back from in front of any bytes. */
  lemma ListRead(values: seq<Bytes>, x: Bytes)
    requires AllFrameable(values)
    ensures ReadList(ListBytes(values) + x) == Read(values, x)
  {
    hide BigEndian, Number, Fields, ReadFields;
    assert ListBytes(values) + x == BigEndian(|values|, 4) + (Fields(values) + x);
    LengthSpelled(|values|, Fields(values) + x);
    FieldsRead(values, x);
  }

  /** Entries of one width, counted. */
  function ReadFixed(b: Bytes, width: nat, count: nat): (r: Read<seq<Bytes>>)
    decreases count
  {
    if count == 0 then Read([], b)
    else if |b| < width then NotRead
    else
      match ReadFixed(b[width..], width, count - 1)
      case NotRead => NotRead
      case Read(others, end) => Read([b[..width]] + others, end)
  }

  function ReadFixedList(b: Bytes, width: nat): (r: Read<seq<Bytes>>) {
    if |b| < 4 then NotRead else ReadFixed(b[4..], width, Number(b[..4]))
  }

  lemma {:induction false} FixedRead(values: seq<Bytes>, x: Bytes, width: nat)
    requires AllWide(values, width)
    ensures ReadFixed(Concat(values) + x, width, |values|) == Read(values, x)
  {
    if values == [] {
      assert Concat(values) + x == x;
    } else {
      var b := Concat(values) + x;
      assert b == values[0] + (Concat(values[1..]) + x);
      assert b[..width] == values[0] && b[width..] == Concat(values[1..]) + x;
      FixedRead(values[1..], x, width);
      assert values == [values[0]] + values[1..];
    }
  }

  /** A counted list of fixed-width entries is read back from in front of any bytes. */
  lemma FixedListRead(values: seq<Bytes>, x: Bytes, width: nat)
    requires |values| < U32_LIMIT && AllWide(values, width)
    ensures ReadFixedList(ListFixed(values) + x, width) == Read(values, x)
  {
    hide BigEndian, Number, Concat, ReadFixed;
    assert ListFixed(values) + x == BigEndian(|values|, 4) + (Concat(values) + x);
    LengthSpelled(|values|, Concat(values) + x);
    FixedRead(values, x, width);
  }

  /** The text before the first NUL, and the two-byte suite behind it. */
  function ReadDomain(b: Bytes): (r: Read<(Bytes, nat)>) {
    if b == [] then NotRead
    else if b[0] == 0 then if |b| < 3 then NotRead else Read(([], Number(b[1..3])), b[3..])
    else
      match ReadDomain(b[1..])
      case NotRead => NotRead
      case Read(d, rest) => Read(([b[0]] + d.0, d.1), rest)
  }

  /** A preimage starts with its domain, and its suite is one. */
  lemma {:induction false} DomainRead(d: Bytes, x: Bytes)
    requires 0 !in d
    ensures ReadDomain(Jce(d) + x) == Read((d, 1), x)
  {
    var b := Jce(d) + x;
    if d == [] {
      assert b == [0, 0, 1] + x;
      assert b[1..3] == [0, 1] && b[3..] == x;
      assert Number([0, 1]) == 1 by { assert [0, 1][1..] == [1] && [1][1..] == []; }
    } else {
      assert b[0] == d[0] && b[1..] == Jce(d[1..]) + x;
      DomainRead(d[1..], x);
      assert d == [d[0]] + d[1..];
    }
  }

  // ----- unique decoding from any following bytes -----

  lemma BigEndianInjective(m: nat, n: nat, width: nat)
    requires Fits(m, width) && Fits(n, width) && BigEndian(m, width) == BigEndian(n, width)
    ensures m == n
  {
    hide BigEndian;
    BigEndianSpells(m, width);
    BigEndianSpells(n, width);
  }

  lemma FieldUnique(a: Bytes, x: Bytes, b: Bytes, y: Bytes)
    requires Frameable(a) && Frameable(b) && Field(a) + x == Field(b) + y
    ensures a == b && x == y
  {
    hide Field, ReadField;
    FieldRead(a, x);
    FieldRead(b, y);
  }

  /** A counted list of framed values is uniquely decodable from any following bytes. */
  lemma ListBytesUnique(us: seq<Bytes>, x: Bytes, vs: seq<Bytes>, y: Bytes)
    requires AllFrameable(us) && AllFrameable(vs) && ListBytes(us) + x == ListBytes(vs) + y
    ensures us == vs && x == y
  {
    hide ListBytes, ReadList;
    ListRead(us, x);
    ListRead(vs, y);
  }

  /** A counted list of values of one width is uniquely decodable from any following bytes. */
  lemma ListFixedUnique(us: seq<Bytes>, x: Bytes, vs: seq<Bytes>, y: Bytes, width: nat)
    requires |us| < U32_LIMIT && |vs| < U32_LIMIT && AllWide(us, width) && AllWide(vs, width)
    requires ListFixed(us) + x == ListFixed(vs) + y
    ensures us == vs && x == y
  {
    hide ListFixed, ReadFixedList;
    FixedListRead(us, x, width);
    FixedListRead(vs, y, width);
  }

  /** Preimages under NUL-free domains are equal only with equal domains and equal bodies. */
  lemma DomainSeparation(d: Bytes, x: Bytes, e: Bytes, y: Bytes)
    requires 0 !in d && 0 !in e && Jce(d) + x == Jce(e) + y
    ensures d == e && x == y
  {
    hide Jce, ReadDomain;
    DomainRead(d, x);
    DomainRead(e, y);
  }

  /** Text as its bytes. */
  function Ascii(text: string): (b: Bytes)
    ensures |b| == |text|
  {
    seq(|text|, i requires 0 <= i < |text| => text[i] as int % 256)
  }

  /** Printable text holds no NUL. */
  lemma AsciiHasNoNul(text: string)
    requires forall i :: 0 <= i < |text| ==> ' ' <= text[i] <= '~'
    ensures 0 !in Ascii(text)
  {
    forall i | 0 <= i < |text| ensures Ascii(text)[i] != 0 {
      assert ' ' as int == 32 && '~' as int == 126;
      assert 32 <= text[i] as int <= 126;
    }
  }

  // ----- the encoders, appending to one output -----

  class Output {
    var bytes: Bytes

    constructor (domain: Bytes)
      ensures bytes == Jce(domain)
    {
      bytes := domain + [0, 0, 1];
    }

    /** False is a length that does not fit in 32 bits; nothing is written then. */
    method BytesField(value: Bytes) returns (ok: bool)
      modifies this
      ensures ok <==> Frameable(value)
      ensures bytes == old(bytes) + if ok then Field(value) else []
    {
      hide BigEndian;
      if |value| >= U32_LIMIT {
        return false;
      }
      bytes := bytes + BigEndian(|value|, 4);
      bytes := bytes + value;
      return true;
    }

    /** A value that is too long stops the list after the count and the fields before it. */
    method ListOfBytes(values: seq<Bytes>) returns (ok: bool)
      modifies this
      ensures ok <==> AllFrameable(values)
      ensures ok ==> bytes == old(bytes) + ListBytes(values)
      ensures !ok && |values| >= U32_LIMIT ==> bytes == old(bytes)
      ensures !ok && |values| < U32_LIMIT ==>
                exists k :: 0 <= k < |values| && !Frameable(values[k])
                            && bytes == old(bytes) + BigEndian(|values|, 4) + Fields(values[..k])
    {
      hide BigEndian, Field, Fields;
      assert Fields(values[..0]) == [] by { NoFields(values[..0]); }
      if |values| >= U32_LIMIT {
        return false;
      }
      bytes := bytes + BigEndian(|values|, 4);
      for i := 0 to |values|
        invariant bytes == old(bytes) + BigEndian(|values|, 4) + Fields(values[..i])
        invariant forall k :: 0 <= k < i ==> Frameable(values[k])
      {
        var written := BytesField(values[i]);
        if !written {
          return false;
        }
        FieldsAppend(values[..i], values[i]);
        assert values[..i + 1] == values[..i] + [values[i]];
      }
      assert values[..|values|] == values;
      return true;
    }

    method ListOfFixed(values: seq<Bytes>) returns (ok: bool)
      modifies this
      ensures ok <==> |values| < U32_LIMIT
      ensures bytes == old(bytes) + if ok then ListFixed(values) else []
    {
      hide BigEndian;
      if |values| >= U32_LIMIT {
        return false;
      }
      bytes := bytes + BigEndian(|values|, 4);
      for i := 0 to |values|
        invariant bytes == old(bytes) + BigEndian(|values|, 4) + Concat(values[..i])
      {
        bytes := bytes + values[i];
        ConcatAppend(values[..i], values[i]);
        assert values[..i + 1] == values[..i] + [values[i]];
      }
      assert values[..|values|] == values;
      return true;
    }
  }

  lemma NoFields(values: seq<Bytes>)
    requires values == []
    ensures Fields(values) == []
  {}

  lemma {:induction false} FieldsAppend(values: seq<Bytes>, last: Bytes)
    ensures Fields(values + [last]) == Fields(values) + Field(last)
  {
    hide Field;
    if values == [] {
      assert [last][1..] == [];
    } else {
      assert (values + [last])[1..] == values[1..] + [last];
      FieldsAppend(values[1..], last);
    }
  }

  lemma {:induction false} ConcatAppend(values: seq<Bytes>, last: Bytes)
    ensures Concat(values + [last]) == Concat(values) + last
  {
    if values == [] {
      assert [last][1..] == [];
    } else {
      assert (values + [last])[1..] == values[1..] + [last];
      ConcatAppend(values[1..], last);
    }
  }
}
