/**
 The bootstrap manifest of a vault rollover and its two byte formats. Text is
 its UTF-8 bytes; identifiers, digests and nonces are byte strings.
 */
module Rollover {
  import opened Common
  import opened Canonical

  datatype Format = V1 | V2

  datatype Role = Reader | Writer | Owner
  datatype ItemKind = CanonicalItem | LegacyItem

  datatype Principal = Principal(id: Bytes, descriptorDigest: Bytes, displayLabel: Bytes, owner: bool)

  datatype Descriptor = Descriptor(
    revision: nat,
    sealId: Bytes,
    nonce: Bytes,
    ciphertextLength: nat,
    ciphertextDigest: Bytes,
    plaintextSchema: nat,
    keyEpoch: nat
  )

  datatype Grant = Grant(principalId: Bytes, role: Role, direct: bool)

  datatype WitnessedSlots = WitnessedSlots(policyId: Bytes, descriptorSlot: Bytes, bodySlot: Bytes)

  datatype Item = Item(
    sourceId: Bytes,
    destinationId: Bytes,
    kind: ItemKind,
    descriptor: Descriptor,
    initialHash: Bytes,
    directSlotDigest: Bytes,
    grants: seq<Grant>,
    witnessed: Option<WitnessedSlots>
  )

  /** The source policy revision exists in the second format only. */
  datatype PolicyEntry = PolicyEntry(sourceId: Bytes, sourceRevision: Option<nat>, destinationId: Bytes, intent: Bytes)

  /** The source suite exists in the second format only. */
  datatype Manifest = Manifest(
    version: nat,
    sourceSuite: Option<nat>,
    destinationSuite: nat,
    vaultId: Bytes,
    createdAt: nat,
    actingOwner: Bytes,
    principals: seq<Principal>,
    items: seq<Item>,
    policies: seq<PolicyEntry>
  )

  const DOMAIN: Bytes := Ascii("jury-v1/rollover/bootstrap")

  // ----- the encoders -----

  function Flag(b: bool): (o: Octet) {
    if b then 1 else 0
  }

  function RoleTag(r: Role): (o: Octet) {
    match r
    case Reader => 1
    case Writer => 2
    case Owner => 3
  }

  function KindTag(k: ItemKind): (o: Octet) {
    match k
    case CanonicalItem => 1
    case LegacyItem => 2
  }

  function EncodePrincipal(p: Principal): (b: Bytes) {
    p.id + (p.descriptorDigest + (Field(p.displayLabel) + [Flag(p.owner)]))
  }

  function EncodeDescriptor(d: Descriptor): (b: Bytes) {
    BigEndian(d.revision, 8) + (d.sealId + (d.nonce + (BigEndian(d.ciphertextLength, 4)
    + (d.ciphertextDigest + (BigEndian(d.plaintextSchema, 1) + BigEndian(d.keyEpoch, 8))))))
  }

  function EncodeGrant(g: Grant): (b: Bytes) {
    g.principalId + [RoleTag(g.role), Flag(g.direct)]
  }

  function EncodeWitnessed(w: Option<WitnessedSlots>): (b: Bytes) {
    match w
    case None => [0]
    case Some(s) => [1] + (s.policyId + (s.descriptorSlot + s.bodySlot))
  }

  function GrantRecords(gs: seq<Grant>): (rs: seq<Bytes>)
    ensures |rs| == |gs|
  {
    seq(|gs|, i requires 0 <= i < |gs| => EncodeGrant(gs[i]))
  }

  function EncodeItem(i: Item): (b: Bytes) {
    i.sourceId + (i.destinationId + ([KindTag(i.kind)] + (Field(EncodeDescriptor(i.descriptor))
    + (i.initialHash + (i.directSlotDigest + (ListBytes(GrantRecords(i.grants)) + EncodeWitnessed(i.witnessed)))))))
  }

  function EncodePolicy(p: PolicyEntry): (b: Bytes) {
    p.sourceId + ((if p.sourceRevision.Some? then BigEndian(p.sourceRevision.value, 8) else [])
    + (p.destinationId + p.intent))
  }

  function PrincipalRecords(ps: seq<Principal>): (rs: seq<Bytes>)
    ensures |rs| == |ps|
  {
    seq(|ps|, i requires 0 <= i < |ps| => EncodePrincipal(ps[i]))
  }

  function ItemRecords(items: seq<Item>): (rs: seq<Bytes>)
    ensures |rs| == |items|
  {
    seq(|items|, i requires 0 <= i < |items| => EncodeItem(items[i]))
  }

  function PolicyRecords(ps: seq<PolicyEntry>): (rs: seq<Bytes>)
    ensures |rs| == |ps|
  {
    seq(|ps|, i requires 0 <= i < |ps| => EncodePolicy(ps[i]))
  }

  function EncodeTail(m: Manifest): (b: Bytes) {
    BigEndian(m.destinationSuite, 2) + (m.vaultId + (BigEndian(m.createdAt, 8) + (m.actingOwner
    + (ListBytes(PrincipalRecords(m.principals)) + (ListBytes(ItemRecords(m.items))
    + ListBytes(PolicyRecords(m.policies)))))))
  }

  function Encode(m: Manifest): (b: Bytes) {
    Jce(DOMAIN) + (BigEndian(m.version, 2)
    + ((if m.sourceSuite.Some? then BigEndian(m.sourceSuite.value, 2) else []) + EncodeTail(m)))
  }

  // ----- what the encoders accept -----

  predicate DescriptorOk(d: Descriptor) {
    Canonical.Fits(d.revision, 8) && Canonical.Fits(d.ciphertextLength, 4) && Canonical.Fits(d.plaintextSchema, 1)
    && Canonical.Fits(d.keyEpoch, 8)
  }

  predicate PrincipalOk(p: Principal) {
    Frameable(p.displayLabel) && Frameable(EncodePrincipal(p))
  }

  predicate ItemOk(i: Item) {
    DescriptorOk(i.descriptor) && Frameable(EncodeDescriptor(i.descriptor)) && AllFrameable(GrantRecords(i.grants))
    && Frameable(EncodeItem(i))
  }

  predicate PolicyOk(p: PolicyEntry) {
    (p.sourceRevision.Some? ==> Canonical.Fits(p.sourceRevision.value, 8)) && Frameable(EncodePolicy(p))
  }

  /** Every integer fits its width and every length its frame: otherwise encoding raises an overflow. */
  predicate Encodable(m: Manifest) {
    && Canonical.Fits(m.version, 2) && Canonical.Fits(m.destinationSuite, 2) && Canonical.Fits(m.createdAt, 8)
    && (m.sourceSuite.Some? ==> Canonical.Fits(m.sourceSuite.value, 2))
    && |m.principals| < U32_LIMIT && |m.items| < U32_LIMIT && |m.policies| < U32_LIMIT
    && (forall k :: 0 <= k < |m.principals| ==> PrincipalOk(m.principals[k]))
    && (forall k :: 0 <= k < |m.items| ==> ItemOk(m.items[k]))
    && (forall k :: 0 <= k < |m.policies| ==> PolicyOk(m.policies[k]))
  }

  // ----- manifests with fixed-width identifiers, digests and nonces -----

  predicate PrincipalWide(p: Principal) {
    |p.id| == 32 && |p.descriptorDigest| == 32
  }

  predicate DescriptorWide(d: Descriptor) {
    |d.sealId| == 32 && |d.nonce| == 12 && |d.ciphertextDigest| == 32
  }

  predicate ItemWide(i: Item) {
    && |i.sourceId| == 32 && |i.destinationId| == 32 && |i.initialHash| == 32 && |i.directSlotDigest| == 32
    && DescriptorWide(i.descriptor)
    && (forall k :: 0 <= k < |i.grants| ==> |i.grants[k].principalId| == 32)
    && (i.witnessed.Some? ==>
          var w := i.witnessed.value; |w.policyId| == 32 && |w.descriptorSlot| == 32 && |w.bodySlot| == 32)
  }

  predicate PolicyWide(f: Format, p: PolicyEntry) {
    |p.sourceId| == 32 && |p.destinationId| == 32 && |p.intent| == 32 && (p.sourceRevision.Some? <==> f.V2?)
  }

  /** A manifest of format f: its version number, its format's optional parts and the fixed widths. */
  predicate WellFormed(f: Format, m: Manifest) {
    && m.version == (if f.V1? then 1 else 2)
    && (m.sourceSuite.Some? <==> f.V2?)
    && |m.vaultId| == 32 && |m.actingOwner| == 32
    && (forall k :: 0 <= k < |m.principals| ==> PrincipalWide(m.principals[k]))
    && (forall k :: 0 <= k < |m.items| ==> ItemWide(m.items[k]))
    && (forall k :: 0 <= k < |m.policies| ==> PolicyWide(f, m.policies[k]))
    && Encodable(m)
  }

  // ----- reading a manifest back -----

  function FlagOf(o: Octet): (b: Option<bool>) {
    if o == 0 then Some(false) else if o == 1 then Some(true) else None
  }

  function RoleOf(o: Octet): (r: Option<Role>) {
    if o == 1 then Some(Reader) else if o == 2 then Some(Writer) else if o == 3 then Some(Owner) else None
  }

  function KindOf(o: Octet): (k: Option<ItemKind>) {
    if o == 1 then Some(CanonicalItem) else if o == 2 then Some(LegacyItem) else None
  }

  /** Identifier, descriptor digest, framed label, owner flag. */
  function ReadPrincipal(b: Bytes): (p: Option<Principal>) {
    if |b| < 64 then None
    else
      match ReadField(b[64..])
      case NotRead => None
      case Read(name, rest) =>
        if |rest| != 1 || FlagOf(rest[0]).None? then None
        else Some(Principal(b[..32], b[32..64], name, FlagOf(rest[0]).value))
  }

  /** Revision, seal, nonce, ciphertext length and digest, plaintext schema, key epoch. */
  function ReadDescriptor(b: Bytes): (d: Option<Descriptor>) {
    if |b| != 97 then None
    else Some(Descriptor(Number(b[..8]), b[8..40], b[40..52], Number(b[52..56]), b[56..88], Number(b[88..89]),
                         Number(b[89..])))
  }

  function ReadGrant(b: Bytes): (g: Option<Grant>) {
    if |b| != 34 || RoleOf(b[32]).None? || FlagOf(b[33]).None? then None
    else Some(Grant(b[..32], RoleOf(b[32]).value, FlagOf(b[33]).value))
  }

  function ReadGrants(bs: seq<Bytes>): (gs: Option<seq<Grant>>) {
    if bs == [] then Some([])
    else
      var first, rest := ReadGrant(bs[0]), ReadGrants(bs[1..]);
      if first.None? || rest.None? then None else Some([first.value] + rest.value)
  }

  /** A zero, or a one with policy, descriptor slot and body slot. */
  function ReadWitnessed(b: Bytes): (w: Option<Option<WitnessedSlots>>) {
    if b == [0] then Some(None)
    else if |b| == 97 && b[0] == 1 then Some(Some(WitnessedSlots(b[1..33], b[33..65], b[65..])))
    else None
  }

  /** Source, destination, kind, framed descriptor, initial hash, direct slot digest, grants, witnessed slots. */
  function ReadItem(b: Bytes): (i: Option<Item>) {
    if |b| < 65 || KindOf(b[64]).None? then None
    else
      match ReadField(b[65..])
      case NotRead => None
      case Read(d, rest) =>
        var descriptor := ReadDescriptor(d);
        if descriptor.None? || |rest| < 64 then None
        else
          match ReadList(rest[64..])
          case NotRead => None
          case Read(records, end) =>
            var grants, witnessed := ReadGrants(records), ReadWitnessed(end);
            if grants.None? || witnessed.None? then None
            else Some(Item(b[..32], b[32..64], KindOf(b[64]).value, descriptor.value, rest[..32], rest[32..64],
                           grants.value, witnessed.value))
  }

  /** Source, source revision in the second format, destination, intent. */
  function ReadPolicy(f: Format, b: Bytes): (p: Option<PolicyEntry>) {
    if f.V1? then if |b| != 96 then None else Some(PolicyEntry(b[..32], None, b[32..64], b[64..]))
    else if |b| != 104 then None
    else Some(PolicyEntry(b[..32], Some(Number(b[32..40])), b[40..72], b[72..]))
  }

  function ReadPrincipals(bs: seq<Bytes>): (ps: Option<seq<Principal>>) {
    if bs == [] then Some([])
    else
      var first, rest := ReadPrincipal(bs[0]), ReadPrincipals(bs[1..]);
      if first.None? || rest.None? then None else Some([first.value] + rest.value)
  }

  function ReadItems(bs: seq<Bytes>): (items: Option<seq<Item>>) {
    if bs == [] then Some([])
    else
      var first, rest := ReadItem(bs[0]), ReadItems(bs[1..]);
      if first.None? || rest.None? then None else Some([first.value] + rest.value)
  }

  function ReadPolicies(f: Format, bs: seq<Bytes>): (ps: Option<seq<PolicyEntry>>) {
    if bs == [] then Some([])
    else
      var first, rest := ReadPolicy(f, bs[0]), ReadPolicies(f, bs[1..]);
      if first.None? || rest.None? then None else Some([first.value] + rest.value)
  }

  /** Destination suite, vault, creation time, acting owner, and the three lists. */
  function ReadTail(f: Format, suite: Option<nat>, b: Bytes): (m: Option<Manifest>) {
    if |b| < 74 then None
    else
      match ReadList(b[74..])
      case NotRead => None
      case Read(ps, afterPrincipals) =>
        match ReadList(afterPrincipals)
        case NotRead => None
        case Read(rs, afterItems) =>
          match ReadList(afterItems)
          case NotRead => None
          case Read(ws, end) =>
            var principals, items, policies := ReadPrincipals(ps), ReadItems(rs), ReadPolicies(f, ws);
            if principals.None? || items.None? || policies.None? || end != [] then None
            else Some(Manifest(if f.V1? then 1 else 2, suite, Number(b[..2]), b[2..34], Number(b[34..42]), b[42..74],
                               principals.value, items.value, policies.value))
  }

  /** The domain, the version and, in the second format, the source suite come first. */
  function Decode(b: Bytes): (m: Option<Manifest>) {
    match ReadDomain(b)
    case NotRead => None
    case Read(prefix, rest) =>
      if prefix != (DOMAIN, 1) || |rest| < 2 then None
      else if Number(rest[..2]) == 1 then ReadTail(V1, None, rest[2..])
      else if Number(rest[..2]) == 2 && |rest| >= 4 then ReadTail(V2, Some(Number(rest[2..4])), rest[4..])
      else None
  }

  // ----- every record is read back -----

  lemma Split(p: Bytes, x: Bytes)
    ensures (p + x)[..|p|] == p && (p + x)[|p|..] == x
  {
  }

  lemma Split3(p: Bytes, q: Bytes, x: Bytes)
    ensures var b := p + (q + x); b[..|p|] == p && b[|p|..|p| + |q|] == q && b[|p| + |q|..] == x
  {
    Split(p, q + x);
    Split(q, x);
  }

  lemma PrincipalRead(p: Principal)
    requires PrincipalWide(p) && PrincipalOk(p)
    ensures ReadPrincipal(EncodePrincipal(p)) == Some(p)
  {
    hide Field, ReadField;
    var end: Bytes := [Flag(p.owner)];
    Split3(p.id, p.descriptorDigest, Field(p.displayLabel) + end);
    FieldRead(p.displayLabel, end);
  }

  lemma DescriptorRead(d: Descriptor)
    requires DescriptorWide(d) && DescriptorOk(d)
    ensures |EncodeDescriptor(d)| == 97 && ReadDescriptor(EncodeDescriptor(d)) == Some(d)
  {
    hide BigEndian, Number, Canonical.Fits;
    var b := EncodeDescriptor(d);
    var revision, length := BigEndian(d.revision, 8), BigEndian(d.ciphertextLength, 4);
    var schema, epoch := BigEndian(d.plaintextSchema, 1), BigEndian(d.keyEpoch, 8);
    assert b[..8] == revision && b[8..40] == d.sealId && b[40..52] == d.nonce && b[52..56] == length;
    assert b[56..88] == d.ciphertextDigest && b[88..89] == schema && b[89..] == epoch;
    BigEndianSpells(d.revision, 8);
    BigEndianSpells(d.ciphertextLength, 4);
    BigEndianSpells(d.plaintextSchema, 1);
    BigEndianSpells(d.keyEpoch, 8);
  }

  lemma GrantRead(g: Grant)
    requires |g.principalId| == 32
    ensures ReadGrant(EncodeGrant(g)) == Some(g)
  {
    var end: Bytes := [RoleTag(g.role), Flag(g.direct)];
    Split(g.principalId, end);
    var b := EncodeGrant(g);
    assert b[32] == end[0] && b[33] == end[1];
  }

  lemma {:induction false} GrantsRead(gs: seq<Grant>)
    requires forall k :: 0 <= k < |gs| ==> |gs[k].principalId| == 32
    ensures ReadGrants(GrantRecords(gs)) == Some(gs)
  {
    hide EncodeGrant, ReadGrant;
    if gs == [] {
    } else {
      GrantRead(gs[0]);
      GrantsRead(gs[1..]);
      assert GrantRecords(gs)[1..] == GrantRecords(gs[1..]);
      assert gs == [gs[0]] + gs[1..];
    }
  }

  lemma WitnessedRead(w: Option<WitnessedSlots>)
    requires w.Some? ==> |w.value.policyId| == 32 && |w.value.descriptorSlot| == 32 && |w.value.bodySlot| == 32
    ensures ReadWitnessed(EncodeWitnessed(w)) == Some(w)
  {
    if w.Some? {
      var s, b := w.value, EncodeWitnessed(w);
      assert b[1..33] == s.policyId && b[33..65] == s.descriptorSlot && b[65..] == s.bodySlot;
    }
  }

  lemma ItemRead(i: Item)
    requires ItemWide(i) && ItemOk(i)
    ensures ReadItem(EncodeItem(i)) == Some(i)
  {
    hide Field, ReadField, ListBytes, ReadList, EncodeDescriptor, ReadDescriptor, GrantRecords, ReadGrants,
         EncodeWitnessed, ReadWitnessed;
    var kind: Bytes := [KindTag(i.kind)];
    var end := ListBytes(GrantRecords(i.grants)) + EncodeWitnessed(i.witnessed);
    var rest := i.initialHash + (i.directSlotDigest + end);
    var tail := Field(EncodeDescriptor(i.descriptor)) + rest;
    var b := EncodeItem(i);
    Split3(i.sourceId, i.destinationId, kind + tail);
    Split(kind, tail);
    assert b[64] == kind[0] && b[65..] == b[64..][1..] == tail;
    FieldRead(EncodeDescriptor(i.descriptor), rest);
    DescriptorRead(i.descriptor);
    Split3(i.initialHash, i.directSlotDigest, end);
    ListRead(GrantRecords(i.grants), EncodeWitnessed(i.witnessed));
    GrantsRead(i.grants);
    WitnessedRead(i.witnessed);
  }

  lemma PolicyRead(f: Format, p: PolicyEntry)
    requires PolicyWide(f, p) && PolicyOk(p)
    ensures ReadPolicy(f, EncodePolicy(p)) == Some(p)
  {
    hide BigEndian, Number, Canonical.Fits;
    var b := EncodePolicy(p);
    if f.V1? {
      assert b[..32] == p.sourceId && b[32..64] == p.destinationId && b[64..] == p.intent;
    } else {
      assert b[..32] == p.sourceId && b[32..40] == BigEndian(p.sourceRevision.value, 8);
      assert b[40..72] == p.destinationId && b[72..] == p.intent;
      BigEndianSpells(p.sourceRevision.value, 8);
    }
  }

  lemma {:induction false} PrincipalsRead(ps: seq<Principal>)
    requires forall k :: 0 <= k < |ps| ==> PrincipalWide(ps[k]) && PrincipalOk(ps[k])
    ensures ReadPrincipals(PrincipalRecords(ps)) == Some(ps)
  {
    hide EncodePrincipal, ReadPrincipal, PrincipalOk, PrincipalWide;
    if ps == [] {
    } else {
      PrincipalRead(ps[0]);
      PrincipalsRead(ps[1..]);
      assert PrincipalRecords(ps)[1..] == PrincipalRecords(ps[1..]);
      assert ps == [ps[0]] + ps[1..];
    }
  }

  lemma {:induction false} ItemsRead(items: seq<Item>)
    requires forall k :: 0 <= k < |items| ==> ItemWide(items[k]) && ItemOk(items[k])
    ensures ReadItems(ItemRecords(items)) == Some(items)
  {
    hide EncodeItem, ReadItem, ItemOk, ItemWide;
    if items == [] {
    } else {
      ItemRead(items[0]);
      ItemsRead(items[1..]);
      assert ItemRecords(items)[1..] == ItemRecords(items[1..]);
      assert items == [items[0]] + items[1..];
    }
  }

  lemma {:induction false} PoliciesRead(f: Format, ps: seq<PolicyEntry>)
    requires forall k :: 0 <= k < |ps| ==> PolicyWide(f, ps[k]) && PolicyOk(ps[k])
    ensures ReadPolicies(f, PolicyRecords(ps)) == Some(ps)
  {
    hide EncodePolicy, ReadPolicy, PolicyOk, PolicyWide;
    if ps == [] {
    } else {
      PolicyRead(f, ps[0]);
      PoliciesRead(f, ps[1..]);
      assert PolicyRecords(ps)[1..] == PolicyRecords(ps[1..]);
      assert ps == [ps[0]] + ps[1..];
    }
  }

  // ----- whole manifests -----

  lemma RecordsFrameable(m: Manifest)
    requires Encodable(m)
    ensures AllFrameable(PrincipalRecords(m.principals)) && AllFrameable(ItemRecords(m.items))
    ensures AllFrameable(PolicyRecords(m.policies))
  {
    hide EncodePrincipal, EncodeItem, EncodePolicy, Canonical.Fits, GrantRecords, EncodeDescriptor;
  }

  lemma RecordsRead(f: Format, m: Manifest)
    requires WellFormed(f, m)
    ensures ReadPrincipals(PrincipalRecords(m.principals)) == Some(m.principals)
    ensures ReadItems(ItemRecords(m.items)) == Some(m.items)
    ensures ReadPolicies(f, PolicyRecords(m.policies)) == Some(m.policies)
  {
    hide PrincipalOk, ItemOk, PolicyOk, PrincipalWide, ItemWide, PolicyWide, Canonical.Fits;
    PrincipalsRead(m.principals);
    ItemsRead(m.items);
    PoliciesRead(f, m.policies);
  }

  lemma HeadRead(m: Manifest, lists: Bytes)
    requires Canonical.Fits(m.destinationSuite, 2) && Canonical.Fits(m.createdAt, 8)
    requires |m.vaultId| == 32 && |m.actingOwner| == 32
    ensures var b := BigEndian(m.destinationSuite, 2)
                     + (m.vaultId + (BigEndian(m.createdAt, 8) + (m.actingOwner + lists)));
      && |b| >= 74 && b[74..] == lists && b[2..34] == m.vaultId && b[42..74] == m.actingOwner
      && Number(b[..2]) == m.destinationSuite && Number(b[34..42]) == m.createdAt
  {
    hide BigEndian, Number, Canonical.Fits;
    var b := BigEndian(m.destinationSuite, 2) + (m.vaultId + (BigEndian(m.createdAt, 8) + (m.actingOwner + lists)));
    assert b[..2] == BigEndian(m.destinationSuite, 2) && b[34..42] == BigEndian(m.createdAt, 8);
    assert b[2..34] == m.vaultId && b[42..74] == m.actingOwner && b[74..] == lists;
    BigEndianSpells(m.destinationSuite, 2);
    BigEndianSpells(m.createdAt, 8);
  }

  lemma TailRead(f: Format, m: Manifest)
    requires WellFormed(f, m)
    ensures ReadTail(f, m.sourceSuite, EncodeTail(m)) == Some(m)
  {
    hide BigEndian, Number, Canonical.Fits, ListBytes, ReadList, PrincipalRecords, ItemRecords, PolicyRecords,
         ReadPrincipals, ReadItems, ReadPolicies;
    var ps, items, ws := PrincipalRecords(m.principals), ItemRecords(m.items), PolicyRecords(m.policies);
    var lists := ListBytes(ps) + (ListBytes(items) + ListBytes(ws));
    RecordsFrameable(m);
    HeadRead(m, lists);
    ListRead(ps, ListBytes(items) + ListBytes(ws));
    ListRead(items, ListBytes(ws));
    assert ListBytes(ws) + [] == ListBytes(ws);
    ListRead(ws, []);
    RecordsRead(f, m);
  }

  /** Every well-formed manifest of either format is read back from its bytes, field by field. */
  lemma RoundTrip(f: Format, m: Manifest)
    requires WellFormed(f, m)
    ensures Decode(Encode(m)) == Some(m)
  {
    hide BigEndian, Number, EncodeTail, ReadTail, Jce, ReadDomain, Canonical.Fits;
    var suite := if f.V2? then BigEndian(m.sourceSuite.value, 2) else [];
    var rest := BigEndian(m.version, 2) + (suite + EncodeTail(m));
    DomainHasNoNul();
    DomainRead(DOMAIN, rest);
    BigEndianSpells(m.version, 2);
    Split3(BigEndian(m.version, 2), suite, EncodeTail(m));
    if f.V2? { BigEndianSpells(m.sourceSuite.value, 2); }
    TailRead(f, m);
  }

  lemma DomainHasNoNul()
    ensures 0 !in DOMAIN
  {
    hide Ascii;
    AsciiHasNoNul("jury-v1/rollover/bootstrap");
  }

  /** Equal bytes come from equal manifests of equal format, for any number of principals, items, grants and
      policies. */
  lemma EncodeInjective(f: Format, m: Manifest, g: Format, n: Manifest)
    requires WellFormed(f, m) && WellFormed(g, n) && Encode(m) == Encode(n)
    ensures f == g && m == n
  {
    hide Encode, Decode;
    RoundTrip(f, m);
    RoundTrip(g, n);
  }

  /** Without fixed widths neighbouring identifiers run together. */
  lemma WidthsAreNeeded() returns (m: Manifest, n: Manifest)
    ensures m != n && Encodable(m) && Encodable(n) && Encode(m) == Encode(n)
  {
    var p, q := Principal([1], [], [], true), Principal([], [1], [], true);
    m := Manifest(1, None, 1, [], 0, [], [p], [], []);
    n := m.(principals := [q]);
    assert EncodePrincipal(p) == EncodePrincipal(q);
    assert PrincipalRecords([p]) == PrincipalRecords([q]);
    assert m.principals[0] != n.principals[0];
    assert Canonical.Fits(1, 2) && Canonical.Fits(0, 8);
    assert forall k :: 0 <= k < |m.principals| ==> PrincipalOk(m.principals[k]);
    assert forall k :: 0 <= k < |n.principals| ==> PrincipalOk(n.principals[k]);
  }

  // ----- the encoding loops -----

  /** None is a raised overflow. */
  method EncodeManifest(m: Manifest) returns (r: Option<Bytes>)
    ensures r.Some? <==> Encodable(m)
    ensures r.Some? ==> r.value == Encode(m)
  {
    hide BigEndian, Canonical.Fits, EncodePrincipal, EncodeItem, EncodePolicy, ListBytes, PrincipalOk, ItemOk, PolicyOk;
    if |m.principals| >= U32_LIMIT || |m.items| >= U32_LIMIT || |m.policies| >= U32_LIMIT
       || !Canonical.Fits(m.version, 2) || !Canonical.Fits(m.destinationSuite, 2) || !Canonical.Fits(m.createdAt, 8)
       || (m.sourceSuite.Some? && !Canonical.Fits(m.sourceSuite.value, 2)) {
      return None;
    }
    var principals: seq<Bytes> := [];
    for k := 0 to |m.principals|
      invariant principals == PrincipalRecords(m.principals[..k])
      invariant forall j :: 0 <= j < k ==> PrincipalOk(m.principals[j])
    {
      if !PrincipalOk(m.principals[k]) {
        return None;
      }
      principals := principals + [EncodePrincipal(m.principals[k])];
    }
    var items: seq<Bytes> := [];
    for k := 0 to |m.items|
      invariant items == ItemRecords(m.items[..k])
      invariant forall j :: 0 <= j < k ==> ItemOk(m.items[j])
    {
      if !ItemOk(m.items[k]) {
        return None;
      }
      items := items + [EncodeItem(m.items[k])];
    }
    var policies: seq<Bytes> := [];
    for k := 0 to |m.policies|
      invariant policies == PolicyRecords(m.policies[..k])
      invariant forall j :: 0 <= j < k ==> PolicyOk(m.policies[j])
    {
      if !PolicyOk(m.policies[k]) {
        return None;
      }
      policies := policies + [EncodePolicy(m.policies[k])];
    }
    assert m.principals[..|m.principals|] == m.principals;
    assert m.items[..|m.items|] == m.items && m.policies[..|m.policies|] == m.policies;
    var tail := BigEndian(m.destinationSuite, 2) + (m.vaultId + (BigEndian(m.createdAt, 8) + (m.actingOwner
                + (ListBytes(principals) + (ListBytes(items) + ListBytes(policies))))));
    return Some(Jce(DOMAIN) + (BigEndian(m.version, 2)
                + ((if m.sourceSuite.Some? then BigEndian(m.sourceSuite.value, 2) else []) + tail)));
  }
}
