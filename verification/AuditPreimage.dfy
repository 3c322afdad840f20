/**
 The byte preimage of an audit event MAC. It determines every field it frames,
 which is why module LocalState may take a MAC as a constructor of the event's
 body.
 */
module AuditPreimage {
  import opened Common
  import opened Canonical
  import L = LocalState

  datatype ItemScope = ItemScope(itemId: Bytes, name: Option<Bytes>)

  datatype EventFields = EventFields(
    version: nat,
    principalId: Bytes,
    vaultId: Bytes,
    genesis: Bytes,
    policySequence: nat,
    operationId: Bytes,
    action: L.Action,
    item: Option<ItemScope>,
    outcome: L.Outcome,
    previousMac: Bytes
  )

  // ----- tags of the frozen format -----

  function ActionTag(action: L.Action): (t: Octet) {
    match action
    case VaultCreateOrImport => 1
    case IdentityAction => 2
    case PolicyMutation => 3
    case ItemMutation => 4
    case ItemRead => 5
    case Transfer => 6
    case Backup => 7
    case Restore => 8
    case ExecuteOrInject => 9
    case WitnessRequest => 10
    case Verification => 11
    case PrivacyCover => 12
  }

  function StageTag(stage: L.FailureStage): (t: Octet) {
    match stage
    case PublicSyntax => 1
    case Authorization => 2
    case PrivateAuthentication => 3
    case Mutation => 4
    case DurableCommit => 5
    case Execution => 6
  }

  function OutcomeTags(outcome: L.Outcome): (t: Bytes)
    ensures |t| == 2
  {
    match outcome
    case Success => [1, 0]
    case Denied => [2, 0]
    case Cancelled => [3, 0]
    case Failed(stage) => [4, StageTag(stage)]
  }

  function ActionOf(t: Octet): (a: Option<L.Action>) {
    if t == 1 then Some(L.VaultCreateOrImport)
    else if t == 2 then Some(L.IdentityAction)
    else if t == 3 then Some(L.PolicyMutation)
    else if t == 4 then Some(L.ItemMutation)
    else if t == 5 then Some(L.ItemRead)
    else if t == 6 then Some(L.Transfer)
    else if t == 7 then Some(L.Backup)
    else if t == 8 then Some(L.Restore)
    else if t == 9 then Some(L.ExecuteOrInject)
    else if t == 10 then Some(L.WitnessRequest)
    else if t == 11 then Some(L.Verification)
    else if t == 12 then Some(L.PrivacyCover)
    else None
  }

  function StageOf(t: Octet): (s: Option<L.FailureStage>) {
    if t == 1 then Some(L.PublicSyntax)
    else if t == 2 then Some(L.Authorization)
    else if t == 3 then Some(L.PrivateAuthentication)
    else if t == 4 then Some(L.Mutation)
    else if t == 5 then Some(L.DurableCommit)
    else if t == 6 then Some(L.Execution)
    else None
  }

  function OutcomeOf(outcome: Octet, stage: Octet): (o: Option<L.Outcome>) {
    if outcome == 4 then if StageOf(stage).Some? then Some(L.Failed(StageOf(stage).value)) else None
    else if stage != 0 then None
    else if outcome == 1 then Some(L.Success)
    else if outcome == 2 then Some(L.Denied)
    else if outcome == 3 then Some(L.Cancelled)
    else None
  }

  /** The tags of an action and an outcome name them again. */
  lemma TagsRead(a: L.Action, o: L.Outcome)
    ensures ActionOf(ActionTag(a)) == Some(a)
    ensures OutcomeOf(OutcomeTags(o)[0], OutcomeTags(o)[1]) == Some(o)
  {
  }

  const DOMAIN: Bytes := Ascii("jury-v1/audit/event-mac")

  predicate FieldsOk(e: EventFields) {
    && Canonical.Fits(e.version, 2) && Canonical.Fits(e.policySequence, 8)
    && |e.principalId| == 32 && |e.vaultId| == 32 && |e.genesis| == 32 && |e.operationId| == 32
    && |e.previousMac| == 32
    && (e.item.Some? ==> |e.item.value.itemId| == 32)
    && (e.item.Some? && e.item.value.name.Some? ==> Frameable(e.item.value.name.value))
  }

  function ItemPart(item: Option<ItemScope>): (b: Bytes) {
    match item
    case None => [0]
    case Some(s) => [1] + s.itemId
  }

  function NamePart(item: Option<ItemScope>): (b: Bytes) {
    if item.Some? && item.value.name.Some? then [1] + Field(item.value.name.value) else [0]
  }

  function EventEnd(e: EventFields): (b: Bytes) {
    [ActionTag(e.action)] + (ItemPart(e.item) + (NamePart(e.item) + (OutcomeTags(e.outcome) + e.previousMac)))
  }

  function Preimage(e: EventFields): (b: Bytes) {
    Jce(DOMAIN) + (BigEndian(e.version, 2) + (e.principalId + (e.vaultId + (e.genesis
    + (BigEndian(e.policySequence, 8) + (e.operationId + EventEnd(e)))))))
  }

  // ----- reading a preimage back -----

  /** A zero, or a one and the item identifier; then a zero, or a one and the framed name. */
  function ReadItem(b: Bytes): (r: Read<Option<ItemScope>>) {
    if |b| < 2 then NotRead
    else if b[0] == 0 then if b[1] == 0 then Read(None, b[2..]) else NotRead
    else if b[0] != 1 || |b| < 34 then NotRead
    else if b[33] == 0 then Read(Some(ItemScope(b[1..33], None)), b[34..])
    else if b[33] != 1 then NotRead
    else
      match ReadField(b[34..])
      case NotRead => NotRead
      case Read(name, rest) => Read(Some(ItemScope(b[1..33], Some(name))), rest)
  }

  /** Version, principal, vault, genesis, policy sequence, operation, action, item, outcome, previous MAC. */
  function ReadEvent(b: Bytes): (e: Option<EventFields>) {
    match ReadDomain(b)
    case NotRead => None
    case Read(prefix, f) =>
      if prefix != (DOMAIN, 1) || |f| < 139 || ActionOf(f[138]).None? then None
      else
        match ReadItem(f[139..])
        case NotRead => None
        case Read(item, end) =>
          if |end| != 34 || OutcomeOf(end[0], end[1]).None? then None
          else Some(EventFields(Number(f[..2]), f[2..34], f[34..66], f[66..98], Number(f[98..106]), f[106..138],
                                ActionOf(f[138]).value, item, OutcomeOf(end[0], end[1]).value, end[2..]))
  }

  lemma UnnamedRead(id: Bytes, x: Bytes)
    requires |id| == 32
    ensures ReadItem(([1] + id) + ([0] + x)) == Read(Some(ItemScope(id, None)), x)
  {
    hide ReadField;
    var b := ([1] + id) + ([0] + x);
    assert b[1..33] == id && b[33] == 0 && b[34..] == x;
  }

  lemma NamedRead(id: Bytes, name: Bytes, x: Bytes)
    requires |id| == 32 && Frameable(name)
    ensures ReadItem(([1] + id) + (([1] + Field(name)) + x)) == Read(Some(ItemScope(id, Some(name))), x)
  {
    hide Field, ReadField;
    var b := ([1] + id) + (([1] + Field(name)) + x);
    assert b[1..33] == id && b[33] == 1;
    assert b[34..] == Field(name) + x;
    FieldRead(name, x);
  }

  lemma ItemPartRead(item: Option<ItemScope>, x: Bytes)
    requires item.Some? ==> |item.value.itemId| == 32
    requires item.Some? && item.value.name.Some? ==> Frameable(item.value.name.value)
    ensures ReadItem(ItemPart(item) + (NamePart(item) + x)) == Read(item, x)
  {
    hide Field, ReadField;
    if item.None? {
      assert (ItemPart(item) + (NamePart(item) + x))[2..] == x;
    } else {
      hide ReadItem;
      if item.value.name.None? {
        UnnamedRead(item.value.itemId, x);
      } else {
        NamedRead(item.value.itemId, item.value.name.value, x);
      }
    }
  }

  lemma HeadRead(e: EventFields, rest: Bytes)
    requires FieldsOk(e)
    ensures var f := BigEndian(e.version, 2) + (e.principalId + (e.vaultId + (e.genesis
                     + (BigEndian(e.policySequence, 8) + (e.operationId + ([ActionTag(e.action)] + rest))))));
      && |f| >= 139 && f[2..34] == e.principalId && f[34..66] == e.vaultId && f[66..98] == e.genesis
      && f[106..138] == e.operationId && f[138] == ActionTag(e.action) && f[139..] == rest
      && Number(f[..2]) == e.version && Number(f[98..106]) == e.policySequence
  {
    hide BigEndian, Number, Canonical.Fits, ActionTag;
    var f := BigEndian(e.version, 2) + (e.principalId + (e.vaultId + (e.genesis
             + (BigEndian(e.policySequence, 8) + (e.operationId + ([ActionTag(e.action)] + rest))))));
    assert f[..2] == BigEndian(e.version, 2) && f[98..106] == BigEndian(e.policySequence, 8);
    assert f[2..34] == e.principalId && f[34..66] == e.vaultId && f[66..98] == e.genesis;
    assert f[106..138] == e.operationId && f[139..] == rest;
    BigEndianSpells(e.version, 2);
    BigEndianSpells(e.policySequence, 8);
  }

  /** Every field is read back from the preimage at its place. */
  lemma PreimageRead(e: EventFields)
    requires FieldsOk(e)
    ensures ReadEvent(Preimage(e)) == Some(e)
  {
    hide BigEndian, Number, Canonical.Fits, Jce, ReadDomain, ItemPart, NamePart, ReadItem, ActionTag, ActionOf,
         OutcomeTags, OutcomeOf, Ascii;
    AsciiHasNoNul("jury-v1/audit/event-mac");
    var end := OutcomeTags(e.outcome) + e.previousMac;
    var rest := ItemPart(e.item) + (NamePart(e.item) + end);
    var f := BigEndian(e.version, 2) + (e.principalId + (e.vaultId + (e.genesis
             + (BigEndian(e.policySequence, 8) + (e.operationId + ([ActionTag(e.action)] + rest))))));
    DomainRead(DOMAIN, f);
    HeadRead(e, rest);
    ItemPartRead(e.item, end);
    TagsRead(e.action, e.outcome);
    assert end[0] == OutcomeTags(e.outcome)[0] && end[1] == OutcomeTags(e.outcome)[1] && end[2..] == e.previousMac;
  }

  /** Equal preimages frame equal fields. */
  lemma PreimageInjective(d: EventFields, e: EventFields)
    requires FieldsOk(d) && FieldsOk(e) && Preimage(d) == Preimage(e)
    ensures d == e
  {
    hide Preimage, ReadEvent;
    PreimageRead(d);
    PreimageRead(e);
  }

  // ----- the body of an event -----

  /** The 32 bytes that stand for identifiers, digests and MACs. */
  datatype Naming = Naming(id: nat -> Bytes, digest: L.Digest -> Bytes, mac: L.Mac -> Bytes)

  function ItemFields(n: Naming, item: Option<L.ItemScope>): (f: Option<ItemScope>) {
    if item.None? then None else Some(ItemScope(n.id(item.value.itemId), item.value.name))
  }

  function FieldsOf(n: Naming, b: L.EventBody): (f: EventFields) {
    EventFields(b.version, n.id(b.scope.principalId), n.id(b.scope.vaultId), n.digest(b.scope.genesis),
                b.policySequence, n.digest(b.operationId), b.action, ItemFields(n, b.item), b.outcome,
                n.mac(b.previous))
  }

  /** The naming tells the identifiers, digests and MACs of these two bodies apart. */
  predicate Separates(n: Naming, a: L.EventBody, b: L.EventBody) {
    && (n.id(a.scope.principalId) == n.id(b.scope.principalId) ==> a.scope.principalId == b.scope.principalId)
    && (n.id(a.scope.vaultId) == n.id(b.scope.vaultId) ==> a.scope.vaultId == b.scope.vaultId)
    && (n.digest(a.scope.genesis) == n.digest(b.scope.genesis) ==> a.scope.genesis == b.scope.genesis)
    && (n.digest(a.operationId) == n.digest(b.operationId) ==> a.operationId == b.operationId)
    && (a.item.Some? && b.item.Some? && n.id(a.item.value.itemId) == n.id(b.item.value.itemId) ==>
          a.item.value.itemId == b.item.value.itemId)
    && (n.mac(a.previous) == n.mac(b.previous) ==> a.previous == b.previous)
  }

  /** Two event bodies with one preimage are equal, unless two of their identifiers, digests or MACs collide. */
  lemma BodyInjective(n: Naming, a: L.EventBody, b: L.EventBody)
    requires FieldsOk(FieldsOf(n, a)) && FieldsOk(FieldsOf(n, b)) && Separates(n, a, b)
    requires Preimage(FieldsOf(n, a)) == Preimage(FieldsOf(n, b))
    ensures a == b
  {
    hide Preimage, FieldsOk;
    PreimageInjective(FieldsOf(n, a), FieldsOf(n, b));
  }
}
