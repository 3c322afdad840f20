/** Vault policy state and the replay of one revision's operations. */
module Policy {
  import opened Common

  type Id = nat

  const MAX_LABEL_BYTES: nat := 256
  const MAX_ITEMS: nat := 1024
  const MAX_REVISIONS: nat := 4096

  datatype Kind = Human | Machine | Approver | Witness
  datatype Role = Owner | Writer | Reader

  /** `signed` says whether the descriptor's self-signature verifies. */
  datatype Principal = Principal(id: Id, kind: Kind, recipientKey: nat, verificationKey: nat, signed: bool)

  datatype Member = Member(descriptor: Principal, name: seq<nat>)

  datatype Descriptor = Descriptor(revision: nat, keyEpoch: nat, digest: nat)

  /** One recipient's direct slots. The format demands one for the descriptor and one for the body, with one role;
      `key` is the recipient key they are sealed to. */
  datatype Direct = Direct(role: Role, key: nat)

  /** An item's witnessed slots: the digest of their witness policy, the witnesses holding a capsule, and the policy
      identifier, revision, threshold and share indexes they repeat as `terms`. */
  datatype Witnessed = Witnessed(policy: nat, holders: set<Id>, terms: nat)

  /** How an item is reached. Its slots all carry one epoch and one policy sequence, and an access mode that follows
      from which of the two parts are present; `seals` is everything encrypted in them. */
  datatype Access = Access(direct: map<Id, Direct>, witnessed: Option<Witnessed>, epoch: nat, sequence: nat, seals: nat)

  datatype Item = Item(epoch: nat, descriptor: Descriptor, revisionHash: nat, grants: map<Id, Role>, access: Access)

  datatype WitnessKeys = WitnessKeys(signing: nat, contribution: nat)

  /** A catalogued witness policy with its active members. `ours` says that it names this vault and suite, `sound` that
      it validates, has the digest it is catalogued under and can be dealt shares. */
  datatype WitnessPolicy = WitnessPolicy(
    witnesses: map<Id, WitnessKeys>, approvers: map<Id, nat>, terms: nat, sequence: nat, ours: bool, sound: bool)

  datatype Tombstone = Tombstone(sequence: nat, descriptorDigest: nat, revisionHash: nat)

  datatype State = State(
    sequence: nat,
    members: map<Id, Member>,
    usedIds: set<Id>,
    usedRecipientKeys: set<nat>,
    usedVerificationKeys: set<nat>,
    owners: set<Id>,
    items: map<Id, Item>,
    usedItemIds: set<Id>,
    tombstones: map<Id, Tombstone>,
    witnessPolicies: map<nat, WitnessPolicy>)

  datatype Op =
    | PrincipalAdd(descriptor: Principal, name: seq<nat>, proof: nat)
    | PrincipalLabelChange(id: Id, priorLabel: seq<nat>, nextLabel: seq<nat>)
    | PrincipalRemove(id: Id, reason: nat)
    | OwnerGrant(id: Id)
    | OwnerRevoke(id: Id)
    | ItemCreate(item: Id, epoch: nat, itemDescriptor: Descriptor, revisionHash: nat, access: Access)
    | ItemRename(item: Id, priorRevision: nat, itemDescriptor: Descriptor)
    | ItemDelete(item: Id, descriptorDigest: nat, revisionHash: nat, deletionSequence: nat)
    | ItemRoleChange(item: Id, id: Id, priorRole: Option<Role>, nextRole: Option<Role>)
    | ItemReaderSetChange(item: Id, priorEpoch: nat, nextEpoch: nat, priorReaders: seq<Id>, nextReaders: seq<Id>,
                          itemDescriptor: Descriptor, revisionHash: nat)
    | ItemSlotsReplace(item: Id, nextEpoch: nat, access: Access)
    | PrincipalReplace(id: Id, descriptor: Principal, proof: nat)

  function Lookup<T>(m: map<Id, T>, k: Id): (r: Option<T>) {
    if k in m then Some(m[k]) else None
  }

  // ---- Identifiers in canonical order ----

  predicate IsLeast(s: set<Id>, x: Id) { x in s && forall y :: y in s ==> x <= y }

  lemma HasLeast(s: set<Id>, x: Id)
    requires x in s
    ensures exists m :: IsLeast(s, m)
    decreases x
  {
    if y :| y in s && y < x { HasLeast(s, y); } else { assert IsLeast(s, x); }
  }

  function Least(s: set<Id>): (m: Id)
    requires s != {}
    ensures IsLeast(s, m)
  {
    assert exists m :: IsLeast(s, m) by { var x :| x in s; HasLeast(s, x); }
    var m :| IsLeast(s, m);
    m
  }

  /** The members of a set in ascending order. */
  function Sorted(s: set<Id>): (r: seq<Id>)
    ensures Ascending(r)
    ensures forall x :: x in r <==> x in s
  {
    if s == {} then [] else
      var m := Least(s);
      var rest := Sorted(s - {m});
      assert forall k :: 0 <= k < |rest| ==> rest[k] in s - {m};
      [m] + rest
  }

  // ---- State ----

  predicate Serves(kind: Kind) { kind == Human || kind == Machine }

  predicate Eligible(s: State, id: Id) {
    id in s.members && Serves(s.members[id].descriptor.kind)
  }

  /** Who can read an item: the owners and everyone granted a role on it. */
  function Readers(s: State, item: Id): (r: set<Id>) {
    s.owners + (if item in s.items then s.items[item].grants.Keys else {})
  }

  predicate GrantsComplete(s: State, grants: map<Id, Role>) {
    forall id :: id in grants ==> Eligible(s, id) && grants[id] != Owner
  }

  predicate OwnersComplete(s: State) {
    s.owners != {} && forall id :: id in s.owners ==> id in s.members && s.members[id].descriptor.kind == Human
  }

  function EffectiveRole(s: State, grants: map<Id, Role>, id: Id): (r: Option<Role>) {
    if id in s.owners then Some(Owner) else Lookup(grants, id)
  }

  /** A slot's role is current when it is the effective one; readers and writers need no new slot for each other's. */
  predicate RoleCurrent(effective: Option<Role>, role: Role) {
    effective == Some(role) || (effective.Some? && effective.value != Owner && role != Owner)
  }

  /** Every direct recipient still has its role and key, and if anyone has a direct slot then every owner does. */
  predicate DirectComplete(s: State, grants: map<Id, Role>, direct: map<Id, Direct>) {
    && (forall id :: id in direct ==>
          && Eligible(s, id) && RoleCurrent(EffectiveRole(s, grants, id), direct[id].role)
          && direct[id].key == s.members[id].descriptor.recipientKey)
    && (direct != map[] ==> s.owners <= direct.Keys)
  }

  /** Every member the policy names is a principal of that kind with those keys. */
  predicate MembersPresent(members: map<Id, Member>, q: WitnessPolicy) {
    && (forall id :: id in q.witnesses ==>
          && id in members && members[id].descriptor.kind == Witness
          && members[id].descriptor.verificationKey == q.witnesses[id].signing
          && members[id].descriptor.recipientKey == q.witnesses[id].contribution)
    && (forall id :: id in q.approvers ==>
          && id in members && members[id].descriptor.kind == Approver
          && members[id].descriptor.verificationKey == q.approvers[id])
  }

  /** The witnessed slots repeat a catalogued policy whose members are all present. */
  predicate WitnessedComplete(s: State, w: Witnessed, sequence: nat) {
    && w.policy in s.witnessPolicies
    && var q := s.witnessPolicies[w.policy];
    && q.ours && q.terms == w.terms && q.sequence == sequence && w.holders == q.witnesses.Keys
    && MembersPresent(s.members, q)
  }

  predicate HasPath(a: Access) { a.direct != map[] || a.witnessed.Some? }

  predicate AccessComplete(s: State, it: Item) {
    && HasPath(it.access)
    && it.access.epoch == it.epoch && 0 < it.access.sequence <= s.sequence
    && DirectComplete(s, it.grants, it.access.direct)
    && (it.access.witnessed.Some? ==> WitnessedComplete(s, it.access.witnessed.value, it.access.sequence))
  }

  predicate Complete(s: State) {
    && OwnersComplete(s)
    && forall i :: i in s.items ==> GrantsComplete(s, s.items[i].grants) && AccessComplete(s, s.items[i])
  }

  /** The part of validity that each operation keeps by itself. A key epoch starts at one and rises at most once in a
      revision, so it never passes the sequence. */
  predicate Rooted(s: State) {
    && s.members.Keys <= s.usedIds
    && s.items.Keys + s.tombstones.Keys <= s.usedItemIds
    && s.items.Keys !! s.tombstones.Keys
    && (forall id :: id in s.members ==> s.members[id].descriptor.id == id)
    && (forall i :: i in s.items ==> 1 <= s.items[i].epoch <= s.sequence)
  }

  /** What every replayed state satisfies. */
  predicate Valid(s: State) {
    Complete(s) && |s.items.Keys| <= MAX_ITEMS && Rooted(s)
  }

  // ---- One operation ----

  predicate LabelOk(name: seq<nat>) { 0 < |name| <= MAX_LABEL_BYTES }

  predicate DescriptorOk(d: Descriptor) { d.revision != 0 && d.keyEpoch != 0 }

  function SaturatingNext(n: nat): (r: nat) { if n < MAX_U64 then n + 1 else MAX_U64 }

  predicate AccessFormatOk(a: Access, epoch: nat, sequence: nat) {
    HasPath(a) && a.epoch == epoch && a.sequence == sequence
  }

  predicate FormatOk(op: Op, sequence: nat) {
    match op
    case PrincipalAdd(_, name, _) => LabelOk(name)
    case PrincipalLabelChange(_, prior, next) => LabelOk(prior) && LabelOk(next)
    case ItemCreate(_, epoch, d, _, access) => epoch == 1 && DescriptorOk(d) && AccessFormatOk(access, epoch, sequence)
    case ItemRename(_, prior, d) => prior != 0 && d.revision == SaturatingNext(prior) && DescriptorOk(d)
    case ItemDelete(_, _, _, deleted) => deleted == sequence
    case ItemRoleChange(_, _, prior, next) => prior != next
    case ItemReaderSetChange(_, prior, next, before, after, d, _) =>
      && prior != 0 && next == SaturatingNext(prior)
      && Ascending(before) && Ascending(after)
      && d.keyEpoch == next && DescriptorOk(d)
    case ItemSlotsReplace(_, next, access) => next != 0 && AccessFormatOk(access, next, sequence)
    case PrincipalReplace(prior, d, _) => prior != d.id
    case _ => true
  }

  datatype Key = PrincipalKey(tag: nat, id: Id) | ItemKey(tag: nat, item: Id) | RoleKey(item: Id, id: Id)

  function KeyOf(op: Op): (r: Key) {
    match op
    case PrincipalAdd(d, _, _) => PrincipalKey(1, d.id)
    case PrincipalLabelChange(id, _, _) => PrincipalKey(2, id)
    case PrincipalRemove(id, _) => PrincipalKey(3, id)
    case OwnerGrant(id) => PrincipalKey(4, id)
    case OwnerRevoke(id) => PrincipalKey(5, id)
    case ItemCreate(item, _, _, _, _) => ItemKey(6, item)
    case ItemRename(item, _, _) => ItemKey(7, item)
    case ItemDelete(item, _, _, _) => ItemKey(8, item)
    case ItemRoleChange(item, id, _, _) => RoleKey(item, id)
    case ItemReaderSetChange(item, _, _, _, _, _, _) => ItemKey(10, item)
    case ItemSlotsReplace(item, _, _) => ItemKey(11, item)
    case PrincipalReplace(id, _, _) => PrincipalKey(12, id)
  }

  predicate Unused(s: State, d: Principal) {
    d.id !in s.usedIds && d.recipientKey !in s.usedRecipientKeys && d.verificationKey !in s.usedVerificationKeys
  }

  function Used(s: State, d: Principal): (r: State) {
    s.(usedIds := s.usedIds + {d.id},
       usedRecipientKeys := s.usedRecipientKeys + {d.recipientKey},
       usedVerificationKeys := s.usedVerificationKeys + {d.verificationKey})
  }

  function Renamed<T>(m: map<Id, T>, prior: Id, next: Id): (r: map<Id, T>) {
    if prior in m then (m - {prior})[next := m[prior]] else m
  }

  function RenamedOwners(owners: set<Id>, prior: Id, next: Id): (r: set<Id>) {
    if prior in owners then owners - {prior} + {next} else owners
  }

  function Added(s: State, d: Principal, name: seq<nat>): (r: Option<State>) {
    if d.signed && LabelOk(name) && Unused(s, d) then
      Some(Used(s, d).(members := s.members[d.id := Member(d, name)]))
    else None
  }

  function Replaced(s: State, prior: Id, d: Principal): (r: Option<State>) {
    if d.signed && prior in s.members && s.members[prior].descriptor.kind == d.kind && Unused(s, d) then
      Some(Used(s, d).(
        members := (s.members - {prior})[d.id := Member(d, s.members[prior].name)],
        owners := RenamedOwners(s.owners, prior, d.id),
        items := map i | i in s.items :: s.items[i].(grants := Renamed(s.items[i].grants, prior, d.id))))
    else None
  }

  function WithRole(grants: map<Id, Role>, id: Id, role: Option<Role>): (r: map<Id, Role>) {
    if role.Some? then grants[id := role.value] else grants - {id}
  }

  function WithGrants(s: State, item: Id, grants: map<Id, Role>): (r: State)
    requires item in s.items
  {
    s.(items := s.items[item := s.items[item].(grants := grants)])
  }

  function RoleChanged(s: State, item: Id, id: Id, prior: Option<Role>, next: Option<Role>): (r: Option<State>) {
    if && Eligible(s, id) && id !in s.owners
       && prior != Some(Owner) && next != Some(Owner)
       && item in s.items && Lookup(s.items[item].grants, id) == prior
    then Some(WithGrants(s, item, WithRole(s.items[item].grants, id, next)))
    else None
  }

  /** A revision while its operations are applied: the state so far and the announced rotations. */
  datatype Pending = Pending(state: State, readers: map<Id, ReaderRotation>, slots: map<Id, SlotRotation>)

  datatype ReaderRotation = ReaderRotation(
    priorEpoch: nat, nextEpoch: nat, priorReaders: seq<Id>, nextReaders: seq<Id>,
    descriptor: Descriptor, revisionHash: nat)

  datatype SlotRotation = SlotRotation(nextEpoch: nat, access: Access)

  function Keep(p: Pending, s: Option<State>): (r: Option<Pending>) {
    if s.Some? then Some(p.(state := s.value)) else None
  }

  function Removed(s: State, id: Id): (r: Option<State>) {
    if id in s.owners || (exists i :: i in s.items && id in s.items[i].grants) || id !in s.members then None
    else Some(s.(members := s.members - {id}))
  }

  function Relabelled(s: State, id: Id, prior: seq<nat>, next: seq<nat>): (r: Option<State>) {
    if id in s.members && s.members[id].name == prior && prior != next then
      Some(s.(members := s.members[id := s.members[id].(name := next)]))
    else None
  }

  function OwnerAdded(s: State, id: Id): (r: Option<State>) {
    if id in s.members && s.members[id].descriptor.kind == Human && id !in s.owners then
      Some(s.(owners := s.owners + {id}))
    else None
  }

  function OwnerDropped(s: State, id: Id): (r: Option<State>) {
    if id in s.owners && s.owners - {id} != {} then Some(s.(owners := s.owners - {id})) else None
  }

  /** The roles a created item starts with are those of its direct slots, owners aside. */
  function SlotGrants(direct: map<Id, Direct>): (r: map<Id, Role>) {
    map id | id in direct && direct[id].role != Owner :: direct[id].role
  }

  function ItemAdded(s: State, item: Id, created: Item): (r: Option<State>) {
    if item !in s.usedItemIds then
      Some(s.(usedItemIds := s.usedItemIds + {item}, items := s.items[item := created]))
    else None
  }

  function ItemRenamed(s: State, item: Id, prior: nat, d: Descriptor): (r: Option<State>) {
    if item in s.items && s.items[item].descriptor.revision == prior && d.keyEpoch == s.items[item].epoch then
      Some(s.(items := s.items[item := s.items[item].(descriptor := d)]))
    else None
  }

  function ItemDropped(s: State, item: Id, digest: nat, hash: nat, sequence: nat): (r: Option<State>) {
    if item in s.items && s.items[item].descriptor.digest == digest && s.items[item].revisionHash == hash then
      Some(s.(items := s.items - {item}, tombstones := s.tombstones[item := Tombstone(sequence, digest, hash)]))
    else None
  }

  function Apply(p: Pending, op: Op): (r: Option<Pending>) {
    var s := p.state;
    match op
    case PrincipalAdd(d, name, _) => Keep(p, Added(s, d, name))
    case PrincipalLabelChange(id, prior, next) => Keep(p, Relabelled(s, id, prior, next))
    case PrincipalRemove(id, _) => Keep(p, Removed(s, id))
    case OwnerGrant(id) => Keep(p, OwnerAdded(s, id))
    case OwnerRevoke(id) => Keep(p, OwnerDropped(s, id))
    case ItemCreate(item, epoch, d, hash, access) =>
      Keep(p, ItemAdded(s, item, Item(epoch, d, hash, SlotGrants(access.direct), access)))
    case ItemRename(item, prior, d) => Keep(p, ItemRenamed(s, item, prior, d))
    case ItemDelete(item, digest, hash, sequence) => Keep(p, ItemDropped(s, item, digest, hash, sequence))
    case ItemRoleChange(item, id, prior, next) => Keep(p, RoleChanged(s, item, id, prior, next))
    case ItemReaderSetChange(item, prior, next, before, after, d, hash) =>
      Some(p.(readers := p.readers[item := ReaderRotation(prior, next, before, after, d, hash)]))
    case ItemSlotsReplace(item, next, access) => Some(p.(slots := p.slots[item := SlotRotation(next, access)]))
    case PrincipalReplace(prior, d, _) => Keep(p, Replaced(s, prior, d))
  }

  function ApplyAll(p: Pending, ops: seq<Op>): (r: Option<Pending>)
    decreases |ops|
  {
    if ops == [] then Some(p) else
      var q := Apply(p, ops[0]);
      if q.None? then None else ApplyAll(q.value, ops[1..])
  }

  lemma {:induction false} ApplyAppend(p: Pending, a: seq<Op>, b: seq<Op>)
    ensures ApplyAll(p, a + b) == (var q := ApplyAll(p, a); if q.None? then None else ApplyAll(q.value, b))
    decreases |a|
  {
    if a == [] {
      assert a + b == b;
    } else {
      assert (a + b)[0] == a[0] && (a + b)[1..] == a[1..] + b;
      var q := Apply(p, a[0]);
      if q.Some? { ApplyAppend(q.value, a[1..], b); }
    }
  }

  // ---- The whole revision ----

  /** The rotations announced for an item agree with what the operations did to its readers. */
  predicate RotationOk(prior: State, p: Pending, item: Id)
    requires item in prior.items && item in p.state.items
  {
    var before, after := Readers(prior, item), Readers(p.state, item);
    var epoch := prior.items[item].epoch;
    var r, t := Lookup(p.readers, item), Lookup(p.slots, item);
    && (before != after ==> r.Some?)
    && (r.Some? ==> t.Some?)
    && epoch < MAX_U64
    && (r.Some? ==>
          && r.value.priorEpoch == epoch && r.value.nextEpoch == epoch + 1
          && r.value.priorReaders == Sorted(before) && r.value.nextReaders == Sorted(after)
          && r.value.descriptor.keyEpoch == epoch + 1)
    && (t.Some? ==>
          && t.value.nextEpoch == epoch + 1
          && (before != after || p.state.items[item].access != t.value.access)
          && (if r.Some? then r.value.descriptor
              else p.state.items[item].descriptor).keyEpoch == epoch + 1)
  }

  function Rotated(prior: State, p: Pending, item: Id): (r: Item)
    requires item in p.state.items
  {
    var it := p.state.items[item];
    var r, t := Lookup(p.readers, item), Lookup(p.slots, item);
    if item !in prior.items then it else
      var described := if r.Some? then
                         it.(descriptor := r.value.descriptor, revisionHash := r.value.revisionHash)
                       else it;
      if t.Some? then
        described.(epoch := prior.items[item].epoch + 1, access := t.value.access)
      else described
  }

  predicate RotationsOk(prior: State, p: Pending) {
    && (forall i :: i in prior.items && i in p.state.items ==> RotationOk(prior, p, i))
    && (forall i :: i in p.readers.Keys + p.slots.Keys ==> i in prior.items && i in p.state.items)
  }

  function WithRotations(prior: State, p: Pending): (r: State) {
    p.state.(items := map i | i in p.state.items :: Rotated(prior, p, i))
  }

  predicate DistinctKeys(ops: seq<Op>) {
    forall i, j :: 0 <= i < j < |ops| ==> KeyOf(ops[i]) != KeyOf(ops[j])
  }

  predicate WellFormed(ops: seq<Op>, sequence: nat) {
    && ops != []
    && (forall k :: 0 <= k < |ops| ==> FormatOk(ops[k], sequence))
    && DistinctKeys(ops)
  }

  function Start(prior: State, sequence: nat): (r: Pending) { Pending(prior.(sequence := sequence), map[], map[]) }

  /** The state after a revision, or none when any of its checks fails. */
  function Replay(prior: State, ops: seq<Op>): (r: Option<State>) {
    var sequence := prior.sequence + 1;
    if !WellFormed(ops, sequence) then None else
      var p := ApplyAll(Start(prior, sequence), ops);
      if p.None? || !RotationsOk(prior, p.value) then None else
        var next := WithRotations(prior, p.value);
        if Complete(next) && |next.items.Keys| <= MAX_ITEMS then Some(next) else None
  }

  predicate MayAuthor(s: State, author: Principal) {
    author.id in s.owners && author.id in s.members && s.members[author.id].descriptor == author
  }

  /** The state after a revision an identity prepares. */
  function Prepared(prior: State, author: Principal, ops: seq<Op>): (r: Option<State>) {
    if MayAuthor(prior, author) && prior.sequence < MAX_REVISIONS then Replay(prior, ops) else None
  }

  // ---- Every replayed state is valid ----

  lemma ReplacedRooted(s: State, prior: Id, d: Principal)
    requires Rooted(s)
    ensures var t := Replaced(s, prior, d); t.Some? ==> Rooted(t.value) && t.value.sequence == s.sequence
  {
  }

  lemma ItemAddedRooted(s: State, item: Id, created: Item)
    requires Rooted(s) && created.epoch == 1 <= s.sequence
    ensures var t := ItemAdded(s, item, created); t.Some? ==> Rooted(t.value) && t.value.sequence == s.sequence
  {
  }

  lemma ItemDroppedRooted(s: State, item: Id, digest: nat, hash: nat, sequence: nat)
    requires Rooted(s)
    ensures var t := ItemDropped(s, item, digest, hash, sequence);
      t.Some? ==> Rooted(t.value) && t.value.sequence == s.sequence
  {
  }

  lemma MembersRooted(s: State, op: Op)
    requires Rooted(s)
    ensures op.PrincipalAdd? ==> var t := Added(s, op.descriptor, op.name); t.Some? ==> Rooted(t.value)
    ensures op.PrincipalLabelChange? ==>
      var t := Relabelled(s, op.id, op.priorLabel, op.nextLabel); t.Some? ==> Rooted(t.value)
    ensures op.PrincipalRemove? ==> var t := Removed(s, op.id); t.Some? ==> Rooted(t.value)
    ensures op.OwnerGrant? ==> var t := OwnerAdded(s, op.id); t.Some? ==> Rooted(t.value)
    ensures op.OwnerRevoke? ==> var t := OwnerDropped(s, op.id); t.Some? ==> Rooted(t.value)
  {
  }

  lemma ItemEditsRooted(s: State, op: Op)
    requires Rooted(s)
    ensures op.ItemRename? ==>
      var t := ItemRenamed(s, op.item, op.priorRevision, op.itemDescriptor); t.Some? ==> Rooted(t.value)
    ensures op.ItemRoleChange? ==>
      var t := RoleChanged(s, op.item, op.id, op.priorRole, op.nextRole); t.Some? ==> Rooted(t.value)
  {
  }

  lemma ApplyKeepsRooted(p: Pending, op: Op, sequence: nat)
    requires Rooted(p.state) && p.state.sequence >= 1 && FormatOk(op, sequence)
    ensures var q := Apply(p, op); q.Some? ==> Rooted(q.value.state) && q.value.state.sequence == p.state.sequence
  {
    hide Replaced, ItemAdded, ItemDropped, Rooted;
    var s := p.state;
    if op.PrincipalReplace? { ReplacedRooted(s, op.id, op.descriptor); }
    if op.ItemCreate? {
      var grants := SlotGrants(op.access.direct);
      ItemAddedRooted(s, op.item, Item(op.epoch, op.itemDescriptor, op.revisionHash, grants, op.access));
    }
    if op.ItemDelete? { ItemDroppedRooted(s, op.item, op.descriptorDigest, op.revisionHash, op.deletionSequence); }
    MembersRooted(s, op);
    ItemEditsRooted(s, op);
  }

  lemma {:induction false} ApplyAllKeepsRooted(p: Pending, ops: seq<Op>, sequence: nat)
    requires Rooted(p.state) && p.state.sequence >= 1
    requires forall k :: 0 <= k < |ops| ==> FormatOk(ops[k], sequence)
    ensures var q := ApplyAll(p, ops); q.Some? ==> Rooted(q.value.state) && q.value.state.sequence == p.state.sequence
    decreases |ops|
  {
    hide Rooted, FormatOk, Apply;
    if ops == [] {
    } else {
      assert FormatOk(ops[0], sequence);
      ApplyKeepsRooted(p, ops[0], sequence);
      var q := Apply(p, ops[0]);
      if q.Some? { ApplyAllKeepsRooted(q.value, ops[1..], sequence); }
    }
  }

  lemma RotationsKeepRooted(prior: State, p: Pending)
    requires Rooted(prior) && Rooted(p.state) && RotationsOk(prior, p) && p.state.sequence == prior.sequence + 1
    ensures Rooted(WithRotations(prior, p))
  {
    var t := WithRotations(prior, p);
    forall i | i in t.items ensures 1 <= t.items[i].epoch <= t.sequence {
      assert i in prior.items ==> RotationOk(prior, p, i);
    }
  }

  lemma FreshRooted(s: State, sequence: nat)
    requires Rooted(s) && s.sequence <= sequence
    ensures Rooted(Start(s, sequence).state)
  {
  }

  lemma FormatsOf(ops: seq<Op>, sequence: nat)
    requires WellFormed(ops, sequence)
    ensures forall k :: 0 <= k < |ops| ==> FormatOk(ops[k], sequence)
  {
  }

  /** Replaying any revision on a valid state gives a valid state, whatever the operations are. */
  lemma ReplayKeepsValid(s: State, ops: seq<Op>)
    requires Valid(s)
    ensures var t := Replay(s, ops); t.Some? ==> Valid(t.value) && t.value.sequence == s.sequence + 1
  {
    hide ApplyAll, WellFormed, Complete, RotationsOk, Rooted, Rotated;
    var t := Replay(s, ops);
    var sequence := s.sequence + 1;
    if t.Some? {
      var p := Start(s, sequence);
      FreshRooted(s, sequence);
      FormatsOf(ops, sequence);
      ApplyAllKeepsRooted(p, ops, sequence);
      RotationsKeepRooted(s, ApplyAll(p, ops).value);
    }
  }

  /** A revision as a journal holds it. `authentic` says that its vault, sequence, predecessor hash, signature and
      resulting state hash all verify. */
  datatype Revision = Revision(author: Id, timestamp: nat, authentic: bool, ops: seq<Op>)

  /** The state after one revision of a journal. Only the first revision of a rollover bootstrap may be empty. */
  function Followed(s: State, clock: nat, r: Revision, bootstrap: bool): (t: Option<State>) {
    if !r.authentic || r.timestamp < clock || s.sequence >= MAX_REVISIONS then None
    else if r.author !in s.owners || r.author !in s.members then None
    else if r.ops != [] then Replay(s, r.ops)
    else if bootstrap && s.sequence == 0 then Some(s.(sequence := 1))
    else None
  }

  function ReplayAll(s: State, clock: nat, revisions: seq<Revision>, bootstrap: bool): (r: Option<State>)
    decreases |revisions|
  {
    if revisions == [] then Some(s) else
      var t := Followed(s, clock, revisions[0], bootstrap);
      if t.None? then None else ReplayAll(t.value, revisions[0].timestamp, revisions[1..], bootstrap)
  }

  /** "owner" */
  const OWNER_LABEL: seq<nat> := [111, 119, 110, 101, 114]

  /** The state a journal starts from: one human owner and no item. */
  function Genesis(owner: Principal, policies: map<nat, WitnessPolicy>): (s: State) {
    State(0, map[owner.id := Member(owner, OWNER_LABEL)], {owner.id}, {owner.recipientKey}, {owner.verificationKey},
          {owner.id}, map[], {}, map[], policies)
  }

  lemma GenesisValid(owner: Principal, policies: map<nat, WitnessPolicy>)
    ensures Valid(Genesis(owner, policies)) <==> owner.kind == Human
  {
    var s := Genesis(owner, policies);
    assert owner.id in s.owners;
    assert s.items.Keys == {};
  }

  lemma FollowedKeepsValid(s: State, clock: nat, r: Revision, bootstrap: bool)
    requires Valid(s)
    ensures var t := Followed(s, clock, r, bootstrap);
      t.Some? ==> Valid(t.value) && t.value.sequence == s.sequence + 1 <= MAX_REVISIONS
  {
    hide Valid, Replay;
    if r.ops != [] {
      ReplayKeepsValid(s, r.ops);
    } else if s.sequence == 0 {
      LaterValid(s, 1);
    }
  }

  lemma LaterValid(s: State, sequence: nat)
    requires Valid(s) && s.sequence <= sequence
    ensures Valid(s.(sequence := sequence))
  {
    hide GrantsComplete, AccessComplete;
    var t := s.(sequence := sequence);
    forall i | i in t.items ensures GrantsComplete(t, t.items[i].grants) && AccessComplete(t, t.items[i]) {
      ItemLater(s, s.items[i], sequence);
    }
  }

  lemma ItemLater(s: State, it: Item, sequence: nat)
    requires GrantsComplete(s, it.grants) && AccessComplete(s, it) && s.sequence <= sequence
    ensures GrantsComplete(s.(sequence := sequence), it.grants) && AccessComplete(s.(sequence := sequence), it)
  {
  }

  /** Every state along a journal is valid, and its sequence counts the revisions. */
  lemma {:induction false} JournalKeepsValid(s: State, clock: nat, revisions: seq<Revision>, bootstrap: bool)
    requires Valid(s)
    ensures var t := ReplayAll(s, clock, revisions, bootstrap);
      t.Some? ==> Valid(t.value) && t.value.sequence == s.sequence + |revisions|
    decreases |revisions|
  {
    hide Valid, Followed;
    if revisions == [] {
    } else {
      FollowedKeepsValid(s, clock, revisions[0], bootstrap);
      var t := Followed(s, clock, revisions[0], bootstrap);
      if t.Some? { JournalKeepsValid(t.value, revisions[0].timestamp, revisions[1..], bootstrap); }
    }
  }

  // ---- Nothing used is used again ----

  /** Later states remember every identifier, key and deletion, and bring back no principal and no item. */
  ghost predicate Remembers(s: State, t: State) {
    && s.usedIds <= t.usedIds && s.usedItemIds <= t.usedItemIds
    && s.usedRecipientKeys <= t.usedRecipientKeys && s.usedVerificationKeys <= t.usedVerificationKeys
    && (forall i :: i in s.tombstones ==> i in t.tombstones && t.tombstones[i] == s.tombstones[i])
    && (forall id :: id in s.usedIds && id in t.members ==> id in s.members)
    && (forall i :: i in s.usedItemIds && i in t.items ==> i in s.items)
  }

  lemma ApplyRemembers(p: Pending, op: Op)
    requires Rooted(p.state)
    ensures var q := Apply(p, op); q.Some? ==> Remembers(p.state, q.value.state)
  {
    hide Replaced;
    if op.PrincipalReplace? { ReplacedRemembers(p.state, op.id, op.descriptor); }
  }

  lemma ReplacedRemembers(s: State, prior: Id, d: Principal)
    ensures var t := Replaced(s, prior, d); t.Some? ==> Remembers(s, t.value)
  {
  }

  lemma RemembersTwice(s: State, t: State, u: State)
    requires Remembers(s, t) && Remembers(t, u)
    ensures Remembers(s, u)
  {
  }

  lemma {:induction false} ApplyAllRemembers(p: Pending, ops: seq<Op>, sequence: nat)
    requires Rooted(p.state) && p.state.sequence >= 1
    requires forall k :: 0 <= k < |ops| ==> FormatOk(ops[k], sequence)
    ensures var q := ApplyAll(p, ops); q.Some? ==> Remembers(p.state, q.value.state)
    decreases |ops|
  {
    hide Rooted, FormatOk, Apply, Remembers;
    if ops == [] {
      RemembersItself(p.state);
    } else {
      assert FormatOk(ops[0], sequence);
      ApplyKeepsRooted(p, ops[0], sequence);
      ApplyRemembers(p, ops[0]);
      var q := Apply(p, ops[0]);
      if q.Some? {
        ApplyAllRemembers(q.value, ops[1..], sequence);
        var r := ApplyAll(q.value, ops[1..]);
        if r.Some? { RemembersTwice(p.state, q.value.state, r.value.state); }
      }
    }
  }

  lemma RemembersItself(s: State)
    ensures Remembers(s, s)
  {
  }

  lemma RotationsRemember(s: State, prior: State, p: Pending, sequence: nat)
    requires Remembers(s.(sequence := sequence), p.state)
    ensures Remembers(s, WithRotations(prior, p))
  {
    hide Rotated;
  }

  lemma ReplayRemembers(s: State, ops: seq<Op>)
    requires Valid(s)
    ensures var t := Replay(s, ops); t.Some? ==> Remembers(s, t.value)
  {
    hide ApplyAll, WellFormed, Complete, RotationsOk, WithRotations, Rooted, Remembers;
    var t := Replay(s, ops);
    var sequence := s.sequence + 1;
    if t.Some? {
      var p := Start(s, sequence);
      FreshRooted(s, sequence);
      FormatsOf(ops, sequence);
      ApplyAllRemembers(p, ops, sequence);
      RotationsRemember(s, s, ApplyAll(p, ops).value, sequence);
    }
  }

  lemma FollowedRemembers(s: State, clock: nat, r: Revision, bootstrap: bool)
    requires Valid(s)
    ensures var t := Followed(s, clock, r, bootstrap); t.Some? ==> Remembers(s, t.value)
  {
    hide Valid, Replay;
    if r.ops != [] { ReplayRemembers(s, r.ops); }
  }

  /** Along any journal an identifier that has been used is never given to another principal or item: what was
      replaced, removed or deleted stays so. */
  lemma {:induction false} JournalRemembers(s: State, clock: nat, revisions: seq<Revision>, bootstrap: bool)
    requires Valid(s)
    ensures var t := ReplayAll(s, clock, revisions, bootstrap); t.Some? ==> Remembers(s, t.value)
    decreases |revisions|
  {
    hide Valid, Followed, Remembers;
    if revisions == [] {
      RemembersItself(s);
    } else {
      var t := Followed(s, clock, revisions[0], bootstrap);
      FollowedKeepsValid(s, clock, revisions[0], bootstrap);
      FollowedRemembers(s, clock, revisions[0], bootstrap);
      if t.Some? {
        JournalRemembers(t.value, revisions[0].timestamp, revisions[1..], bootstrap);
        var u := ReplayAll(t.value, revisions[0].timestamp, revisions[1..], bootstrap);
        if u.Some? { RemembersTwice(s, t.value, u.value); }
      }
    }
  }
}
