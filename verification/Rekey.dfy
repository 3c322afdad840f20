/** The policy operations a rekey emits for one item. */
module Rekey {
  import opened Common
  import opened Policy
  import opened Batch

  datatype Replacement = Replacement(prior: Id, next: Principal, proof: nat)
  datatype Registration = Registration(descriptor: Principal, name: seq<nat>, proof: nat)
  datatype OwnerChange = GrantOwner(id: Id) | RevokeOwner(id: Id)

  /** What a batch changes besides the items themselves; at most one part may be present. */
  datatype Change = Change(
    replacement: Option<Replacement>, registration: Option<Registration>, ownerChange: Option<OwnerChange>)

  datatype Grant = Grant(id: Id, role: Role)

  /** The envelope an item is rekeyed from. `authentic` says that its ancestry verifies. */
  datatype Envelope = Envelope(authentic: bool, hash: nat, descriptor: Descriptor, epoch: nat, revision: nat)

  /** The access asked for on one item, where `quorum` is the digest of a witness policy, the envelope it starts from,
      and what sealing its new content and slots produced: the descriptor's ciphertext digest, the hash of the new item
      revision and everything encrypted. */
  datatype Plan = Plan(
    item: Id, grants: seq<Grant>, direct: seq<Id>, quorum: Option<nat>, prior: Envelope,
    digest: nat, revisionHash: nat, seals: nat)

  predicate AtMostOne(c: Change) {
    && !(c.replacement.Some? && c.registration.Some?)
    && !(c.replacement.Some? && c.ownerChange.Some?)
    && !(c.registration.Some? && c.ownerChange.Some?)
  }

  predicate Repeats(grants: seq<Grant>) {
    exists i, j :: 0 <= i < j < |grants| && grants[i].id == grants[j].id
  }

  function GrantMap(grants: seq<Grant>): (m: map<Id, Role>)
    ensures forall id :: id in m ==> Grant(id, m[id]) in grants
    ensures forall k :: 0 <= k < |grants| ==> grants[k].id in m
  {
    if grants == [] then map[] else
      var last := grants[|grants| - 1];
      GrantMap(grants[..|grants| - 1])[last.id := last.role]
  }

  /** The descriptor a principal will have, if it will be known at all. */
  function DescriptorAfter(s: State, c: Change, id: Id): (r: Option<Principal>) {
    if c.replacement.Some? && c.replacement.value.next.id == id then Some(c.replacement.value.next)
    else if c.registration.Some? && c.registration.value.descriptor.id == id then Some(c.registration.value.descriptor)
    else if id in s.members then Some(s.members[id].descriptor)
    else None
  }

  predicate ServesAfter(s: State, c: Change, id: Id) {
    var d := DescriptorAfter(s, c, id); d.Some? && Serves(d.value.kind)
  }

  predicate GrantOk(s: State, c: Change, g: Grant) {
    && g.role != Owner
    && g.id !in s.owners
    && (c.replacement.Some? ==>
          && g.id != c.replacement.value.prior
          && !(g.id == c.replacement.value.next.id && c.replacement.value.prior in s.owners))
    && ServesAfter(s, c, g.id)
  }

  predicate GrantsOk(s: State, c: Change, grants: seq<Grant>) {
    && (c.replacement.Some? ==> c.replacement.value.prior != c.replacement.value.next.id)
    && (c.registration.Some? ==> c.registration.value.descriptor.id !in s.usedIds)
    && (c.ownerChange.Some? ==> (c.ownerChange.value.RevokeOwner? <==> c.ownerChange.value.id in s.owners))
    && !Repeats(grants)
    && forall k :: 0 <= k < |grants| ==> GrantOk(s, c, grants[k])
  }

  function EffectivePrior(c: Change, grants: map<Id, Role>): (r: map<Id, Role>) {
    if c.replacement.Some? then Renamed(grants, c.replacement.value.prior, c.replacement.value.next.id) else grants
  }

  function RoleOps(item: Id, prior: map<Id, Role>, next: map<Id, Role>, ids: seq<Id>): (r: seq<Op>) {
    if ids == [] then [] else
      (if Lookup(prior, ids[0]) == Lookup(next, ids[0]) then []
       else [ItemRoleChange(item, ids[0], Lookup(prior, ids[0]), Lookup(next, ids[0]))])
      + RoleOps(item, prior, next, ids[1..])
  }

  function NextOwners(s: State, c: Change): (r: set<Id>) {
    var ids := if c.replacement.Some? then
                 RenamedOwners(s.owners, c.replacement.value.prior, c.replacement.value.next.id)
               else s.owners;
    match c.ownerChange
    case None => ids
    case Some(GrantOwner(id)) => ids + {id}
    case Some(RevokeOwner(id)) => ids - {id}
  }

  function NextReaders(s: State, c: Change, plan: Plan): (r: seq<Id>) {
    Sorted(NextOwners(s, c) + GrantMap(plan.grants).Keys)
  }

  // ---- The slots ----

  /** Whoever is asked for gets direct slots, and so does every next owner as soon as anyone does. */
  function Recipients(s: State, c: Change, plan: Plan): (r: set<Id>) {
    if plan.direct == [] then {} else (set id | id in plan.direct) + NextOwners(s, c)
  }

  predicate WillOwn(s: State, c: Change, id: Id) {
    || (match c.ownerChange
        case Some(GrantOwner(candidate)) => candidate == id || id in s.owners
        case Some(RevokeOwner(candidate)) => candidate != id && id in s.owners
        case None => id in s.owners)
    || (c.replacement.Some? && c.replacement.value.next.id == id && c.replacement.value.prior in s.owners)
  }

  function DirectRole(s: State, c: Change, plan: Plan, id: Id): (r: Option<Role>) {
    if WillOwn(s, c, id) then Some(Owner) else Lookup(GrantMap(plan.grants), id)
  }

  predicate RecipientOk(s: State, c: Change, plan: Plan, id: Id) {
    ServesAfter(s, c, id) && DirectRole(s, c, plan, id).Some?
  }

  predicate SlotsOk(s: State, c: Change, plan: Plan) {
    && Ascending(plan.direct)
    && (c.replacement.Some? ==> c.replacement.value.prior !in plan.direct)
    && (forall id :: id in Recipients(s, c, plan) ==> RecipientOk(s, c, plan, id))
    && (plan.quorum.Some? ==>
          && plan.quorum.value in s.witnessPolicies
          && var q := s.witnessPolicies[plan.quorum.value]; q.sound && q.ours && q.sequence == s.sequence + 1)
    && (plan.direct != [] || plan.quorum.Some?)
  }

  /** One recipient's direct slots. */
  function DirectSlot(s: State, c: Change, plan: Plan, id: Id): (r: Direct)
    requires RecipientOk(s, c, plan, id)
  {
    Direct(DirectRole(s, c, plan, id).value, DescriptorAfter(s, c, id).value.recipientKey)
  }

  function DirectSlots(s: State, c: Change, plan: Plan): (r: map<Id, Direct>) {
    map id | id in Recipients(s, c, plan) && RecipientOk(s, c, plan, id) :: DirectSlot(s, c, plan, id)
  }

  function WitnessedSlots(s: State, plan: Plan): (r: Option<Witnessed>) {
    if plan.quorum.Some? && plan.quorum.value in s.witnessPolicies then
      var q := s.witnessPolicies[plan.quorum.value];
      Some(Witnessed(plan.quorum.value, q.witnesses.Keys, q.terms))
    else None
  }

  function NextAccess(s: State, c: Change, plan: Plan): (r: Access)
    requires plan.item in s.items
  {
    Access(DirectSlots(s, c, plan), WitnessedSlots(s, plan), s.items[plan.item].epoch + 1, s.sequence + 1, plan.seals)
  }

  // ---- The operations ----

  function Prefix(c: Change): (r: seq<Op>) {
    (if c.registration.Some? then
       [PrincipalAdd(c.registration.value.descriptor, c.registration.value.name, c.registration.value.proof)] else [])
    + (if c.replacement.Some? then
         [PrincipalReplace(c.replacement.value.prior, c.replacement.value.next, c.replacement.value.proof)] else [])
    + (if c.ownerChange.Some? && c.ownerChange.value.RevokeOwner? then [OwnerRevoke(c.ownerChange.value.id)] else [])
  }

  function Suffix(c: Change): (r: seq<Op>) {
    if c.ownerChange.Some? && c.ownerChange.value.GrantOwner? then [OwnerGrant(c.ownerChange.value.id)] else []
  }

  function Roles(s: State, c: Change, plan: Plan): (r: seq<Op>)
    requires plan.item in s.items
  {
    var prior, next := EffectivePrior(c, s.items[plan.item].grants), GrantMap(plan.grants);
    RoleOps(plan.item, prior, next, Sorted(prior.Keys + next.Keys))
  }

  function NextDescriptor(s: State, plan: Plan): (r: Descriptor)
    requires plan.item in s.items
  {
    Descriptor(s.items[plan.item].descriptor.revision + 1, s.items[plan.item].epoch + 1, plan.digest)
  }

  function Rotation(s: State, c: Change, plan: Plan): (r: seq<Op>)
    requires plan.item in s.items
  {
    var epoch := s.items[plan.item].epoch;
    [ItemReaderSetChange(plan.item, epoch, epoch + 1, Sorted(Readers(s, plan.item)), NextReaders(s, c, plan),
                         NextDescriptor(s, plan), plan.revisionHash),
     ItemSlotsReplace(plan.item, epoch + 1, NextAccess(s, c, plan))]
  }

  /** The envelope is the item's current one. */
  predicate AncestryOk(s: State, plan: Plan)
    requires plan.item in s.items
  {
    plan.prior.authentic &&
    var it := s.items[plan.item];
    it.revisionHash == plan.prior.hash && it.descriptor == plan.prior.descriptor && it.epoch == plan.prior.epoch
  }

  predicate AccessOk(s: State, c: Change, plan: Plan) {
    AtMostOne(c) && GrantsOk(s, c, plan.grants) && SlotsOk(s, c, plan)
  }

  predicate RekeyOk(s: State, c: Change, plan: Plan) {
    && plan.item in s.items && AncestryOk(s, plan)
    && s.sequence < MAX_U64 && plan.prior.epoch < MAX_U64 && plan.prior.descriptor.revision < MAX_U64
    && plan.prior.revision < MAX_U64
    && AccessOk(s, c, plan)
  }

  function Operations(s: State, c: Change, plan: Plan): (r: seq<Op>)
    requires plan.item in s.items
  {
    Prefix(c) + Roles(s, c, plan) + Suffix(c) + Rotation(s, c, plan)
  }

  /** One item's component, or none when the request is refused. */
  function Rekeyed(s: State, author: Id, timestamp: nat, c: Change, plan: Plan): (r: Option<Component>) {
    if RekeyOk(s, c, plan) then
      Some(Component(Operations(s, c, plan), Header(s.sequence + 1, author, timestamp)))
    else None
  }

  // ---- The same, step by step ----

  method RoleChangeOperations(item: Id, grants: map<Id, Role>, next: map<Id, Role>, c: Change) returns (ops: seq<Op>)
    ensures var prior := EffectivePrior(c, grants); ops == RoleOps(item, prior, next, Sorted(prior.Keys + next.Keys))
  {
    hide Sorted;
    var prior := grants;
    if c.replacement.Some? && c.replacement.value.prior in prior {
      var role := prior[c.replacement.value.prior];
      prior := prior - {c.replacement.value.prior};
      prior := prior[c.replacement.value.next.id := role];
    }
    assert prior == EffectivePrior(c, grants);
    ops := RoleDifferences(item, prior, next, Sorted(prior.Keys + next.Keys));
  }

  method RoleDifferences(item: Id, prior: map<Id, Role>, next: map<Id, Role>, ids: seq<Id>) returns (ops: seq<Op>)
    ensures ops == RoleOps(item, prior, next, ids)
  {
    hide RoleOps;
    ops := [];
    var k := 0;
    assert ids[0..] == ids;
    while k < |ids|
      invariant 0 <= k <= |ids|
      invariant ops + RoleOps(item, prior, next, ids[k..]) == RoleOps(item, prior, next, ids)
    {
      RoleOpsFrom(item, prior, next, ids, k);
      var before, after := Lookup(prior, ids[k]), Lookup(next, ids[k]);
      if before != after { ops := ops + [ItemRoleChange(item, ids[k], before, after)]; }
      k := k + 1;
    }
    RoleOpsFrom(item, prior, next, ids, k);
  }

  lemma RoleOpsFrom(item: Id, prior: map<Id, Role>, next: map<Id, Role>, ids: seq<Id>, k: nat)
    requires k <= |ids|
    ensures RoleOps(item, prior, next, ids[k..]) ==
      if k == |ids| then [] else
        (if Lookup(prior, ids[k]) == Lookup(next, ids[k]) then []
         else [ItemRoleChange(item, ids[k], Lookup(prior, ids[k]), Lookup(next, ids[k]))])
        + RoleOps(item, prior, next, ids[k + 1..])
  {
    if k < |ids| { assert ids[k..][0] == ids[k] && ids[k..][1..] == ids[k + 1..]; }
  }

  method NextOwnerIds(s: State, c: Change) returns (ids: set<Id>)
    ensures ids == NextOwners(s, c)
  {
    ids := set id | id in s.owners ::
      if c.replacement.Some? && c.replacement.value.prior == id then c.replacement.value.next.id else id;
    assert ids == NextOwners(s, c.(ownerChange := None));
    match c.ownerChange {
      case None =>
      case Some(GrantOwner(id)) => ids := ids + {id};
      case Some(RevokeOwner(id)) => ids := ids - {id};
    }
  }

  /** Walks the recipients in order and resolves each one's role and key, or refuses. */
  method ResolveDirect(s: State, c: Change, plan: Plan) returns (r: Option<map<Id, Direct>>)
    ensures r.Some? <==> forall id :: id in Recipients(s, c, plan) ==> RecipientOk(s, c, plan, id)
    ensures r.Some? ==> r.value == DirectSlots(s, c, plan)
  {
    hide Sorted, RecipientOk, DirectSlot, Recipients;
    var ids := Sorted(Recipients(s, c, plan));
    var slots: map<Id, Direct> := map[];
    var k := 0;
    while k < |ids|
      invariant 0 <= k <= |ids|
      invariant forall j :: 0 <= j < k ==> RecipientOk(s, c, plan, ids[j])
      invariant slots.Keys == set id | id in ids[..k]
      invariant forall id :: id in slots ==> RecipientOk(s, c, plan, id) && slots[id] == DirectSlot(s, c, plan, id)
    {
      if !RecipientOk(s, c, plan, ids[k]) { return None; }
      slots := slots[ids[k] := DirectSlot(s, c, plan, ids[k])];
      assert ids[..k + 1] == ids[..k] + [ids[k]];
      k := k + 1;
    }
    assert ids[..k] == ids;
    r := Some(slots);
  }

  /** Builds one item's component operation by operation. */
  method PrepareComponent(s: State, author: Id, timestamp: nat, c: Change, plan: Plan) returns (r: Option<Component>)
    ensures r == Rekeyed(s, author, timestamp, c, plan)
  {
    hide Sorted, GrantMap, RoleOps, Readers, NextOwners, GrantsOk, AtMostOne, EffectivePrior, DirectSlots, Recipients,
         RecipientOk, WitnessedSlots;
    if plan.item !in s.items || !AncestryOk(s, plan) { return None; }
    if s.sequence >= MAX_U64 || plan.prior.epoch >= MAX_U64 || plan.prior.descriptor.revision >= MAX_U64
       || plan.prior.revision >= MAX_U64 {
      return None;
    }
    if !AtMostOne(c) || !GrantsOk(s, c, plan.grants) { return None; }
    var direct := ResolveDirect(s, c, plan);
    if direct.None? || !SlotsOk(s, c, plan) { return None; }
    var ops := ChangeOperations(c);
    var roles := RoleChangeOperations(plan.item, s.items[plan.item].grants, GrantMap(plan.grants), c);
    ops := ops + roles;
    if c.ownerChange.Some? && c.ownerChange.value.GrantOwner? {
      ops := ops + [OwnerGrant(c.ownerChange.value.id)];
    }
    assert ops == Prefix(c) + Roles(s, c, plan) + Suffix(c);
    var owners := NextOwnerIds(s, c);
    var readers := Sorted(owners + GrantMap(plan.grants).Keys);
    var epoch := plan.prior.epoch;
    var descriptor := Descriptor(plan.prior.descriptor.revision + 1, epoch + 1, plan.digest);
    ops := ops + [ItemReaderSetChange(plan.item, epoch, epoch + 1, Sorted(Readers(s, plan.item)), readers,
                                      descriptor, plan.revisionHash)];
    var access := Access(direct.value, WitnessedSlots(s, plan), epoch + 1, s.sequence + 1, plan.seals);
    ops := ops + [ItemSlotsReplace(plan.item, epoch + 1, access)];
    assert ops == Operations(s, c, plan);
    r := Some(Component(ops, Header(s.sequence + 1, author, timestamp)));
  }

  method ChangeOperations(c: Change) returns (ops: seq<Op>)
    ensures ops == Prefix(c)
  {
    ops := [];
    if c.registration.Some? {
      var added := c.registration.value;
      ops := ops + [PrincipalAdd(added.descriptor, added.name, added.proof)];
    }
    if c.replacement.Some? {
      var swapped := c.replacement.value;
      ops := ops + [PrincipalReplace(swapped.prior, swapped.next, swapped.proof)];
    }
    if c.ownerChange.Some? && c.ownerChange.value.RevokeOwner? {
      ops := ops + [OwnerRevoke(c.ownerChange.value.id)];
    }
  }
}

/** A batch of rekeyed items, merged and replayed as one revision. */
module RekeyBatch {
  import opened Common
  import opened Policy
  import opened Batch
  import opened Rekey

  // ---- The shape of the merged batch ----

  ghost predicate Planable(s: State, c: Change, plans: seq<Plan>) {
    && plans != []
    && (forall k :: 0 <= k < |plans| ==> RekeyOk(s, c, plans[k]))
    && (forall i, j :: 0 <= i < j < |plans| ==> plans[i].item != plans[j].item)
  }

  function Body(s: State, c: Change, plan: Plan): (r: seq<Op>)
    requires plan.item in s.items
  {
    Roles(s, c, plan) + Rotation(s, c, plan)
  }

  ghost function Bodies(s: State, c: Change, plans: seq<Plan>): (r: seq<Op>)
    requires forall k :: 0 <= k < |plans| ==> plans[k].item in s.items
  {
    if plans == [] then [] else Body(s, c, plans[0]) + Bodies(s, c, plans[1..])
  }

  /** The components an author prepares at one time for one change. */
  function Components(s: State, author: Id, timestamp: nat, c: Change, plans: seq<Plan>): (r: seq<Component>)
    requires forall k :: 0 <= k < |plans| ==> RekeyOk(s, c, plans[k])
  {
    seq(|plans|, k requires 0 <= k < |plans| => Rekeyed(s, author, timestamp, c, plans[k]).value)
  }

  /** Their operations one after the other. */
  ghost function AllOperations(s: State, c: Change, plans: seq<Plan>): (r: seq<Op>)
    requires forall k :: 0 <= k < |plans| ==> RekeyOk(s, c, plans[k])
  {
    if plans == [] then [] else
      assert RekeyOk(s, c, plans[0]);
      Operations(s, c, plans[0]) + AllOperations(s, c, plans[1..])
  }

  lemma {:induction false} ComponentsFlat(s: State, author: Id, timestamp: nat, c: Change, plans: seq<Plan>)
    requires forall k :: 0 <= k < |plans| ==> RekeyOk(s, c, plans[k])
    ensures Flat(Components(s, author, timestamp, c, plans)) == AllOperations(s, c, plans)
    ensures PreparedFor(Components(s, author, timestamp, c, plans), Header(s.sequence + 1, author, timestamp))
    decreases |plans|
  {
    hide Operations, AccessOk;
    if plans == [] {
    } else {
      assert Components(s, author, timestamp, c, plans)[1..] == Components(s, author, timestamp, c, plans[1..]);
      ComponentsFlat(s, author, timestamp, c, plans[1..]);
    }
  }

  /** The batch as one list: the change first, then item by item, an owner grant last. */
  ghost function Whole(s: State, c: Change, plans: seq<Plan>): (r: seq<Op>)
    requires forall k :: 0 <= k < |plans| ==> plans[k].item in s.items
  {
    Prefix(c) + Bodies(s, c, plans) + Suffix(c)
  }

  predicate Plain(ops: seq<Op>) {
    forall k :: 0 <= k < |ops| ==> !Keyed(ops[k])
  }

  predicate NoGrants(ops: seq<Op>) { forall k :: 0 <= k < |ops| ==> !ops[k].OwnerGrant? }

  lemma {:induction false} RolesArePlain(item: Id, prior: map<Id, Role>, next: map<Id, Role>, ids: seq<Id>)
    ensures Plain(RoleOps(item, prior, next, ids))
  {
    if ids == [] {
    } else {
      RolesArePlain(item, prior, next, ids[1..]);
    }
  }

  lemma {:induction false} FreshAppend(seen: set<Op>, a: seq<Op>, b: seq<Op>)
    ensures Fresh(seen, a + b) == Fresh(seen, a) + Fresh(seen + Elements(a), b)
    decreases |a|
  {
    hide Keyed;
    if a == [] {
      assert a + b == b && seen + Elements(a) == seen;
    } else {
      assert (a + b)[0] == a[0] && (a + b)[1..] == a[1..] + b;
      var more := if Keyed(a[0]) && a[0] in seen then seen else seen + {a[0]};
      FreshAppend(more, a[1..], b);
      assert Elements(a) == {a[0]} + Elements(a[1..]);
      assert more + Elements(a[1..]) == seen + Elements(a);
    }
  }

  lemma {:induction false} FreshPlain(seen: set<Op>, a: seq<Op>)
    requires Plain(a)
    ensures Fresh(seen, a) == a
    decreases |a|
  {
    if a == [] {
    } else {
      FreshPlain(seen + {a[0]}, a[1..]);
    }
  }

  lemma {:induction false} SplitPlain(a: seq<Op>)
    requires NoGrants(a)
    ensures NonGrants(a) == a && Grants(a) == []
    decreases |a|
  {
    if a == [] {
    } else {
      SplitPlain(a[1..]);
    }
  }

  lemma BodyIsPlain(s: State, c: Change, plan: Plan)
    requires plan.item in s.items
    ensures Plain(Roles(s, c, plan)) && Plain(Rotation(s, c, plan)) && Plain(Body(s, c, plan))
  {
    hide RoleOps, Sorted, GrantMap, EffectivePrior, NextReaders, Readers;
    var prior, next := EffectivePrior(c, s.items[plan.item].grants), GrantMap(plan.grants);
    RolesArePlain(plan.item, prior, next, Sorted(prior.Keys + next.Keys));
  }

  lemma PlainHasNoGrants(ops: seq<Op>)
    requires Plain(ops)
    ensures NoGrants(ops)
  {
  }

  lemma {:induction false} BodiesArePlain(s: State, c: Change, plans: seq<Plan>)
    requires forall k :: 0 <= k < |plans| ==> plans[k].item in s.items
    ensures Plain(Bodies(s, c, plans))
    decreases |plans|
  {
    hide Body, Keyed;
    if plans == [] {
    } else {
      BodyIsPlain(s, c, plans[0]);
      BodiesArePlain(s, c, plans[1..]);
    }
  }

  /** At most one of the change's operations is present, and it is the only keyed one. */
  lemma ChangeIsOne(c: Change)
    requires AtMostOne(c)
    ensures |Prefix(c) + Suffix(c)| <= 1
    ensures forall k :: 0 <= k < |Prefix(c)| ==> Keyed(Prefix(c)[k]) && !Prefix(c)[k].OwnerGrant?
    ensures forall k :: 0 <= k < |Suffix(c)| ==> Keyed(Suffix(c)[k]) && Suffix(c)[k].OwnerGrant?
  {
  }

  lemma FreshOnce(seen: set<Op>, ops: seq<Op>)
    requires |ops| <= 1
    ensures Elements(ops) !! seen ==> Fresh(seen, ops) == ops
    ensures (forall k :: 0 <= k < |ops| ==> Keyed(ops[k])) && Elements(ops) <= seen ==> Fresh(seen, ops) == []
  {
    if ops != [] {
      assert ops[1..] == [];
      assert ops[0] in Elements(ops);
    }
  }

  lemma FreshFirst(pre: seq<Op>, roles: seq<Op>, suf: seq<Op>, rot: seq<Op>)
    requires Plain(roles) && Plain(rot) && |pre| <= 1 && |suf| <= 1 && Elements(pre + roles) !! Elements(suf)
    ensures Fresh({}, pre + roles + suf + rot) == pre + roles + suf + rot
  {
    hide Fresh, Keyed, Plain, Elements;
    FreshAppend({}, pre + roles + suf, rot);
    FreshAppend({}, pre + roles, suf);
    FreshAppend({}, pre, roles);
    FreshPlain({} + Elements(pre), roles);
    FreshPlain({} + Elements(pre + roles + suf), rot);
    FreshOnce({}, pre);
    FreshOnce({} + Elements(pre + roles), suf);
  }

  lemma FreshAgain(seen: set<Op>, pre: seq<Op>, roles: seq<Op>, suf: seq<Op>, rot: seq<Op>)
    requires Plain(roles) && Plain(rot) && |pre| <= 1 && |suf| <= 1
    requires (forall k :: 0 <= k < |pre| ==> Keyed(pre[k])) && (forall k :: 0 <= k < |suf| ==> Keyed(suf[k]))
    requires Elements(pre) <= seen && Elements(suf) <= seen
    ensures Fresh(seen, pre + roles + suf + rot) == roles + rot
  {
    hide Fresh, Keyed, Plain, Elements;
    FreshAppend(seen, pre + roles + suf, rot);
    FreshAppend(seen, pre + roles, suf);
    FreshAppend(seen, pre, roles);
    FreshPlain(seen + Elements(pre), roles);
    FreshPlain(seen + Elements(pre + roles + suf), rot);
    FreshOnce(seen, pre);
    FreshOnce(seen + Elements(pre + roles), suf);
  }

  lemma ElementsJoin(a: seq<Op>, b: seq<Op>)
    ensures Elements(a + b) == Elements(a) + Elements(b)
  {
  }

  /** What one component adds to operations that do, or do not, hold the change already. */
  lemma FreshComponent(seen: set<Op>, s: State, c: Change, plan: Plan)
    requires RekeyOk(s, c, plan)
    requires seen == {} || Elements(Prefix(c) + Suffix(c)) <= seen
    ensures Fresh(seen, Operations(s, c, plan)) ==
      if seen == {} then Operations(s, c, plan) else Body(s, c, plan)
    ensures Elements(Prefix(c) + Suffix(c)) <= Elements(Operations(s, c, plan))
  {
    hide Fresh, Prefix, Suffix, Roles, Rotation, Keyed, Plain, Elements, AccessOk;
    var pre, roles, suf, rot := Prefix(c), Roles(s, c, plan), Suffix(c), Rotation(s, c, plan);
    OneChange(s, c, plan);
    ChangeIsOne(c);
    BodyIsPlain(s, c, plan);
    ElementsJoin(pre, suf);
    ElementsJoin(pre + roles + suf, rot);
    ElementsJoin(pre + roles, suf);
    ElementsJoin(pre, roles);
    if seen == {} {
      PlainHasNoGrants(roles);
      NotAmong(pre + roles, suf);
      FreshFirst(pre, roles, suf, rot);
    } else {
      FreshAgain(seen, pre, roles, suf, rot);
    }
  }

  lemma NotAmong(a: seq<Op>, b: seq<Op>)
    requires forall k :: 0 <= k < |b| ==> b[k].OwnerGrant?
    requires forall k :: 0 <= k < |a| ==> !a[k].OwnerGrant?
    ensures Elements(a) !! Elements(b)
  {
  }

  lemma {:induction false} FreshRest(seen: set<Op>, s: State, c: Change, plans: seq<Plan>)
    requires forall k :: 0 <= k < |plans| ==> RekeyOk(s, c, plans[k])
    requires seen != {} && Elements(Prefix(c) + Suffix(c)) <= seen
    ensures Fresh(seen, AllOperations(s, c, plans)) == Bodies(s, c, plans)
    decreases |plans|
  {
    hide Prefix, Suffix, Roles, Rotation, AccessOk;
    if plans == [] {
    } else {
      var first := Operations(s, c, plans[0]);
      FreshAppend(seen, first, AllOperations(s, c, plans[1..]));
      FreshComponent(seen, s, c, plans[0]);
      FreshRest(seen + Elements(first), s, c, plans[1..]);
    }
  }

  lemma KeyedOfComponents(s: State, c: Change, plans: seq<Plan>)
    requires forall k :: 0 <= k < |plans| ==> RekeyOk(s, c, plans[k])
    ensures forall op :: op in AllOperations(s, c, plans) && Keyed(op) ==> op in Prefix(c) + Suffix(c)
    decreases |plans|
  {
    hide Prefix, Suffix, AccessOk, Keyed, Roles, Rotation;
    if plans == [] {
    } else {
      BodyIsPlain(s, c, plans[0]);
      KeyedOfComponents(s, c, plans[1..]);
    }
  }

  lemma OneChange(s: State, c: Change, plan: Plan)
    requires RekeyOk(s, c, plan)
    ensures AtMostOne(c)
  {
  }

  lemma OneKeyCompatible(ops: seq<Op>, keyed: seq<Op>)
    requires |keyed| <= 1
    requires forall op :: op in ops && Keyed(op) ==> op in keyed
    ensures Compatible(Elements(ops))
  {
    forall x, y | x in Elements(ops) && y in Elements(ops) && Matches(x, y) ensures x == y {
      assert Keyed(x) && Keyed(y);
      assert x in keyed && y in keyed;
    }
  }

  lemma NothingFresh(seen: set<Op>)
    ensures Fresh(seen, []) == []
  {
  }

  lemma ComponentNonEmpty(s: State, c: Change, plan: Plan)
    requires RekeyOk(s, c, plan)
    ensures Elements(Operations(s, c, plan)) != {}
  {
    hide AccessOk, Prefix, Suffix, Roles, Sorted, NextReaders, Readers;
    var ops := Operations(s, c, plan);
    assert ops[|ops| - 1] in Elements(ops);
  }

  lemma FirstAndRest(s: State, c: Change, plans: seq<Plan>)
    requires Planable(s, c, plans)
    ensures Fresh({}, AllOperations(s, c, plans)) ==
      Operations(s, c, plans[0]) + Bodies(s, c, plans[1..])
  {
    hide Fresh, Prefix, Suffix, AccessOk, Roles, Rotation, Bodies, Keyed;
    var first := Operations(s, c, plans[0]);
    FreshAppend({}, first, AllOperations(s, c, plans[1..]));
    FreshComponent({}, s, c, plans[0]);
    ComponentNonEmpty(s, c, plans[0]);
    assert {} + Elements(first) == Elements(first);
    FreshRest(Elements(first), s, c, plans[1..]);
  }

  lemma SplitWhole(s: State, c: Change, plans: seq<Plan>)
    requires Planable(s, c, plans)
    ensures var ops := Operations(s, c, plans[0]) + Bodies(s, c, plans[1..]);
      NonGrants(ops) == Prefix(c) + Bodies(s, c, plans) && Grants(ops) == Suffix(c)
  {
    hide Prefix, Suffix, AccessOk, Roles, Rotation, Keyed, NonGrants, Grants;
    var rest := Bodies(s, c, plans[1..]);
    OneChange(s, c, plans[0]);
    ChangeIsOne(c);
    BodyIsPlain(s, c, plans[0]);
    BodiesArePlain(s, c, plans[1..]);
    PlainHasNoGrants(Roles(s, c, plans[0]));
    PlainHasNoGrants(Rotation(s, c, plans[0]));
    PlainHasNoGrants(rest);
    SplitPieces(Prefix(c), Roles(s, c, plans[0]), Suffix(c), Rotation(s, c, plans[0]), rest);
  }

  lemma SplitPieces(pre: seq<Op>, roles: seq<Op>, suf: seq<Op>, rot: seq<Op>, rest: seq<Op>)
    requires NoGrants(pre) && NoGrants(roles) && NoGrants(rot) && NoGrants(rest)
    requires |suf| <= 1 && forall k :: 0 <= k < |suf| ==> suf[k].OwnerGrant?
    ensures var ops := pre + roles + suf + rot + rest;
      NonGrants(ops) == pre + ((roles + rot) + rest) && Grants(ops) == suf
  {
    hide NonGrants, Grants;
    SplitAppend(pre + roles + suf + rot, rest);
    SplitAppend(pre + roles + suf, rot);
    SplitAppend(pre + roles, suf);
    SplitPlain(pre + roles);
    SplitPlain(rot);
    SplitPlain(rest);
    SplitGrant(suf);
  }

  lemma SplitGrant(ops: seq<Op>)
    requires |ops| <= 1 && forall k :: 0 <= k < |ops| ==> ops[k].OwnerGrant?
    ensures NonGrants(ops) == [] && Grants(ops) == ops
  {
    if ops != [] { assert ops[1..] == []; }
  }

  /** Merging the components of one change never fails: the change's operation is kept once, an owner grant
      is moved behind every item, and nothing else is dropped or reordered. */
  lemma BatchShape(s: State, author: Id, timestamp: nat, c: Change, plans: seq<Plan>)
    requires Planable(s, c, plans)
    ensures Planned(s.sequence, author, timestamp, Components(s, author, timestamp, c, plans), [])
         == Some(Whole(s, c, plans))
  {
    hide Fresh, Prefix, Suffix, AccessOk, Keyed, Roles, Rotation, NonGrants, Grants, Merged, Flat, Matches, Bodies,
         AllOperations, Components, PreparedFor;
    var parts := Components(s, author, timestamp, c, plans);
    var flat := AllOperations(s, c, plans);
    assert RekeyOk(s, c, plans[0]);
    OneChange(s, c, plans[0]);
    ChangeIsOne(c);
    ComponentsFlat(s, author, timestamp, c, plans);
    assert Compatible(Elements(flat) + Elements([])) by {
      KeyedOfComponents(s, c, plans);
      OneKeyCompatible(flat, Prefix(c) + Suffix(c));
      assert Elements(flat) + Elements([]) == Elements(flat);
    }
    SomeComponent(s, author, timestamp, c, plans);
    PlannedExact(s.sequence, author, timestamp, parts, []);
    NothingFresh(Elements(flat));
    FirstAndRest(s, c, plans);
    SplitWhole(s, c, plans);
    var r := Planned(s.sequence, author, timestamp, parts, []);
    assert r.Some?;
    assert r.value == Prefix(c) + Bodies(s, c, plans) + Suffix(c) + [];
    assert r.value == Whole(s, c, plans);
  }

  lemma SomeComponent(s: State, author: Id, timestamp: nat, c: Change, plans: seq<Plan>)
    requires Planable(s, c, plans)
    ensures Components(s, author, timestamp, c, plans) != []
  {
  }
}
