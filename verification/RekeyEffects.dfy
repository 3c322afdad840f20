/** When one item's rekey is prepared, and what its component says. */
module RekeyEffects {
  import opened Common
  import opened Policy
  import opened Rekey

  // ---- When it is prepared ----

  predicate Replaces(c: Change, id: Id) { c.replacement.Some? && c.replacement.value.prior == id }

  predicate Introduces(c: Change, d: Principal) {
    || (c.replacement.Some? && c.replacement.value.next == d)
    || (c.registration.Some? && c.registration.value.descriptor == d)
  }

  /** The principal will be a person or a machine. */
  ghost predicate WillServe(s: State, c: Change, id: Id) {
    || (exists d :: Introduces(c, d) && d.id == id && d.kind in {Human, Machine})
    || ((forall d :: Introduces(c, d) ==> d.id != id) && id in s.members
        && s.members[id].descriptor.kind in {Human, Machine})
  }

  /** The principal will be an owner: by a grant, in the place of an owner, or by staying one. */
  ghost predicate OwnsAfter(s: State, c: Change, id: Id) {
    || c.ownerChange == Some(GrantOwner(id))
    || (c.replacement.Some? && c.replacement.value.next.id == id && c.replacement.value.prior in s.owners)
    || (id in s.owners && c.ownerChange != Some(RevokeOwner(id)))
  }

  /** The change has one part at most, and that part fits the state. */
  ghost predicate ChangeAsked(s: State, c: Change) {
    && (c.replacement.Some? ==> c.registration.None? && c.ownerChange.None?)
    && (c.registration.Some? ==> c.ownerChange.None? && c.registration.value.descriptor.id !in s.usedIds)
    && (forall id :: Replaces(c, id) ==> c.replacement.value.next.id != id)
    && (forall id :: c.ownerChange == Some(RevokeOwner(id)) ==> id in s.owners)
    && (forall id :: c.ownerChange == Some(GrantOwner(id)) ==> id !in s.owners)
  }

  /** The envelope is the item's own and no counter is at its end. */
  ghost predicate EnvelopeCurrent(s: State, plan: Plan) {
    && plan.item in s.items
    && plan.prior.authentic && plan.prior.hash == s.items[plan.item].revisionHash
    && plan.prior.descriptor == s.items[plan.item].descriptor && plan.prior.epoch == s.items[plan.item].epoch
    && s.sequence < MAX_U64 && plan.prior.epoch < MAX_U64
    && plan.prior.descriptor.revision < MAX_U64 && plan.prior.revision < MAX_U64
  }

  /** Reading and writing are granted once each to people and machines who stay and are, or will replace, no owner. */
  ghost predicate GrantsAsked(s: State, c: Change, plan: Plan) {
    && (forall i, j :: 0 <= i < |plan.grants| && 0 <= j < |plan.grants| && i != j ==>
          plan.grants[i].id != plan.grants[j].id)
    && (forall g :: g in plan.grants ==>
          && g.role in {Writer, Reader} && g.id !in s.owners && !Replaces(c, g.id) && WillServe(s, c, g.id)
          && !(c.replacement.Some? && c.replacement.value.next.id == g.id && c.replacement.value.prior in s.owners))
  }

  /** There is a way in. Whoever is asked for directly stays and, like every owner then, will be a person or machine
      that owns or is granted a role; a quorum is a sound policy of this vault for the next sequence. */
  ghost predicate SlotsAsked(s: State, c: Change, plan: Plan) {
    && (plan.direct == [] ==> plan.quorum.Some?)
    && (forall i, j :: 0 <= i < j < |plan.direct| ==> plan.direct[i] < plan.direct[j])
    && (forall id :: id in plan.direct ==> !Replaces(c, id))
    && (forall id :: id in plan.direct ==> Reachable(s, c, plan, id))
    && (forall id :: plan.direct != [] && OwnsAfter(s, c, id) && !Replaces(c, id) ==> Reachable(s, c, plan, id))
    && (forall q :: plan.quorum == Some(q) ==>
          && q in s.witnessPolicies && s.witnessPolicies[q].sound && s.witnessPolicies[q].ours
          && s.witnessPolicies[q].sequence == s.sequence + 1)
  }

  ghost predicate Reachable(s: State, c: Change, plan: Plan, id: Id) {
    WillServe(s, c, id) && (OwnsAfter(s, c, id) || exists g :: g in plan.grants && g.id == id)
  }

  lemma ServesExactly(s: State, c: Change, id: Id)
    requires AtMostOne(c)
    ensures ServesAfter(s, c, id) <==> WillServe(s, c, id)
  {
    if c.replacement.Some? { assert Introduces(c, c.replacement.value.next); }
    if c.registration.Some? { assert Introduces(c, c.registration.value.descriptor); }
  }

  lemma ChangeExactly(s: State, c: Change, grants: seq<Grant>)
    ensures AtMostOne(c) && GrantsOk(s, c, grants) ==> ChangeAsked(s, c)
    ensures ChangeAsked(s, c) ==> AtMostOne(c)
    ensures ChangeAsked(s, c) ==> (GrantsOk(s, c, grants) <==>
      !Repeats(grants) && forall k :: 0 <= k < |grants| ==> GrantOk(s, c, grants[k]))
  {
    hide Repeats, GrantOk;
    if c.replacement.Some? { assert Replaces(c, c.replacement.value.prior); }
  }

  lemma GrantsExactly(s: State, c: Change, plan: Plan)
    requires AtMostOne(c)
    ensures (!Repeats(plan.grants) && forall k :: 0 <= k < |plan.grants| ==> GrantOk(s, c, plan.grants[k]))
       <==> GrantsAsked(s, c, plan)
  {
    hide ServesAfter, WillServe;
    var grants := plan.grants;
    forall g ensures ServesAfter(s, c, g) <==> WillServe(s, c, g) { ServesExactly(s, c, g); }
    forall k | 0 <= k < |grants| ensures grants[k] in grants { }
  }

  lemma ReachableExactly(s: State, c: Change, plan: Plan, id: Id)
    requires AtMostOne(c)
    ensures RecipientOk(s, c, plan, id) <==> Reachable(s, c, plan, id)
  {
    hide ServesAfter, WillServe;
    ServesExactly(s, c, id);
    if id in GrantMap(plan.grants) { assert Grant(id, GrantMap(plan.grants)[id]) in plan.grants; }
  }

  lemma OwnersExactly(s: State, c: Change, id: Id)
    requires ChangeAsked(s, c)
    ensures id in NextOwners(s, c) <==> OwnsAfter(s, c, id) && !Replaces(c, id)
  {
    if c.replacement.Some? { assert Replaces(c, c.replacement.value.prior); }
  }

  lemma SlotsExactly(s: State, c: Change, plan: Plan)
    requires ChangeAsked(s, c) && AtMostOne(c)
    ensures SlotsOk(s, c, plan) <==> SlotsAsked(s, c, plan)
  {
    hide RecipientOk, Reachable, NextOwners, OwnsAfter, Replaces, ChangeAsked, AtMostOne;
    forall id ensures RecipientOk(s, c, plan, id) <==> Reachable(s, c, plan, id) { ReachableExactly(s, c, plan, id); }
    forall id ensures id in NextOwners(s, c) <==> OwnsAfter(s, c, id) && !Replaces(c, id) { OwnersExactly(s, c, id); }
    Replacing(c, plan.direct);
  }

  lemma Replacing(c: Change, ids: seq<Id>)
    ensures (c.replacement.Some? ==> c.replacement.value.prior !in ids) <==> forall id :: id in ids ==> !Replaces(c, id)
  {
  }

  /** One item's component is prepared exactly for a change, an envelope, grants and slots that fit, and is addressed to
      the next sequence in the author's name. */
  lemma PreparedExactly(s: State, author: Id, timestamp: nat, c: Change, plan: Plan)
    ensures var r := Rekeyed(s, author, timestamp, c, plan);
      && (r.Some? <==>
            ChangeAsked(s, c) && EnvelopeCurrent(s, plan) && GrantsAsked(s, c, plan) && SlotsAsked(s, c, plan))
      && (r.Some? ==>
            && r.value.header.sequence == s.sequence + 1
            && r.value.header.author == author && r.value.header.timestamp == timestamp)
  {
    hide GrantsOk, SlotsOk, AtMostOne, ChangeAsked, GrantsAsked, SlotsAsked, Operations, GrantOk, Repeats;
    ChangeExactly(s, c, plan.grants);
    if ChangeAsked(s, c) {
      GrantsExactly(s, c, plan);
      SlotsExactly(s, c, plan);
    }
  }

  /** The operation the change asks for. */
  ghost predicate Asked(c: Change, op: Op) {
    match op
    case PrincipalAdd(d, name, proof) => c.registration == Some(Registration(d, name, proof))
    case PrincipalReplace(prior, d, proof) => c.replacement == Some(Replacement(prior, d, proof))
    case OwnerGrant(id) => c.ownerChange == Some(GrantOwner(id))
    case OwnerRevoke(id) => c.ownerChange == Some(RevokeOwner(id))
    case _ => false
  }

  lemma ChangeCarried(c: Change, op: Op)
    ensures op in Prefix(c) || op in Suffix(c) <==> Asked(c, op)
  {
  }

  /** The component carries the change with its label and proof, roles, announcement and resealing of its own item,
      and nothing else. */
  lemma ComponentCarries(s: State, author: Id, timestamp: nat, c: Change, plan: Plan, op: Op)
    requires Rekeyed(s, author, timestamp, c, plan).Some?
    ensures var ops := Rekeyed(s, author, timestamp, c, plan).value.operations;
      && (Asked(c, op) ==> op in ops)
      && (op in ops ==>
            || Asked(c, op)
            || ((op.ItemRoleChange? || op.ItemReaderSetChange? || op.ItemSlotsReplace?) && op.item == plan.item))
  {
    hide AccessOk, AncestryOk, RoleOps, Rotation, Sorted, EffectivePrior, GrantMap, Prefix, Suffix, Asked;
    var prior, next := EffectivePrior(c, s.items[plan.item].grants), GrantMap(plan.grants);
    RolesOf(plan.item, prior, next, Sorted(prior.Keys + next.Keys));
    RotationOf(s, c, plan);
    ChangeCarried(c, op);
  }

  lemma {:induction false} RolesOf(item: Id, prior: map<Id, Role>, next: map<Id, Role>, ids: seq<Id>)
    ensures forall op :: op in RoleOps(item, prior, next, ids) ==> op.ItemRoleChange? && op.item == item
  {
    if ids == [] {
    } else {
      RolesOf(item, prior, next, ids[1..]);
    }
  }

  lemma RotationOf(s: State, c: Change, plan: Plan)
    requires plan.item in s.items
    ensures forall op :: op in Rotation(s, c, plan) ==>
      (op.ItemReaderSetChange? || op.ItemSlotsReplace?) && op.item == plan.item
  {
    hide Sorted, Readers, NextReaders, NextDescriptor, NextAccess;
  }
}
