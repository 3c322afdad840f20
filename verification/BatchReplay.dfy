/** Replaying the merged batch gives every item the access its plan declared. */
module BatchReplay {
  import opened Common
  import opened Policy
  import opened Rekey
  import opened RekeyBatch

  // ---- The change itself ----

  /** Replay accepts the change: what the item components do not check themselves. */
  predicate ChangeOk(s: State, c: Change) {
    && (c.registration.Some? ==>
          var d := c.registration.value.descriptor; d.signed && Unused(s, d) && LabelOk(c.registration.value.name))
    && (c.replacement.Some? ==>
          var r := c.replacement.value;
          && r.next.signed && Unused(s, r.next)
          && r.prior in s.members && s.members[r.prior].descriptor.kind == r.next.kind)
    && (c.ownerChange.Some? ==>
          match c.ownerChange.value
          case RevokeOwner(id) => s.owners != {id}
          case GrantOwner(id) => id in s.members && s.members[id].descriptor.kind == Human)
  }

  predicate OwnerChangeOk(s: State, c: Change) {
    c.ownerChange.Some? ==> (c.ownerChange.value.RevokeOwner? <==> c.ownerChange.value.id in s.owners)
  }

  function NextMembers(s: State, c: Change): (r: map<Id, Member>) {
    if c.registration.Some? then
      var r := c.registration.value; s.members[r.descriptor.id := Member(r.descriptor, r.name)]
    else if c.replacement.Some? && c.replacement.value.prior in s.members then
      var r := c.replacement.value; (s.members - {r.prior})[r.next.id := Member(r.next, s.members[r.prior].name)]
    else s.members
  }

  function Newcomer(s: State, c: Change): (r: State) {
    if c.registration.Some? then Used(s, c.registration.value.descriptor)
    else if c.replacement.Some? then Used(s, c.replacement.value.next)
    else s
  }

  /** The owners while the items' operations are applied: an owner grant is still to come. */
  function OwnersMeanwhile(s: State, c: Change): (r: set<Id>) {
    if c.ownerChange.Some? && c.ownerChange.value.GrantOwner? then s.owners else NextOwners(s, c)
  }

  function AfterPrefix(s: State, c: Change): (r: State) {
    Newcomer(s, c).(
      members := NextMembers(s, c),
      owners := OwnersMeanwhile(s, c),
      items := map i | i in s.items :: s.items[i].(grants := EffectivePrior(c, s.items[i].grants)))
  }

  predicate PrefixOk(s: State, c: Change) {
    var granting := c.ownerChange.Some? && c.ownerChange.value.GrantOwner?;
    ChangeOk(s, if granting then c.(ownerChange := None) else c)
  }

  lemma SameItems(s: State, c: Change)
    requires c.replacement.None?
    ensures AfterPrefix(s, c).items == s.items
  {
  }

  lemma RenamedItems(s: State, c: Change)
    requires c.replacement.Some? && AtMostOne(c)
    ensures var r := c.replacement.value; var t := Replaced(s, r.prior, r.next);
      && (t.Some? <==> PrefixOk(s, c))
      && (t.Some? ==> t.value == AfterPrefix(s, c))
  {
    var r := c.replacement.value;
    var t := Replaced(s, r.prior, r.next);
    if t.Some? { assert t.value.items == AfterPrefix(s, c).items; }
  }

  lemma ApplyOne(p: Pending, op: Op)
    ensures ApplyAll(p, [op]) == Apply(p, op)
  {
    hide Apply;
  }

  lemma PrefixApplies(p: Pending, c: Change)
    requires AtMostOne(c) && OwnerChangeOk(p.state, c)
    ensures ApplyAll(p, Prefix(c)) ==
      if PrefixOk(p.state, c) then Some(p.(state := AfterPrefix(p.state, c))) else None
  {
    hide ApplyAll, Replaced;
    if c.replacement.None? { SameItems(p.state, c); }
    if c.registration.Some? {
      var r := c.registration.value;
      assert Prefix(c) == [PrincipalAdd(r.descriptor, r.name, r.proof)];
      ApplyOne(p, Prefix(c)[0]);
    } else if c.replacement.Some? {
      var r := c.replacement.value;
      assert Prefix(c) == [PrincipalReplace(r.prior, r.next, r.proof)];
      RenamedItems(p.state, c);
      ApplyOne(p, Prefix(c)[0]);
    } else if c.ownerChange.Some? && c.ownerChange.value.RevokeOwner? {
      var id := c.ownerChange.value.id;
      assert Prefix(c) == [OwnerRevoke(id)];
      assert p.state.owners - {id} == {} <==> p.state.owners == {id};
      ApplyOne(p, Prefix(c)[0]);
    } else {
      ApplyNone(p);
    }
  }

  lemma ApplyNone(p: Pending)
    ensures ApplyAll(p, []) == Some(p)
  {
  }

  lemma SuffixApplies(p: Pending, c: Change)
    ensures ApplyAll(p, Suffix(c)) ==
      if c.ownerChange.Some? && c.ownerChange.value.GrantOwner? then Apply(p, OwnerGrant(c.ownerChange.value.id))
      else Some(p)
  {
    hide ApplyAll, Apply;
    if c.ownerChange.Some? && c.ownerChange.value.GrantOwner? { ApplyOne(p, Suffix(c)[0]); } else { ApplyNone(p); }
  }

  // ---- One item's role changes ----

  ghost function Overridden(grants: map<Id, Role>, ids: seq<Id>, next: map<Id, Role>): (r: map<Id, Role>) {
    map id | id in grants.Keys + next.Keys && (if id in ids then id in next else id in grants) ::
      if id in ids then next[id] else grants[id]
  }

  lemma OverriddenStep(grants: map<Id, Role>, ids: seq<Id>, next: map<Id, Role>)
    requires ids != [] && Ascending(ids)
    ensures Overridden(WithRole(grants, ids[0], Lookup(next, ids[0])), ids[1..], next) == Overridden(grants, ids, next)
  {
    assert ids == [ids[0]] + ids[1..];
    assert ids[0] !in ids[1..];
  }

  lemma OverriddenSame(grants: map<Id, Role>, ids: seq<Id>, next: map<Id, Role>)
    requires ids != [] && Ascending(ids)
    requires Lookup(grants, ids[0]) == Lookup(next, ids[0])
    ensures Overridden(grants, ids[1..], next) == Overridden(grants, ids, next)
  {
    assert WithRole(grants, ids[0], Lookup(next, ids[0])) == grants;
    OverriddenStep(grants, ids, next);
  }

  predicate Grantable(s: State, prior: map<Id, Role>, next: map<Id, Role>) {
    && GrantsComplete(s, prior) && GrantsComplete(s, next)
    && next.Keys !! s.owners
  }

  /** The role changes between two grant tables turn one into the other, exactly when no owner holds a role. */
  lemma {:induction false} RolesApply(p: Pending, item: Id, prior: map<Id, Role>, next: map<Id, Role>, ids: seq<Id>)
    requires item in p.state.items && Ascending(ids)
    requires Grantable(p.state, prior, next)
    requires forall id :: id in ids ==> Lookup(p.state.items[item].grants, id) == Lookup(prior, id)
    ensures var r := ApplyAll(p, RoleOps(item, prior, next, ids));
      && (r.Some? <==> forall id :: id in ids && id in prior ==> id !in p.state.owners)
      && (r.Some? ==>
            var given := Overridden(p.state.items[item].grants, ids, next);
            && r.value.state.items.Keys == p.state.items.Keys
            && r == Some(p.(state := WithGrants(p.state, item, given))))
    decreases |ids|
  {
    hide Apply, Overridden, WithRole, GrantsComplete;
    var grants := p.state.items[item].grants;
    if ids == [] {
      OverriddenByNone(p.state, item, next);
    } else {
      var id, rest := ids[0], ids[1..];
      assert ids == [id] + rest && id !in rest;
      if Lookup(prior, id) == Lookup(next, id) {
        RolesApply(p, item, prior, next, rest);
        OverriddenSame(grants, ids, next);
        assert RoleOps(item, prior, next, ids) == RoleOps(item, prior, next, rest);
      } else {
        var op := ItemRoleChange(item, id, Lookup(prior, id), Lookup(next, id));
        assert RoleOps(item, prior, next, ids) == [op] + RoleOps(item, prior, next, rest);
        ApplyCons(p, op, RoleOps(item, prior, next, rest));
        RoleStep(p, item, prior, next, id);
        if id !in p.state.owners {
          var given := WithRole(grants, id, Lookup(next, id));
          RolesApply(p.(state := WithGrants(p.state, item, given)), item, prior, next, rest);
          OverriddenStep(grants, ids, next);
          TwiceGranted(p.state, item, given, Overridden(grants, ids, next));
        }
      }
    }
  }

  lemma RoleStep(p: Pending, item: Id, prior: map<Id, Role>, next: map<Id, Role>, id: Id)
    requires item in p.state.items && Grantable(p.state, prior, next)
    requires Lookup(p.state.items[item].grants, id) == Lookup(prior, id) != Lookup(next, id)
    ensures id in p.state.owners ==> id in prior
    ensures var given := WithRole(p.state.items[item].grants, id, Lookup(next, id));
      && Apply(p, ItemRoleChange(item, id, Lookup(prior, id), Lookup(next, id))) ==
         (if id !in p.state.owners then Some(p.(state := WithGrants(p.state, item, given))) else None)
      && Grantable(WithGrants(p.state, item, given), prior, next)
      && forall other :: other != id ==> Lookup(given, other) == Lookup(p.state.items[item].grants, other)
  {
  }

  lemma OverriddenByNone(s: State, item: Id, next: map<Id, Role>)
    requires item in s.items
    ensures WithGrants(s, item, Overridden(s.items[item].grants, [], next)) == s
  {
    var grants := s.items[item].grants;
    assert Overridden(grants, [], next) == grants;
    assert s.items[item := s.items[item].(grants := grants)] == s.items;
  }

  lemma ApplyCons(p: Pending, op: Op, rest: seq<Op>)
    ensures ApplyAll(p, [op] + rest) == (var q := Apply(p, op); if q.None? then None else ApplyAll(q.value, rest))
  {
    hide Apply;
    assert ([op] + rest)[1..] == rest;
  }

  lemma TwiceGranted(s: State, item: Id, a: map<Id, Role>, b: map<Id, Role>)
    requires item in s.items
    ensures WithGrants(WithGrants(s, item, a), item, b) == WithGrants(s, item, b)
  {
    var t := s.items[item := s.items[item].(grants := a)];
    assert t[item := t[item].(grants := b)] == s.items[item := s.items[item].(grants := b)];
  }

  // ---- One item, then all of them ----

  function ReaderRotationOf(s: State, c: Change, plan: Plan): (r: ReaderRotation)
    requires plan.item in s.items
  {
    var epoch := s.items[plan.item].epoch;
    ReaderRotation(epoch, epoch + 1, Sorted(Readers(s, plan.item)), NextReaders(s, c, plan),
                   NextDescriptor(s, plan), plan.revisionHash)
  }

  function SlotRotationOf(s: State, c: Change, plan: Plan): (r: SlotRotation)
    requires plan.item in s.items
  {
    SlotRotation(s.items[plan.item].epoch + 1, NextAccess(s, c, plan))
  }

  ghost predicate Ready(p: Pending, s: State, c: Change, plan: Plan) {
    && plan.item in s.items && plan.item in p.state.items
    && p.state.items[plan.item].grants == EffectivePrior(c, s.items[plan.item].grants)
    && Grantable(p.state, EffectivePrior(c, s.items[plan.item].grants), GrantMap(plan.grants))
  }

  ghost function AfterBody(p: Pending, s: State, c: Change, plan: Plan): (r: Pending)
    requires Ready(p, s, c, plan)
  {
    Pending(WithGrants(p.state, plan.item, GrantMap(plan.grants)),
            p.readers[plan.item := ReaderRotationOf(s, c, plan)],
            p.slots[plan.item := SlotRotationOf(s, c, plan)])
  }

  lemma RotationApplies(p: Pending, s: State, c: Change, plan: Plan)
    requires plan.item in s.items
    ensures ApplyAll(p, Rotation(s, c, plan)) ==
      Some(p.(readers := p.readers[plan.item := ReaderRotationOf(s, c, plan)],
              slots := p.slots[plan.item := SlotRotationOf(s, c, plan)]))
  {
    hide Sorted, Readers, NextReaders, NextDescriptor, NextAccess, ApplyAll;
    var ops := Rotation(s, c, plan);
    assert ops == [ops[0]] + [ops[1]];
    ApplyCons(p, ops[0], [ops[1]]);
    ApplyOne(Apply(p, ops[0]).value, ops[1]);
  }

  lemma AllOverridden(prior: map<Id, Role>, next: map<Id, Role>)
    ensures Overridden(prior, Sorted(prior.Keys + next.Keys), next) == next
  {
    var ids := Sorted(prior.Keys + next.Keys);
    assert forall id :: id in prior.Keys + next.Keys ==> id in ids;
  }

  lemma BodyApplies(p: Pending, s: State, c: Change, plan: Plan)
    requires Ready(p, s, c, plan)
    ensures ApplyAll(p, Body(s, c, plan)) ==
      if p.state.items[plan.item].grants.Keys !! p.state.owners then Some(AfterBody(p, s, c, plan)) else None
  {
    hide ApplyAll, RoleOps, Rotation, Overridden, EffectivePrior, GrantMap, GrantsComplete, ReaderRotationOf,
         SlotRotationOf;
    var prior, next := p.state.items[plan.item].grants, GrantMap(plan.grants);
    var ids := Sorted(prior.Keys + next.Keys);
    ApplyAppend(p, Roles(s, c, plan), Rotation(s, c, plan));
    RolesApply(p, plan.item, prior, next, ids);
    AllOverridden(prior, next);
    var q := ApplyAll(p, Roles(s, c, plan));
    assert q.Some? <==> prior.Keys !! p.state.owners by {
      assert forall id :: id in ids <==> id in prior.Keys + next.Keys;
      assert q.Some? <==> forall id :: id in ids && id in prior ==> id !in p.state.owners;
    }
    if q.Some? { RotationApplies(q.value, s, c, plan); }
  }

  ghost predicate AllReady(p: Pending, s: State, c: Change, plans: seq<Plan>) {
    && (forall k :: 0 <= k < |plans| ==> Ready(p, s, c, plans[k]))
    && (forall i, j :: 0 <= i < j < |plans| ==> plans[i].item != plans[j].item)
  }

  lemma ReadyAfter(p: Pending, s: State, c: Change, plans: seq<Plan>)
    requires plans != [] && AllReady(p, s, c, plans)
    ensures AllReady(AfterBody(p, s, c, plans[0]), s, c, plans[1..])
  {
    hide EffectivePrior, GrantMap, ReaderRotationOf, SlotRotationOf;
    var q := AfterBody(p, s, c, plans[0]);
    forall k | 0 <= k < |plans[1..]| ensures Ready(q, s, c, plans[1..][k]) {
      assert plans[1..][k] == plans[k + 1] && plans[0].item != plans[k + 1].item;
      assert Ready(p, s, c, plans[k + 1]);
    }
  }

  ghost function AfterBodies(p: Pending, s: State, c: Change, plans: seq<Plan>): (r: Pending)
    requires AllReady(p, s, c, plans)
    decreases |plans|
  {
    if plans == [] then p else
      ReadyAfter(p, s, c, plans);
      AfterBodies(AfterBody(p, s, c, plans[0]), s, c, plans[1..])
  }

  ghost predicate NoOwnerHoldsRole(p: Pending, plans: seq<Plan>)
    requires forall k :: 0 <= k < |plans| ==> plans[k].item in p.state.items
  {
    forall k :: 0 <= k < |plans| ==> p.state.items[plans[k].item].grants.Keys !! p.state.owners
  }

  lemma {:induction false} BodiesApply(p: Pending, s: State, c: Change, plans: seq<Plan>)
    requires AllReady(p, s, c, plans)
    ensures ApplyAll(p, Bodies(s, c, plans)) ==
      if NoOwnerHoldsRole(p, plans) then Some(AfterBodies(p, s, c, plans)) else None
    decreases |plans|
  {
    hide Body, EffectivePrior, GrantMap, ReaderRotationOf, SlotRotationOf, Grantable;
    if plans == [] {
    } else {
      ApplyAppend(p, Body(s, c, plans[0]), Bodies(s, c, plans[1..]));
      BodyApplies(p, s, c, plans[0]);
      ReadyAfter(p, s, c, plans);
      var q := AfterBody(p, s, c, plans[0]);
      BodiesApply(q, s, c, plans[1..]);
      assert forall k :: 0 <= k < |plans[1..]| ==> plans[1..][k].item != plans[0].item;
    }
  }

  ghost function ItemsOf(plans: seq<Plan>): (r: set<Id>) { set k | 0 <= k < |plans| :: plans[k].item }

  ghost predicate Placed(p: Pending, s: State, c: Change, plan: Plan, q: Pending) {
    && plan.item in s.items && plan.item in p.state.items && plan.item in q.state.items
    && q.state.items[plan.item] == p.state.items[plan.item].(grants := GrantMap(plan.grants))
    && Lookup(q.readers, plan.item) == Some(ReaderRotationOf(s, c, plan))
    && Lookup(q.slots, plan.item) == Some(SlotRotationOf(s, c, plan))
  }

  ghost predicate Kept(p: Pending, items: set<Id>, q: Pending) {
    && q.state == p.state.(items := q.state.items)
    && q.state.items.Keys == p.state.items.Keys
    && forall i :: i !in items ==>
          && Lookup(q.state.items, i) == Lookup(p.state.items, i)
          && Lookup(q.readers, i) == Lookup(p.readers, i)
          && Lookup(q.slots, i) == Lookup(p.slots, i)
  }

  /** What the items' operations leave behind. */
  ghost predicate Outcome(p: Pending, s: State, c: Change, plans: seq<Plan>, q: Pending) {
    && Kept(p, ItemsOf(plans), q)
    && forall k :: 0 <= k < |plans| ==> Placed(p, s, c, plans[k], q)
  }

  lemma AfterBodyOutcome(p: Pending, s: State, c: Change, plan: Plan)
    requires Ready(p, s, c, plan)
    ensures Kept(p, {plan.item}, AfterBody(p, s, c, plan)) && Placed(p, s, c, plan, AfterBody(p, s, c, plan))
  {
    hide EffectivePrior, GrantMap, ReaderRotationOf, SlotRotationOf, Grantable;
  }

  lemma KeptTwice(p: Pending, a: set<Id>, q: Pending, b: set<Id>, r: Pending)
    requires Kept(p, a, q) && Kept(q, b, r)
    ensures Kept(p, a + b, r)
  {
  }

  lemma PlacedAround(p: Pending, q: Pending, items: set<Id>, s: State, c: Change, plan: Plan, r: Pending)
    ensures Placed(p, s, c, plan, q) && Kept(q, items, r) && plan.item !in items ==> Placed(p, s, c, plan, r)
    ensures Kept(p, items, q) && Placed(q, s, c, plan, r) && plan.item !in items ==> Placed(p, s, c, plan, r)
  {
    hide GrantMap, ReaderRotationOf, SlotRotationOf;
    if Placed(p, s, c, plan, q) && Kept(q, items, r) && plan.item !in items {
      assert Lookup(r.state.items, plan.item) == Lookup(q.state.items, plan.item);
    }
    if Kept(p, items, q) && Placed(q, s, c, plan, r) && plan.item !in items {
      assert Lookup(q.state.items, plan.item) == Lookup(p.state.items, plan.item);
    }
  }

  lemma {:induction false} BodiesOutcome(p: Pending, s: State, c: Change, plans: seq<Plan>)
    requires AllReady(p, s, c, plans)
    ensures Outcome(p, s, c, plans, AfterBodies(p, s, c, plans))
    decreases |plans|
  {
    hide Ready, AfterBody, Placed;
    if plans == [] {
    } else {
      ReadyAfter(p, s, c, plans);
      AfterBodyOutcome(p, s, c, plans[0]);
      var q, rest := AfterBody(p, s, c, plans[0]), plans[1..];
      BodiesOutcome(q, s, c, rest);
      var r := AfterBodies(q, s, c, rest);
      ItemsOfCons(plans);
      KeptTwice(p, {plans[0].item}, q, ItemsOf(rest), r);
      forall k | 0 <= k < |plans| ensures Placed(p, s, c, plans[k], r) {
        if k == 0 {
          PlacedAround(p, q, ItemsOf(rest), s, c, plans[0], r);
        } else {
          assert rest[k - 1] == plans[k];
          PlacedAround(p, q, {plans[0].item}, s, c, plans[k], r);
        }
      }
    }
  }

  lemma ItemsOfCons(plans: seq<Plan>)
    requires plans != []
    ensures ItemsOf(plans) == {plans[0].item} + ItemsOf(plans[1..])
  {
    assert plans == [plans[0]] + plans[1..];
    forall i | i in ItemsOf(plans) ensures i in {plans[0].item} + ItemsOf(plans[1..]) {
      var k :| 0 <= k < |plans| && plans[k].item == i;
      if k > 0 { assert plans[1..][k - 1].item == i; }
    }
  }

  // ---- The whole batch ----

  ghost function Revoked(c: Change): (r: set<Id>) {
    if c.ownerChange.Some? && c.ownerChange.value.RevokeOwner? then {c.ownerChange.value.id} else {}
  }

  /** No owner, other than one being revoked, holds a role on an item of the batch. */
  ghost predicate OwnersHoldNoRole(s: State, c: Change, plans: seq<Plan>)
    requires forall k :: 0 <= k < |plans| ==> plans[k].item in s.items
  {
    forall k :: 0 <= k < |plans| ==> s.items[plans[k].item].grants.Keys !! s.owners - Revoked(c)
  }

  ghost function Prefixed(s: State, c: Change, sequence: nat): (r: Pending) {
    Start(s, sequence).(state := AfterPrefix(s.(sequence := sequence), c))
  }

  lemma PriorComplete(s: State, c: Change, grants: map<Id, Role>)
    requires GrantsComplete(s, grants) && AtMostOne(c) && PrefixOk(s, c) && s.members.Keys <= s.usedIds
    ensures GrantsComplete(AfterPrefix(s, c), EffectivePrior(c, grants))
  {
  }

  lemma NextComplete(s: State, c: Change, grants: seq<Grant>)
    requires GrantsOk(s, c, grants) && AtMostOne(c) && PrefixOk(s, c)
    ensures GrantsComplete(AfterPrefix(s, c), GrantMap(grants))
    ensures GrantMap(grants).Keys !! OwnersMeanwhile(s, c)
  {
    var next := GrantMap(grants);
    forall id | id in next
      ensures Eligible(AfterPrefix(s, c), id) && next[id] != Owner && id !in OwnersMeanwhile(s, c)
    {
      var g := Grant(id, next[id]);
      assert g in grants;
      var k :| 0 <= k < |grants| && grants[k] == g;
      assert GrantOk(s, c, grants[k]);
    }
  }

  lemma PrefixedReady(s: State, c: Change, plans: seq<Plan>, sequence: nat)
    requires Valid(s) && Planable(s, c, plans) && PrefixOk(s, c)
    ensures AllReady(Prefixed(s, c, sequence), s, c, plans)
  {
    hide Valid, PrefixOk, AccessOk, Ready, Prefixed;
    forall k | 0 <= k < |plans| ensures Ready(Prefixed(s, c, sequence), s, c, plans[k]) {
      PlanReady(s, c, plans[k], sequence);
    }
  }

  lemma PlanReady(s: State, c: Change, plan: Plan, sequence: nat)
    requires Valid(s) && RekeyOk(s, c, plan) && PrefixOk(s, c)
    ensures Ready(Prefixed(s, c, sequence), s, c, plan)
  {
    hide EffectivePrior, GrantMap, GrantsComplete, PrefixOk, GrantsOk, AtMostOne, SlotsOk, Valid;
    var s0 := s.(sequence := sequence);
    ValidItem(s, plan.item);
    SequenceIrrelevant(s, c, plan.grants, s.items[plan.item].grants, sequence);
    PriorComplete(s0, c, s.items[plan.item].grants);
    NextComplete(s0, c, plan.grants);
  }

  lemma ValidItem(s: State, item: Id)
    requires Valid(s) && item in s.items
    ensures GrantsComplete(s, s.items[item].grants) && AccessComplete(s, s.items[item])
    ensures s.members.Keys <= s.usedIds && 1 <= s.items[item].epoch <= s.sequence
  {
  }

  lemma SequenceIrrelevant(s: State, c: Change, grants: seq<Grant>, table: map<Id, Role>, sequence: nat)
    ensures var s0 := s.(sequence := sequence);
      && (PrefixOk(s0, c) <==> PrefixOk(s, c))
      && (GrantsOk(s0, c, grants) <==> GrantsOk(s, c, grants))
      && (GrantsComplete(s0, table) <==> GrantsComplete(s, table))
  {
  }

  lemma RoleFreeExactly(s: State, c: Change, grants: map<Id, Role>)
    requires AtMostOne(c) && PrefixOk(s, c)
    requires grants.Keys <= s.usedIds && s.owners <= s.usedIds
    ensures EffectivePrior(c, grants).Keys !! OwnersMeanwhile(s, c) <==> grants.Keys !! s.owners - Revoked(c)
  {
    if c.replacement.Some? {
      var r := c.replacement.value;
      assert r.next.id !in grants && r.next.id !in s.owners;
      if r.prior in grants && r.prior in s.owners {
        assert r.next.id in EffectivePrior(c, grants).Keys && r.next.id in OwnersMeanwhile(s, c);
      }
    }
  }

  lemma ValidIdsUsed(s: State, item: Id)
    requires Valid(s) && item in s.items
    ensures s.items[item].grants.Keys <= s.usedIds && s.owners <= s.usedIds
  {
    hide Eligible;
    assert GrantsComplete(s, s.items[item].grants);
    forall id | id in s.items[item].grants ensures id in s.usedIds { assert Eligible(s, id); KnownIsUsed(s, id); }
  }

  lemma KnownIsUsed(s: State, id: Id)
    requires Eligible(s, id) && s.members.Keys <= s.usedIds
    ensures id in s.usedIds
  {
  }

  lemma PrefixedRoleFree(s: State, c: Change, plans: seq<Plan>, sequence: nat)
    requires Valid(s) && Planable(s, c, plans) && PrefixOk(s, c)
    ensures forall k :: 0 <= k < |plans| ==> plans[k].item in Prefixed(s, c, sequence).state.items
    ensures NoOwnerHoldsRole(Prefixed(s, c, sequence), plans) <==> OwnersHoldNoRole(s, c, plans)
  {
    hide EffectivePrior, PrefixOk, GrantsOk, AtMostOne, SlotsOk, OwnersMeanwhile, Valid;
    var p := Prefixed(s, c, sequence);
    forall k | 0 <= k < |plans|
      ensures plans[k].item in p.state.items
      ensures p.state.items[plans[k].item].grants.Keys !! p.state.owners <==>
              s.items[plans[k].item].grants.Keys !! s.owners - Revoked(c)
    {
      var grants := s.items[plans[k].item].grants;
      assert RekeyOk(s, c, plans[k]);
      ValidIdsUsed(s, plans[k].item);
      RoleFreeExactly(s, c, grants);
      assert OwnersMeanwhile(s.(sequence := sequence), c) == OwnersMeanwhile(s, c) by { SameOwners(s, c, sequence); }
    }
  }

  lemma SameOwners(s: State, c: Change, sequence: nat)
    ensures OwnersMeanwhile(s.(sequence := sequence), c) == OwnersMeanwhile(s, c)
    ensures NextOwners(s.(sequence := sequence), c) == NextOwners(s, c)
    ensures NextMembers(s.(sequence := sequence), c) == NextMembers(s, c)
  {
  }

  /** The revision just before its rotations are checked. */
  ghost function Applied(s: State, c: Change, plans: seq<Plan>, sequence: nat): (r: Pending)
    requires AllReady(Prefixed(s, c, sequence), s, c, plans)
  {
    var q := AfterBodies(Prefixed(s, c, sequence), s, c, plans);
    q.(state := q.state.(owners := NextOwners(s, c)))
  }

  lemma GrantApplies(s: State, c: Change, plans: seq<Plan>, sequence: nat, q: Pending)
    requires AtMostOne(c) && OwnerChangeOk(s, c) && PrefixOk(s, c)
    requires Kept(Prefixed(s, c, sequence), ItemsOf(plans), q)
    ensures ApplyAll(q, Suffix(c)) ==
      if ChangeOk(s, c) then Some(q.(state := q.state.(owners := NextOwners(s, c)))) else None
  {
    hide ApplyAll;
    SuffixApplies(q, c);
    SameOwners(s, c, sequence);
  }

  lemma WholeApplies(s: State, c: Change, plans: seq<Plan>, sequence: nat)
    requires Valid(s) && Planable(s, c, plans)
    ensures PrefixOk(s, c) ==> AllReady(Prefixed(s, c, sequence), s, c, plans)
    ensures ApplyAll(Start(s, sequence), Whole(s, c, plans)) ==
      if ChangeOk(s, c) && OwnersHoldNoRole(s, c, plans) then
        ChangeOkPrefix(s, c);
        PrefixedReady(s, c, plans, sequence);
        Some(Applied(s, c, plans, sequence))
      else None
  {
    hide ApplyAll, Prefix, Suffix, Bodies, AfterPrefix, PrefixOk, ChangeOk, Valid, NextOwners, AllReady, AfterBodies,
         NoOwnerHoldsRole, OwnersHoldNoRole, AccessOk, AtMostOne, Kept;
    var p0 := Start(s, sequence);
    ChangeParts(s, c, plans[0]);
    ApplyAppend(p0, Prefix(c) + Bodies(s, c, plans), Suffix(c));
    ApplyAppend(p0, Prefix(c), Bodies(s, c, plans));
    PrefixApplies(p0, c);
    SequenceIrrelevant(s, c, [], map[], sequence);
    ChangeOkPrefix(s, c);
    if PrefixOk(s, c) {
      var p1 := Prefixed(s, c, sequence);
      PrefixedReady(s, c, plans, sequence);
      BodiesApply(p1, s, c, plans);
      PrefixedRoleFree(s, c, plans, sequence);
      BodiesOutcome(p1, s, c, plans);
      GrantApplies(s, c, plans, sequence, AfterBodies(p1, s, c, plans));
    }
  }

  lemma ChangeOkPrefix(s: State, c: Change)
    ensures ChangeOk(s, c) ==> PrefixOk(s, c)
  {
  }

  lemma ChangeParts(s: State, c: Change, plan: Plan)
    requires RekeyOk(s, c, plan)
    ensures AtMostOne(c) && OwnerChangeOk(s, c)
    ensures c.replacement.Some? ==> c.replacement.value.prior != c.replacement.value.next.id
  {
  }
}
