/** What follows for the batches of one change. */
module BatchConsequences {
  import opened Common
  import opened Policy
  import opened Batch
  import opened Rekey
  import opened RekeyBatch
  import opened BatchReplay
  import opened BatchDeclared
  import opened BatchTheorem

  // ---- Owner operations ----

  predicate OwnerOp(op: Op) { op.OwnerGrant? || op.OwnerRevoke? }

  lemma {:induction false} BodiesHaveNoOwnerOp(s: State, c: Change, plans: seq<Plan>)
    requires forall k :: 0 <= k < |plans| ==> plans[k].item in s.items
    ensures forall op :: op in Bodies(s, c, plans) ==> !OwnerOp(op)
  {
    hide Bodies;
    BodiesArePlain(s, c, plans);
    forall op | op in Bodies(s, c, plans) ensures !OwnerOp(op) {
      var k :| 0 <= k < |Bodies(s, c, plans)| && Bodies(s, c, plans)[k] == op;
      assert !Keyed(op);
    }
  }

  lemma OnceAround(pre: seq<Op>, mid: seq<Op>, suf: seq<Op>, op: Op)
    requires op !in mid && ((pre == [op] && suf == []) || (pre == [] && suf == [op]))
    ensures multiset(pre + mid + suf)[op] == 1
  {
    assert multiset(pre + mid + suf) == multiset(pre) + multiset(mid) + multiset(suf);
  }

  /** However many items the batch has, its owner operation occurs once and no other owner operation occurs. */
  lemma OwnerOpOnce(s: State, author: Id, timestamp: nat, c: Change, plans: seq<Plan>)
    requires Planable(s, c, plans) && c.ownerChange.Some?
    ensures var ops := Planned(s.sequence, author, timestamp, Components(s, author, timestamp, c, plans), []);
      var op := if c.ownerChange.value.GrantOwner? then OwnerGrant(c.ownerChange.value.id)
                else OwnerRevoke(c.ownerChange.value.id);
      ops.Some? && multiset(ops.value)[op] == 1 && forall other :: other in ops.value && OwnerOp(other) ==> other == op
  {
    hide Bodies, AccessOk, Planned, Components;
    BatchShape(s, author, timestamp, c, plans);
    BodiesHaveNoOwnerOp(s, c, plans);
    OneChange(s, c, plans[0]);
    var op := if c.ownerChange.value.GrantOwner? then OwnerGrant(c.ownerChange.value.id)
              else OwnerRevoke(c.ownerChange.value.id);
    assert op !in Bodies(s, c, plans);
    OnceAround(Prefix(c), Bodies(s, c, plans), Suffix(c), op);
  }

  predicate KeepsOwner(op: Op, id: Id) {
    op != OwnerRevoke(id) && !(op.PrincipalReplace? && op.id == id)
  }

  lemma {:induction false} OwnerStays(p: Pending, ops: seq<Op>, id: Id)
    requires id in p.state.owners && forall k :: 0 <= k < |ops| ==> KeepsOwner(ops[k], id)
    ensures var q := ApplyAll(p, ops); q.Some? ==> id in q.value.state.owners
    decreases |ops|
  {
    hide ApplyAll;
    if ops == [] {
      ApplyNone(p);
    } else {
      assert ops == [ops[0]] + ops[1..] && KeepsOwner(ops[0], id);
      ApplyCons(p, ops[0], ops[1..]);
      var q := Apply(p, ops[0]);
      if q.Some? { OwnerStays(q.value, ops[1..], id); }
    }
  }

  /** Why owner grants are moved behind the items: a role change of a principal already granted ownership is refused. */
  lemma GrantBeforeRoleChangeFails(p: Pending, before: seq<Op>, id: Id, between: seq<Op>, change: Op, after: seq<Op>)
    requires change.ItemRoleChange? && change.id == id
    requires forall k :: 0 <= k < |between| ==> KeepsOwner(between[k], id)
    ensures ApplyAll(p, before + [OwnerGrant(id)] + between + [change] + after) == None
  {
    hide ApplyAll;
    var ops := before + [OwnerGrant(id)] + between + [change] + after;
    var head := before + [OwnerGrant(id)];
    ApplyAppend(p, before, [OwnerGrant(id)]);
    ApplyAppend(p, head, between);
    ApplyAppend(p, head + between, [change]);
    ApplyAppend(p, head + between + [change], after);
    if ApplyAll(p, before).Some? {
      ApplyOne(ApplyAll(p, before).value, OwnerGrant(id));
      if ApplyAll(p, head).Some? {
        OwnerStays(ApplyAll(p, head).value, between, id);
        if ApplyAll(p, head + between).Some? {
          ApplyOne(ApplyAll(p, head + between).value, change);
        }
      }
    }
  }

  /** An owner change is vault-wide: a batch that replays covers every item that has direct slots. */
  lemma OwnerChangeCoversDirectItems(s: State, author: Principal, timestamp: nat, c: Change, plans: seq<Plan>)
    requires Valid(s) && Planable(s, c, plans) && c.ownerChange.Some?
    requires Committed(s, author, timestamp, c, plans).Some?
    ensures forall i :: i in s.items && s.items[i].access.direct != map[] ==> i in ItemsOf(plans)
  {
    hide Valid, Committed, AccessOk, ChangeOk, OwnersHoldNoRole, OthersKept, QuorumsPresent, ItemsOf;
    BatchReplays(s, author, timestamp, c, plans);
    assert OtherSlotsKept(s, c, plans);
  }

  // ---- Prior roles ----

  /** A role change without the test that its prior role is the one held. */
  function RoleForced(s: State, item: Id, id: Id, prior: Option<Role>, next: Option<Role>): (r: Option<State>) {
    if Eligible(s, id) && id !in s.owners && prior != Some(Owner) && next != Some(Owner) && item in s.items then
      Some(WithGrants(s, item, WithRole(s.items[item].grants, id, next)))
    else None
  }

  function Forced(p: Pending, op: Op): (r: Option<Pending>) {
    if op.ItemRoleChange? then Keep(p, RoleForced(p.state, op.item, op.id, op.priorRole, op.nextRole)) else Apply(p, op)
  }

  function ForcedAll(p: Pending, ops: seq<Op>): (r: Option<Pending>)
    decreases |ops|
  {
    if ops == [] then Some(p) else
      var q := Forced(p, ops[0]);
      if q.None? then None else ForcedAll(q.value, ops[1..])
  }

  lemma {:induction false} ForcedAppend(p: Pending, a: seq<Op>, b: seq<Op>)
    ensures ForcedAll(p, a + b) == (var q := ForcedAll(p, a); if q.None? then None else ForcedAll(q.value, b))
    decreases |a|
  {
    hide Forced;
    if a == [] {
      assert a + b == b;
    } else {
      assert (a + b)[0] == a[0] && (a + b)[1..] == a[1..] + b;
      var q := Forced(p, a[0]);
      if q.Some? { ForcedAppend(q.value, a[1..], b); }
    }
  }

  lemma {:induction false} ForcedOthers(p: Pending, ops: seq<Op>)
    requires forall k :: 0 <= k < |ops| ==> !ops[k].ItemRoleChange?
    ensures ForcedAll(p, ops) == ApplyAll(p, ops)
    decreases |ops|
  {
    hide Apply;
    if ops == [] {
    } else {
      var q := Apply(p, ops[0]);
      if q.Some? { ForcedOthers(q.value, ops[1..]); }
    }
  }

  lemma {:induction false} ForcedRoles(p: Pending, item: Id, prior: map<Id, Role>, next: map<Id, Role>, ids: seq<Id>)
    requires item in p.state.items && Ascending(ids) && Grantable(p.state, prior, next)
    requires forall id :: id in ids ==> Lookup(p.state.items[item].grants, id) == Lookup(prior, id)
    ensures ForcedAll(p, RoleOps(item, prior, next, ids)) == ApplyAll(p, RoleOps(item, prior, next, ids))
    decreases |ids|
  {
    hide Apply, Forced, WithRole, GrantsComplete, RoleOps;
    RoleOpsFrom(item, prior, next, ids, 0);
    assert ids[0..] == ids;
    if ids == [] {
    } else {
      var id, rest := ids[0], ids[1..];
      assert ids == [id] + rest && id !in rest;
      var tail := RoleOps(item, prior, next, rest);
      if Lookup(prior, id) == Lookup(next, id) {
        assert RoleOps(item, prior, next, ids) == tail;
        ForcedRoles(p, item, prior, next, rest);
      } else {
        var op := ItemRoleChange(item, id, Lookup(prior, id), Lookup(next, id));
        assert RoleOps(item, prior, next, ids) == [op] + tail;
        ApplyCons(p, op, tail);
        ForcedCons(p, op, tail);
        RoleStep(p, item, prior, next, id);
        ForcedStep(p, op);
        if id !in p.state.owners {
          var given := WithRole(p.state.items[item].grants, id, Lookup(next, id));
          ForcedRoles(p.(state := WithGrants(p.state, item, given)), item, prior, next, rest);
        }
      }
    }
  }

  lemma ForcedCons(p: Pending, op: Op, rest: seq<Op>)
    ensures ForcedAll(p, [op] + rest) == (var q := Forced(p, op); if q.None? then None else ForcedAll(q.value, rest))
  {
    hide Forced;
    assert ([op] + rest)[1..] == rest;
  }

  lemma ForcedStep(p: Pending, op: Op)
    requires op.ItemRoleChange? && op.item in p.state.items
    requires Lookup(p.state.items[op.item].grants, op.id) == op.priorRole
    ensures Forced(p, op) == Apply(p, op)
  {
  }

  lemma ForcedBody(p: Pending, s: State, c: Change, plan: Plan)
    requires Ready(p, s, c, plan)
    ensures ForcedAll(p, Body(s, c, plan)) == ApplyAll(p, Body(s, c, plan))
  {
    hide ApplyAll, ForcedAll, RoleOps, Rotation, EffectivePrior, GrantMap, GrantsComplete;
    var prior, next := p.state.items[plan.item].grants, GrantMap(plan.grants);
    ApplyAppend(p, Roles(s, c, plan), Rotation(s, c, plan));
    ForcedAppend(p, Roles(s, c, plan), Rotation(s, c, plan));
    ForcedRoles(p, plan.item, prior, next, Sorted(prior.Keys + next.Keys));
    var q := ApplyAll(p, Roles(s, c, plan));
    if q.Some? {
      RotationHasNoRoles(s, c, plan);
      ForcedOthers(q.value, Rotation(s, c, plan));
    }
  }

  lemma RotationHasNoRoles(s: State, c: Change, plan: Plan)
    requires plan.item in s.items
    ensures forall k :: 0 <= k < |Rotation(s, c, plan)| ==> !Rotation(s, c, plan)[k].ItemRoleChange?
  {
    hide Sorted, Readers, NextReaders, NextDescriptor, NextAccess;
  }

  lemma {:induction false} ForcedBodies(p: Pending, s: State, c: Change, plans: seq<Plan>)
    requires AllReady(p, s, c, plans)
    ensures ForcedAll(p, Bodies(s, c, plans)) == ApplyAll(p, Bodies(s, c, plans))
    decreases |plans|
  {
    hide Body, ApplyAll, ForcedAll, AfterBody, Ready;
    if plans == [] {
      ForcedOthers(p, []);
    } else {
      ItemsReady(p, s, c, plans);
      var body, rest := Body(s, c, plans[0]), Bodies(s, c, plans[1..]);
      ApplyAppend(p, body, rest);
      ForcedAppend(p, body, rest);
      ForcedBody(p, s, c, plans[0]);
      ReadyItem(p, s, c, plans[0]);
      BodyApplies(p, s, c, plans[0]);
      ReadyAfter(p, s, c, plans);
      if ApplyAll(p, body).Some? { ForcedBodies(AfterBody(p, s, c, plans[0]), s, c, plans[1..]); }
    }
  }

  lemma ReadyItem(p: Pending, s: State, c: Change, plan: Plan)
    requires Ready(p, s, c, plan)
    ensures plan.item in p.state.items
  {
  }

  lemma ItemsReady(p: Pending, s: State, c: Change, plans: seq<Plan>)
    requires AllReady(p, s, c, plans)
    ensures forall k :: 0 <= k < |plans| ==> plans[k].item in s.items
  {
  }

  /** Every prior role a merged batch declares is the one held where it is applied: with that test removed the batch
      applies in the same cases and to the same state. */
  lemma PriorRolesMatch(s: State, c: Change, plans: seq<Plan>)
    requires Valid(s) && Planable(s, c, plans)
    ensures var p := Start(s, s.sequence + 1); ForcedAll(p, Whole(s, c, plans)) == ApplyAll(p, Whole(s, c, plans))
  {
    hide ApplyAll, ForcedAll, Prefix, Suffix, Bodies, AfterPrefix, PrefixOk, Valid, AccessOk, AtMostOne, AllReady;
    var p := Start(s, s.sequence + 1);
    var pre, mid, suf := Prefix(c), Bodies(s, c, plans), Suffix(c);
    ChangeParts(s, c, plans[0]);
    ApplyAppend(p, pre + mid, suf);
    ApplyAppend(p, pre, mid);
    ForcedAppend(p, pre + mid, suf);
    ForcedAppend(p, pre, mid);
    EndsHaveNoRoles(c);
    ForcedOthers(p, pre);
    PrefixApplies(p, c);
    SequenceIrrelevant(s, c, [], map[], s.sequence + 1);
    if PrefixOk(s, c) {
      var q := Prefixed(s, c, s.sequence + 1);
      PrefixedReady(s, c, plans, s.sequence + 1);
      ForcedBodies(q, s, c, plans);
      if ApplyAll(q, mid).Some? { ForcedOthers(ApplyAll(q, mid).value, suf); }
    }
  }

  lemma EndsHaveNoRoles(c: Change)
    ensures forall k :: 0 <= k < |Prefix(c)| ==> !Prefix(c)[k].ItemRoleChange?
    ensures forall k :: 0 <= k < |Suffix(c)| ==> !Suffix(c)[k].ItemRoleChange?
  {
  }

  // ---- Owners who keep a role ----

  /** While an owner holds a role on an item, every batch over that item is refused unless it revokes them. */
  lemma OwnerWithRoleBlocks(s: State, author: Principal, timestamp: nat, c: Change, plans: seq<Plan>, k: nat, id: Id)
    requires Valid(s) && Planable(s, c, plans) && k < |plans|
    requires id in s.owners && id in s.items[plans[k].item].grants && Revoked(c) != {id}
    ensures Committed(s, author, timestamp, c, plans) == None
  {
    hide Valid, AccessOk, ChangeOk, OthersKept, OtherSlotsKept, QuorumsPresent, Committed;
    BatchReplays(s, author, timestamp, c, plans);
    assert id in s.items[plans[k].item].grants.Keys && id in s.owners - Revoked(c);
  }

  function Person(id: Id): (r: Principal) { Principal(id, Human, id, id, true) }

  /** Two people with direct slots on the only item, the first as its owner and the second as a reader. */
  function SharedItem(): (r: State) {
    var access := Access(map[1 := Direct(Owner, 1), 2 := Direct(Reader, 2)], None, 1, 1, 0);
    State(1, map[1 := Member(Person(1), OWNER_LABEL), 2 := Member(Person(2), [2])], {1, 2}, {1, 2}, {1, 2}, {1},
          map[7 := Item(1, Descriptor(1, 1, 0), 0, map[2 := Reader], access)], {7}, map[], map[])
  }

  function Promotion(): (r: Change) { Change(None, None, Some(GrantOwner(2))) }

  function KeptReader(): (r: seq<Plan>) {
    [Plan(7, [Grant(2, Reader)], [2], None, Envelope(true, 0, Descriptor(1, 1, 0), 1, 1), 1, 1, 1)]
  }

  /** Such a state arises: the owner registers the second person and creates the item. */
  lemma SharedItemReachable(timestamp: nat)
    ensures var revision := Revision(1, timestamp, true, SharingOps());
      ReplayAll(Genesis(Person(1), map[]), 0, [revision], false) == Some(SharedItem())
  {
    hide Replay;
    var g := Genesis(Person(1), map[]);
    SharingReplays();
    assert [Revision(1, timestamp, true, SharingOps())][1..] == [];
  }

  function SharingOps(): (r: seq<Op>) {
    [PrincipalAdd(Person(2), [2], 0), ItemCreate(7, 1, Descriptor(1, 1, 0), 0, SharedItem().items[7].access)]
  }

  lemma SharingApplies()
    ensures ApplyAll(Start(Genesis(Person(1), map[]), 1), SharingOps()) == Some(Pending(SharedItem(), map[], map[]))
  {
    hide ApplyAll;
    var ops, s := SharingOps(), SharedItem();
    var p := Start(Genesis(Person(1), map[]), 1);
    var q := p.(state := s.(items := map[], usedItemIds := {}));
    assert ops == [ops[0]] + [ops[1]];
    ApplyCons(p, ops[0], [ops[1]]);
    assert Apply(p, ops[0]) == Some(q) by {
      var next := Used(p.state, Person(2)).(members := p.state.members[2 := Member(Person(2), [2])]);
      assert LabelOk([2]) && Unused(p.state, Person(2));
      assert next.members == q.state.members && next.usedIds == q.state.usedIds;
      assert next == q.state;
    }
    ApplyOne(q, ops[1]);
    assert Apply(q, ops[1]) == Some(p.(state := s)) by {
      var access := s.items[7].access;
      assert SlotGrants(access.direct) == map[2 := Reader];
      var created := Item(1, Descriptor(1, 1, 0), 0, SlotGrants(access.direct), access);
      assert created == s.items[7];
      var next := q.state.(usedItemIds := q.state.usedItemIds + {7}, items := q.state.items[7 := created]);
      assert next.items == s.items && next.usedItemIds == s.usedItemIds;
      assert next == s;
    }
  }

  lemma SharingReplays()
    ensures Replay(Genesis(Person(1), map[]), SharingOps()) == Some(SharedItem())
  {
    hide Complete, ApplyAll;
    var g, s := Genesis(Person(1), map[]), SharedItem();
    SharingApplies();
    assert WithRotations(g, Pending(s, map[], map[])) == s;
    SharedItemComplete();
    assert s.items.Keys == {7};
  }

  lemma SharedItemValid()
    ensures Valid(SharedItem())
  {
    hide Complete, Rooted;
    assert SharedItem().items.Keys == {7};
    SharedItemRooted();
    SharedItemComplete();
  }

  lemma SharedItemRooted()
    ensures Rooted(SharedItem())
  {
  }

  lemma SharedItemComplete()
    ensures Complete(SharedItem())
  {
    hide AccessComplete;
    var s := SharedItem();
    SharedSlotsComplete();
    forall i | i in s.items ensures AccessComplete(s, s.items[i]) { assert i == 7; }
  }

  lemma SharedSlotsComplete()
    ensures AccessComplete(SharedItem(), SharedItem().items[7])
  {
    var s := SharedItem();
    var direct := s.items[7].access.direct;
    assert 1 in direct;
    assert DirectComplete(s, s.items[7].grants, direct);
  }

  lemma PromotionPlanable()
    ensures Planable(SharedItem(), Promotion(), KeptReader())
  {
    hide SlotsOk;
    var s, c, plans := SharedItem(), Promotion(), KeptReader();
    assert GrantOk(s, c, plans[0].grants[0]);
    PromotionSlots();
    assert RekeyOk(s, c, plans[0]);
  }

  lemma PromotionSlots()
    ensures SlotsOk(SharedItem(), Promotion(), KeptReader()[0])
  {
    var s, c, plan := SharedItem(), Promotion(), KeptReader()[0];
    assert Recipients(s, c, plan) <= {1, 2};
    assert WillOwn(s, c, 1) && WillOwn(s, c, 2);
    forall id | id in Recipients(s, c, plan) ensures RecipientOk(s, c, plan, id) { assert id == 1 || id == 2; }
  }

  lemma PromotionAcceptable()
    ensures Acceptable(SharedItem(), Promotion(), KeptReader())
  {
    hide GrantMap;
    var s, c, plans := SharedItem(), Promotion(), KeptReader();
    assert plans[0].item in ItemsOf(plans);
  }

  /** A batch can lead there: it may make a reader an owner and leave them their role. */
  lemma GrantMayKeepRole(timestamp: nat)
    ensures (PromotionPlanable();
      var t := Committed(SharedItem(), Person(1), timestamp, Promotion(), KeptReader());
      t.Some? && Valid(t.value) && 2 in t.value.owners && 7 in t.value.items && 2 in t.value.items[7].grants)
  {
    hide Committed, SharedItem, Valid, AccessOk, Acceptable, GrantMap;
    var s, c, plans := SharedItem(), Promotion(), KeptReader();
    SharedItemValid();
    PromotionPlanable();
    PromotionAcceptable();
    PromotionAuthor();
    BatchReplays(s, Person(1), timestamp, c, plans);
    var t := Committed(s, Person(1), timestamp, c, plans).value;
    assert PlanDeclared(s, plans[0], t);
    assert plans[0].grants[0] in plans[0].grants;
  }

  /** Preparing does not look at the clock: the same batch is prepared, but refused by a journal that is already
      later. */
  lemma LateBatchRefused(clock: nat, timestamp: nat)
    requires timestamp < clock
    ensures (PromotionPlanable();
      && Committed(SharedItem(), Person(1), timestamp, Promotion(), KeptReader()).Some?
      && Adopted(SharedItem(), clock, Person(1), timestamp, Promotion(), KeptReader()) == None)
  {
    hide Committed, Adopted, SharedItem, Valid, AccessOk, Acceptable;
    SharedItemValid();
    PromotionPlanable();
    GrantMayKeepRole(timestamp);
    BatchAdopted(SharedItem(), clock, Person(1), timestamp, Promotion(), KeptReader());
  }

  lemma PromotionAuthor()
    ensures MayAuthor(SharedItem(), Person(1)) && SharedItem().sequence < MAX_REVISIONS
  {
  }
}
