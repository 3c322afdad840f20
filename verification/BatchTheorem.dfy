/** When a merged rekey batch replays, and what it replays to. */
module BatchTheorem {
  import opened Common
  import opened Policy
  import opened Batch
  import opened Rekey
  import opened RekeyBatch
  import opened BatchReplay
  import opened BatchSlots
  import opened BatchDeclared

  // ---- The batch is well formed ----

  ghost function Keys(ops: seq<Op>): (r: set<Key>) { set op | op in ops :: KeyOf(op) }

  predicate FormatsOk(ops: seq<Op>, sequence: nat) {
    forall k :: 0 <= k < |ops| ==> FormatOk(ops[k], sequence)
  }

  lemma KeysJoin(a: seq<Op>, b: seq<Op>)
    ensures Keys(a + b) == Keys(a) + Keys(b)
  {
    hide KeyOf;
  }

  lemma Joined(a: seq<Op>, b: seq<Op>, sequence: nat)
    requires DistinctKeys(a) && DistinctKeys(b) && Keys(a) !! Keys(b)
    requires FormatsOk(a, sequence) && FormatsOk(b, sequence)
    ensures DistinctKeys(a + b) && FormatsOk(a + b, sequence)
  {
    hide KeyOf, FormatOk;
    var ops := a + b;
    forall i, j | 0 <= i < j < |ops| ensures KeyOf(ops[i]) != KeyOf(ops[j]) {
      if i < |a| && j >= |a| {
        assert ops[i] in a && ops[j] in b;
        assert KeyOf(ops[i]) in Keys(a) && KeyOf(ops[j]) in Keys(b);
      } else if i >= |a| {
        assert ops[i] == b[i - |a|] && ops[j] == b[j - |a|];
      }
    }
  }

  lemma {:induction false} RolesWellFormed(item: Id, prior: map<Id, Role>, next: map<Id, Role>, ids: seq<Id>,
                                           sequence: nat)
    requires Ascending(ids)
    ensures var ops := RoleOps(item, prior, next, ids);
      && DistinctKeys(ops) && FormatsOk(ops, sequence)
      && forall key :: key in Keys(ops) ==> key.RoleKey? && key.item == item && key.id in ids
    decreases |ids|
  {
    if ids == [] {
    } else {
      var id, rest := ids[0], ids[1..];
      assert id !in rest;
      RolesWellFormed(item, prior, next, rest, sequence);
      if Lookup(prior, id) != Lookup(next, id) {
        var op := ItemRoleChange(item, id, Lookup(prior, id), Lookup(next, id));
        OneWellFormed(op, sequence);
        Joined([op], RoleOps(item, prior, next, rest), sequence);
        KeysJoin([op], RoleOps(item, prior, next, rest));
      } else {
        assert RoleOps(item, prior, next, ids) == RoleOps(item, prior, next, rest);
      }
    }
  }

  lemma OneWellFormed(op: Op, sequence: nat)
    ensures DistinctKeys([op]) && Keys([op]) == {KeyOf(op)}
    ensures FormatOk(op, sequence) ==> FormatsOk([op], sequence)
  {
  }

  predicate KeyOfItem(key: Key, item: Id) {
    key == ItemKey(10, item) || key == ItemKey(11, item) || (key.RoleKey? && key.item == item)
  }

  lemma RotationWellFormed(s: State, c: Change, plan: Plan)
    requires RekeyOk(s, c, plan) && s.items[plan.item].epoch >= 1
    ensures var ops := Rotation(s, c, plan);
      && DistinctKeys(ops) && FormatsOk(ops, s.sequence + 1)
      && Keys(ops) == {ItemKey(10, plan.item), ItemKey(11, plan.item)}
  {
    hide Sorted, GrantMap, Readers, NextReaders, DistinctKeys, FormatsOk, AccessOk, DirectSlots, WitnessedSlots,
         HasPath;
    var rot := Rotation(s, c, plan);
    ReadersSorted(s, c, plan);
    AllRecipientsResolved(s, c, plan);
    OneWellFormed(rot[0], s.sequence + 1);
    OneWellFormed(rot[1], s.sequence + 1);
    Joined([rot[0]], [rot[1]], s.sequence + 1);
    KeysJoin([rot[0]], [rot[1]]);
    assert rot == [rot[0]] + [rot[1]];
  }

  lemma BodyWellFormed(s: State, c: Change, plan: Plan)
    requires RekeyOk(s, c, plan) && s.items[plan.item].epoch >= 1
    ensures var ops := Body(s, c, plan);
      && DistinctKeys(ops) && FormatsOk(ops, s.sequence + 1)
      && forall key :: key in Keys(ops) ==> KeyOfItem(key, plan.item)
  {
    hide RoleOps, Sorted, GrantMap, EffectivePrior, DistinctKeys, FormatsOk, Rotation, Keys, AccessOk;
    var prior, next := EffectivePrior(c, s.items[plan.item].grants), GrantMap(plan.grants);
    RolesWellFormed(plan.item, prior, next, Sorted(prior.Keys + next.Keys), s.sequence + 1);
    RotationWellFormed(s, c, plan);
    Joined(Roles(s, c, plan), Rotation(s, c, plan), s.sequence + 1);
    KeysJoin(Roles(s, c, plan), Rotation(s, c, plan));
  }

  lemma ReadersSorted(s: State, c: Change, plan: Plan)
    ensures NextReaders(s, c, plan) == Sorted(NextOwners(s, c) + GrantMap(plan.grants).Keys)
  {
  }

  lemma {:induction false} BodiesWellFormed(s: State, c: Change, plans: seq<Plan>)
    requires forall k :: 0 <= k < |plans| ==> plans[k].item in s.items && s.items[plans[k].item].epoch >= 1
    requires forall k :: 0 <= k < |plans| ==> RekeyOk(s, c, plans[k])
    requires forall i, j :: 0 <= i < j < |plans| ==> plans[i].item != plans[j].item
    ensures var ops := Bodies(s, c, plans);
      && DistinctKeys(ops) && FormatsOk(ops, s.sequence + 1)
      && forall key :: key in Keys(ops) ==> exists k :: 0 <= k < |plans| && KeyOfItem(key, plans[k].item)
    decreases |plans|
  {
    hide Body, DistinctKeys, FormatsOk, Keys, AccessOk;
    if plans == [] {
      NoneWellFormed(s.sequence + 1);
    } else {
      var rest := plans[1..];
      BodyWellFormed(s, c, plans[0]);
      BodiesWellFormed(s, c, rest);
      KeysJoin(Body(s, c, plans[0]), Bodies(s, c, rest));
      forall key | key in Keys(Bodies(s, c, rest))
        ensures !KeyOfItem(key, plans[0].item)
        ensures exists k :: 0 <= k < |plans| && KeyOfItem(key, plans[k].item)
      {
        var k :| 0 <= k < |rest| && KeyOfItem(key, rest[k].item);
        assert plans[k + 1] == rest[k];
      }
      Joined(Body(s, c, plans[0]), Bodies(s, c, rest), s.sequence + 1);
    }
  }

  lemma NoneWellFormed(sequence: nat)
    ensures DistinctKeys([]) && FormatsOk([], sequence) && Keys([]) == {}
  {
  }

  lemma ChangeWellFormed(c: Change, sequence: nat)
    requires AtMostOne(c)
    requires c.replacement.Some? ==> c.replacement.value.prior != c.replacement.value.next.id
    requires c.registration.Some? ==> LabelOk(c.registration.value.name)
    ensures FormatsOk(Prefix(c), sequence) && FormatsOk(Suffix(c), sequence)
    ensures DistinctKeys(Prefix(c)) && DistinctKeys(Suffix(c)) && Keys(Prefix(c)) !! Keys(Suffix(c))
    ensures forall key :: key in Keys(Prefix(c)) + Keys(Suffix(c)) ==> key.PrincipalKey?
  {
    hide FormatsOk, DistinctKeys, Keys;
    NoneWellFormed(sequence);
    if c.registration.Some? || c.replacement.Some? || (c.ownerChange.Some? && c.ownerChange.value.RevokeOwner?) {
      assert Suffix(c) == [] && Prefix(c) == [Prefix(c)[0]];
      OneWellFormed(Prefix(c)[0], sequence);
    } else if c.ownerChange.Some? {
      assert Prefix(c) == [];
      OneWellFormed(Suffix(c)[0], sequence);
    }
  }

  lemma WholeWellFormed(s: State, c: Change, plans: seq<Plan>)
    requires Valid(s) && Planable(s, c, plans) && ChangeOk(s, c)
    ensures WellFormed(Whole(s, c, plans), s.sequence + 1)
  {
    hide Prefix, Suffix, Bodies, FormatsOk, DistinctKeys, Keys, AccessOk, ChangeOk, Valid;
    var sequence := s.sequence + 1;
    ChangeParts(s, c, plans[0]);
    ChangeLabel(s, c);
    ChangeWellFormed(c, sequence);
    forall k | 0 <= k < |plans| ensures s.items[plans[k].item].epoch >= 1 {
      assert RekeyOk(s, c, plans[k]);
      ValidItem(s, plans[k].item);
    }
    BodiesWellFormed(s, c, plans);
    forall key | key in Keys(Bodies(s, c, plans)) ensures !key.PrincipalKey? {
      var k :| 0 <= k < |plans| && KeyOfItem(key, plans[k].item);
    }
    KeysJoin(Prefix(c), Bodies(s, c, plans));
    Joined(Prefix(c), Bodies(s, c, plans), sequence);
    Joined(Prefix(c) + Bodies(s, c, plans), Suffix(c), sequence);
    BodiesNonEmpty(s, c, plans);
    WellFormedParts(Whole(s, c, plans), sequence);
  }

  lemma WellFormedParts(ops: seq<Op>, sequence: nat)
    requires ops != [] && FormatsOk(ops, sequence) && DistinctKeys(ops)
    ensures WellFormed(ops, sequence)
  {
  }

  lemma ChangeLabel(s: State, c: Change)
    requires ChangeOk(s, c)
    ensures c.registration.Some? ==> LabelOk(c.registration.value.name)
  {
  }

  lemma BodiesNonEmpty(s: State, c: Change, plans: seq<Plan>)
    requires Planable(s, c, plans)
    ensures Bodies(s, c, plans) != []
  {
    hide Roles, Sorted, NextReaders, NextAccess, AccessOk;
  }

  // ---- The rotations ----

  /** Who can read a planned item afterwards. */
  function ReadersAfter(s: State, c: Change, plan: Plan): (r: set<Id>) {
    NextOwners(s, c) + GrantMap(plan.grants).Keys
  }

  lemma ReadersKeptExactly(s: State, c: Change, item: Id)
    requires Valid(s) && item in s.items && AtMostOne(c) && ChangeOk(s, c) && OwnerChangeOk(s, c)
    ensures Readers(s, item) == NextOwners(s, c) + EffectivePrior(c, s.items[item].grants).Keys
       <==> ReadersKept(s, c, item)
  {
    hide Valid;
    ValidIdsUsed(s, item);
    var grants := s.items[item].grants;
    var after := NextOwners(s, c) + EffectivePrior(c, grants).Keys;
    if c.replacement.Some? {
      var r := c.replacement.value;
      assert r.next.id !in Readers(s, item);
      if r.prior in s.owners || r.prior in grants { assert r.next.id in after; }
    } else if c.ownerChange.Some? {
      var id := c.ownerChange.value.id;
      assert id in Readers(s, item) && id in after <==> id in grants;
    }
  }

  /** Every item outside the batch keeps its readers. */
  ghost predicate OthersKept(s: State, c: Change, plans: seq<Plan>) {
    forall i :: i in s.items && i !in ItemsOf(plans) ==> ReadersKept(s, c, i)
  }

  /** What the operations did, apart from how they did it. */
  ghost predicate Reached(s: State, c: Change, plans: seq<Plan>, sequence: nat, f: Pending) {
    && f.state == Newcomer(s, c).(sequence := sequence, members := NextMembers(s, c), owners := NextOwners(s, c),
                                  items := f.state.items)
    && f.state.items.Keys == s.items.Keys
    && (forall k :: 0 <= k < |plans| ==> PlanReached(s, c, plans[k], f))
    && (forall i :: i !in ItemsOf(plans) ==> OtherReached(s, c, i, f))
  }

  ghost predicate PlanReached(s: State, c: Change, plan: Plan, f: Pending) {
    && plan.item in s.items && plan.item in f.state.items
    && f.state.items[plan.item] == s.items[plan.item].(grants := GrantMap(plan.grants))
    && Lookup(f.readers, plan.item) == Some(ReaderRotationOf(s, c, plan))
    && Lookup(f.slots, plan.item) == Some(SlotRotationOf(s, c, plan))
  }

  ghost predicate OtherReached(s: State, c: Change, i: Id, f: Pending) {
    && i !in f.readers && i !in f.slots
    && (i in s.items ==>
          i in f.state.items && f.state.items[i] == s.items[i].(grants := EffectivePrior(c, s.items[i].grants)))
  }

  lemma AppliedReached(s: State, c: Change, plans: seq<Plan>, sequence: nat)
    requires AllReady(Prefixed(s, c, sequence), s, c, plans)
    ensures Reached(s, c, plans, sequence, Applied(s, c, plans, sequence))
  {
    hide EffectivePrior, GrantMap, ReaderRotationOf, SlotRotationOf, AfterBodies, AllReady, NextOwners, NextMembers,
         OwnersMeanwhile;
    var p, f := Prefixed(s, c, sequence), Applied(s, c, plans, sequence);
    BodiesOutcome(p, s, c, plans);
    SameOwners(s, c, sequence);
    var q := AfterBodies(p, s, c, plans);
    forall k | 0 <= k < |plans| ensures PlanReached(s, c, plans[k], f) {
      assert Placed(p, s, c, plans[k], q);
    }
    forall i | i !in ItemsOf(plans) ensures OtherReached(s, c, i, f) {
      assert Lookup(q.state.items, i) == Lookup(p.state.items, i);
      assert Lookup(q.readers, i) == Lookup(p.readers, i) && Lookup(q.slots, i) == Lookup(p.slots, i);
    }
  }

  /** New slots always differ from the old ones, which carry the old epoch. */
  lemma PlanRotation(s: State, c: Change, plan: Plan, f: Pending)
    requires Valid(s) && RekeyOk(s, c, plan) && PlanReached(s, c, plan, f) && f.state.owners == NextOwners(s, c)
    ensures RotationOk(s, f, plan.item)
  {
    hide GrantMap, NextOwners, Sorted, Valid, AccessOk, DirectSlots, WitnessedSlots;
    ValidItem(s, plan.item);
    assert Readers(f.state, plan.item) == ReadersAfter(s, c, plan);
  }

  lemma OtherRotation(s: State, c: Change, i: Id, f: Pending)
    requires Valid(s) && s.sequence < MAX_U64 && AtMostOne(c) && ChangeOk(s, c) && OwnerChangeOk(s, c)
    requires i in s.items && OtherReached(s, c, i, f) && f.state.owners == NextOwners(s, c)
    ensures RotationOk(s, f, i) <==> ReadersKept(s, c, i)
  {
    hide EffectivePrior, NextOwners, Sorted, Valid, AtMostOne, ChangeOk, ReadersKept;
    assert Readers(f.state, i) == NextOwners(s, c) + EffectivePrior(c, s.items[i].grants).Keys;
    ValidItem(s, i);
    ReadersKeptExactly(s, c, i);
  }

  lemma BatchRotations(s: State, c: Change, plans: seq<Plan>, sequence: nat, f: Pending)
    requires Valid(s) && Planable(s, c, plans) && ChangeOk(s, c) && Reached(s, c, plans, sequence, f)
    ensures RotationsOk(s, f) <==> OthersKept(s, c, plans)
  {
    hide Valid, ChangeOk, NextOwners, NextMembers, RotationOk, AccessOk, ReadersKept, PlanReached, OtherReached,
         Newcomer, ItemsOf;
    ChangeParts(s, c, plans[0]);
    RotatedItemsKnown(s, c, plans, sequence, f);
    forall i | i in s.items && i in ItemsOf(plans) ensures RotationOk(s, f, i) {
      var k := IndexOf(plans, i);
      PlanRotation(s, c, plans[k], f);
    }
    forall i | i in s.items && i !in ItemsOf(plans)
      ensures RotationOk(s, f, i) <==> ReadersKept(s, c, i)
    {
      OtherRotation(s, c, i, f);
    }
  }

  lemma IndexOf(plans: seq<Plan>, i: Id) returns (k: nat)
    requires i in ItemsOf(plans)
    ensures k < |plans| && plans[k].item == i
  {
    k :| 0 <= k < |plans| && plans[k].item == i;
  }

  lemma RotatedItemsKnown(s: State, c: Change, plans: seq<Plan>, sequence: nat, f: Pending)
    requires Reached(s, c, plans, sequence, f)
    ensures forall i :: i in f.readers.Keys + f.slots.Keys ==> i in s.items && i in f.state.items
  {
    assert forall i :: i !in ItemsOf(plans) ==> OtherReached(s, c, i, f);
    assert forall i :: i in f.readers.Keys + f.slots.Keys ==> i in ItemsOf(plans);
  }

  // ---- The result ----

  /** What a replayed batch did: every planned item has exactly the grants, readers, epoch, descriptor and slots its
      component declared, every other item only follows a replacement, and the owners are the declared next owners. */
  ghost predicate Delivered(s: State, c: Change, plans: seq<Plan>, sequence: nat, t: State) {
    && t == Newcomer(s, c).(sequence := sequence, members := NextMembers(s, c), owners := NextOwners(s, c),
                            items := t.items)
    && t.items.Keys == s.items.Keys
    && (forall k :: 0 <= k < |plans| ==> PlanDelivered(s, c, plans[k], t))
    && (forall i :: i in s.items && i !in ItemsOf(plans) ==>
          t.items[i] == s.items[i].(grants := EffectivePrior(c, s.items[i].grants)))
  }

  ghost predicate PlanDelivered(s: State, c: Change, plan: Plan, t: State) {
    && plan.item in s.items && plan.item in t.items
    && t.items[plan.item] == Item(s.items[plan.item].epoch + 1, NextDescriptor(s, plan), plan.revisionHash,
                                  GrantMap(plan.grants), NextAccess(s, c, plan))
    && Sorted(Readers(t, plan.item)) == NextReaders(s, c, plan)
  }

  lemma RotatedDelivers(s: State, c: Change, plans: seq<Plan>, sequence: nat, f: Pending)
    requires Reached(s, c, plans, sequence, f)
    ensures Delivered(s, c, plans, sequence, WithRotations(s, f))
  {
    hide NextOwners, NextMembers, EffectivePrior, GrantMap, Sorted, NextDescriptor, NextAccess, Newcomer;
    var t := WithRotations(s, f);
    forall k | 0 <= k < |plans| ensures PlanDelivered(s, c, plans[k], t) {
      assert PlanReached(s, c, plans[k], f);
      assert Readers(t, plans[k].item) == NextOwners(s, c) + GrantMap(plans[k].grants).Keys;
    }
    forall i | i in s.items && i !in ItemsOf(plans)
      ensures t.items[i] == s.items[i].(grants := EffectivePrior(c, s.items[i].grants))
    {
      assert OtherReached(s, c, i, f);
    }
  }

  /** The slots of every item outside the batch stay current. */
  ghost predicate OtherSlotsKept(s: State, c: Change, plans: seq<Plan>) {
    forall i :: i in s.items && i !in ItemsOf(plans) ==> SlotsKept(s, c, i)
  }

  ghost predicate QuorumsPresent(s: State, c: Change, plans: seq<Plan>) {
    forall k :: 0 <= k < |plans| ==> QuorumPresent(s, c, plans[k])
  }

  lemma PlanComplete(s: State, c: Change, plan: Plan, t: State)
    requires Valid(s) && RekeyOk(s, c, plan) && ChangeOk(s, c) && Changed(s, c, t) && PlanDelivered(s, c, plan, t)
    ensures var it := t.items[plan.item];
      GrantsComplete(t, it.grants) && (AccessComplete(t, it) <==> QuorumPresent(s, c, plan))
  {
    hide Valid, SlotsOk, GrantsOk, AtMostOne, ChangeOk, GrantMap, NextOwners, NextMembers, GrantsComplete,
         AccessComplete, Sorted, Readers, NextReaders, PrefixOk, QuorumPresent;
    ValidItem(s, plan.item);
    ChangeOkPrefix(s, c);
    NextComplete(s, c, plan.grants);
    SameMembers(s, c, t, GrantMap(plan.grants));
    PlanAccess(s, c, plan, t, t.items[plan.item]);
  }

  lemma OtherComplete(s: State, c: Change, t: State, i: Id, it: Item)
    requires Valid(s) && i in s.items && AtMostOne(c) && ChangeOk(s, c) && OwnerChangeOk(s, c) && Changed(s, c, t)
    requires ReadersKept(s, c, i) && it == s.items[i].(grants := EffectivePrior(c, s.items[i].grants))
    ensures GrantsComplete(t, it.grants) && (AccessComplete(t, it) <==> SlotsKept(s, c, i))
  {
    hide Valid, AtMostOne, ChangeOk, EffectivePrior, NextOwners, NextMembers, GrantsComplete, AccessComplete, PrefixOk,
         SlotsKept, ReadersKept;
    ValidItem(s, i);
    ChangeOkPrefix(s, c);
    PriorComplete(s, c, s.items[i].grants);
    SameMembers(s, c, t, it.grants);
    OtherAccess(s, c, t, i, it);
  }

  lemma DeliveredComplete(s: State, c: Change, plans: seq<Plan>, t: State)
    requires Valid(s) && Planable(s, c, plans) && ChangeOk(s, c) && OthersKept(s, c, plans)
    requires Delivered(s, c, plans, s.sequence + 1, t)
    ensures Complete(t) <==> OtherSlotsKept(s, c, plans) && QuorumsPresent(s, c, plans)
    ensures |t.items.Keys| <= MAX_ITEMS
  {
    hide AccessOk, ChangeOk, NextOwners, NextMembers, GrantsComplete, OwnersComplete, AccessComplete, ItemsOf, Valid,
         PlanDelivered, SlotsKept, ReadersKept, QuorumPresent, EffectivePrior;
    ChangeParts(s, c, plans[0]);
    ValidSize(s);
    NewcomerKeeps(s, c);
    OwnersStayComplete(s, c, t);
    forall k | 0 <= k < |plans|
      ensures plans[k].item in t.items
      ensures var it := t.items[plans[k].item];
        GrantsComplete(t, it.grants) && (AccessComplete(t, it) <==> QuorumPresent(s, c, plans[k]))
    {
      PlanInState(s, c, plans[k], t);
      PlanComplete(s, c, plans[k], t);
    }
    forall i | i in s.items && i !in ItemsOf(plans)
      ensures GrantsComplete(t, t.items[i].grants) && (AccessComplete(t, t.items[i]) <==> SlotsKept(s, c, i))
    {
      OtherComplete(s, c, t, i, t.items[i]);
    }
    if OtherSlotsKept(s, c, plans) && QuorumsPresent(s, c, plans) {
      forall i | i in t.items ensures GrantsComplete(t, t.items[i].grants) && AccessComplete(t, t.items[i]) {
        if i in ItemsOf(plans) { var k := IndexOf(plans, i); }
      }
    }
  }

  lemma PlanInState(s: State, c: Change, plan: Plan, t: State)
    requires PlanDelivered(s, c, plan, t)
    ensures plan.item in t.items
  {
  }

  lemma ValidSize(s: State)
    requires Valid(s)
    ensures |s.items.Keys| <= MAX_ITEMS
  {
  }

  lemma NewcomerKeeps(s: State, c: Change)
    ensures Newcomer(s, c).witnessPolicies == s.witnessPolicies
  {
  }

  lemma SameMembers(s: State, c: Change, t: State, grants: map<Id, Role>)
    requires t.members == NextMembers(s, c)
    ensures GrantsComplete(AfterPrefix(s, c), grants) <==> GrantsComplete(t, grants)
  {
  }

  lemma OwnersStayComplete(s: State, c: Change, t: State)
    requires Valid(s) && AtMostOne(c) && ChangeOk(s, c)
    requires t.members == NextMembers(s, c) && t.owners == NextOwners(s, c)
    ensures OwnersComplete(t)
  {
    if c.replacement.Some? {
      var r := c.replacement.value;
      var o :| o in s.owners;
      assert r.prior in s.owners || o in t.owners;
    } else if c.ownerChange.Some? && c.ownerChange.value.RevokeOwner? {
      var id := c.ownerChange.value.id;
      assert s.owners <= {id} ==> s.owners == {id};
      assert t.owners == s.owners - {id};
    } else {
      var o :| o in s.owners;
      assert o in t.owners;
    }
  }

  /** The condition under which a batch of one change over distinct items is accepted by replay. */
  ghost predicate Acceptable(s: State, c: Change, plans: seq<Plan>)
    requires forall k :: 0 <= k < |plans| ==> plans[k].item in s.items
  {
    && ChangeOk(s, c)
    && OwnersHoldNoRole(s, c, plans)
    && OthersKept(s, c, plans) && OtherSlotsKept(s, c, plans)
    && QuorumsPresent(s, c, plans)
  }

  lemma WholeReplays(s: State, c: Change, plans: seq<Plan>)
    requires Valid(s) && Planable(s, c, plans)
    ensures var t := Replay(s, Whole(s, c, plans));
      (t.Some? <==> Acceptable(s, c, plans)) && (t.Some? ==> Delivered(s, c, plans, s.sequence + 1, t.value))
  {
    hide Valid, Whole, WellFormed, ApplyAll, ChangeOk, OwnersHoldNoRole, OthersKept, OtherSlotsKept, QuorumsPresent,
         RotationsOk, WithRotations, Delivered, Reached, Complete, AllReady, Applied, PrefixOk, AccessOk, Prefixed;
    var sequence := s.sequence + 1;
    WholeApplies(s, c, plans, sequence);
    if ChangeOk(s, c) && OwnersHoldNoRole(s, c, plans) {
      WholeWellFormed(s, c, plans);
      ChangeOkPrefix(s, c);
      var f := Applied(s, c, plans, sequence);
      AppliedReached(s, c, plans, sequence);
      BatchRotations(s, c, plans, sequence, f);
      RotatedDelivers(s, c, plans, sequence, f);
      if OthersKept(s, c, plans) { DeliveredComplete(s, c, plans, WithRotations(s, f)); }
    }
  }

  /** The revision an author prepares from the components of one change. */
  function Committed(s: State, author: Principal, timestamp: nat, c: Change, plans: seq<Plan>): (r: Option<State>)
    requires forall k :: 0 <= k < |plans| ==> RekeyOk(s, c, plans[k])
  {
    var ops := Planned(s.sequence, author.id, timestamp, Components(s, author.id, timestamp, c, plans), []);
    if ops.None? then None else Prepared(s, author, ops.value)
  }

  lemma PlanIsDeclared(s: State, c: Change, plan: Plan, t: State)
    requires s.members.Keys <= s.usedIds && RekeyOk(s, c, plan) && ChangeOk(s, c) && Changed(s, c, t)
    requires PlanDelivered(s, c, plan, t)
    ensures PlanDeclared(s, plan, t)
  {
    hide ItemDeclared, SlotsDeclared, ChangeOk, GrantMap, Changed, Sorted, NextReaders;
    NoRepeats(s, c, plan);
    ItemIs(s, c, plan, t.items[plan.item]);
    SlotsAre(s, c, plan, t.items[plan.item], t);
  }

  lemma NoRepeats(s: State, c: Change, plan: Plan)
    requires RekeyOk(s, c, plan)
    ensures !Repeats(plan.grants) && AtMostOne(c)
    ensures c.replacement.Some? ==> c.replacement.value.prior != c.replacement.value.next.id
  {
  }

  lemma DeliveredIsDeclared(s: State, c: Change, plans: seq<Plan>, t: State)
    requires Valid(s) && Planable(s, c, plans) && Acceptable(s, c, plans)
    requires Delivered(s, c, plans, s.sequence + 1, t)
    ensures Declared(s, c, plans, t)
  {
    hide Complete, RekeyOk, ChangeOk, OwnersHoldNoRole, OtherSlotsKept, QuorumsPresent, PlanDelivered, PlanDeclared,
         NextMembers, NextOwners, AtMostOne, PrincipalsDeclared, OwnersDeclared, ItemsOf, EffectivePrior;
    NoRepeats(s, c, plans[0]);
    PrincipalsAre(s, c, t);
    OwnersAre(s, c, t);
    NewcomerKeeps(s, c);
    forall k | 0 <= k < |plans| ensures PlanDeclared(s, plans[k], t) { PlanIsDeclared(s, c, plans[k], t); }
    forall i | i in s.items && i !in ItemsOf(plans) ensures t.items[i] == s.items[i] {
      assert ReadersKept(s, c, i);
      NotRenamed(c, s.items[i].grants);
    }
  }

  lemma NotRenamed(c: Change, grants: map<Id, Role>)
    requires c.replacement.Some? ==> c.replacement.value.prior !in grants
    ensures EffectivePrior(c, grants) == grants
  {
  }

  /** Components prepared for one change over any number of distinct items always merge. Their revision is accepted
      exactly when the author is an owner, revisions are left and the batch is acceptable, and then it delivers what the
      components declared. */
  lemma BatchReplays(s: State, author: Principal, timestamp: nat, c: Change, plans: seq<Plan>)
    requires Valid(s) && Planable(s, c, plans)
    ensures var t := Committed(s, author, timestamp, c, plans);
      && (t.Some? <==> MayAuthor(s, author) && s.sequence < MAX_REVISIONS && Acceptable(s, c, plans))
      && (t.Some? ==> Declared(s, c, plans, t.value) && Valid(t.value))
  {
    hide Valid, Planned, Components, Whole, Replay, Acceptable, Delivered, AccessOk, Declared;
    BatchShape(s, author.id, timestamp, c, plans);
    WholeReplays(s, c, plans);
    ReplayKeepsValid(s, Whole(s, c, plans));
    var t := Replay(s, Whole(s, c, plans));
    if t.Some? { DeliveredIsDeclared(s, c, plans, t.value); }
  }

  /** The state after a revision is prepared and the journal that ends with it is replayed. The last revision before it
      is from time `clock`. */
  function Adopted(s: State, clock: nat, author: Principal, timestamp: nat, c: Change, plans: seq<Plan>)
    : (r: Option<State>)
    requires forall k :: 0 <= k < |plans| ==> RekeyOk(s, c, plans[k])
  {
    var ops := Planned(s.sequence, author.id, timestamp, Components(s, author.id, timestamp, c, plans), []);
    if ops.None? || Prepared(s, author, ops.value).None? then None
    else Followed(s, clock, Revision(author.id, timestamp, true, ops.value), false)
  }

  /** A prepared batch is followed by its journal exactly when it is not older than the revision before it, and leads to
      the state it was prepared for. */
  lemma BatchAdopted(s: State, clock: nat, author: Principal, timestamp: nat, c: Change, plans: seq<Plan>)
    requires Valid(s) && Planable(s, c, plans)
    ensures var t := Adopted(s, clock, author, timestamp, c, plans);
      && t == (if timestamp < clock then None else Committed(s, author, timestamp, c, plans))
      && (t.Some? <==>
            MayAuthor(s, author) && s.sequence < MAX_REVISIONS && Acceptable(s, c, plans) && clock <= timestamp)
      && (t.Some? ==> Declared(s, c, plans, t.value) && Valid(t.value))
  {
    hide Valid, Planned, Components, Bodies, Prefix, Suffix, Replay, Acceptable, Declared, AccessOk;
    BatchShape(s, author.id, timestamp, c, plans);
    BodiesNonEmpty(s, c, plans);
    BatchReplays(s, author, timestamp, c, plans);
  }
}
