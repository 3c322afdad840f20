/** The slots of a rekey batch: which ones its items get, and when those of all other items stay complete. */
module BatchSlots {
  import opened Common
  import opened Policy
  import opened Rekey
  import opened BatchReplay

  // ---- The principals after a change ----

  /** The state has the members and owners a change leaves. */
  predicate Changed(s: State, c: Change, t: State) {
    && t.members == NextMembers(s, c) && t.owners == NextOwners(s, c)
    && t.witnessPolicies == s.witnessPolicies && s.sequence < t.sequence
  }

  predicate Departed(c: Change, id: Id) { c.replacement.Some? && c.replacement.value.prior == id }

  /** Whoever is resolved during the rekey is who the replayed state will know. */
  lemma ResolvedIsKnown(s: State, c: Change, id: Id)
    requires AtMostOne(c) && ChangeOk(s, c) && s.members.Keys <= s.usedIds && !Departed(c, id)
    ensures DescriptorAfter(s, c, id) ==
      if id in NextMembers(s, c) then Some(NextMembers(s, c)[id].descriptor) else None
  {
  }

  lemma WillOwnExactly(s: State, c: Change, id: Id)
    requires AtMostOne(c) && OwnerChangeOk(s, c) && !Departed(c, id)
    ensures WillOwn(s, c, id) <==> id in NextOwners(s, c)
  {
  }

  lemma RecipientsStay(s: State, c: Change, plan: Plan, id: Id)
    requires RekeyOk(s, c, plan) && id in Recipients(s, c, plan)
    ensures !Departed(c, id) && RecipientOk(s, c, plan, id)
  {
    hide RecipientOk, GrantMap;
  }

  // ---- The items of the batch ----

  lemma RecipientComplete(s: State, c: Change, plan: Plan, t: State, id: Id)
    requires s.members.Keys <= s.usedIds && RekeyOk(s, c, plan) && ChangeOk(s, c) && Changed(s, c, t)
    requires id in Recipients(s, c, plan)
    ensures RecipientOk(s, c, plan, id)
    ensures var d := DirectSlot(s, c, plan, id);
      && Eligible(t, id) && RoleCurrent(EffectiveRole(t, GrantMap(plan.grants), id), d.role)
      && d.key == t.members[id].descriptor.recipientKey
  {
    hide GrantMap, Recipients, NextMembers, NextOwners, WillOwn, ChangeOk, AtMostOne, GrantsOk, SlotsOk,
         DescriptorAfter;
    RecipientsStay(s, c, plan, id);
    ChangeParts(s, c, plan);
    ResolvedIsKnown(s, c, id);
    WillOwnExactly(s, c, id);
  }

  lemma AllRecipientsResolved(s: State, c: Change, plan: Plan)
    requires RekeyOk(s, c, plan)
    ensures DirectSlots(s, c, plan).Keys == Recipients(s, c, plan)
    ensures HasPath(NextAccess(s, c, plan))
  {
    hide Recipients, RecipientOk, DirectSlot, GrantsOk, AtMostOne;
    assert forall id :: id in Recipients(s, c, plan) ==> RecipientOk(s, c, plan, id);
    if plan.direct != [] { FirstIsRecipient(s, c, plan); }
  }

  lemma FirstIsRecipient(s: State, c: Change, plan: Plan)
    requires plan.direct != []
    ensures plan.direct[0] in Recipients(s, c, plan) && NextOwners(s, c) <= Recipients(s, c, plan)
  {
  }

  /** The direct slots a rekey builds are complete: everyone's role and key is the next one, and owners are covered. */
  lemma PlanDirect(s: State, c: Change, plan: Plan, t: State)
    requires s.members.Keys <= s.usedIds && RekeyOk(s, c, plan) && ChangeOk(s, c) && Changed(s, c, t)
    ensures DirectComplete(t, GrantMap(plan.grants), DirectSlots(s, c, plan))
  {
    hide Recipients, RecipientOk, DirectSlot, GrantMap, RekeyOk, ChangeOk, RoleCurrent, EffectiveRole, NextOwners,
         NextMembers;
    AllRecipientsResolved(s, c, plan);
    var direct := DirectSlots(s, c, plan);
    forall id | id in direct
      ensures Eligible(t, id) && RoleCurrent(EffectiveRole(t, GrantMap(plan.grants), id), direct[id].role)
      ensures direct[id].key == t.members[id].descriptor.recipientKey
    {
      RecipientComplete(s, c, plan, t, id);
    }
    if direct != map[] { OwnersCovered(s, c, plan); }
  }

  lemma OwnersCovered(s: State, c: Change, plan: Plan)
    ensures Recipients(s, c, plan) == {} || NextOwners(s, c) <= Recipients(s, c, plan)
  {
  }

  /** Every witness and approver the item's witness policy names will be there. */
  predicate QuorumPresent(s: State, c: Change, plan: Plan) {
    plan.quorum.Some? && plan.quorum.value in s.witnessPolicies ==>
      MembersPresent(NextMembers(s, c), s.witnessPolicies[plan.quorum.value])
  }

  lemma PlanWitnessed(s: State, c: Change, plan: Plan, t: State)
    requires RekeyOk(s, c, plan) && Changed(s, c, t)
    ensures var w := WitnessedSlots(s, plan);
      (w.Some? ==> WitnessedComplete(t, w.value, s.sequence + 1)) <==> QuorumPresent(s, c, plan)
  {
    hide MembersPresent, NextMembers, NextOwners, GrantsOk, AtMostOne, Recipients, RecipientOk;
  }

  /** A batch item's new access is complete exactly when its quorum is present. */
  lemma PlanAccess(s: State, c: Change, plan: Plan, t: State, it: Item)
    requires s.members.Keys <= s.usedIds && RekeyOk(s, c, plan) && ChangeOk(s, c) && Changed(s, c, t)
    requires it.grants == GrantMap(plan.grants) && it.access == NextAccess(s, c, plan) && it.epoch == it.access.epoch
    ensures AccessComplete(t, it) <==> QuorumPresent(s, c, plan)
  {
    hide DirectComplete, WitnessedComplete, WitnessedSlots, DirectSlots, QuorumPresent, AccessOk, ChangeOk, GrantMap,
         NextOwners, NextMembers;
    AllRecipientsResolved(s, c, plan);
    PlanDirect(s, c, plan, t);
    PlanWitnessed(s, c, plan, t);
  }

  // ---- All other items ----

  /** The change leaves the readers of an item outside the batch alone. */
  predicate ReadersKept(s: State, c: Change, item: Id)
    requires item in s.items
  {
    var grants := s.items[item].grants;
    && (c.replacement.Some? ==> c.replacement.value.prior !in s.owners && c.replacement.value.prior !in grants)
    && (c.ownerChange.Some? ==> c.ownerChange.value.id in grants)
  }

  predicate Names(q: WitnessPolicy, id: Id) { id in q.witnesses || id in q.approvers }

  /** The change leaves the slots of an item outside the batch current: an owner change finds no direct slots there, and
      a replaced principal is no witness or approver of its quorum. */
  predicate SlotsKept(s: State, c: Change, item: Id)
    requires item in s.items
  {
    var access := s.items[item].access;
    && (c.ownerChange.Some? ==> access.direct == map[])
    && (c.replacement.Some? && access.witnessed.Some? && access.witnessed.value.policy in s.witnessPolicies ==>
          !Names(s.witnessPolicies[access.witnessed.value.policy], c.replacement.value.prior))
  }

  /** Direct slots that were complete stay so without an owner change. */
  lemma DirectStays(s: State, c: Change, t: State, grants: map<Id, Role>, direct: map<Id, Direct>)
    requires AtMostOne(c) && ChangeOk(s, c) && Changed(s, c, t) && s.members.Keys <= s.usedIds
    requires c.ownerChange.None? && DirectComplete(s, grants, direct)
    requires c.replacement.Some? ==> c.replacement.value.prior !in s.owners && c.replacement.value.prior !in grants
    ensures DirectComplete(t, grants, direct)
  {
    hide RoleCurrent;
    assert t.owners == s.owners;
    forall id | id in direct
      ensures Eligible(t, id) && RoleCurrent(EffectiveRole(t, grants, id), direct[id].role)
      ensures direct[id].key == t.members[id].descriptor.recipientKey
    {
      assert Eligible(s, id) && RoleCurrent(EffectiveRole(s, grants, id), direct[id].role);
      CurrentIsReader(s, grants, id, direct[id].role);
    }
  }

  lemma CurrentIsReader(s: State, grants: map<Id, Role>, id: Id, role: Role)
    requires RoleCurrent(EffectiveRole(s, grants, id), role)
    ensures id in s.owners || id in grants
  {
  }

  /** Under an owner change they stay complete exactly when there are none: the new owner would need an owner's slots,
      and the former one still has them. */
  lemma DirectStaleUnderOwnerChange(s: State, c: Change, t: State, grants: map<Id, Role>, direct: map<Id, Direct>)
    requires AtMostOne(c) && OwnerChangeOk(s, c) && Changed(s, c, t) && c.ownerChange.Some?
    requires GrantsComplete(s, grants) && DirectComplete(s, grants, direct) && c.ownerChange.value.id in grants
    ensures DirectComplete(t, grants, direct) <==> direct == map[]
  {
    var id := c.ownerChange.value.id;
    if direct != map[] {
      assert id in direct ==> RoleCurrent(EffectiveRole(s, grants, id), direct[id].role);
      assert id in direct ==> !RoleCurrent(EffectiveRole(t, grants, id), direct[id].role);
      assert id in t.owners || id in direct;
    }
  }

  lemma QuorumStays(s: State, c: Change, q: WitnessPolicy)
    requires AtMostOne(c) && ChangeOk(s, c) && s.members.Keys <= s.usedIds && MembersPresent(s.members, q)
    ensures MembersPresent(NextMembers(s, c), q) <==> !(c.replacement.Some? && Names(q, c.replacement.value.prior))
  {
    if c.replacement.Some? {
      var r := c.replacement.value;
      assert r.prior !in NextMembers(s, c) by { assert r.prior in s.usedIds; }
    }
  }

  /** The access of an item outside the batch whose readers are kept stays complete exactly when its slots are kept. */
  lemma OtherAccess(s: State, c: Change, t: State, i: Id, it: Item)
    requires Valid(s) && i in s.items && AtMostOne(c) && ChangeOk(s, c) && OwnerChangeOk(s, c) && Changed(s, c, t)
    requires ReadersKept(s, c, i) && it == s.items[i].(grants := EffectivePrior(c, s.items[i].grants))
    ensures AccessComplete(t, it) <==> SlotsKept(s, c, i)
  {
    hide Valid, DirectComplete, GrantsComplete, MembersPresent, ChangeOk, AtMostOne, NextMembers, NextOwners, Names;
    ValidItem(s, i);
    assert it.grants == s.items[i].grants;
    var access := it.access;
    if c.ownerChange.Some? {
      DirectStaleUnderOwnerChange(s, c, t, it.grants, access.direct);
    } else {
      DirectStays(s, c, t, it.grants, access.direct);
    }
    if access.witnessed.Some? {
      QuorumStays(s, c, s.witnessPolicies[access.witnessed.value.policy]);
      OnlyOne(c);
    }
  }

  lemma OnlyOne(c: Change)
    requires AtMostOne(c)
    ensures c.ownerChange.Some? ==> c.replacement.None?
  {
  }
}
