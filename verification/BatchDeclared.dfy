/** What a replayed rekey batch leaves, field by field. */
module BatchDeclared {
  import opened Common
  import opened Policy
  import opened Rekey
  import opened BatchReplay
  import opened BatchSlots

  // ---- The principals ----

  /** A registered principal joins with its label, a replacing one takes over the label of the one it replaces, everyone
      else stays as they were, and identifiers and keys are used once and for all. */
  ghost predicate PrincipalsDeclared(s: State, c: Change, t: State) {
    && (c.registration.Some? ==>
          var r := c.registration.value;
          && (forall id :: Lookup(t.members, id) ==
                           if id == r.descriptor.id then Some(Member(r.descriptor, r.name)) else Lookup(s.members, id))
          && Enrolled(s, r.descriptor, t))
    && (c.replacement.Some? ==>
          var r := c.replacement.value;
          && r.prior in s.members
          && (forall id :: Lookup(t.members, id) ==
                           if id == r.next.id then Some(Member(r.next, s.members[r.prior].name))
                           else if id == r.prior then None else Lookup(s.members, id))
          && Enrolled(s, r.next, t))
    && (c.registration.None? && c.replacement.None? ==>
          && t.members == s.members && t.usedIds == s.usedIds
          && t.usedRecipientKeys == s.usedRecipientKeys && t.usedVerificationKeys == s.usedVerificationKeys)
  }

  ghost predicate Enrolled(s: State, d: Principal, t: State) {
    && d.id !in s.usedIds && t.usedIds == s.usedIds + {d.id}
    && d.recipientKey !in s.usedRecipientKeys && t.usedRecipientKeys == s.usedRecipientKeys + {d.recipientKey}
    && d.verificationKey !in s.usedVerificationKeys
    && t.usedVerificationKeys == s.usedVerificationKeys + {d.verificationKey}
  }

  /** Owners stay unless replaced or revoked; one who is granted ownership or replaces an owner joins them. */
  ghost predicate OwnersDeclared(s: State, c: Change, t: State) {
    forall id :: id in t.owners <==>
      || (id in s.owners && !Departed(c, id) && c.ownerChange != Some(RevokeOwner(id)))
      || c.ownerChange == Some(GrantOwner(id))
      || (c.replacement.Some? && c.replacement.value.next.id == id && c.replacement.value.prior in s.owners)
  }

  // ---- One planned item ----

  /** The item is at its next epoch and descriptor revision with the sealed content, and exactly the asked grants. */
  ghost predicate ItemDeclared(before: Item, plan: Plan, after: Item) {
    && after.epoch == before.epoch + 1
    && after.descriptor.revision == before.descriptor.revision + 1
    && after.descriptor.keyEpoch == before.epoch + 1
    && after.descriptor.digest == plan.digest
    && after.revisionHash == plan.revisionHash
    && (forall g: Grant :: g in plan.grants <==> g.id in after.grants && after.grants[g.id] == g.role)
  }

  /** The new slots are for the asked recipients and, once there is one, every owner. An owner's say owner and anyone
      else's the role granted, all sealed to the recipient's own key. Witnessed slots repeat the asked policy. */
  ghost predicate SlotsDeclared(s: State, plan: Plan, after: Item, t: State) {
    var a := after.access;
    && a.epoch == after.epoch && a.sequence == s.sequence + 1 && a.seals == plan.seals
    && (forall id :: id in a.direct <==> plan.direct != [] && (id in plan.direct || id in t.owners))
    && (forall id :: id in a.direct ==>
          && id in t.members && a.direct[id].key == t.members[id].descriptor.recipientKey
          && (a.direct[id].role == Owner <==> id in t.owners)
          && (id !in t.owners ==> id in after.grants && a.direct[id].role == after.grants[id]))
    && (plan.quorum.None? <==> a.witnessed.None?)
    && (a.witnessed.Some? ==>
          && a.witnessed.value.policy == plan.quorum.value && plan.quorum.value in s.witnessPolicies
          && a.witnessed.value.holders == s.witnessPolicies[plan.quorum.value].witnesses.Keys
          && a.witnessed.value.terms == s.witnessPolicies[plan.quorum.value].terms)
  }

  ghost predicate PlanDeclared(s: State, plan: Plan, t: State) {
    && plan.item in s.items && plan.item in t.items
    && ItemDeclared(s.items[plan.item], plan, t.items[plan.item])
    && SlotsDeclared(s, plan, t.items[plan.item], t)
  }

  /** The whole state a batch leads to. */
  ghost predicate Declared(s: State, c: Change, plans: seq<Plan>, t: State) {
    && t.sequence == s.sequence + 1
    && PrincipalsDeclared(s, c, t) && OwnersDeclared(s, c, t)
    && t.items.Keys == s.items.Keys
    && (forall k :: 0 <= k < |plans| ==> PlanDeclared(s, plans[k], t))
    && (forall i :: i in s.items && i !in ItemsOf(plans) ==> t.items[i] == s.items[i])
    && t.usedItemIds == s.usedItemIds && t.tombstones == s.tombstones && t.witnessPolicies == s.witnessPolicies
  }

  // ---- The computed state is the declared one ----

  lemma PrincipalsAre(s: State, c: Change, t: State)
    requires AtMostOne(c) && ChangeOk(s, c) && s.members.Keys <= s.usedIds
    requires t == Newcomer(s, c).(sequence := t.sequence, members := NextMembers(s, c), owners := t.owners,
                                  items := t.items)
    ensures PrincipalsDeclared(s, c, t)
  {
  }

  lemma OwnersAre(s: State, c: Change, t: State)
    requires AtMostOne(c) && t.owners == NextOwners(s, c)
    requires c.replacement.Some? ==> c.replacement.value.prior != c.replacement.value.next.id
    ensures OwnersDeclared(s, c, t)
  {
  }

  lemma {:induction false} GrantMapExactly(grants: seq<Grant>)
    requires !Repeats(grants)
    ensures forall g: Grant :: g in grants <==> g.id in GrantMap(grants) && GrantMap(grants)[g.id] == g.role
  {
    if grants == [] {
    } else {
      var last, front := grants[|grants| - 1], grants[..|grants| - 1];
      assert !Repeats(front);
      GrantMapExactly(front);
      assert forall g: Grant :: g in grants <==> g in front || g == last;
      assert last.id !in GrantMap(front);
    }
  }

  lemma ItemIs(s: State, c: Change, plan: Plan, after: Item)
    requires plan.item in s.items && !Repeats(plan.grants)
    requires after == Item(s.items[plan.item].epoch + 1, NextDescriptor(s, plan), plan.revisionHash,
                           GrantMap(plan.grants), NextAccess(s, c, plan))
    ensures ItemDeclared(s.items[plan.item], plan, after)
  {
    hide GrantMap, NextAccess, Repeats;
    GrantMapExactly(plan.grants);
  }

  lemma RecipientIs(s: State, c: Change, plan: Plan, t: State, id: Id)
    requires s.members.Keys <= s.usedIds && RekeyOk(s, c, plan) && ChangeOk(s, c) && Changed(s, c, t)
    requires id in Recipients(s, c, plan)
    ensures RecipientOk(s, c, plan, id)
    ensures var d := DirectSlot(s, c, plan, id);
      && (id in t.owners ==> d.role == Owner)
      && (id !in t.owners ==> id in GrantMap(plan.grants) && d.role == GrantMap(plan.grants)[id])
  {
    hide GrantMap, Recipients, NextMembers, NextOwners, WillOwn, ChangeOk, AtMostOne, GrantsOk, SlotsOk,
         DescriptorAfter;
    RecipientsStay(s, c, plan, id);
    ChangeParts(s, c, plan);
    WillOwnExactly(s, c, id);
  }

  lemma SlotsAre(s: State, c: Change, plan: Plan, after: Item, t: State)
    requires s.members.Keys <= s.usedIds && RekeyOk(s, c, plan) && ChangeOk(s, c) && Changed(s, c, t)
    requires after.epoch == s.items[plan.item].epoch + 1
    requires after.grants == GrantMap(plan.grants) && after.access == NextAccess(s, c, plan)
    ensures SlotsDeclared(s, plan, after, t)
  {
    hide GrantMap, RecipientOk, DirectSlot, ChangeOk, NextMembers, NextOwners, GrantsOk, AtMostOne, RoleCurrent;
    AllRecipientsResolved(s, c, plan);
    var direct := after.access.direct;
    forall id | id in direct
      ensures id in t.members && direct[id].key == t.members[id].descriptor.recipientKey
      ensures id in t.owners ==> direct[id].role == Owner
      ensures id !in t.owners ==> id in after.grants && direct[id].role == after.grants[id]
    {
      RecipientComplete(s, c, plan, t, id);
      RecipientIs(s, c, plan, t, id);
    }
    NoOwnerGranted(s, c, plan);
  }

  lemma NoOwnerGranted(s: State, c: Change, plan: Plan)
    requires GrantsOk(s, c, plan.grants)
    ensures forall id :: id in GrantMap(plan.grants) ==> GrantMap(plan.grants)[id] != Owner
  {
    forall id | id in GrantMap(plan.grants) ensures GrantMap(plan.grants)[id] != Owner {
      var k :| 0 <= k < |plan.grants| && plan.grants[k] == Grant(id, GrantMap(plan.grants)[id]);
      assert GrantOk(s, c, plan.grants[k]);
    }
  }
}
