/** What whole journals keep: what has ended stays ended, who wrote it, and what every state of one guarantees. */
module PolicyJournal {
  import opened Common
  import opened Policy
  import opened PolicyEffects

  // ---- Gone for good ----

  /** What a removal, a replacement or a deletion ends is gone, its identifier is used, and a deleted item has the
      tombstone of its deletion. What a principal came with, its identifier and keys, is used. */
  ghost predicate Ended(op: Op, t: State) {
    && (op.PrincipalAdd? || op.PrincipalReplace? ==>
          && op.descriptor.id in t.usedIds && op.descriptor.recipientKey in t.usedRecipientKeys
          && op.descriptor.verificationKey in t.usedVerificationKeys)
    && (op.PrincipalRemove? || op.PrincipalReplace? ==> op.id !in t.members && op.id in t.usedIds)
    && (op.ItemDelete? ==>
          && op.item !in t.items && op.item in t.usedItemIds
          && Lookup(t.tombstones, op.item) ==
             Some(Tombstone(op.deletionSequence, op.descriptorDigest, op.revisionHash)))
  }

  lemma EndedAt(p: Pending, op: Op, sequence: nat)
    requires Rooted(p.state) && Apply(p, op).Some? && FormatOk(op, sequence)
    ensures Ended(op, Apply(p, op).value.state)
  {
  }

  lemma EndedStays(op: Op, s: State, t: State)
    requires Ended(op, s) && Remembers(s, t)
    ensures Ended(op, t)
  {
  }

  /** Wherever it stands in an accepted revision, nothing after it undoes it. */
  lemma RevisionEnds(s: State, ops: seq<Op>, k: nat)
    requires Valid(s) && Replay(s, ops).Some? && k < |ops|
    ensures Ended(ops[k], Replay(s, ops).value)
  {
    hide ApplyAll, Replay, Complete, Rooted, FormatOk, Remembers, Ended, Apply;
    var p, q, r := Cut(s, ops, k);
    CutRooted(s, ops, k, p, q, r);
    EndedAt(p, ops[k], s.sequence + 1);
    var rest := ops[k + 1..];
    assert forall j :: 0 <= j < |rest| ==> FormatOk(rest[j], s.sequence + 1);
    ApplyAllRemembers(q, rest, s.sequence + 1);
    EndedStays(ops[k], q.state, r.state);
    EndedFrom(s, ops, r, ops[k]);
  }

  lemma EndedFrom(s: State, ops: seq<Op>, r: Pending, op: Op)
    requires Replay(s, ops).Some? && ApplyAll(Start(s, s.sequence + 1), ops) == Some(r) && Ended(op, r.state)
    ensures Ended(op, Replay(s, ops).value)
  {
    hide ApplyAll, Replay;
    ReplayFrom(s, ops, r);
  }

  function LastClock(clock: nat, revisions: seq<Revision>): (c: nat) {
    if revisions == [] then clock else revisions[|revisions| - 1].timestamp
  }

  lemma {:induction false} JournalSplit(s: State, clock: nat, a: seq<Revision>, b: seq<Revision>, bootstrap: bool)
    ensures ReplayAll(s, clock, a + b, bootstrap) ==
      (var m := ReplayAll(s, clock, a, bootstrap);
       if m.None? then None else ReplayAll(m.value, LastClock(clock, a), b, bootstrap))
    decreases |a|
  {
    hide Followed;
    if a == [] {
      assert a + b == b;
    } else {
      assert (a + b)[0] == a[0] && (a + b)[1..] == a[1..] + b;
      var t := Followed(s, clock, a[0], bootstrap);
      if t.Some? {
        JournalSplit(t.value, a[0].timestamp, a[1..], b, bootstrap);
        if |a| > 1 { assert a[1..][|a| - 2] == a[|a| - 1]; }
      }
    }
  }

  /** What a revision of a journal removes, replaces or deletes is back in no state after it. */
  lemma EndedForGood(s: State, clock: nat, revisions: seq<Revision>, bootstrap: bool, k: nat, j: nat, n: nat)
    requires Valid(s) && ReplayAll(s, clock, revisions, bootstrap).Some?
    requires k < |revisions| && j < |revisions[k].ops| && k < n <= |revisions|
    ensures var u := ReplayAll(s, clock, revisions[..n], bootstrap); u.Some? && Ended(revisions[k].ops[j], u.value)
  {
    hide Valid, ReplayAll, Remembers, Replay, Ended;
    var a, r := revisions[..k], revisions[k];
    assert revisions == revisions[..n] + revisions[n..];
    JournalSplit(s, clock, revisions[..n], revisions[n..], bootstrap);
    assert revisions[..n] == a + ([r] + revisions[k + 1..n]);
    JournalSplit(s, clock, a, [r] + revisions[k + 1..n], bootstrap);
    JournalKeepsValid(s, clock, a, bootstrap);
    var m := ReplayAll(s, clock, a, bootstrap).value;
    FirstFollows(m, LastClock(clock, a), r, revisions[k + 1..n], bootstrap);
    RevisionEnds(m, r.ops, j);
    var t := Replay(m, r.ops).value;
    ReplayKeepsValid(m, r.ops);
    JournalRemembers(t, r.timestamp, revisions[k + 1..n], bootstrap);
    EndedStays(r.ops[j], t, ReplayAll(s, clock, revisions[..n], bootstrap).value);
  }

  lemma FirstFollows(m: State, clock: nat, r: Revision, rest: seq<Revision>, bootstrap: bool)
    requires r.ops != [] && ReplayAll(m, clock, [r] + rest, bootstrap).Some?
    ensures Replay(m, r.ops).Some?
    ensures ReplayAll(m, clock, [r] + rest, bootstrap) ==
            ReplayAll(Replay(m, r.ops).value, r.timestamp, rest, bootstrap)
  {
    hide Replay;
    assert ([r] + rest)[1..] == rest;
  }

  /** Every revision of a replayed journal is authentic, by a member who owns the vault just before it, and no older
      than the one before; the sequence counts the revisions. */
  lemma JournalAuthored(s: State, clock: nat, revisions: seq<Revision>, bootstrap: bool, k: nat)
    requires Valid(s) && ReplayAll(s, clock, revisions, bootstrap).Some? && k < |revisions|
    ensures var r, m := revisions[k], ReplayAll(s, clock, revisions[..k], bootstrap);
      && m.Some? && Valid(m.value) && m.value.sequence == s.sequence + k < MAX_REVISIONS
      && r.authentic && r.author in m.value.owners && r.author in m.value.members
      && clock <= r.timestamp && (k > 0 ==> revisions[k - 1].timestamp <= r.timestamp)
  {
    hide Valid, ReplayAll, Replay;
    var a, r := revisions[..k], revisions[k];
    assert revisions == a + ([r] + revisions[k + 1..]);
    JournalSplit(s, clock, a, [r] + revisions[k + 1..], bootstrap);
    JournalKeepsValid(s, clock, a, bootstrap);
    var m := ReplayAll(s, clock, a, bootstrap).value;
    FirstFollowed(m, LastClock(clock, a), r, revisions[k + 1..], bootstrap);
    ClockRises(s, clock, a, bootstrap);
  }

  lemma FirstFollowed(m: State, clock: nat, r: Revision, rest: seq<Revision>, bootstrap: bool)
    requires ReplayAll(m, clock, [r] + rest, bootstrap).Some?
    ensures Followed(m, clock, r, bootstrap).Some?
  {
    hide Followed;
  }

  lemma {:induction false} ClockRises(s: State, clock: nat, revisions: seq<Revision>, bootstrap: bool)
    requires ReplayAll(s, clock, revisions, bootstrap).Some?
    ensures clock <= LastClock(clock, revisions)
    decreases |revisions|
  {
    hide Replay;
    if revisions == [] {
    } else {
      var t := Followed(s, clock, revisions[0], bootstrap).value;
      ClockRises(t, revisions[0].timestamp, revisions[1..], bootstrap);
    }
  }

  /** What an identity prepares is what a journal that ends with it follows, provided the identity's descriptor is the
      one on record. */
  lemma PreparedIsFollowed(s: State, clock: nat, author: Principal, ops: seq<Op>)
    ensures Prepared(s, author, ops) ==
      if Lookup(s.members, author.id).Some? && s.members[author.id].descriptor == author then
        Followed(s, clock, Revision(author.id, clock, true, ops), false)
      else None
  {
    hide ApplyAll, Complete, RotationsOk, WithRotations, FormatOk, DistinctKeys;
  }

  // ---- Every state of a journal ----

  /** There is an owner; owners are human members. */
  ghost predicate OwnersServe(t: State) {
    (exists id :: id in t.owners) && forall id :: id in t.owners ==> KnownAs(t, id, {Human})
  }

  ghost predicate KnownAs(t: State, id: Id, kinds: set<Kind>) {
    id in t.members && t.members[id].descriptor.id == id && t.members[id].descriptor.kind in kinds
  }

  /** Roles other than ownership are held by people and machines. */
  ghost predicate RolesServe(t: State, it: Item) {
    forall id :: id in it.grants ==> it.grants[id] in {Writer, Reader} && KnownAs(t, id, {Human, Machine})
  }

  /** A direct slot is for its recipient's current key. It is an owner's slot exactly for an owner, and otherwise its
      recipient holds a role. Once anyone has one every owner does, and without any there is a quorum. */
  ghost predicate DirectServes(t: State, it: Item) {
    && (forall id :: id in it.access.direct ==>
          && KnownAs(t, id, {Human, Machine})
          && it.access.direct[id].key == t.members[id].descriptor.recipientKey
          && (it.access.direct[id].role == Owner <==> id in t.owners)
          && (id in t.owners || id in it.grants))
    && (forall id, other :: id in it.access.direct && other in t.owners ==> other in it.access.direct)
    && (it.access.witnessed.None? ==> exists id :: id in it.access.direct)
  }

  /** A quorum is a catalogued policy of this vault, with every witness and approver it names on record under the keys
      it names and a capsule for every witness. */
  ghost predicate QuorumServes(t: State, a: Access) {
    a.witnessed.Some? ==>
      && a.witnessed.value.policy in t.witnessPolicies
      && var q := t.witnessPolicies[a.witnessed.value.policy];
      && q.ours && q.terms == a.witnessed.value.terms && q.sequence == a.sequence
      && (forall id :: id in a.witnessed.value.holders <==> id in q.witnesses)
      && (forall id :: id in q.witnesses ==>
            && KnownAs(t, id, {Witness}) && t.members[id].descriptor.verificationKey == q.witnesses[id].signing
            && t.members[id].descriptor.recipientKey == q.witnesses[id].contribution)
      && (forall id :: id in q.approvers ==>
            KnownAs(t, id, {Approver}) && t.members[id].descriptor.verificationKey == q.approvers[id])
  }

  ghost predicate ItemServes(t: State, it: Item) {
    && it.access.epoch == it.epoch && 1 <= it.epoch <= t.sequence && 1 <= it.access.sequence <= t.sequence
    && RolesServe(t, it) && DirectServes(t, it) && QuorumServes(t, it.access)
  }

  lemma ItemsServe(t: State, i: Id)
    requires Valid(t) && i in t.items
    ensures ItemServes(t, t.items[i])
  {
    hide DirectComplete, DirectServes, WitnessedComplete, QuorumServes, RolesServe, OwnersComplete, GrantsComplete;
    assert GrantsComplete(t, t.items[i].grants) && AccessComplete(t, t.items[i]);
    RolesAreServed(t, t.items[i]);
    DirectIsServed(t, t.items[i]);
    QuorumIsServed(t, t.items[i].access);
  }

  lemma RolesAreServed(t: State, it: Item)
    requires Rooted(t) && GrantsComplete(t, it.grants)
    ensures RolesServe(t, it)
  {
  }

  lemma QuorumIsServed(t: State, a: Access)
    requires Rooted(t) && (a.witnessed.Some? ==> WitnessedComplete(t, a.witnessed.value, a.sequence))
    ensures QuorumServes(t, a)
  {
  }

  lemma DirectIsServed(t: State, it: Item)
    requires Rooted(t) && OwnersComplete(t) && GrantsComplete(t, it.grants)
    requires HasPath(it.access) && DirectComplete(t, it.grants, it.access.direct)
    ensures DirectServes(t, it)
  {
    if it.access.direct != map[] { var id :| id in it.access.direct; }
  }

  /** A journal starts from one member, the owner, under the label "owner". */
  lemma GenesisExactly(owner: Principal, policies: map<nat, WitnessPolicy>)
    ensures var s := Genesis(owner, policies);
      && s.sequence == 0 && s.owners == {owner.id} && s.members.Keys == {owner.id} && s.items == map[]
      && s.members[owner.id].descriptor == owner && |s.members[owner.id].name| == |"owner"|
      && (forall k :: 0 <= k < |"owner"| ==> s.members[owner.id].name[k] == "owner"[k] as nat)
      && s.usedIds == {owner.id} && s.usedItemIds == {} && s.tombstones == map[] && s.witnessPolicies == policies
      && s.usedRecipientKeys == {owner.recipientKey} && s.usedVerificationKeys == {owner.verificationKey}
  {
  }

  /** In every state any journal reaches, each item can be opened by exactly those who should be able to. */
  lemma EveryStateServes(owner: Principal, policies: map<nat, WitnessPolicy>, clock: nat, revisions: seq<Revision>,
                         bootstrap: bool)
    requires owner.kind == Human
    ensures var t := ReplayAll(Genesis(owner, policies), clock, revisions, bootstrap);
      t.Some? ==>
        && OwnersServe(t.value) && |t.value.items| <= MAX_ITEMS
        && (forall i :: i in t.value.items ==> ItemServes(t.value, t.value.items[i]))
        && (forall i :: i in t.value.items ==> i !in t.value.tombstones)
  {
    hide ReplayAll, ItemServes;
    GenesisValid(owner, policies);
    JournalKeepsValid(Genesis(owner, policies), clock, revisions, bootstrap);
    var t := ReplayAll(Genesis(owner, policies), clock, revisions, bootstrap);
    if t.Some? {
      forall i | i in t.value.items ensures ItemServes(t.value, t.value.items[i]) { ItemsServe(t.value, i); }
      SomeOwner(t.value);
      assert |t.value.items| == |t.value.items.Keys|;
    }
  }

  lemma SomeOwner(t: State)
    requires Valid(t)
    ensures OwnersServe(t)
  {
    var id :| id in t.owners;
  }
}
