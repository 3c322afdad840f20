/** What each operation of an accepted revision leaves in the resulting state, and when it is refused. */
module PolicyEffects {
  import opened Common
  import opened Policy

  // ---- When an operation is admitted ----

  /** The principal is in use: an owner, or granted a role on some item. */
  ghost predicate InUse(s: State, id: Id) {
    id in s.owners || exists i :: i in s.items && id in s.items[i].grants
  }

  predicate Newcomer(s: State, d: Principal) {
    && d.signed && d.id !in s.usedIds
    && d.recipientKey !in s.usedRecipientKeys && d.verificationKey !in s.usedVerificationKeys
  }

  /** Principals are added new, relabelled from their label, removed when known and not in use, and replaced by a new
      principal of their kind. */
  lemma MembersAdmitted(p: Pending, id: Id, d: Principal, label1: seq<nat>, label2: seq<nat>, n: nat)
    ensures Apply(p, PrincipalAdd(d, label1, n)).Some? <==> Newcomer(p.state, d) && 1 <= |label1| <= 256
    ensures Apply(p, PrincipalLabelChange(id, label1, label2)).Some? <==>
      id in p.state.members && p.state.members[id].name == label1 && label1 != label2
    ensures Apply(p, PrincipalRemove(id, n)).Some? <==> id in p.state.members && !InUse(p.state, id)
    ensures Apply(p, PrincipalReplace(id, d, n)).Some? <==>
      Newcomer(p.state, d) && id in p.state.members && p.state.members[id].descriptor.kind == d.kind
  {
  }

  /** Owners are granted to known humans who are none, and revoked from owners who are not the last. */
  lemma OwnersAdmitted(p: Pending, id: Id)
    ensures Apply(p, OwnerGrant(id)).Some? <==>
      id in p.state.members && p.state.members[id].descriptor.kind == Human && id !in p.state.owners
    ensures Apply(p, OwnerRevoke(id)).Some? <==>
      id in p.state.owners && exists other :: other in p.state.owners && other != id
  {
    if id in p.state.owners {
      if other :| other in p.state.owners && other != id { assert other in p.state.owners - {id}; }
    }
  }

  /** Items are created under unused identifiers, renamed from their descriptor revision, deleted by their digests, and
      given roles that start from the one held, for known people and machines who are not owners. */
  lemma ItemsAdmitted(p: Pending, i: Id, d: Descriptor, access: Access, m: nat, n: nat, id: Id,
                      prior: Option<Role>, next: Option<Role>)
    ensures Apply(p, ItemCreate(i, m, d, n, access)).Some? <==> i !in p.state.usedItemIds
    ensures Apply(p, ItemRename(i, m, d)).Some? <==>
      i in p.state.items && p.state.items[i].descriptor.revision == m && d.keyEpoch == p.state.items[i].epoch
    ensures Apply(p, ItemDelete(i, m, n, id)).Some? <==>
      i in p.state.items && p.state.items[i].descriptor.digest == m && p.state.items[i].revisionHash == n
    ensures Apply(p, ItemRoleChange(i, id, prior, next)).Some? <==>
      && i in p.state.items && id in p.state.members && id !in p.state.owners
      && p.state.members[id].descriptor.kind in {Human, Machine}
      && prior != Some(Owner) && next != Some(Owner)
      && (if id in p.state.items[i].grants then prior == Some(p.state.items[i].grants[id]) else prior == None)
  {
  }

  // ---- What an operation does not name stays ----

  predicate TouchesMember(op: Op, id: Id) {
    || (op.PrincipalAdd? && op.descriptor.id == id)
    || (op.PrincipalLabelChange? && op.id == id)
    || (op.PrincipalRemove? && op.id == id)
    || (op.PrincipalReplace? && (op.id == id || op.descriptor.id == id))
  }

  predicate TouchesOwner(op: Op, id: Id) {
    || ((op.OwnerGrant? || op.OwnerRevoke?) && op.id == id)
    || (op.PrincipalReplace? && (op.id == id || op.descriptor.id == id))
  }

  predicate TouchesItem(op: Op, i: Id) {
    && (op.ItemCreate? || op.ItemRename? || op.ItemDelete? || op.ItemRoleChange? || op.ItemReaderSetChange?
        || op.ItemSlotsReplace?)
    && op.item == i
  }

  /** An item apart from its grants, which a replacement elsewhere may rename. */
  function Bare(it: Option<Item>): (r: Option<Item>) {
    if it.Some? then Some(it.value.(grants := map[])) else None
  }

  lemma MemberFrame(p: Pending, op: Op, id: Id)
    requires Apply(p, op).Some?
    ensures var q := Apply(p, op).value;
      && (!TouchesMember(op, id) ==> Lookup(q.state.members, id) == Lookup(p.state.members, id))
      && (!TouchesOwner(op, id) ==> (id in q.state.owners <==> id in p.state.owners))
  {
  }

  lemma ItemFrame(p: Pending, op: Op, i: Id)
    requires Apply(p, op).Some? && !TouchesItem(op, i)
    ensures var q := Apply(p, op).value;
      && Bare(Lookup(q.state.items, i)) == Bare(Lookup(p.state.items, i))
      && (!op.PrincipalReplace? ==> Lookup(q.state.items, i) == Lookup(p.state.items, i))
      && Lookup(q.state.tombstones, i) == Lookup(p.state.tombstones, i)
      && (i in q.readers <==> i in p.readers) && (i in q.slots <==> i in p.slots)
  {
  }

  ghost predicate NoneTouchesMember(ops: seq<Op>, id: Id) {
    forall j :: 0 <= j < |ops| ==> !TouchesMember(ops[j], id)
  }

  ghost predicate NoneTouchesOwner(ops: seq<Op>, id: Id) {
    forall j :: 0 <= j < |ops| ==> !TouchesOwner(ops[j], id)
  }

  ghost predicate NoneTouchesItem(ops: seq<Op>, i: Id) {
    forall j :: 0 <= j < |ops| ==> !TouchesItem(ops[j], i)
  }

  ghost predicate NoReplacement(ops: seq<Op>) {
    forall j :: 0 <= j < |ops| ==> !ops[j].PrincipalReplace?
  }

  lemma {:induction false} MembersFrame(p: Pending, ops: seq<Op>, id: Id)
    requires ApplyAll(p, ops).Some?
    ensures var q := ApplyAll(p, ops).value;
      && (NoneTouchesMember(ops, id) ==> Lookup(q.state.members, id) == Lookup(p.state.members, id))
      && (NoneTouchesOwner(ops, id) ==> (id in q.state.owners <==> id in p.state.owners))
    decreases |ops|
  {
    hide Apply, TouchesMember, TouchesOwner;
    if ops == [] {
    } else {
      MemberFrame(p, ops[0], id);
      MembersFrame(Apply(p, ops[0]).value, ops[1..], id);
    }
  }

  lemma {:induction false} ItemsFrame(p: Pending, ops: seq<Op>, i: Id)
    requires ApplyAll(p, ops).Some? && NoneTouchesItem(ops, i)
    ensures var q := ApplyAll(p, ops).value;
      && Bare(Lookup(q.state.items, i)) == Bare(Lookup(p.state.items, i))
      && (NoReplacement(ops) ==> Lookup(q.state.items, i) == Lookup(p.state.items, i))
      && Lookup(q.state.tombstones, i) == Lookup(p.state.tombstones, i)
      && (i in q.readers <==> i in p.readers) && (i in q.slots <==> i in p.slots)
    decreases |ops|
  {
    hide Apply, TouchesItem, Bare;
    if ops == [] {
    } else {
      ItemFrame(p, ops[0], i);
      ItemsFrame(Apply(p, ops[0]).value, ops[1..], i);
    }
  }

  // ---- One revision ----

  /** A revision that is accepted, cut open at one operation. */
  ghost predicate CutAt(s: State, ops: seq<Op>, k: nat, p: Pending, q: Pending, r: Pending) {
    && k < |ops|
    && ApplyAll(Start(s, s.sequence + 1), ops[..k]) == Some(p)
    && Apply(p, ops[k]) == Some(q)
    && ApplyAll(q, ops[k + 1..]) == Some(r)
    && ApplyAll(Start(s, s.sequence + 1), ops) == Some(r)
  }

  lemma Accepted(s: State, ops: seq<Op>) returns (r: Pending)
    requires Replay(s, ops).Some?
    ensures ApplyAll(Start(s, s.sequence + 1), ops) == Some(r)
  {
    hide ApplyAll, Complete, RotationsOk, WithRotations, WellFormed;
    r := ApplyAll(Start(s, s.sequence + 1), ops).value;
  }

  lemma Cut(s: State, ops: seq<Op>, k: nat) returns (p: Pending, q: Pending, r: Pending)
    requires Replay(s, ops).Some? && k < |ops|
    ensures CutAt(s, ops, k, p, q, r)
  {
    hide ApplyAll, Apply, Replay, Start;
    var start := Start(s, s.sequence + 1);
    r := Accepted(s, ops);
    assert ops == ops[..k] + ([ops[k]] + ops[k + 1..]);
    ApplyAppend(start, ops[..k], [ops[k]] + ops[k + 1..]);
    p := ApplyAll(start, ops[..k]).value;
    HeadApplies(p, ops[k], ops[k + 1..]);
    q := Apply(p, ops[k]).value;
  }

  lemma HeadApplies(p: Pending, op: Op, rest: seq<Op>)
    ensures ApplyAll(p, [op] + rest) == (var q := Apply(p, op); if q.None? then None else ApplyAll(q.value, rest))
  {
    hide Apply;
    assert ([op] + rest)[1..] == rest;
  }

  /** Rotations change items only; an item without one is as the operations left it. */
  lemma ReplayFrom(s: State, ops: seq<Op>, r: Pending)
    requires Replay(s, ops).Some? && ApplyAll(Start(s, s.sequence + 1), ops) == Some(r)
    ensures var t := Replay(s, ops).value;
      && t.members == r.state.members && t.owners == r.state.owners && t.tombstones == r.state.tombstones
      && t.usedIds == r.state.usedIds && t.usedItemIds == r.state.usedItemIds
      && t.usedRecipientKeys == r.state.usedRecipientKeys && t.usedVerificationKeys == r.state.usedVerificationKeys
      && t.items.Keys == r.state.items.Keys
      && forall i :: i in t.items && i !in r.readers && i !in r.slots ==> t.items[i] == r.state.items[i]
  {
    hide ApplyAll, Complete, RotationsOk, WellFormed;
  }

  lemma OpFormat(s: State, ops: seq<Op>, k: nat)
    requires Replay(s, ops).Some? && k < |ops|
    ensures FormatOk(ops[k], s.sequence + 1)
  {
    hide ApplyAll, Complete, RotationsOk, WithRotations;
  }

  ghost predicate SoleMemberOp(ops: seq<Op>, k: nat, id: Id) {
    && k < |ops| && TouchesMember(ops[k], id)
    && NoneTouchesMember(ops[..k], id) && NoneTouchesMember(ops[k + 1..], id)
  }

  /** The one operation of an accepted revision that names a principal decides what becomes of it. */
  lemma MemberResult(s: State, ops: seq<Op>, k: nat, id: Id)
    requires Replay(s, ops).Some? && SoleMemberOp(ops, k, id)
    ensures var t, before := Replay(s, ops).value, Lookup(s.members, id);
      match ops[k]
      case PrincipalAdd(d, name, _) => Lookup(t.members, id) == Some(Member(d, name))
      case PrincipalLabelChange(_, prior, next) =>
        && before.Some? && before.value.name == prior && prior != next && 1 <= |next| <= 256
        && Lookup(t.members, id) == Some(Member(before.value.descriptor, next))
      case PrincipalRemove(_, _) => before.Some? && id !in t.members
      case PrincipalReplace(prior, d, _) =>
        && (id == prior ==> before.Some? && before.value.descriptor.kind == d.kind)
        && (id == d.id ==> id in t.members && t.members[id].descriptor == d)
        && (id == prior && id != d.id ==> id !in t.members)
      case _ => true
  {
    hide ApplyAll, Replay;
    var p, q, r := Cut(s, ops, k);
    ReplayFrom(s, ops, r);
    MembersFrame(Start(s, s.sequence + 1), ops[..k], id);
    MembersFrame(q, ops[k + 1..], id);
    OpFormat(s, ops, k);
  }

  /** A replacement inherits the label. */
  lemma ReplacementInherits(s: State, ops: seq<Op>, k: nat)
    requires Replay(s, ops).Some? && k < |ops| && ops[k].PrincipalReplace?
    requires SoleMemberOp(ops, k, ops[k].id) && SoleMemberOp(ops, k, ops[k].descriptor.id)
    ensures var t, prior, next := Replay(s, ops).value, ops[k].id, ops[k].descriptor.id;
      prior in s.members && Lookup(t.members, next) == Some(Member(ops[k].descriptor, s.members[prior].name))
  {
    hide ApplyAll, Replay;
    var p, q, r := Cut(s, ops, k);
    ReplayFrom(s, ops, r);
    MembersFrame(Start(s, s.sequence + 1), ops[..k], ops[k].id);
    MembersFrame(q, ops[k + 1..], ops[k].descriptor.id);
  }

  ghost predicate SoleReplacement(ops: seq<Op>, k: nat) {
    && k < |ops| && ops[k].PrincipalReplace?
    && NoReplacement(ops[..k]) && NoReplacement(ops[k + 1..])
  }

  lemma ReplacedAt(p: Pending, op: Op, i: Id, id: Id)
    requires op.PrincipalReplace? && op.id != op.descriptor.id && Apply(p, op).Some?
    ensures var q, prior, next := Apply(p, op).value, op.id, op.descriptor.id;
      && next !in p.state.usedIds && prior !in q.state.owners
      && (next !in p.state.owners ==> (next in q.state.owners <==> prior in p.state.owners))
      && (i in p.state.items ==> i in q.state.items)
      && (i in p.state.items && next !in p.state.items[i].grants ==>
            Lookup(q.state.items[i].grants, id) ==
              if id == next then Lookup(p.state.items[i].grants, prior) else if id == prior then None
              else Lookup(p.state.items[i].grants, id))
  {
  }

  /** A replacement takes over ownership, unless an operation besides it grants or revokes that. */
  lemma ReplacementOwns(s: State, ops: seq<Op>, k: nat)
    requires Valid(s) && Replay(s, ops).Some? && SoleReplacement(ops, k)
    requires NoneTouchesOwner(ops[..k], ops[k].id) && NoneTouchesOwner(ops[k + 1..], ops[k].id)
    requires NoneTouchesOwner(ops[..k], ops[k].descriptor.id) && NoneTouchesOwner(ops[k + 1..], ops[k].descriptor.id)
    ensures var t, prior, next := Replay(s, ops).value, ops[k].id, ops[k].descriptor.id;
      prior !in t.owners && (next in t.owners <==> prior in s.owners)
  {
    hide ApplyAll, Replay, Valid, TouchesOwner, Apply, NoneTouchesOwner;
    var p, q, r := Cut(s, ops, k);
    ReplayFrom(s, ops, r);
    NewcomerStrange(s, ops, k, p, q, r);
    ReplacedAt(p, ops[k], 0, 0);
    MembersFrame(Start(s, s.sequence + 1), ops[..k], ops[k].id);
    MembersFrame(Start(s, s.sequence + 1), ops[..k], ops[k].descriptor.id);
    MembersFrame(q, ops[k + 1..], ops[k].id);
    MembersFrame(q, ops[k + 1..], ops[k].descriptor.id);
  }

  /** Whoever replaces is new: neither an owner nor granted anything before. */
  lemma NewcomerStrange(s: State, ops: seq<Op>, k: nat, p: Pending, q: Pending, r: Pending)
    requires Valid(s) && Replay(s, ops).Some? && CutAt(s, ops, k, p, q, r) && ops[k].PrincipalReplace?
    ensures var next := ops[k].descriptor.id;
      && next !in s.members && next !in s.owners && next != ops[k].id
      && forall i :: i in s.items ==> next !in s.items[i].grants
  {
    hide ApplyAll, Replay, Valid, Apply, FormatOk;
    UsedBefore(s, ops, k, p, q, r);
    OpFormat(s, ops, k);
    Swaps(ops[k], s.sequence + 1);
    ReplacedAt(p, ops[k], 0, 0);
    AllUsed(s);
  }

  lemma Swaps(op: Op, sequence: nat)
    requires op.PrincipalReplace? && FormatOk(op, sequence)
    ensures op.id != op.descriptor.id
  {
  }

  lemma AllUsed(s: State)
    requires Valid(s)
    ensures s.members.Keys <= s.usedIds && s.owners <= s.usedIds
    ensures forall i :: i in s.items ==> s.items[i].grants.Keys <= s.usedIds
  {
    hide AccessComplete;
    forall i | i in s.items ensures s.items[i].grants.Keys <= s.usedIds {
      assert GrantsComplete(s, s.items[i].grants);
    }
  }

  lemma CutRooted(s: State, ops: seq<Op>, k: nat, p: Pending, q: Pending, r: Pending)
    requires Valid(s) && Replay(s, ops).Some? && CutAt(s, ops, k, p, q, r)
    ensures forall j :: 0 <= j < |ops| ==> FormatOk(ops[j], s.sequence + 1)
    ensures Rooted(p.state) && Rooted(q.state) && p.state.sequence == q.state.sequence == s.sequence + 1
  {
    hide ApplyAll, Apply, Complete, Rooted, FormatOk, RotationsOk, WithRotations;
    var start, sequence, before := Start(s, s.sequence + 1), s.sequence + 1, ops[..k];
    FormatsOf(ops, sequence);
    FreshRooted(s, sequence);
    assert forall j :: 0 <= j < |before| ==> FormatOk(before[j], sequence);
    ApplyAllKeepsRooted(start, before, sequence);
    ApplyKeepsRooted(p, ops[k], sequence);
  }

  lemma UsedBefore(s: State, ops: seq<Op>, k: nat, p: Pending, q: Pending, r: Pending)
    requires Valid(s) && Replay(s, ops).Some? && CutAt(s, ops, k, p, q, r)
    ensures s.usedIds <= p.state.usedIds
  {
    hide ApplyAll, Apply, Complete, Rooted, FormatOk, Remembers, Replay;
    CutRooted(s, ops, k, p, q, r);
    FreshRooted(s, s.sequence + 1);
    var before := ops[..k];
    assert forall j :: 0 <= j < |before| ==> FormatOk(before[j], s.sequence + 1);
    ApplyAllRemembers(Start(s, s.sequence + 1), before, s.sequence + 1);
    UsedIdsRemembered(Start(s, s.sequence + 1).state, p.state);
  }

  lemma UsedIdsRemembered(s: State, t: State)
    requires Remembers(s, t)
    ensures s.usedIds <= t.usedIds
  {
  }

  /** On an item no operation names, a replacement takes over the role and every other role stays. */
  lemma ReplacementHolds(s: State, ops: seq<Op>, k: nat, i: Id, id: Id)
    requires Valid(s) && Replay(s, ops).Some? && SoleReplacement(ops, k) && i in s.items && NoneTouchesItem(ops, i)
    ensures var t, prior, next := Replay(s, ops).value, ops[k].id, ops[k].descriptor.id;
      && i in t.items
      && Lookup(t.items[i].grants, id) ==
         if id == next then Lookup(s.items[i].grants, prior) else if id == prior then None
         else Lookup(s.items[i].grants, id)
  {
    hide ApplyAll, Replay, Valid, TouchesItem, Apply;
    var p, q, r := Cut(s, ops, k);
    ReplayFrom(s, ops, r);
    NewcomerStrange(s, ops, k, p, q, r);
    ReplacedAt(p, ops[k], i, id);
    ItemsFrame(Start(s, s.sequence + 1), ops[..k], i);
    ItemsFrame(q, ops[k + 1..], i);
    ItemsFrame(Start(s, s.sequence + 1), ops, i);
  }

  /** Principals no operation names keep descriptor, label and ownership. */
  lemma OthersUntouched(s: State, ops: seq<Op>, id: Id)
    requires Replay(s, ops).Some?
    ensures var t := Replay(s, ops).value;
      && (NoneTouchesMember(ops, id) ==> Lookup(t.members, id) == Lookup(s.members, id))
      && (NoneTouchesOwner(ops, id) ==> (id in t.owners <==> id in s.owners))
  {
    hide ApplyAll, Replay;
    var r := Accepted(s, ops);
    ReplayFrom(s, ops, r);
    MembersFrame(Start(s, s.sequence + 1), ops, id);
  }

  /** The one operation of an accepted revision that names an owner decides. */
  lemma OwnerResult(s: State, ops: seq<Op>, k: nat, id: Id)
    requires Replay(s, ops).Some? && k < |ops|
    requires NoneTouchesOwner(ops[..k], id) && NoneTouchesOwner(ops[k + 1..], id)
    ensures var t := Replay(s, ops).value;
      && (ops[k] == OwnerGrant(id) ==> id !in s.owners && id in t.owners)
      && (ops[k] == OwnerRevoke(id) ==> id in s.owners && id !in t.owners)
  {
    hide ApplyAll, Replay;
    var p, q, r := Cut(s, ops, k);
    ReplayFrom(s, ops, r);
    MembersFrame(Start(s, s.sequence + 1), ops[..k], id);
    MembersFrame(q, ops[k + 1..], id);
  }

  ghost predicate SoleItemOp(ops: seq<Op>, k: nat, i: Id) {
    && k < |ops| && TouchesItem(ops[k], i)
    && NoneTouchesItem(ops[..k], i) && NoneTouchesItem(ops[k + 1..], i)
  }

  /** The one operation of an accepted revision that names an item decides what becomes of it. */
  lemma ItemResult(s: State, ops: seq<Op>, k: nat, i: Id)
    requires Replay(s, ops).Some? && SoleItemOp(ops, k, i)
    ensures var t, before := Replay(s, ops).value, Bare(Lookup(s.items, i));
      match ops[k]
      case ItemCreate(_, epoch, d, hash, access) =>
        && epoch == 1 && access.epoch == 1 && access.sequence == s.sequence + 1
        && Bare(Lookup(t.items, i)) == Some(Item(1, d, hash, map[], access))
      case ItemRename(_, prior, d) =>
        && before.Some? && before.value.descriptor.revision == prior && d.keyEpoch == before.value.epoch
        && d.revision == (if prior < MAX_U64 then prior + 1 else MAX_U64)
        && Bare(Lookup(t.items, i)) == Some(before.value.(descriptor := d))
      case ItemDelete(_, digest, hash, deleted) =>
        && before.Some? && before.value.descriptor.digest == digest && before.value.revisionHash == hash
        && i !in t.items && Lookup(t.tombstones, i) == Some(Tombstone(s.sequence + 1, digest, hash))
      case _ => true
  {
    hide ApplyAll, Replay;
    var p, q, r := Cut(s, ops, k);
    ReplayFrom(s, ops, r);
    ItemsFrame(Start(s, s.sequence + 1), ops[..k], i);
    ItemsFrame(q, ops[k + 1..], i);
    OpFormat(s, ops, k);
  }

  /** Without a replacement in the revision, a created item starts with the roles of its direct slots and a role change
      moves one principal from the role it names to the next. */
  lemma GrantResult(s: State, ops: seq<Op>, k: nat, i: Id)
    requires Replay(s, ops).Some? && SoleItemOp(ops, k, i) && NoReplacement(ops)
    ensures var t := Replay(s, ops).value;
      match ops[k]
      case ItemCreate(_, _, _, _, access) =>
        && i in t.items
        && (forall id :: id in t.items[i].grants <==> id in access.direct && access.direct[id].role != Owner)
        && (forall id :: id in t.items[i].grants ==> t.items[i].grants[id] == access.direct[id].role)
      case ItemRoleChange(_, id, prior, next) =>
        && i in s.items && i in t.items && prior != next
        && Lookup(s.items[i].grants, id) == prior && Lookup(t.items[i].grants, id) == next
        && (forall other :: other != id ==> Lookup(t.items[i].grants, other) == Lookup(s.items[i].grants, other))
      case _ => true
  {
    hide ApplyAll, Replay;
    var p, q, r := Cut(s, ops, k);
    ReplayFrom(s, ops, r);
    ItemsFrame(Start(s, s.sequence + 1), ops[..k], i);
    ItemsFrame(q, ops[k + 1..], i);
    OpFormat(s, ops, k);
    assert NoReplacement(ops[..k]) && NoReplacement(ops[k + 1..]);
  }

  /** Items no operation names keep everything but the names of replaced grantees. */
  lemma OtherItemsUntouched(s: State, ops: seq<Op>, i: Id)
    requires Replay(s, ops).Some? && NoneTouchesItem(ops, i)
    ensures var t := Replay(s, ops).value;
      && Bare(Lookup(t.items, i)) == Bare(Lookup(s.items, i))
      && (NoReplacement(ops) ==> Lookup(t.items, i) == Lookup(s.items, i))
      && Lookup(t.tombstones, i) == Lookup(s.tombstones, i)
  {
    hide ApplyAll, Replay;
    var r := Accepted(s, ops);
    ReplayFrom(s, ops, r);
    ItemsFrame(Start(s, s.sequence + 1), ops, i);
  }

  // ---- Rotations ----

  predicate Announces(op: Op, i: Id) { op.ItemReaderSetChange? && op.item == i }

  predicate Reseals(op: Op, i: Id) { op.ItemSlotsReplace? && op.item == i }

  lemma RotationFrame(p: Pending, op: Op, i: Id)
    requires Apply(p, op).Some?
    ensures var q := Apply(p, op).value;
      && (!Announces(op, i) ==> Lookup(q.readers, i) == Lookup(p.readers, i))
      && (!Reseals(op, i) ==> Lookup(q.slots, i) == Lookup(p.slots, i))
  {
  }

  lemma {:induction false} RotationsFrame(p: Pending, ops: seq<Op>, i: Id)
    requires ApplyAll(p, ops).Some?
    ensures var q := ApplyAll(p, ops).value;
      && ((forall j :: 0 <= j < |ops| ==> !Announces(ops[j], i)) ==> Lookup(q.readers, i) == Lookup(p.readers, i))
      && ((forall j :: 0 <= j < |ops| ==> !Reseals(ops[j], i)) ==> Lookup(q.slots, i) == Lookup(p.slots, i))
    decreases |ops|
  {
    hide Apply, Announces, Reseals;
    if ops == [] {
    } else {
      RotationFrame(p, ops[0], i);
      RotationsFrame(Apply(p, ops[0]).value, ops[1..], i);
    }
  }

  /** The operations do the same kind of thing to the same principal or item, or to one role. */
  predicate SameSubject(a: Op, b: Op) {
    match (a, b)
    case (PrincipalAdd(d, _, _), PrincipalAdd(e, _, _)) => d.id == e.id
    case (PrincipalLabelChange(x, _, _), PrincipalLabelChange(y, _, _)) => x == y
    case (PrincipalRemove(x, _), PrincipalRemove(y, _)) => x == y
    case (PrincipalReplace(x, _, _), PrincipalReplace(y, _, _)) => x == y
    case (OwnerGrant(x), OwnerGrant(y)) => x == y
    case (OwnerRevoke(x), OwnerRevoke(y)) => x == y
    case (ItemCreate(i, _, _, _, _), ItemCreate(j, _, _, _, _)) => i == j
    case (ItemRename(i, _, _), ItemRename(j, _, _)) => i == j
    case (ItemDelete(i, _, _, _), ItemDelete(j, _, _, _)) => i == j
    case (ItemRoleChange(i, x, _, _), ItemRoleChange(j, y, _, _)) => i == j && x == y
    case (ItemReaderSetChange(i, _, _, _, _, _, _), ItemReaderSetChange(j, _, _, _, _, _, _)) => i == j
    case (ItemSlotsReplace(i, _, _), ItemSlotsReplace(j, _, _)) => i == j
    case _ => false
  }

  /** A revision is held to one operation of each kind on each subject, and to no more than that. */
  lemma KeysExactly(ops: seq<Op>)
    ensures DistinctKeys(ops) <==> forall i, j :: 0 <= i < j < |ops| ==> !SameSubject(ops[i], ops[j])
  {
    forall a, b ensures KeyOf(a) == KeyOf(b) <==> SameSubject(a, b) { }
    hide KeyOf, SameSubject;
  }

  /** Keys keep a revision to one announcement and one resealing of an item. */
  lemma OnlyOne(s: State, ops: seq<Op>, k: nat, i: Id)
    requires Replay(s, ops).Some? && k < |ops|
    ensures Announces(ops[k], i) ==> forall j :: 0 <= j < |ops| && j != k ==> !Announces(ops[j], i)
    ensures Reseals(ops[k], i) ==> forall j :: 0 <= j < |ops| && j != k ==> !Reseals(ops[j], i)
  {
    hide ApplyAll, Complete, RotationsOk, WithRotations, FormatOk;
    assert DistinctKeys(ops);
    forall j | 0 <= j < |ops| && j != k ensures KeyOf(ops[j]) != KeyOf(ops[k]) {
      if j < k { assert KeyOf(ops[j]) != KeyOf(ops[k]); } else { assert KeyOf(ops[k]) != KeyOf(ops[j]); }
    }
  }

  /** What the operations of an accepted revision announce is what its rotations carry out. */
  lemma Announced(s: State, ops: seq<Op>, k: nat, i: Id, r: Pending)
    requires Replay(s, ops).Some? && k < |ops| && ApplyAll(Start(s, s.sequence + 1), ops) == Some(r)
    ensures Announces(ops[k], i) ==>
      Lookup(r.readers, i) == Some(ReaderRotation(ops[k].priorEpoch, ops[k].nextEpoch, ops[k].priorReaders,
                                                  ops[k].nextReaders, ops[k].itemDescriptor, ops[k].revisionHash))
    ensures Reseals(ops[k], i) ==> Lookup(r.slots, i) == Some(SlotRotation(ops[k].nextEpoch, ops[k].access))
  {
    hide ApplyAll, Replay;
    var p, q, _ := Cut(s, ops, k);
    OnlyOne(s, ops, k, i);
    RotationsFrame(q, ops[k + 1..], i);
  }

  lemma RotationHolds(s: State, ops: seq<Op>, i: Id, r: Pending)
    requires Replay(s, ops).Some? && ApplyAll(Start(s, s.sequence + 1), ops) == Some(r)
    ensures i in r.readers || i in r.slots ==> i in s.items && i in r.state.items
    ensures i in s.items && i in r.state.items ==> RotationOk(s, r, i)
    ensures i in r.state.items ==> i in Replay(s, ops).value.items && Replay(s, ops).value.items[i] == Rotated(s, r, i)
    ensures Replay(s, ops).value.owners == r.state.owners
  {
    hide ApplyAll, Complete, RotationOk, WellFormed, Rotated;
  }

  /** An announced rotation names the epoch before and after and the readers before and after, in order, and gives the
      item the descriptor and revision hash it announces. */
  lemma ReadersAnnounced(s: State, ops: seq<Op>, k: nat, i: Id)
    requires Replay(s, ops).Some? && k < |ops| && Announces(ops[k], i)
    ensures var t, op := Replay(s, ops).value, ops[k];
      && i in s.items && i in t.items
      && op.priorEpoch == s.items[i].epoch && op.nextEpoch == t.items[i].epoch == s.items[i].epoch + 1
      && t.items[i].descriptor == op.itemDescriptor && t.items[i].revisionHash == op.revisionHash
      && Ascending(op.priorReaders) && Ascending(op.nextReaders)
      && (forall id :: id in op.priorReaders <==> id in s.owners || id in s.items[i].grants)
      && (forall id :: id in op.nextReaders <==> id in t.owners || id in t.items[i].grants)
  {
    hide ApplyAll, Replay;
    var r := Accepted(s, ops);
    Announced(s, ops, k, i, r);
    RotationHolds(s, ops, i, r);
  }

  /** A resealed item is at its next epoch with the access the operation carries. */
  lemma Resealed(s: State, ops: seq<Op>, k: nat, i: Id)
    requires Replay(s, ops).Some? && k < |ops| && Reseals(ops[k], i)
    ensures var t, op := Replay(s, ops).value, ops[k];
      && i in s.items && i in t.items && t.items[i].access == op.access
      && t.items[i].epoch == t.items[i].descriptor.keyEpoch == op.nextEpoch == s.items[i].epoch + 1
  {
    hide ApplyAll, Replay, Sorted;
    var r := Accepted(s, ops);
    Announced(s, ops, k, i, r);
    RotationHolds(s, ops, i, r);
  }

  lemma AccessKept(p: Pending, op: Op, i: Id)
    requires Rooted(p.state) && Apply(p, op).Some? && i in p.state.items && i in Apply(p, op).value.state.items
    ensures Apply(p, op).value.state.items[i].access == p.state.items[i].access
  {
  }

  lemma {:induction false} AccessKeptAll(p: Pending, ops: seq<Op>, sequence: nat, i: Id)
    requires Rooted(p.state) && p.state.sequence == sequence >= 1
    requires forall j :: 0 <= j < |ops| ==> FormatOk(ops[j], sequence)
    requires ApplyAll(p, ops).Some? && i in p.state.items && i in ApplyAll(p, ops).value.state.items
    ensures ApplyAll(p, ops).value.state.items[i].access == p.state.items[i].access
    decreases |ops|
  {
    hide Apply, Rooted, FormatOk, Remembers;
    if ops == [] {
    } else {
      var q := Apply(p, ops[0]).value;
      ApplyKeepsRooted(p, ops[0], sequence);
      ApplyRemembers(p, ops[0]);
      ApplyAllRemembers(q, ops[1..], sequence);
      NotRevived(p.state, q.state, ApplyAll(p, ops).value.state, i);
      AccessKept(p, ops[0], i);
      AccessKeptAll(q, ops[1..], sequence, i);
    }
  }

  lemma NotRevived(s: State, t: State, u: State, i: Id)
    requires Rooted(s) && Remembers(s, t) && Remembers(t, u) && i in s.items && i in u.items
    ensures i in t.items
  {
  }

  /** Resealing is not for nothing: it changes the access or the readers. */
  lemma ResealedForCause(s: State, ops: seq<Op>, k: nat, i: Id)
    requires Valid(s) && Replay(s, ops).Some? && k < |ops| && Reseals(ops[k], i)
    ensures (Resealed(s, ops, k, i);
      var t := Replay(s, ops).value;
      || t.items[i].access != s.items[i].access
      || t.owners + t.items[i].grants.Keys != s.owners + s.items[i].grants.Keys)
  {
    hide ApplyAll, Replay, Sorted, Rooted, Complete, FormatOk;
    var r := Accepted(s, ops);
    Announced(s, ops, k, i, r);
    RotationHolds(s, ops, i, r);
    forall j | 0 <= j < |ops| ensures FormatOk(ops[j], s.sequence + 1) { OpFormat(s, ops, j); }
    FreshRooted(s, s.sequence + 1);
    AccessKeptAll(Start(s, s.sequence + 1), ops, s.sequence + 1, i);
  }

  /** No reader joins or leaves an item that stays without an announcement, and none is made without a resealing. */
  lemma NothingSilent(s: State, ops: seq<Op>, i: Id)
    requires Replay(s, ops).Some? && i in s.items && i in Replay(s, ops).value.items
    ensures var t := Replay(s, ops).value;
      && ((forall j :: 0 <= j < |ops| ==> !Announces(ops[j], i)) ==>
            t.owners + t.items[i].grants.Keys == s.owners + s.items[i].grants.Keys)
      && ((forall j :: 0 <= j < |ops| ==> !Reseals(ops[j], i)) ==>
            forall j :: 0 <= j < |ops| ==> !Announces(ops[j], i))
  {
    hide ApplyAll, Replay, Sorted, Announces, Reseals;
    var r := Accepted(s, ops);
    ReplayFrom(s, ops, r);
    RotationHolds(s, ops, i, r);
    RotationsFrame(Start(s, s.sequence + 1), ops, i);
    forall j | 0 <= j < |ops| ensures Announces(ops[j], i) ==> i in r.readers { Announced(s, ops, j, i, r); }
  }

  // ---- Removal ----

  /** A removal is refused for a stranger, an owner and a holder of any role, unless an operation before it changed
      that. */
  lemma RemovalRefused(s: State, ops: seq<Op>, k: nat, id: Id, i: Id)
    requires k < |ops| && ops[k].PrincipalRemove? && ops[k].id == id
    ensures id !in s.members && NoneTouchesMember(ops[..k], id) ==> Replay(s, ops).None?
    ensures id in s.owners && NoneTouchesOwner(ops[..k], id) ==> Replay(s, ops).None?
    ensures i in s.items && id in s.items[i].grants && NoneTouchesItem(ops[..k], i) && NoReplacement(ops[..k])
            ==> Replay(s, ops).None?
  {
    hide ApplyAll, Replay, TouchesMember, TouchesOwner, TouchesItem;
    if Replay(s, ops).Some? {
      var p, q, r := Cut(s, ops, k);
      MembersAdmitted(p, id, Principal(0, Human, 0, 0, false), [], [], ops[k].reason);
      MembersFrame(Start(s, s.sequence + 1), ops[..k], id);
      if NoneTouchesItem(ops[..k], i) { ItemsFrame(Start(s, s.sequence + 1), ops[..k], i); }
    }
  }

  /** Some item's witness policy names the principal. */
  ghost predicate Attests(s: State, id: Id) {
    exists i :: i in s.items && AttestsFor(s, s.items[i].access, id)
  }

  predicate AttestsFor(s: State, a: Access, id: Id) {
    && a.witnessed.Some? && a.witnessed.value.policy in s.witnessPolicies
    && var q := s.witnessPolicies[a.witnessed.value.policy];
    id in q.witnesses || id in q.approvers
  }

  function Without(s: State, id: Id): (t: State) { s.(members := s.members - {id}, sequence := s.sequence + 1) }

  /** On its own, a removal goes through exactly for a known principal who holds nothing and attests for nothing, and
      takes that principal out and nothing else. */
  lemma RemovalExactly(s: State, id: Id, reason: nat)
    requires Valid(s) && s.sequence < MAX_REVISIONS
    ensures var t := Replay(s, [PrincipalRemove(id, reason)]);
      && (t.Some? <==> id in s.members && !InUse(s, id) && !Attests(s, id))
      && (t.Some? ==> t.value == Without(s, id))
  {
    hide Complete, Attests, InUse, Replay, Rooted, Apply, Without;
    RemovalAdmitted(s, id, reason);
    if id in s.members && !InUse(s, id) {
      RemovalGoes(s, id, reason);
      StillComplete(s, id);
    } else {
      SoleRefused(s, PrincipalRemove(id, reason));
    }
  }

  lemma RemovalAdmitted(s: State, id: Id, reason: nat)
    ensures Apply(Start(s, s.sequence + 1), PrincipalRemove(id, reason)).Some? <==> id in s.members && !InUse(s, id)
  {
    hide Apply, InUse;
    MembersAdmitted(Start(s, s.sequence + 1), id, Principal(0, Human, 0, 0, false), [], [], reason);
    InUseAt(s, s.sequence + 1, id);
  }

  lemma RemovalGoes(s: State, id: Id, reason: nat)
    requires Rooted(s) && s.sequence < MAX_U64 && |s.items.Keys| <= MAX_ITEMS
    requires Apply(Start(s, s.sequence + 1), PrincipalRemove(id, reason)).Some?
    ensures var t := Without(s, id);
      Replay(s, [PrincipalRemove(id, reason)]) == if Complete(t) then Some(t) else None
  {
    hide Complete, Replay, Rooted, InUse;
    SoleOp(s, PrincipalRemove(id, reason), Start(s, s.sequence + 1).(state := Without(s, id)));
  }

  lemma SoleOp(s: State, op: Op, q: Pending)
    requires Rooted(s) && s.sequence < MAX_U64 && FormatOk(op, s.sequence + 1) && |s.items.Keys| <= MAX_ITEMS
    requires Apply(Start(s, s.sequence + 1), op) == Some(q) && q.readers == map[] && q.slots == map[]
    requires q.state.items == s.items && q.state.owners == s.owners
    ensures Replay(s, [op]) == if Complete(q.state) then Some(q.state) else None
  {
    hide Complete, Apply, Rooted, RotationsOk, WithRotations, FormatOk, ApplyAll;
    HeadApplies(Start(s, s.sequence + 1), op, []);
    assert [op] == [op] + [];
    NoneLeft(q);
    NoRotations(s, q);
  }

  lemma SoleRefused(s: State, op: Op)
    requires Apply(Start(s, s.sequence + 1), op).None?
    ensures Replay(s, [op]).None?
  {
    hide Complete, Apply, RotationsOk, WithRotations, ApplyAll, WellFormed;
    HeadApplies(Start(s, s.sequence + 1), op, []);
    assert [op] == [op] + [];
  }

  lemma NoneLeft(p: Pending)
    ensures ApplyAll(p, []) == Some(p)
  {
  }

  lemma InUseAt(s: State, sequence: nat, id: Id)
    ensures InUse(s.(sequence := sequence), id) <==> InUse(s, id)
  {
  }

  lemma NoRotations(s: State, p: Pending)
    requires Rooted(s) && s.sequence < MAX_U64 && p.readers == map[] && p.slots == map[]
    requires p.state.items == s.items && p.state.owners == s.owners
    ensures RotationsOk(s, p) && WithRotations(s, p) == p.state
  {
    hide Sorted, Least;
    assert WithRotations(s, p).items == p.state.items;
  }

  lemma StillComplete(s: State, id: Id)
    requires Complete(s) && !InUse(s, id)
    ensures Complete(Without(s, id)) <==> !Attests(s, id)
  {
    hide WitnessedComplete, AttestsFor, RoleCurrent;
    var t := Without(s, id);
    forall i | i in s.items
      ensures GrantsComplete(t, s.items[i].grants)
      ensures AccessComplete(t, s.items[i]) <==> !AttestsFor(s, s.items[i].access, id)
    {
      assert GrantsComplete(s, s.items[i].grants) && AccessComplete(s, s.items[i]);
      AccessStill(s, s.items[i], id);
    }
  }

  lemma AccessStill(s: State, it: Item, id: Id)
    requires id !in s.owners && id !in it.grants && AccessComplete(s, it)
    ensures AccessComplete(Without(s, id), it) <==> !AttestsFor(s, it.access, id)
  {
    var t := Without(s, id);
    assert id !in it.access.direct;
    assert DirectComplete(t, it.grants, it.access.direct);
  }
}
