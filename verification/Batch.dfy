/** Merging the operations of many item components into one revision. */
module Batch {
  import opened Common
  import opened Policy

  /** Two operations about the same principal that a batch may hold only once. */
  predicate Matches(a: Op, b: Op) {
    match (a, b)
    case (PrincipalAdd(d, _, _), PrincipalAdd(e, _, _)) => d.id == e.id
    case (PrincipalReplace(p, d, _), PrincipalReplace(q, e, _)) => p == q || d.id == e.id
    case (OwnerGrant(p), OwnerGrant(q)) => p == q
    case (OwnerRevoke(p), OwnerRevoke(q)) => p == q
    case _ => false
  }

  predicate Keyed(op: Op) { Matches(op, op) }

  /** Index of the first operation that matches, or the length when none does. */
  function FirstMatch(ops: seq<Op>, op: Op): (k: nat)
    ensures k <= |ops|
    ensures forall i :: 0 <= i < k ==> !Matches(ops[i], op)
    ensures k < |ops| ==> Matches(ops[k], op)
  {
    if ops == [] || Matches(ops[0], op) then 0 else 1 + FirstMatch(ops[1..], op)
  }

  function Pushed(ops: seq<Op>, op: Op): (r: Option<seq<Op>>) {
    var k := FirstMatch(ops, op);
    if k == |ops| then Some(ops + [op]) else if ops[k] == op then Some(ops) else None
  }

  function Merged(ops: seq<Op>, more: seq<Op>): (r: Option<seq<Op>>)
    decreases |more|
  {
    if more == [] then Some(ops) else
      var next := Pushed(ops, more[0]);
      if next.None? then None else Merged(next.value, more[1..])
  }

  /** What a component's new item revision says of the policy revision it belongs to. */
  datatype Header = Header(sequence: nat, author: Id, timestamp: nat)

  datatype Component = Component(operations: seq<Op>, header: Header)

  function Flat(components: seq<Component>): (r: seq<Op>) {
    if components == [] then [] else components[0].operations + Flat(components[1..])
  }

  /** Every component was prepared for the policy revision `h`. */
  predicate PreparedFor(components: seq<Component>, h: Header) {
    forall k :: 0 <= k < |components| ==> components[k].header == h
  }

  function Grants(ops: seq<Op>): (r: seq<Op>) {
    if ops == [] then [] else (if ops[0].OwnerGrant? then [ops[0]] else []) + Grants(ops[1..])
  }

  function NonGrants(ops: seq<Op>): (r: seq<Op>) {
    if ops == [] then [] else (if ops[0].OwnerGrant? then [] else [ops[0]]) + NonGrants(ops[1..])
  }

  function Deferred(ops: seq<Op>): (r: seq<Op>) { NonGrants(ops) + Grants(ops) }

  /** The merged operations of a batch by an author at a time on a policy at sequence `current`, or none when there is
      no change, a component was prepared for another revision or two operations disagree. */
  function Planned(current: nat, author: Id, timestamp: nat, components: seq<Component>, additional: seq<Op>)
    : (r: Option<seq<Op>>)
  {
    if (components == [] && additional == []) || current >= MAX_U64
       || !PreparedFor(components, Header(current + 1, author, timestamp))
    then None
    else
      var ops := Merged([], Flat(components));
      if ops.None? then None else Merged(Deferred(ops.value), additional)
  }

  // ---- What merging computes ----

  /** Any two operations about the same principal are identical. */
  ghost predicate Compatible(ops: set<Op>) {
    forall x, y :: x in ops && y in ops && Matches(x, y) ==> x == y
  }

  ghost function Elements(ops: seq<Op>): (r: set<Op>) { set x | x in ops }

  /** `ops` in order, without the keyed ones already seen. */
  ghost function Fresh(seen: set<Op>, ops: seq<Op>): (r: seq<Op>)
    decreases |ops|
  {
    if ops == [] then []
    else if Keyed(ops[0]) && ops[0] in seen then Fresh(seen, ops[1..])
    else [ops[0]] + Fresh(seen + {ops[0]}, ops[1..])
  }

  ghost predicate Unambiguous(ops: seq<Op>) {
    forall i, j :: 0 <= i < j < |ops| ==> !Matches(ops[i], ops[j])
  }

  lemma UnambiguousIsCompatible(ops: seq<Op>)
    requires Unambiguous(ops)
    ensures Compatible(Elements(ops))
  {
    forall x, y | x in Elements(ops) && y in Elements(ops) && Matches(x, y) ensures x == y {
      var i :| 0 <= i < |ops| && ops[i] == x;
      var j :| 0 <= j < |ops| && ops[j] == y;
      assert Matches(ops[i], ops[j]) && Matches(ops[j], ops[i]);
    }
  }

  lemma PushedExact(ops: seq<Op>, op: Op)
    requires Unambiguous(ops)
    ensures var r := Pushed(ops, op);
      && (r.Some? <==> Compatible(Elements(ops) + {op}))
      && (r.Some? ==> Unambiguous(r.value) && Elements(r.value) == Elements(ops) + {op}
                      && r.value == if Keyed(op) && op in Elements(ops) then ops else ops + [op])
  {
    UnambiguousIsCompatible(ops);
    var k := FirstMatch(ops, op);
    var all := Elements(ops) + {op};
    if k < |ops| {
      assert ops[k] in all && op in all && Matches(ops[k], op);
      assert Keyed(op);
    } else {
      forall x | x in ops ensures !Matches(x, op) && !Matches(op, x) {
        var i :| 0 <= i < |ops| && ops[i] == x;
      }
    }
  }

  lemma {:induction false} MergedExact(ops: seq<Op>, more: seq<Op>)
    requires Unambiguous(ops)
    ensures var r := Merged(ops, more);
      && (r.Some? <==> Compatible(Elements(ops) + Elements(more)))
      && (r.Some? ==> Unambiguous(r.value) && r.value == ops + Fresh(Elements(ops), more)
                      && Elements(r.value) == Elements(ops) + Elements(more))
    decreases |more|
  {
    hide Pushed, Matches, Keyed, Unambiguous, Compatible;
    if more == [] {
      UnambiguousIsCompatible(ops);
      assert Elements(ops) + Elements(more) == Elements(ops);
    } else {
      PushedExact(ops, more[0]);
      var next := Pushed(ops, more[0]);
      assert Elements(more) == {more[0]} + Elements(more[1..]);
      if next.Some? {
        MergedExact(next.value, more[1..]);
        assert Elements(next.value) + Elements(more[1..]) == Elements(ops) + Elements(more);
      } else {
        CompatibleBelow(Elements(ops) + {more[0]}, Elements(ops) + Elements(more));
      }
    }
  }

  lemma {:induction false} GrantsSplit(ops: seq<Op>)
    ensures forall op :: op in Grants(ops) <==> op in ops && op.OwnerGrant?
    ensures forall op :: op in NonGrants(ops) <==> op in ops && !op.OwnerGrant?
    decreases |ops|
  {
    if ops == [] {
    } else {
      GrantsSplit(ops[1..]);
      assert ops == [ops[0]] + ops[1..];
    }
  }

  lemma UnambiguousCons(op: Op, rest: seq<Op>)
    ensures Unambiguous([op] + rest) <==> Unambiguous(rest) && forall x :: x in rest ==> !Matches(op, x)
  {
    hide Matches;
    var ops := [op] + rest;
    if Unambiguous(ops) {
      assert forall j :: 0 <= j < |rest| ==> rest[j] == ops[j + 1];
      forall j | 0 <= j < |rest| ensures !Matches(op, rest[j]) { assert !Matches(ops[0], ops[j + 1]); }
      forall i, j | 0 <= i < j < |rest| ensures !Matches(rest[i], rest[j]) { assert !Matches(ops[i + 1], ops[j + 1]); }
    }
  }

  lemma {:induction false} SplitKeepsUnambiguous(ops: seq<Op>)
    requires Unambiguous(ops)
    ensures Unambiguous(Grants(ops)) && Unambiguous(NonGrants(ops))
    decreases |ops|
  {
    hide Matches;
    if ops == [] {
    } else {
      var rest := ops[1..];
      assert ops == [ops[0]] + rest;
      UnambiguousCons(ops[0], rest);
      SplitKeepsUnambiguous(rest);
      GrantsSplit(rest);
      UnambiguousCons(ops[0], Grants(rest));
      UnambiguousCons(ops[0], NonGrants(rest));
    }
  }

  lemma DeferredKeeps(ops: seq<Op>)
    requires Unambiguous(ops)
    ensures Unambiguous(Deferred(ops)) && Elements(Deferred(ops)) == Elements(ops)
  {
    GrantsSplit(ops);
    SplitKeepsUnambiguous(ops);
    var a, b := NonGrants(ops), Grants(ops);
    assert forall k :: 0 <= k < |a| ==> a[k] in ops && !a[k].OwnerGrant?;
    assert forall k :: 0 <= k < |b| ==> b[k] in ops && b[k].OwnerGrant?;
  }

  /** Planning a change on components for this very revision succeeds exactly when all operations about the same
      principal are identical. The plan is the first occurrences in order, the components' owner grants moved behind
      their other operations, then what the additional operations add; no two of its operations are about the same
      principal. */
  lemma PlannedExact(current: nat, author: Id, timestamp: nat, components: seq<Component>, additional: seq<Op>)
    ensures var r := Planned(current, author, timestamp, components, additional); var flat := Flat(components);
      && (r.Some? <==>
            && (components != [] || additional != []) && current < MAX_U64
            && PreparedFor(components, Header(current + 1, author, timestamp))
            && Compatible(Elements(flat) + Elements(additional)))
      && (r.Some? ==>
            && Unambiguous(r.value)
            && r.value == NonGrants(Fresh({}, flat)) + Grants(Fresh({}, flat)) + Fresh(Elements(flat), additional)
            && Elements(r.value) == Elements(flat) + Elements(additional))
  {
    hide Matches, Compatible, Merged, Fresh, NonGrants, Grants, PreparedFor;
    var flat := Flat(components);
    MergedExact([], flat);
    assert Elements([]) + Elements(flat) == Elements(flat);
    var ops := Merged([], flat);
    if ops.Some? {
      assert Elements([]) == {};
      assert ops.value == Fresh({}, flat);
      assert Elements(ops.value) == Elements(flat);
      DeferredKeeps(ops.value);
      MergedExact(Deferred(ops.value), additional);
    } else {
      CompatibleBelow(Elements(flat), Elements(flat) + Elements(additional));
    }
  }

  /** Operations can only disagree in adding one identifier, replacing one principal or replacing by one. */
  ghost predicate Agreeing(ops: set<Op>) {
    && (forall x, y :: x in ops && y in ops && x.PrincipalAdd? && y.PrincipalAdd? && x != y ==>
          x.descriptor.id != y.descriptor.id)
    && (forall x, y :: x in ops && y in ops && x.PrincipalReplace? && y.PrincipalReplace? && x != y ==>
          x.id != y.id && x.descriptor.id != y.descriptor.id)
  }

  lemma AgreeingExactly(ops: set<Op>)
    ensures Compatible(ops) <==> Agreeing(ops)
  {
  }

  /** Two operations in different places of a plan are about different principals, or about items or labels. */
  ghost predicate Apart(a: Op, b: Op) {
    && (a.PrincipalAdd? && b.PrincipalAdd? ==> a.descriptor.id != b.descriptor.id)
    && (a.PrincipalReplace? && b.PrincipalReplace? ==> a.id != b.id && a.descriptor.id != b.descriptor.id)
    && (a.OwnerGrant? && b.OwnerGrant? ==> a.id != b.id)
    && (a.OwnerRevoke? && b.OwnerRevoke? ==> a.id != b.id)
  }

  /** The plan exists exactly when there is a change, every component names the next sequence, this author and this
      time, and no two operations disagree; it holds the operations given and no others, each principal's once. */
  lemma PlannedOnce(current: nat, author: Id, timestamp: nat, components: seq<Component>, additional: seq<Op>)
    ensures var r := Planned(current, author, timestamp, components, additional);
      && (r.Some? <==>
            && |components| + |additional| > 0 && current < MAX_U64
            && (forall p :: p in components ==>
                  p.header.sequence == current + 1 && p.header.author == author && p.header.timestamp == timestamp)
            && Agreeing(Elements(Flat(components) + additional)))
      && (r.Some? ==>
            && (forall op :: op in r.value <==> op in Flat(components) || op in additional)
            && (forall i, j :: 0 <= i < j < |r.value| ==> Apart(r.value[i], r.value[j])))
  {
    hide Agreeing, Compatible, Planned, Flat, Fresh, NonGrants, Grants;
    var flat := Flat(components);
    PlannedExact(current, author, timestamp, components, additional);
    assert Elements(flat + additional) == Elements(flat) + Elements(additional);
    AgreeingExactly(Elements(flat + additional));
    var r := Planned(current, author, timestamp, components, additional);
    if r.Some? {
      assert forall op :: op in r.value <==> op in Elements(flat) + Elements(additional);
    }
  }

  lemma CompatibleBelow(a: set<Op>, b: set<Op>)
    requires a <= b
    ensures Compatible(b) ==> Compatible(a)
  {
  }

  lemma {:induction false} GrantsAppend(a: seq<Op>, b: seq<Op>)
    ensures Grants(a + b) == Grants(a) + Grants(b)
    decreases |a|
  {
    if a == [] {
      assert a + b == b;
    } else {
      assert (a + b)[0] == a[0] && (a + b)[1..] == a[1..] + b;
      GrantsAppend(a[1..], b);
      var head := if a[0].OwnerGrant? then [a[0]] else [];
      assert Grants(a + b) == head + Grants(a[1..] + b) && Grants(a) == head + Grants(a[1..]);
      JoinThree(head, Grants(a[1..]), Grants(b));
    }
  }

  lemma {:induction false} NonGrantsAppend(a: seq<Op>, b: seq<Op>)
    ensures NonGrants(a + b) == NonGrants(a) + NonGrants(b)
    decreases |a|
  {
    if a == [] {
      assert a + b == b;
    } else {
      assert (a + b)[0] == a[0] && (a + b)[1..] == a[1..] + b;
      NonGrantsAppend(a[1..], b);
      var head := if a[0].OwnerGrant? then [] else [a[0]];
      assert NonGrants(a + b) == head + NonGrants(a[1..] + b) && NonGrants(a) == head + NonGrants(a[1..]);
      JoinThree(head, NonGrants(a[1..]), NonGrants(b));
    }
  }

  lemma JoinThree(a: seq<Op>, b: seq<Op>, c: seq<Op>)
    ensures a + (b + c) == (a + b) + c
  {
  }

  lemma SplitAppend(a: seq<Op>, b: seq<Op>)
    ensures NonGrants(a + b) == NonGrants(a) + NonGrants(b)
    ensures Grants(a + b) == Grants(a) + Grants(b)
  {
    GrantsAppend(a, b);
    NonGrantsAppend(a, b);
  }

  lemma SplitNext(ops: seq<Op>, k: nat)
    requires k < |ops|
    ensures Grants(ops[..k + 1]) == Grants(ops[..k]) + (if ops[k].OwnerGrant? then [ops[k]] else [])
    ensures NonGrants(ops[..k + 1]) == NonGrants(ops[..k]) + (if ops[k].OwnerGrant? then [] else [ops[k]])
  {
    assert ops[..k + 1] == ops[..k] + [ops[k]];
    SplitAppend(ops[..k], [ops[k]]);
    assert [ops[k]][1..] == [];
  }

  lemma {:induction false} MergedAppend(ops: seq<Op>, a: seq<Op>, b: seq<Op>)
    ensures Merged(ops, a + b) == (var m := Merged(ops, a); if m.None? then None else Merged(m.value, b))
    decreases |a|
  {
    if a == [] {
      assert a + b == b;
    } else {
      assert (a + b)[0] == a[0] && (a + b)[1..] == a[1..] + b;
      var next := Pushed(ops, a[0]);
      if next.Some? { MergedAppend(next.value, a[1..], b); }
    }
  }

  lemma MergedNext(ops: seq<Op>, more: seq<Op>, k: nat)
    requires k < |more|
    ensures Merged(ops, more[..k + 1]) ==
      (var m := Merged(ops, more[..k]); if m.None? then None else Pushed(m.value, more[k]))
  {
    hide Pushed;
    assert more[..k + 1] == more[..k] + [more[k]];
    MergedAppend(ops, more[..k], [more[k]]);
    var m := Merged(ops, more[..k]);
    if m.Some? { assert [more[k]][1..] == []; }
  }

  lemma MergedStops(ops: seq<Op>, more: seq<Op>, k: nat)
    requires k <= |more| && Merged(ops, more[..k]) == None
    ensures Merged(ops, more) == None
  {
    assert more == more[..k] + more[k..];
    MergedAppend(ops, more[..k], more[k..]);
  }

  // ---- The vector under construction ----

  class OperationBatch {
    var operations: seq<Op>

    constructor ()
      ensures operations == []
    {
      operations := [];
    }

    method Push(op: Op) returns (ok: bool)
      modifies this
      ensures ok <==> Pushed(old(operations), op).Some?
      ensures operations == if ok then Pushed(old(operations), op).value else old(operations)
    {
      var k := 0;
      while k < |operations| && !Matches(operations[k], op)
        invariant 0 <= k <= |operations|
        invariant forall i :: 0 <= i < k ==> !Matches(operations[i], op)
      {
        k := k + 1;
      }
      assert k == FirstMatch(operations, op);
      if k < |operations| { return operations[k] == op; }
      operations := operations + [op];
      ok := true;
    }

    method PushAll(more: seq<Op>) returns (ok: bool)
      modifies this
      ensures ok <==> Merged(old(operations), more).Some?
      ensures ok ==> operations == Merged(old(operations), more).value
      ensures !ok ==>
                exists k :: 0 <= k < |more| && Merged(old(operations), more[..k]) == Some(operations)
                            && Pushed(operations, more[k]) == None
    {
      hide Pushed;
      var k := 0;
      while k < |more|
        invariant 0 <= k <= |more|
        invariant Merged(old(operations), more[..k]) == Some(operations)
      {
        MergedNext(old(operations), more, k);
        ok := Push(more[k]);
        if !ok {
          MergedStops(old(operations), more, k + 1);
          return;
        }
        k := k + 1;
      }
      assert more[..k] == more;
      ok := true;
    }

    /** Moves the owner grants behind the other operations. */
    method DeferOwnerGrants()
      modifies this
      ensures operations == Deferred(old(operations))
    {
      var kept: seq<Op> := [];
      var grants: seq<Op> := [];
      var k := 0;
      while k < |operations|
        invariant 0 <= k <= |operations|
        invariant operations == old(operations)
        invariant kept == NonGrants(operations[..k])
        invariant grants == Grants(operations[..k])
      {
        SplitNext(operations, k);
        if operations[k].OwnerGrant? {
          grants := grants + [operations[k]];
        } else {
          kept := kept + [operations[k]];
        }
        k := k + 1;
      }
      assert operations[..k] == operations;
      operations := kept + grants;
    }
  }

  method PlanBatch(current: nat, author: Id, timestamp: nat, components: seq<Component>, additional: seq<Op>)
    returns (r: Option<seq<Op>>)
    ensures r == Planned(current, author, timestamp, components, additional)
  {
    if components == [] && additional == [] { return None; }
    if current >= MAX_U64 { return None; }
    var expected := Header(current + 1, author, timestamp);
    hide Merged, Flat;
    var batch := new OperationBatch();
    var k := 0;
    NothingYet(components[..0]);
    while k < |components|
      invariant 0 <= k <= |components|
      invariant forall j :: 0 <= j < k ==> components[j].header == expected
      invariant Merged([], Flat(components[..k])) == Some(batch.operations)
    {
      if components[k].header != expected { return None; }
      FlatNext(components, k);
      MergedAppend([], Flat(components[..k]), components[k].operations);
      var ok := batch.PushAll(components[k].operations);
      if !ok {
        FlatStops(components, k + 1);
        return None;
      }
      k := k + 1;
    }
    assert components[..k] == components;
    batch.DeferOwnerGrants();
    var ok := batch.PushAll(additional);
    r := if ok then Some(batch.operations) else None;
  }

  lemma NothingYet(components: seq<Component>)
    requires components == []
    ensures Merged([], Flat(components)) == Some([])
  {
  }

  lemma {:induction false} FlatAppend(a: seq<Component>, b: seq<Component>)
    ensures Flat(a + b) == Flat(a) + Flat(b)
  {
    if a == [] {
      assert a + b == b;
    } else {
      assert (a + b)[0] == a[0] && (a + b)[1..] == a[1..] + b;
      FlatAppend(a[1..], b);
    }
  }

  lemma FlatNext(components: seq<Component>, k: nat)
    requires k < |components|
    ensures Flat(components[..k + 1]) == Flat(components[..k]) + components[k].operations
  {
    assert components[..k + 1] == components[..k] + [components[k]];
    FlatAppend(components[..k], [components[k]]);
    assert [components[k]][1..] == [];
  }

  lemma FlatStops(components: seq<Component>, k: nat)
    requires k <= |components| && Merged([], Flat(components[..k])) == None
    ensures Merged([], Flat(components)) == None
  {
    assert components == components[..k] + components[k..];
    FlatAppend(components[..k], components[k..]);
    MergedAppend([], Flat(components[..k]), Flat(components[k..]));
  }
}
