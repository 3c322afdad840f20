/** Registering with, requesting from and advancing a witness checkpoint. */
module Checkpoints {
  import opened Common

  const MAX_POLICIES: nat := 16384
  const DIGEST_BYTES: nat := 32

  /** A 32-byte digest as the number its bytes spell, which orders digests as their bytes do; all zeros is not one. */
  type Digest = nat

  /** A decoded byte string: how many bytes, and the number they spell. */
  datatype Decoded = Decoded(length: nat, value: nat)

  /** A hexadecimal field: its text, and its bytes when it decodes. */
  datatype Hex = Hex(text: nat, bytes: Option<Decoded>)

  /** A checkpoint; `body` is everything else its digest covers. */
  datatype Record = Record(sequence: nat, issuedAt: nat, predecessor: Digest, body: nat, digest: Digest)

  datatype Operation =
    | Register
    | Request(selected: Hex, slot: Hex)
    | Advance(current: Record, candidate: Record)
    | Unknown

  datatype Outcome = Accepted | Invalid | CheckpointFork | PolicyDenied | WrongScope | StalePolicy | WitnessBehind

  predicate IsDigest(f: Hex) { f.bytes.Some? && f.bytes.value.length == DIGEST_BYTES && f.bytes.value.value != 0 }

  predicate AllDigests(fields: seq<Hex>) { forall k :: 0 <= k < |fields| ==> IsDigest(fields[k]) }

  predicate InRange(r: Record) { r.sequence <= MAX_U64 && r.issuedAt <= MAX_U64 }

  function Values(fields: seq<Hex>): (r: seq<nat>)
    requires AllDigests(fields)
  {
    seq(|fields|, k requires 0 <= k < |fields| => fields[k].bytes.value.value)
  }

  function Advanced(prior: Record, next: Record): (r: Outcome) {
    if !InRange(prior) || !InRange(next) then Invalid
    else if prior == next then Accepted
    else if next.sequence < prior.sequence then StalePolicy
    else if next.sequence == prior.sequence then CheckpointFork
    else if next.sequence != prior.sequence + 1 then WitnessBehind
    else if next.predecessor != prior.digest || next.issuedAt <= prior.issuedAt then CheckpointFork
    else Accepted
  }

  /** A list of digests holds a byte string only if it is as long as a digest. */
  predicate Holds(digests: seq<nat>, d: Decoded) { d.length == DIGEST_BYTES && d.value in digests }

  function Decided(active: seq<nat>, member: seq<nat>, operation: Operation): (r: Outcome) {
    match operation
    case Register => if exists k :: 0 <= k < |active| && active[k] in member then Accepted else PolicyDenied
    case Request(selected, slot) =>
      if selected.bytes.None? then Invalid
      else if selected != slot || !Holds(active, selected.bytes.value) then WrongScope
      else if !Holds(member, selected.bytes.value) then PolicyDenied
      else Accepted
    case Advance(current, candidate) => Advanced(current, candidate)
    case Unknown => Invalid
  }

  /** The outcome of a case, said without sorting: the active policies must be exactly the committed ones. */
  ghost function Judged(active: seq<Hex>, committed: seq<Hex>, member: seq<Hex>, operation: Operation): (r: Outcome) {
    if !AllDigests(active) || !AllDigests(committed) || !AllDigests(member) then Invalid
    else if |committed| > MAX_POLICIES || !Ascending(Values(committed)) then Invalid
    else if Elements(Values(active)) != Elements(Values(committed)) then CheckpointFork
    else Decided(Values(committed), Values(member), operation)
  }

  // ---- Sorting and removing repeats ----

  ghost function Elements(s: seq<nat>): (r: set<nat>) { set x | x in s }

  lemma {:induction false} AscendingUnique(a: seq<nat>, b: seq<nat>)
    requires Ascending(a) && Ascending(b)
    ensures Elements(a) == Elements(b) <==> a == b
    decreases |a|
  {
    if Elements(a) == Elements(b) {
      Emptiness(a);
      Emptiness(b);
      if a != [] {
        SameFirst(a, b);
        RestElements(a);
        RestElements(b);
        AscendingUnique(a[1..], b[1..]);
        assert a == [a[0]] + a[1..] && b == [b[0]] + b[1..];
      }
    }
  }

  lemma Emptiness(a: seq<nat>)
    ensures Elements(a) == {} <==> a == []
  {
    if a != [] { assert a[0] in Elements(a); }
  }

  lemma SameFirst(a: seq<nat>, b: seq<nat>)
    requires a != [] && b != [] && Ascending(a) && Ascending(b) && Elements(a) == Elements(b)
    ensures a[0] == b[0]
  {
    assert a[0] in Elements(b) && b[0] in Elements(a);
    var i :| 0 <= i < |b| && b[i] == a[0];
    var j :| 0 <= j < |a| && a[j] == b[0];
  }

  lemma RestElements(a: seq<nat>)
    requires a != [] && Ascending(a)
    ensures Elements(a[1..]) == Elements(a) - {a[0]}
  {
    assert a == [a[0]] + a[1..];
  }

  /** Inserts a value into an ascending list unless it is there. */
  method Insert(s: seq<nat>, x: nat) returns (r: seq<nat>)
    requires Ascending(s)
    ensures Ascending(r) && Elements(r) == Elements(s) + {x}
  {
    var k := 0;
    while k < |s| && s[k] < x
      invariant 0 <= k <= |s|
      invariant forall i :: 0 <= i < k ==> s[i] < x
    {
      k := k + 1;
    }
    if k < |s| && s[k] == x {
      r := s;
    } else {
      r := s[..k] + [x] + s[k..];
      InsertedAscending(s, k, x);
      InsertedElements(s, k, x);
    }
  }

  lemma InsertedAscending(s: seq<nat>, k: nat, x: nat)
    requires Ascending(s) && k <= |s| && (forall i :: 0 <= i < k ==> s[i] < x) && (k < |s| ==> x < s[k])
    ensures Ascending(s[..k] + [x] + s[k..])
  {
    var r := s[..k] + [x] + s[k..];
    forall i, j | 0 <= i < j < |r| ensures r[i] < r[j] {
      if j == k {
      } else if i == k {
        assert x < s[k] <= s[j - 1];
      } else {
        assert (if i < k then s[i] else s[i - 1]) < (if j < k then s[j] else s[j - 1]);
      }
    }
  }

  lemma InsertedElements(s: seq<nat>, k: nat, x: nat)
    requires k <= |s|
    ensures Elements(s[..k] + [x] + s[k..]) == Elements(s) + {x}
  {
    assert s == s[..k] + s[k..];
    assert forall y :: y in s <==> y in s[..k] || y in s[k..];
  }

  /** Sorts and removes repeats, as the case check does to the active policies. */
  method SortDedup(s: seq<nat>) returns (r: seq<nat>)
    ensures Ascending(r) && Elements(r) == Elements(s)
  {
    r := [];
    for k := 0 to |s|
      invariant Ascending(r) && Elements(r) == Elements(s[..k])
    {
      r := Insert(r, s[k]);
      assert s[..k + 1] == s[..k] + [s[k]];
    }
    assert s[..|s|] == s;
  }

  method Judge(active: seq<Hex>, committed: seq<Hex>, member: seq<Hex>, operation: Operation) returns (r: Outcome)
    ensures r == Judged(active, committed, member, operation)
  {
    if !AllDigests(active) || !AllDigests(committed) || !AllDigests(member) { return Invalid; }
    if |committed| > MAX_POLICIES || !Ascending(Values(committed)) { return Invalid; }
    var sorted := SortDedup(Values(active));
    AscendingUnique(sorted, Values(committed));
    assert sorted == Values(committed) <==> Elements(Values(active)) == Elements(Values(committed));
    if sorted != Values(committed) { return CheckpointFork; }
    r := Decided(sorted, Values(member), operation);
  }

  // ---- What each request needs ----

  /** The digests a list of fields names. */
  ghost function Named(fields: seq<Hex>): (r: set<nat>) {
    set k | 0 <= k < |fields| && fields[k].bytes.Some? :: fields[k].bytes.value.value
  }

  /** Every field is a digest, the committed ones are in strict order and not too many, and the active policies are
      exactly the committed ones. */
  ghost predicate Consistent(active: seq<Hex>, committed: seq<Hex>, member: seq<Hex>) {
    && (forall f :: f in active + committed + member ==> IsDigest(f))
    && |committed| <= MAX_POLICIES
    && (forall i, j :: 0 <= i < j < |committed| && committed[i].bytes.Some? && committed[j].bytes.Some? ==>
          committed[i].bytes.value.value < committed[j].bytes.value.value)
    && Named(active) == Named(committed)
  }

  lemma NamedValues(fields: seq<Hex>)
    requires AllDigests(fields)
    ensures Elements(Values(fields)) == Named(fields)
  {
    forall x | x in Named(fields) ensures x in Elements(Values(fields)) {
      var k :| 0 <= k < |fields| && fields[k].bytes.Some? && fields[k].bytes.value.value == x;
      assert Values(fields)[k] == x;
    }
  }

  lemma AllThree(active: seq<Hex>, committed: seq<Hex>, member: seq<Hex>)
    ensures (forall f :: f in active + committed + member ==> IsDigest(f))
       <==> AllDigests(active) && AllDigests(committed) && AllDigests(member)
  {
    hide IsDigest;
    var all := active + committed + member;
    if forall f :: f in all ==> IsDigest(f) {
      forall k | 0 <= k < |active| ensures IsDigest(active[k]) { assert all[k] in all; }
      forall k | 0 <= k < |committed| ensures IsDigest(committed[k]) { assert all[|active| + k] in all; }
      forall k | 0 <= k < |member| ensures IsDigest(member[k]) { assert all[|active| + |committed| + k] in all; }
    }
  }

  lemma ConsistentExactly(active: seq<Hex>, committed: seq<Hex>, member: seq<Hex>)
    ensures Consistent(active, committed, member) <==>
      && AllDigests(active) && AllDigests(committed) && AllDigests(member)
      && |committed| <= MAX_POLICIES && Ascending(Values(committed))
      && Elements(Values(active)) == Elements(Values(committed))
  {
    hide IsDigest, Named;
    AllThree(active, committed, member);
    if AllDigests(active) && AllDigests(committed) {
      NamedValues(active);
      NamedValues(committed);
      OrderedValues(committed);
    }
  }

  lemma OrderedValues(fields: seq<Hex>)
    requires AllDigests(fields)
    ensures Ascending(Values(fields)) <==>
      forall i, j :: 0 <= i < j < |fields| && fields[i].bytes.Some? && fields[j].bytes.Some? ==>
        fields[i].bytes.value.value < fields[j].bytes.value.value
  {
    var v := Values(fields);
    assert forall k :: 0 <= k < |fields| ==> v[k] == fields[k].bytes.value.value;
  }

  /** Registration needs one active policy the witness is a member of. */
  lemma RegisterExactly(active: seq<Hex>, committed: seq<Hex>, member: seq<Hex>)
    ensures Judged(active, committed, member, Register) == Accepted <==>
      Consistent(active, committed, member) && Named(active) * Named(member) != {}
    ensures Judged(active, committed, member, Register) == PolicyDenied <==>
      Consistent(active, committed, member) && Named(active) * Named(member) == {}
    ensures Judged(active, committed, member, Register) == CheckpointFork <==>
      AllDigests(active) && Consistent(committed, committed, member) && Named(active) != Named(committed)
  {
    hide Consistent, Named, AllDigests;
    ConsistentExactly(active, committed, member);
    ConsistentExactly(committed, committed, member);
    if AllDigests(active) && AllDigests(committed) {
      NamedValues(active);
      NamedValues(committed);
    }
    if Consistent(active, committed, member) {
      NamedValues(active);
      NamedValues(committed);
      NamedValues(member);
      var a, m := Values(committed), Values(member);
      if k :| 0 <= k < |a| && a[k] in m { assert a[k] in Named(active) * Named(member); }
      if x :| x in Named(active) * Named(member) { var k :| 0 <= k < |a| && a[k] == x; }
    }
  }

  /** A request needs a slot for the very policy it selects, which is active and one the witness is a member of. */
  lemma RequestExactly(active: seq<Hex>, committed: seq<Hex>, member: seq<Hex>, selected: Hex, slot: Hex)
    ensures Judged(active, committed, member, Request(selected, slot)) == Accepted <==>
      && Consistent(active, committed, member) && selected == slot
      && IsDigest(selected) && selected.bytes.value.value in Named(active) * Named(member)
    ensures Judged(active, committed, member, Request(selected, slot)) == PolicyDenied <==>
      && Consistent(active, committed, member) && selected == slot
      && IsDigest(selected) && selected.bytes.value.value in Named(active) - Named(member)
  {
    hide Consistent, Named;
    ConsistentExactly(active, committed, member);
    if Consistent(active, committed, member) {
      NamedValues(active);
      NamedValues(committed);
      NamedValues(member);
      NonZero(committed);
    }
  }

  lemma NonZero(fields: seq<Hex>)
    requires AllDigests(fields)
    ensures 0 !in Values(fields)
  {
  }

  /** An advance repeats the checkpoint or follows it. One that falls back is stale, one that skips ahead finds the
      witness behind, and any other is a fork. */
  lemma AdvanceExactly(prior: Record, next: Record)
    ensures Advanced(prior, next) == Invalid <==> !InRange(prior) || !InRange(next)
    ensures Advanced(prior, next) == Accepted <==>
      InRange(prior) && InRange(next) && (prior == next || Follows(prior, next))
    ensures Advanced(prior, next) == StalePolicy <==>
      InRange(prior) && InRange(next) && next.sequence < prior.sequence
    ensures Advanced(prior, next) == WitnessBehind <==>
      InRange(prior) && InRange(next) && next.sequence > prior.sequence + 1
  {
  }

  /** How often and in what order the active and member lists name a policy does not matter. */
  lemma OrderIrrelevant(active: seq<Hex>, active2: seq<Hex>, committed: seq<Hex>, member: seq<Hex>, member2: seq<Hex>,
                        operation: Operation)
    requires AllDigests(active) && AllDigests(active2) && AllDigests(member) && AllDigests(member2)
    requires Named(active) == Named(active2) && Named(member) == Named(member2)
    ensures Judged(active, committed, member, operation) == Judged(active2, committed, member2, operation)
  {
    hide Named, Advanced;
    NamedValues(active);
    NamedValues(active2);
    NamedValues(member);
    NamedValues(member2);
    assert forall x :: x in Values(member) <==> x in Elements(Values(member));
    assert forall x :: x in Values(member2) <==> x in Elements(Values(member2));
  }

  // ---- Runs of accepted advances ----

  ghost predicate History(run: seq<Record>) {
    run != [] && forall k :: 0 <= k < |run| - 1 ==> Advanced(run[k], run[k + 1]) == Accepted
  }

  /** The run without the steps that repeat the current checkpoint. */
  ghost function Distinct(run: seq<Record>): (r: seq<Record>)
    requires run != []
    ensures r != [] && r[0] == run[0] && r[|r| - 1] == run[|run| - 1]
  {
    if |run| == 1 then run
    else
      var rest := Distinct(run[1..]);
      if run[0] == run[1] then rest else [run[0]] + rest
  }

  /** Each remaining step raises the sequence by one and the time, and names the digest it follows. */
  ghost predicate Linked(run: seq<Record>) {
    forall k :: 0 <= k < |run| - 1 ==> Follows(run[k], run[k + 1])
  }

  ghost predicate Follows(prior: Record, next: Record) {
    next.sequence == prior.sequence + 1 && next.issuedAt > prior.issuedAt && next.predecessor == prior.digest
  }

  lemma {:induction false} HistoryLinked(run: seq<Record>)
    requires History(run)
    ensures Linked(Distinct(run))
    ensures forall r :: r in Distinct(run) ==> r in run
    decreases |run|
  {
    if |run| > 1 {
      assert Advanced(run[0], run[1]) == Accepted;
      forall k | 0 <= k < |run[1..]| - 1 ensures Advanced(run[1..][k], run[1..][k + 1]) == Accepted {
        assert run[1..][k] == run[k + 1] && run[1..][k + 1] == run[k + 2];
        assert Advanced(run[k + 1], run[k + 1 + 1]) == Accepted;
      }
      HistoryLinked(run[1..]);
      var rest := Distinct(run[1..]);
      if run[0] != run[1] {
        var r := [run[0]] + rest;
        forall k | 0 <= k < |r| - 1 ensures Follows(r[k], r[k + 1]) {
          if k > 0 { assert Follows(rest[k - 1], rest[k - 1 + 1]); }
        }
      }
    }
  }

  lemma {:induction false} LinkedCounts(run: seq<Record>, k: nat)
    requires Linked(run) && k < |run|
    ensures run[k].sequence == run[0].sequence + k && run[k].issuedAt >= run[0].issuedAt + k
  {
    if k > 0 {
      LinkedCounts(run, k - 1);
      assert Follows(run[k - 1], run[k - 1 + 1]);
    }
  }

  /** However long a run of accepted advances, its sequence counts the checkpoints that differ and its time rises at
      each of them. */
  lemma RunAdvances(run: seq<Record>)
    requires History(run)
    ensures var d := Distinct(run); var last := run[|run| - 1];
      && last.sequence == run[0].sequence + |d| - 1
      && last.issuedAt >= run[0].issuedAt + |d| - 1
      && Linked(d)
  {
    HistoryLinked(run);
    var d := Distinct(run);
    LinkedCounts(d, |d| - 1);
  }

  /** No two of these records share a digest. */
  ghost predicate CollisionFree(records: set<Record>) {
    forall a, b :: a in records && b in records && a.digest == b.digest ==> a == b
  }

  ghost function Records(run: seq<Record>): (r: set<Record>) { set r | r in run }

  lemma {:induction false} SameFrom(a: seq<Record>, b: seq<Record>, k: nat)
    requires Linked(a) && Linked(b) && |a| == |b| && k < |a|
    requires CollisionFree(Records(a) + Records(b))
    requires a[|a| - 1].digest == b[|b| - 1].digest
    ensures a[k] == b[k]
    decreases |a| - k
  {
    assert a[k] in Records(a) && b[k] in Records(b);
    if k < |a| - 1 {
      SameFrom(a, b, k + 1);
      assert Follows(a[k], a[k + 1]) && Follows(b[k], b[k + 1]);
    }
  }

  /** Two runs from one checkpoint that end on one digest passed through exactly the same checkpoints. */
  lemma SameDigestSameHistory(a: seq<Record>, b: seq<Record>)
    requires History(a) && History(b) && a[0] == b[0]
    requires CollisionFree(Records(a) + Records(b))
    requires a[|a| - 1].digest == b[|b| - 1].digest
    ensures Distinct(a) == Distinct(b)
  {
    HistoryLinked(a);
    HistoryLinked(b);
    RunAdvances(a);
    RunAdvances(b);
    var x, y := Distinct(a), Distinct(b);
    assert a[|a| - 1] in Records(a) && b[|b| - 1] in Records(b);
    assert a[|a| - 1] == b[|b| - 1];
    assert Records(x) + Records(y) <= Records(a) + Records(b);
    forall k | 0 <= k < |x| ensures x[k] == y[k] { SameFrom(x, y, k); }
  }

  /** Along a run the sequence never falls, and stays the same only with the checkpoint. */
  lemma {:induction false} NeverFalls(run: seq<Record>, i: nat, j: nat)
    requires History(run) && i < j < |run|
    ensures InRange(run[i]) && InRange(run[j]) && run[i].sequence <= run[j].sequence
    ensures run[i].sequence == run[j].sequence ==> run[i] == run[j]
    decreases j
  {
    assert Advanced(run[j - 1], run[j - 1 + 1]) == Accepted;
    if i < j - 1 { NeverFalls(run, i, j - 1); }
  }

  /** A run never comes back to a checkpoint it has left, and no later checkpoint of it accepts an earlier one. */
  lemma NeverReturns(run: seq<Record>, i: nat, j: nat)
    requires History(run) && i < j < |run|
    ensures run[i] != run[j] ==> Advanced(run[j], run[i]) == StalePolicy
    ensures run[i] == run[j] ==> forall k :: i <= k <= j ==> run[k] == run[i]
  {
    NeverFalls(run, i, j);
    if run[i] == run[j] {
      forall k | i < k < j ensures run[k] == run[i] {
        NeverFalls(run, i, k);
        NeverFalls(run, k, j);
      }
    }
  }
}
