/** Granting and revoking vault ownership through a witnessed administrative rekey. */
module OwnerChanges {
  import opened Common

  type Id = nat

  datatype Kind = Human | OtherKind
  datatype Change = Grant | Revoke | UnknownChange
  datatype Outcome = Accepted | Invalid | WrongScope | PolicyDenied

  /** `scoped` says the request is an administrative rekey of a descriptor or body of the item itself, without a field
      or an output sink. */
  datatype Request = Request(change: Change, scoped: bool, nextSequence: nat, requester: Id, target: Id)

  datatype State = State(sequence: nat, owners: seq<Id>)

  /** The declared principals; an identifier may be listed more than once. */
  type Directory = seq<(Id, Kind)>

  predicate IsHuman(d: Directory, id: Id) { (id, Human) in d }

  function Result(d: Directory, s: State, r: Request): (o: Outcome) {
    if s.sequence > MAX_U64 || r.nextSequence > MAX_U64 || r.change == UnknownChange then Invalid
    else if !r.scoped || s.sequence == MAX_U64 || r.nextSequence != s.sequence + 1 then WrongScope
    else if r.requester !in s.owners || !IsHuman(d, r.target) then PolicyDenied
    else if r.change == Grant && r.target in s.owners then PolicyDenied
    else if r.change == Revoke && (r.target !in s.owners || |s.owners| <= 1 || r.requester == r.target) then
      PolicyDenied
    else Accepted
  }

  function Dropped(owners: seq<Id>, id: Id): (r: seq<Id>) {
    if owners == [] then [] else (if owners[0] == id then [] else [owners[0]]) + Dropped(owners[1..], id)
  }

  function Applied(s: State, r: Request): (t: State) {
    State(r.nextSequence, if r.change == Grant then s.owners + [r.target] else Dropped(s.owners, r.target))
  }

  ghost predicate Run(d: Directory, s: State, requests: seq<Request>, t: State)
    decreases |requests|
  {
    if requests == [] then s == t
    else Result(d, s, requests[0]) == Accepted && Run(d, Applied(s, requests[0]), requests[1..], t)
  }

  ghost function Owners(s: State): (r: set<Id>) { set id | id in s.owners }

  ghost predicate Inv(d: Directory, s: State) {
    && s.sequence <= MAX_U64
    && s.owners != []
    && forall id :: id in s.owners ==> IsHuman(d, id)
  }

  lemma {:induction false} DroppedMembers(owners: seq<Id>, id: Id)
    ensures forall x :: x in Dropped(owners, id) <==> x in owners && x != id
  {
    if owners == [] {
    } else {
      DroppedMembers(owners[1..], id);
      assert owners == [owners[0]] + owners[1..];
    }
  }

  /** One accepted change moves exactly one human across, keeps its requester, and takes the next sequence number. */
  lemma StepKeeps(d: Directory, s: State, r: Request)
    requires Inv(d, s) && Result(d, s, r) == Accepted
    ensures var t := Applied(s, r);
      && Inv(d, t)
      && t.sequence == s.sequence + 1
      && r.requester in t.owners
      && (r.change == Grant ==> r.target !in Owners(s) && Owners(t) == Owners(s) + {r.target})
      && (r.change != Grant ==> r.target in Owners(s) && Owners(t) == Owners(s) - {r.target})
  {
    var t := Applied(s, r);
    if r.change == Grant {
      assert Owners(t) == Owners(s) + {r.target};
    } else {
      DroppedMembers(s.owners, r.target);
      assert Owners(t) == Owners(s) - {r.target};
    }
    assert r.requester in Owners(t);
  }

  /** A change is judged by its form first, then its scope, then its effect: it is accepted exactly when an owner asks,
      the target is human, and carrying it out changes the owners and keeps the one who asked. */
  lemma ResultExactly(d: Directory, s: State, r: Request)
    ensures Result(d, s, r) == Invalid <==>
      s.sequence > MAX_U64 || r.nextSequence > MAX_U64 || r.change !in {Grant, Revoke}
    ensures Result(d, s, r) == WrongScope <==>
      && r.change in {Grant, Revoke} && s.sequence <= MAX_U64 && r.nextSequence <= MAX_U64
      && !(r.scoped && r.nextSequence == s.sequence + 1)
    ensures Result(d, s, r) == Accepted <==>
      && r.change in {Grant, Revoke} && r.scoped && r.nextSequence == s.sequence + 1 <= MAX_U64
      && (r.target, Human) in d && r.requester in Owners(s)
      && Owners(Applied(s, r)) != Owners(s) && r.requester in Owners(Applied(s, r))
    ensures Result(d, s, r) == Accepted && r.change == Grant ==> Owners(Applied(s, r)) == Owners(s) + {r.target}
    ensures Result(d, s, r) == Accepted && r.change == Revoke ==> Owners(Applied(s, r)) == Owners(s) - {r.target}
  {
    hide Dropped;
    var t := Applied(s, r);
    DroppedMembers(s.owners, r.target);
    assert r.change == Grant ==> Owners(t) == Owners(s) + {r.target};
    assert r.change == Revoke ==> Owners(t) == Owners(s) - {r.target};
    if r.requester in s.owners && r.target in s.owners && r.requester != r.target { SoleOwnerTestImplied(s, r); }
    assert r.target in Owners(s) <==> r.target in s.owners;
    assert r.requester in Owners(t) <==> r.requester in t.owners;
  }

  /** Along any run the owners are never empty and all human, each step keeps its requester, and the sequence counts the
      steps without wrapping. */
  lemma {:induction false} RunKeeps(d: Directory, s: State, requests: seq<Request>, t: State)
    requires Inv(d, s) && Run(d, s, requests, t)
    ensures Inv(d, t)
    ensures t.sequence == s.sequence + |requests| <= MAX_U64
    ensures requests != [] ==> requests[|requests| - 1].requester in t.owners
    decreases |requests|
  {
    hide Inv, Result, Applied;
    if requests == [] {
      Bounded(d, s);
    } else {
      StepKeeps(d, s, requests[0]);
      RunKeeps(d, Applied(s, requests[0]), requests[1..], t);
      if |requests| > 1 { assert requests[1..][|requests| - 2] == requests[|requests| - 1]; }
    }
  }

  lemma Bounded(d: Directory, s: State)
    requires Inv(d, s)
    ensures s.sequence <= MAX_U64
  {
  }

  // ---- Counting the owners ----

  function Grants(requests: seq<Request>): (n: nat) {
    if requests == [] then 0 else (if requests[0].change == Grant then 1 else 0) + Grants(requests[1..])
  }

  lemma StepCounts(d: Directory, s: State, r: Request)
    requires Result(d, s, r) == Accepted
    ensures |Owners(Applied(s, r))| == |Owners(s)| + (if r.change == Grant then 1 else -1)
  {
    var t := Applied(s, r);
    if r.change == Grant {
      assert Owners(t) == Owners(s) + {r.target} && r.target !in Owners(s);
    } else {
      DroppedMembers(s.owners, r.target);
      assert Owners(t) == Owners(s) - {r.target} && r.target in Owners(s);
    }
  }

  /** The number of owners is the start plus the grants minus the revokes, however the list repeats them. */
  lemma {:induction false} RunCounts(d: Directory, s: State, requests: seq<Request>, t: State)
    requires Run(d, s, requests, t)
    ensures |Owners(t)| == |Owners(s)| + 2 * Grants(requests) - |requests|
    decreases |requests|
  {
    hide Result, Applied, Owners;
    if requests == [] {
    } else {
      StepCounts(d, s, requests[0]);
      RunCounts(d, Applied(s, requests[0]), requests[1..], t);
    }
  }

  /** The length test on the owner list refuses nothing by itself: a requester who is not the target is a second
      owner. */
  lemma SoleOwnerTestImplied(s: State, r: Request)
    requires r.requester in s.owners && r.target in s.owners && r.requester != r.target
    ensures |s.owners| > 1
  {
    var i :| 0 <= i < |s.owners| && s.owners[i] == r.requester;
    var j :| 0 <= j < |s.owners| && s.owners[j] == r.target;
  }
}
