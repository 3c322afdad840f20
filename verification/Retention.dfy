/** The endpoint-retention enumeration, for every number of witnesses and approvers. */
module Retention {
  datatype Mode = WitnessedOnly | Mixed | DirectOnly
  datatype Request = Absent | Current | WrongSeal

  const MODES: seq<Mode> := [WitnessedOnly, Mixed, DirectOnly]
  const REQUESTS: seq<Request> := [Absent, Current, WrongSeal]
  const BOTH: seq<bool> := [false, true]

  /** Witness and approver counts and thresholds. */
  datatype Sizes = Sizes(witnesses: nat, witnessThreshold: nat, approvers: nat, approverThreshold: nat)

  datatype Attempt = Attempt(
    mode: Mode, badWitnesses: nat, badApprovers: nat, retained: bool, request: Request, approvals: nat,
    replayApprovals: bool, contributions: nat, replayResponse: bool, direct: bool)

  datatype Counts = Counts(
    states: nat, applicable: nat, earlierReopens: nat, approvalReplays: nat, responseReplays: nat,
    priorAuthorizations: nat, laterOpens: nat, excludedDirect: nat, excludedThreshold: nat,
    authorizationCompromise: nat, counterexamples: nat)

  const NONE := Counts(0, 0, 0, 0, 0, 0, 0, 0, 0, 0, 0)

  function Min(a: nat, b: nat): (m: nat) { if a < b then a else b }

  function Bit(b: bool): (n: nat) { if b then 1 else 0 }

  // ---- One attempt ----

  function AcceptedApprovals(z: Sizes, a: Attempt): (n: nat) {
    if a.request == Current then Min(a.approvals + a.badApprovers, z.approvers) else 0
  }

  predicate FreshQuorum(z: Sizes, a: Attempt) {
    a.request == Current && AcceptedApprovals(z, a) >= z.approverThreshold
  }

  function HonestShares(z: Sizes, a: Attempt): (n: nat) {
    if FreshQuorum(z, a) then
      Min(a.contributions, if z.witnesses < a.badWitnesses then 0 else z.witnesses - a.badWitnesses)
    else 0
  }

  predicate LaterOpen(z: Sizes, a: Attempt) {
    a.badWitnesses + HonestShares(z, a) >= z.witnessThreshold || (a.direct && a.mode != WitnessedOnly)
  }

  predicate PriorAuthorized(z: Sizes, a: Attempt) {
    a.replayApprovals && a.request != Current && AcceptedApprovals(z, a) >= z.approverThreshold
  }

  predicate Applicable(z: Sizes, mode: Mode, badWitnesses: nat) {
    mode == WitnessedOnly && badWitnesses < z.witnessThreshold
  }

  /** What one attempt adds to the counters. */
  function One(z: Sizes, a: Attempt): (r: Counts) {
    var quorum, open, applicable := FreshQuorum(z, a), LaterOpen(z, a), Applicable(z, a.mode, a.badWitnesses);
    Counts(
      states := 1,
      approvalReplays := Bit(a.replayApprovals),
      responseReplays := Bit(a.replayResponse),
      priorAuthorizations := Bit(PriorAuthorized(z, a)),
      earlierReopens := Bit(a.retained),
      laterOpens := Bit(open && quorum),
      excludedDirect := Bit(a.mode != WitnessedOnly),
      excludedThreshold := Bit(a.mode == WitnessedOnly && !applicable),
      applicable := Bit(applicable),
      authorizationCompromise := Bit(applicable && a.badApprovers >= z.approverThreshold && quorum),
      counterexamples := Bit(applicable && open && !quorum))
  }

  /** The claim itself, attempt by attempt and for all sizes: inside the declared boundary nothing opens the later
      revision without a fresh accepted quorum, whatever is retained or replayed. */
  lemma NoOpenWithoutQuorum(z: Sizes, a: Attempt)
    requires Applicable(z, a.mode, a.badWitnesses)
    ensures LaterOpen(z, a) ==>
      FreshQuorum(z, a) && a.request == Current
      && a.contributions >= z.witnessThreshold - a.badWitnesses > 0
      && z.approverThreshold <= z.approvers && z.approverThreshold <= a.approvals + a.badApprovers
  {
  }

  // ---- Sums over the ten choices, innermost first ----

  function Plus(a: Counts, b: Counts): (r: Counts) {
    Counts(
      a.states + b.states, a.applicable + b.applicable, a.earlierReopens + b.earlierReopens,
      a.approvalReplays + b.approvalReplays, a.responseReplays + b.responseReplays,
      a.priorAuthorizations + b.priorAuthorizations, a.laterOpens + b.laterOpens, a.excludedDirect + b.excludedDirect,
      a.excludedThreshold + b.excludedThreshold, a.authorizationCompromise + b.authorizationCompromise,
      a.counterexamples + b.counterexamples)
  }

  lemma PlusLaws(a: Counts, b: Counts, c: Counts)
    ensures Plus(Plus(a, b), c) == Plus(a, Plus(b, c))
    ensures Plus(a, NONE) == a && Plus(NONE, a) == a
  {
  }

  function OverDirect(z: Sizes, a: Attempt, n: nat): (r: Counts)
    requires n <= 2
  {
    if n == 0 then NONE else Plus(OverDirect(z, a, n - 1), One(z, a.(direct := BOTH[n - 1])))
  }

  function OverResponses(z: Sizes, a: Attempt, n: nat): (r: Counts)
    requires n <= 2
  {
    if n == 0 then NONE
    else Plus(OverResponses(z, a, n - 1), OverDirect(z, a.(replayResponse := BOTH[n - 1]), 2))
  }

  function OverContributions(z: Sizes, a: Attempt, n: nat): (r: Counts) {
    if n == 0 then NONE
    else Plus(OverContributions(z, a, n - 1), OverResponses(z, a.(contributions := n - 1), 2))
  }

  function OverReplays(z: Sizes, a: Attempt, n: nat): (r: Counts)
    requires n <= 2
  {
    if n == 0 then NONE
    else Plus(OverReplays(z, a, n - 1), OverContributions(z, a.(replayApprovals := BOTH[n - 1]), z.witnesses + 1))
  }

  function OverApprovals(z: Sizes, a: Attempt, n: nat): (r: Counts) {
    if n == 0 then NONE else Plus(OverApprovals(z, a, n - 1), OverReplays(z, a.(approvals := n - 1), 2))
  }

  function OverRequests(z: Sizes, a: Attempt, n: nat): (r: Counts)
    requires n <= 3
  {
    if n == 0 then NONE
    else Plus(OverRequests(z, a, n - 1), OverApprovals(z, a.(request := REQUESTS[n - 1]), z.approvers + 1))
  }

  function OverRetained(z: Sizes, a: Attempt, n: nat): (r: Counts)
    requires n <= 2
  {
    if n == 0 then NONE else Plus(OverRetained(z, a, n - 1), OverRequests(z, a.(retained := BOTH[n - 1]), 3))
  }

  function OverBadApprovers(z: Sizes, a: Attempt, n: nat): (r: Counts) {
    if n == 0 then NONE else Plus(OverBadApprovers(z, a, n - 1), OverRetained(z, a.(badApprovers := n - 1), 2))
  }

  function OverBadWitnesses(z: Sizes, a: Attempt, n: nat): (r: Counts) {
    if n == 0 then NONE
    else Plus(OverBadWitnesses(z, a, n - 1), OverBadApprovers(z, a.(badWitnesses := n - 1), z.approvers + 1))
  }

  function OverModes(z: Sizes, a: Attempt, n: nat): (r: Counts)
    requires n <= 3
  {
    if n == 0 then NONE
    else Plus(OverModes(z, a, n - 1), OverBadWitnesses(z, a.(mode := MODES[n - 1]), z.witnesses + 1))
  }

  const START := Attempt(WitnessedOnly, 0, 0, false, Absent, 0, false, 0, false, false)

  /** The counters over every combination of the ten choices, each taken once. */
  function Total(z: Sizes): (r: Counts) { OverModes(z, START, 3) }

  // ---- The loops ----

  /** The four innermost loops. */
  method CountReplays(z: Sizes, a: Attempt, c: Counts) returns (r: Counts)
    ensures r == Plus(c, OverReplays(z, a, 2))
  {
    hide One, Plus;
    r := c;
    PlusLaws(c, c, c);
    for h := 0 to 2
      invariant r == Plus(c, OverReplays(z, a, h))
    {
      ghost var c1 := r;
      var a1 := a.(replayApprovals := BOTH[h]);
      PlusLaws(c1, c1, c1);
      for i := 0 to z.witnesses + 1
        invariant r == Plus(c1, OverContributions(z, a1, i))
      {
        ghost var c2 := r;
        var a2 := a1.(contributions := i);
        PlusLaws(c2, c2, c2);
        for j := 0 to 2
          invariant r == Plus(c2, OverResponses(z, a2, j))
        {
          ghost var c3 := r;
          var a3 := a2.(replayResponse := BOTH[j]);
          PlusLaws(c3, c3, c3);
          for k := 0 to 2
            invariant r == Plus(c3, OverDirect(z, a3, k))
          {
            var a4 := a3.(direct := BOTH[k]);
            PlusLaws(c3, OverDirect(z, a3, k), One(z, a4));
            r := Plus(r, One(z, a4));
          }
          PlusLaws(c2, OverResponses(z, a2, j), OverDirect(z, a3, 2));
        }
        PlusLaws(c1, OverContributions(z, a1, i), OverResponses(z, a2, 2));
      }
      PlusLaws(c, OverReplays(z, a, h), OverContributions(z, a1, z.witnesses + 1));
    }
  }

  /** The loops over retained secrets, requests and approvals around them. */
  method CountRetained(z: Sizes, a: Attempt, c: Counts) returns (r: Counts)
    ensures r == Plus(c, OverRetained(z, a, 2))
  {
    hide OverReplays, Plus;
    r := c;
    PlusLaws(c, c, c);
    for i := 0 to 2
      invariant r == Plus(c, OverRetained(z, a, i))
    {
      ghost var c1 := r;
      var a1 := a.(retained := BOTH[i]);
      PlusLaws(c1, c1, c1);
      for j := 0 to 3
        invariant r == Plus(c1, OverRequests(z, a1, j))
      {
        ghost var c2 := r;
        var a2 := a1.(request := REQUESTS[j]);
        PlusLaws(c2, c2, c2);
        for k := 0 to z.approvers + 1
          invariant r == Plus(c2, OverApprovals(z, a2, k))
        {
          var a3 := a2.(approvals := k);
          PlusLaws(c2, OverApprovals(z, a2, k), OverReplays(z, a3, 2));
          r := CountReplays(z, a3, r);
        }
        PlusLaws(c1, OverRequests(z, a1, j), OverApprovals(z, a2, z.approvers + 1));
      }
      PlusLaws(c, OverRetained(z, a, i), OverRequests(z, a1, 3));
    }
  }

  /** The enumeration: the three outermost loops. */
  method Enumerate(z: Sizes) returns (r: Counts)
    ensures r == Total(z)
  {
    hide OverRetained, Plus;
    r := NONE;
    PlusLaws(NONE, NONE, NONE);
    for i := 0 to 3
      invariant r == OverModes(z, START, i)
    {
      ghost var c1 := r;
      var a1 := START.(mode := MODES[i]);
      PlusLaws(c1, c1, c1);
      for j := 0 to z.witnesses + 1
        invariant r == Plus(c1, OverBadWitnesses(z, a1, j))
      {
        ghost var c2 := r;
        var a2 := a1.(badWitnesses := j);
        PlusLaws(c2, c2, c2);
        for k := 0 to z.approvers + 1
          invariant r == Plus(c2, OverBadApprovers(z, a2, k))
        {
          var a3 := a2.(badApprovers := k);
          PlusLaws(c2, OverBadApprovers(z, a2, k), OverRetained(z, a3, 2));
          r := CountRetained(z, a3, r);
        }
        PlusLaws(c1, OverBadWitnesses(z, a1, j), OverBadApprovers(z, a2, z.approvers + 1));
      }
    }
  }
}

/** Closed forms of the eleven counters. */
module RetentionCounts {
  import opened Retention

  // ---- Pairs that reach a threshold ----

  /** `i` compromised out of `n` and `x` honest ones that are asked reach the threshold `t`. */
  predicate Reaches(n: nat, t: nat, i: nat, x: nat) {
    i + Min(x, if n < i then 0 else n - i) >= t
  }

  function Row(n: nat, t: nat, i: nat, m: nat): (r: nat) {
    if m == 0 then 0 else Row(n, t, i, m - 1) + Bit(Reaches(n, t, i, m - 1))
  }

  lemma {:induction false} RowIs(n: nat, t: nat, i: nat, m: nat)
    requires i <= n && m <= n + 1
    ensures Row(n, t, i, m) == if t > n then 0 else if i >= t then m else if m <= t - i then 0 else m - (t - i)
  {
    if m == 0 {
    } else {
      RowIs(n, t, i, m - 1);
    }
  }

  function Rows(n: nat, t: nat, m: nat): (r: nat) {
    if m == 0 then 0 else Rows(n, t, m - 1) + Row(n, t, m - 1, n + 1)
  }

  function Triangle(k: nat): (r: nat) { if k == 0 then 0 else Triangle(k - 1) + k }

  lemma {:induction false} TriangleIs(k: nat)
    ensures 2 * Triangle(k) == k * (k + 1)
  {
    if k == 0 {
    } else {
      TriangleIs(k - 1);
    }
  }

  /** All pairs that reach the threshold. */
  function Pairs(n: nat, t: nat): (r: int) {
    if t > n then 0 else (n + 1) * (n + 1) - t * (t + 1) / 2
  }

  lemma {:induction false} RowsIs(n: nat, t: nat, m: nat)
    requires t <= n && m <= n + 1
    ensures Rows(n, t, m) == (n + 1) * m - (if m <= t then Triangle(t) - Triangle(t - m) else Triangle(t))
  {
    if m == 0 {
    } else {
      RowsIs(n, t, m - 1);
      RowIs(n, t, m - 1, n + 1);
      assert (n + 1) * m == (n + 1) * (m - 1) + (n + 1);
    }
  }

  lemma {:induction false} NoRows(n: nat, t: nat, m: nat)
    requires t > n && m <= n + 1
    ensures Rows(n, t, m) == 0
  {
    if m == 0 {
    } else {
      NoRows(n, t, m - 1);
      RowIs(n, t, m - 1, n + 1);
    }
  }

  lemma PairsCounted(n: nat, t: nat)
    ensures Rows(n, t, n + 1) == Pairs(n, t)
  {
    if t <= n {
      RowsIs(n, t, n + 1);
      TriangleIs(t);
    } else {
      NoRows(n, t, n + 1);
    }
  }

  // ---- One class at a time ----

  /** Attempts of one mode and number of compromised witnesses: how many, and the counters that vary among them. */
  datatype Tally = Tally(n: nat, prior: nat, earlier: nat, approval: nat, response: nat, later: nat, compromise: nat)

  /** They all belong to one class, and none is a counterexample. */
  function Spread(z: Sizes, mode: Mode, bad: nat, t: Tally): (r: Counts) {
    Counts(
      states := t.n, priorAuthorizations := t.prior, earlierReopens := t.earlier, approvalReplays := t.approval,
      responseReplays := t.response, laterOpens := t.later, authorizationCompromise := t.compromise,
      excludedDirect := if mode != WitnessedOnly then t.n else 0,
      excludedThreshold := if mode == WitnessedOnly && bad >= z.witnessThreshold then t.n else 0,
      applicable := if Applicable(z, mode, bad) then t.n else 0,
      counterexamples := 0)
  }

  function Both(s: Tally, t: Tally): (r: Tally) {
    Tally(s.n + t.n, s.prior + t.prior, s.earlier + t.earlier, s.approval + t.approval, s.response + t.response,
          s.later + t.later, s.compromise + t.compromise)
  }

  const EMPTY := Tally(0, 0, 0, 0, 0, 0, 0)

  lemma SpreadBoth(z: Sizes, mode: Mode, bad: nat, s: Tally, t: Tally)
    ensures Plus(Spread(z, mode, bad, s), Spread(z, mode, bad, t)) == Spread(z, mode, bad, Both(s, t))
    ensures Spread(z, mode, bad, EMPTY) == NONE
  {
  }

  lemma Adds(s: Tally, t: Tally, sum: Tally)
    requires s.n + t.n == sum.n && s.prior + t.prior == sum.prior && s.earlier + t.earlier == sum.earlier
    requires s.approval + t.approval == sum.approval && s.response + t.response == sum.response
    requires s.later + t.later == sum.later && s.compromise + t.compromise == sum.compromise
    ensures Both(s, t) == sum
  {
  }

  /** The quorum of a current request depends on the approvals given and forged. */
  lemma QuorumReaches(z: Sizes, a: Attempt)
    requires a.badApprovers <= z.approvers
    ensures FreshQuorum(z, a) <==>
      a.request == Current && Reaches(z.approvers, z.approverThreshold, a.badApprovers, a.approvals)
  {
  }

  predicate Stale(z: Sizes, request: Request) { request != Current && z.approverThreshold == 0 }

  predicate Forging(z: Sizes, a: Attempt) {
    Applicable(z, a.mode, a.badWitnesses) && a.badApprovers >= z.approverThreshold
  }

  predicate Reached(z: Sizes, a: Attempt) {
    Reaches(z.witnesses, z.witnessThreshold, a.badWitnesses, a.contributions)
  }

  function When(b: bool, n: nat): (r: nat) { if b then n else 0 }

  /** What decides a quorum, a forgery and a reached threshold. */
  lemma SameChoices(z: Sizes, a: Attempt, b: Attempt)
    requires a.request == b.request && a.approvals == b.approvals && a.badApprovers == b.badApprovers
    requires a.mode == b.mode && a.badWitnesses == b.badWitnesses
    ensures FreshQuorum(z, a) == FreshQuorum(z, b) && Forging(z, a) == Forging(z, b)
    ensures a.contributions == b.contributions ==> Reached(z, a) == Reached(z, b)
  {
  }

  function Single(z: Sizes, a: Attempt): (t: Tally) {
    var quorum := FreshQuorum(z, a);
    Tally(1, When(a.replayApprovals && Stale(z, a.request), 1), When(a.retained, 1), When(a.replayApprovals, 1),
          When(a.replayResponse, 1), When(quorum && ((a.direct && a.mode != WitnessedOnly) || Reached(z, a)), 1),
          When(Forging(z, a) && quorum, 1))
  }

  lemma OneIs(z: Sizes, a: Attempt)
    ensures One(z, a) == Spread(z, a.mode, a.badWitnesses, Single(z, a))
  {
    if Applicable(z, a.mode, a.badWitnesses) { NoOpenWithoutQuorum(z, a); }
  }

  /** Openings over both values of the direct attempt, given a quorum. */
  function Gain(z: Sizes, a: Attempt): (g: nat) {
    When(Reached(z, a), 1) + if a.mode == WitnessedOnly then When(Reached(z, a), 1) else 1
  }

  /** Both direct attempts. */
  function PerResponse(z: Sizes, a: Attempt): (t: Tally) {
    Tally(2, When(a.replayApprovals && Stale(z, a.request), 2), When(a.retained, 2), When(a.replayApprovals, 2),
          When(a.replayResponse, 2), When(FreshQuorum(z, a), Gain(z, a)), When(Forging(z, a) && FreshQuorum(z, a), 2))
  }

  lemma DirectTwo(z: Sizes, a: Attempt)
    ensures OverDirect(z, a, 2) == Plus(One(z, a.(direct := false)), One(z, a.(direct := true)))
  {
    hide One, Plus;
    assert BOTH[0] == false && BOTH[1] == true;
    assert OverDirect(z, a, 1) == Plus(OverDirect(z, a, 0), One(z, a.(direct := false)));
    PlusLaws(One(z, a.(direct := false)), NONE, NONE);
  }

  lemma DirectIs(z: Sizes, a: Attempt)
    ensures OverDirect(z, a, 2) == Spread(z, a.mode, a.badWitnesses, PerResponse(z, a))
  {
    hide One, Plus, Spread, Single, PerResponse, OverDirect;
    var f, t := a.(direct := false), a.(direct := true);
    DirectTwo(z, a);
    OneIs(z, f);
    OneIs(z, t);
    SpreadBoth(z, a.mode, a.badWitnesses, Single(z, f), Single(z, t));
    assert Both(Single(z, f), Single(z, t)) == PerResponse(z, a) by { SinglesAdd(z, a); }
  }

  lemma SinglesAdd(z: Sizes, a: Attempt)
    ensures Both(Single(z, a.(direct := false)), Single(z, a.(direct := true))) == PerResponse(z, a)
  {
    hide FreshQuorum, Reached, Forging, Stale, Both;
    var f, t := a.(direct := false), a.(direct := true);
    SameChoices(z, a, f);
    SameChoices(z, a, t);
    Adds(Single(z, f), Single(z, t), PerResponse(z, a));
  }

  /** Both replays of a response. */
  function PerContribution(z: Sizes, a: Attempt): (t: Tally) {
    Tally(4, When(a.replayApprovals && Stale(z, a.request), 4), When(a.retained, 4), When(a.replayApprovals, 4), 2,
          When(FreshQuorum(z, a), 2 * Gain(z, a)), When(Forging(z, a) && FreshQuorum(z, a), 4))
  }

  lemma ResponsesTwo(z: Sizes, a: Attempt)
    ensures OverResponses(z, a, 2) ==
      Plus(OverDirect(z, a.(replayResponse := false), 2), OverDirect(z, a.(replayResponse := true), 2))
  {
    hide OverDirect, Plus;
    assert BOTH[0] == false && BOTH[1] == true;
    assert OverResponses(z, a, 1) == Plus(OverResponses(z, a, 0), OverDirect(z, a.(replayResponse := false), 2));
    PlusLaws(OverDirect(z, a.(replayResponse := false), 2), NONE, NONE);
  }

  lemma ResponsesIs(z: Sizes, a: Attempt)
    ensures OverResponses(z, a, 2) == Spread(z, a.mode, a.badWitnesses, PerContribution(z, a))
  {
    hide OverResponses, OverDirect, Plus, Spread, PerResponse, PerContribution;
    var f, t := a.(replayResponse := false), a.(replayResponse := true);
    ResponsesTwo(z, a);
    DirectIs(z, f);
    DirectIs(z, t);
    SpreadBoth(z, a.mode, a.badWitnesses, PerResponse(z, f), PerResponse(z, t));
    assert Both(PerResponse(z, f), PerResponse(z, t)) == PerContribution(z, a) by { ResponsesAdd(z, a); }
  }

  lemma ResponsesAdd(z: Sizes, a: Attempt)
    ensures Both(PerResponse(z, a.(replayResponse := false)), PerResponse(z, a.(replayResponse := true)))
         == PerContribution(z, a)
  {
    hide FreshQuorum, Reached, Forging, Stale, Both;
    var f, t := a.(replayResponse := false), a.(replayResponse := true);
    SameChoices(z, a, f);
    SameChoices(z, a, t);
    Adds(PerResponse(z, f), PerResponse(z, t), PerContribution(z, a));
  }

  /** Openings over the first `m` numbers of contributions, given a quorum. */
  function Gains(z: Sizes, mode: Mode, bad: nat, m: nat): (g: nat) {
    var w := Row(z.witnesses, z.witnessThreshold, bad, m);
    w + if mode == WitnessedOnly then w else m
  }

  /** The first `m` numbers of contributions. */
  function PerReplay(z: Sizes, a: Attempt, m: nat): (t: Tally) {
    Tally(4 * m, When(a.replayApprovals && Stale(z, a.request), 4 * m), When(a.retained, 4 * m),
          When(a.replayApprovals, 4 * m), 2 * m, When(FreshQuorum(z, a), 2 * Gains(z, a.mode, a.badWitnesses, m)),
          When(Forging(z, a) && FreshQuorum(z, a), 4 * m))
  }

  lemma {:induction false} ContributionsIs(z: Sizes, a: Attempt, m: nat)
    ensures OverContributions(z, a, m) == Spread(z, a.mode, a.badWitnesses, PerReplay(z, a, m))
  {
    hide OverResponses, Plus, Spread;
    SpreadBoth(z, a.mode, a.badWitnesses, EMPTY, EMPTY);
    if m == 0 {
      assert PerReplay(z, a, 0) == EMPTY;
    } else {
      var last := a.(contributions := m - 1);
      ContributionsIs(z, a, m - 1);
      ResponsesIs(z, last);
      SpreadBoth(z, a.mode, a.badWitnesses, PerReplay(z, a, m - 1), PerContribution(z, last));
      assert Both(PerReplay(z, a, m - 1), PerContribution(z, last)) == PerReplay(z, a, m);
    }
  }

  /** Both replays of old approvals, over every number of contributions. */
  function PerApproval(z: Sizes, a: Attempt): (t: Tally) {
    var n := z.witnesses + 1;
    Tally(8 * n, When(Stale(z, a.request), 4 * n), When(a.retained, 8 * n), 4 * n, 4 * n,
          When(FreshQuorum(z, a), 4 * Gains(z, a.mode, a.badWitnesses, n)),
          When(Forging(z, a) && FreshQuorum(z, a), 8 * n))
  }

  lemma ReplaysIs(z: Sizes, a: Attempt)
    ensures OverReplays(z, a, 2) == Spread(z, a.mode, a.badWitnesses, PerApproval(z, a))
  {
    hide OverContributions, Plus, Spread, Gains;
    var f, t, n := a.(replayApprovals := false), a.(replayApprovals := true), z.witnesses + 1;
    assert BOTH[0] == false && BOTH[1] == true;
    assert OverReplays(z, a, 1) == Plus(OverReplays(z, a, 0), OverContributions(z, f, n));
    PlusLaws(OverContributions(z, f, n), NONE, NONE);
    ContributionsIs(z, f, n);
    ContributionsIs(z, t, n);
    SpreadBoth(z, a.mode, a.badWitnesses, PerReplay(z, f, n), PerReplay(z, t, n));
    assert Both(PerReplay(z, f, n), PerReplay(z, t, n)) == PerApproval(z, a);
  }

  function Prod(x: nat, y: nat): (p: nat) { x * y }

  lemma OneMore(n: nat, k: nat)
    ensures n * (k + 1) == n * k + n
  {
  }

  /** The first `m` numbers of approvals, at one request. */
  function PerRequest(z: Sizes, a: Attempt, m: nat): (t: Tally) {
    var n := z.witnesses + 1;
    var gains, quorums := Gains(z, a.mode, a.badWitnesses, n), Row(z.approvers, z.approverThreshold, a.badApprovers, m);
    Tally(8 * n * m, When(Stale(z, a.request), 4 * n * m), When(a.retained, 8 * n * m), 4 * n * m, 4 * n * m,
          When(a.request == Current, 4 * gains * quorums), When(a.request == Current && Forging(z, a), 8 * n * quorums))
  }

  lemma ApprovalAdds(z: Sizes, a: Attempt, m: nat)
    requires a.badApprovers <= z.approvers
    ensures Both(PerRequest(z, a, m), PerApproval(z, a.(approvals := m))) == PerRequest(z, a, m + 1)
  {
    hide FreshQuorum, Forging, Stale, Both, Gains;
    var last, n := a.(approvals := m), z.witnesses + 1;
    var gains, quorums := Gains(z, a.mode, a.badWitnesses, n), Row(z.approvers, z.approverThreshold, a.badApprovers, m);
    QuorumReaches(z, last);
    SameForging(z, a, last);
    OneMore(8 * n, m);
    OneMore(4 * n, m);
    OneMore(4 * gains, quorums);
    OneMore(8 * n, quorums);
    Adds(PerRequest(z, a, m), PerApproval(z, last), PerRequest(z, a, m + 1));
  }

  lemma SameForging(z: Sizes, a: Attempt, b: Attempt)
    requires a.mode == b.mode && a.badWitnesses == b.badWitnesses && a.badApprovers == b.badApprovers
    ensures Forging(z, a) == Forging(z, b)
  {
  }

  lemma {:induction false} ApprovalsIs(z: Sizes, a: Attempt, m: nat)
    requires a.badApprovers <= z.approvers
    ensures OverApprovals(z, a, m) == Spread(z, a.mode, a.badWitnesses, PerRequest(z, a, m))
  {
    hide OverReplays, Plus, Spread, PerRequest, PerApproval;
    SpreadBoth(z, a.mode, a.badWitnesses, EMPTY, EMPTY);
    if m == 0 {
      assert PerRequest(z, a, 0) == EMPTY by { NoRequest(z, a); }
    } else {
      ApprovalsIs(z, a, m - 1);
      ReplaysIs(z, a.(approvals := m - 1));
      SpreadBoth(z, a.mode, a.badWitnesses, PerRequest(z, a, m - 1), PerApproval(z, a.(approvals := m - 1)));
      ApprovalAdds(z, a, m - 1);
    }
  }

  lemma NoRequest(z: Sizes, a: Attempt)
    ensures PerRequest(z, a, 0) == EMPTY
  {
  }

  /** All three requests, over every number of approvals. */
  function PerSecret(z: Sizes, a: Attempt): (t: Tally) {
    var n, c := z.witnesses + 1, (z.witnesses + 1) * (z.approvers + 1);
    var gains, quorums :=
      Gains(z, a.mode, a.badWitnesses, n), Row(z.approvers, z.approverThreshold, a.badApprovers, z.approvers + 1);
    Tally(24 * c, When(z.approverThreshold == 0, 8 * c), When(a.retained, 24 * c), 12 * c, 12 * c,
          4 * gains * quorums, When(Forging(z, a), 8 * n * quorums))
  }

  /** The first two requests: one stale, one current. */
  function TwoRequests(z: Sizes, a: Attempt): (t: Tally) {
    var c := (z.witnesses + 1) * (z.approvers + 1);
    PerSecret(z, a).(n := 16 * c, prior := When(z.approverThreshold == 0, 4 * c), earlier := When(a.retained, 16 * c),
                     approval := 8 * c, response := 8 * c)
  }

  /** One request over every number of approvals. */
  function OneRequest(z: Sizes, a: Attempt): (t: Tally) {
    var c := (z.witnesses + 1) * (z.approvers + 1);
    PerSecret(z, a).(n := 8 * c, prior := When(Stale(z, a.request), 4 * c), earlier := When(a.retained, 8 * c),
                     approval := 4 * c, response := 4 * c,
                     later := When(a.request == Current, PerSecret(z, a).later),
                     compromise := When(a.request == Current, PerSecret(z, a).compromise))
  }

  lemma OneRequestIs(z: Sizes, a: Attempt)
    ensures PerRequest(z, a, z.approvers + 1) == OneRequest(z, a)
  {
    hide Forging, Gains, Row, Stale;
    var n, m := z.witnesses + 1, z.approvers + 1;
    assert 8 * n * m == 8 * (n * m) && 4 * n * m == 4 * (n * m);
  }

  lemma SameSecret(z: Sizes, a: Attempt, request: Request)
    ensures PerSecret(z, a.(request := request)) == PerSecret(z, a)
  {
    hide Forging, Gains, Row;
    SameForging(z, a, a.(request := request));
  }

  lemma RequestsAdd(z: Sizes, a: Attempt)
    ensures var m := z.approvers + 1;
      Both(Both(PerRequest(z, a.(request := Absent), m), PerRequest(z, a.(request := Current), m)),
           PerRequest(z, a.(request := WrongSeal), m)) == PerSecret(z, a)
  {
    hide Both, PerRequest, OneRequest, TwoRequests, PerSecret;
    OneRequestIs(z, a.(request := Absent));
    OneRequestIs(z, a.(request := Current));
    OneRequestIs(z, a.(request := WrongSeal));
    TwoAdd(z, a);
    ThirdAdds(z, a);
  }

  lemma TwoAdd(z: Sizes, a: Attempt)
    ensures Both(OneRequest(z, a.(request := Absent)), OneRequest(z, a.(request := Current))) == TwoRequests(z, a)
  {
    hide Both, PerSecret;
    SameSecret(z, a, Absent);
    SameSecret(z, a, Current);
    Adds(OneRequest(z, a.(request := Absent)), OneRequest(z, a.(request := Current)), TwoRequests(z, a));
  }

  lemma ThirdAdds(z: Sizes, a: Attempt)
    ensures Both(TwoRequests(z, a), OneRequest(z, a.(request := WrongSeal))) == PerSecret(z, a)
  {
    hide Both, Forging, Gains, Row;
    SameSecret(z, a, WrongSeal);
    Adds(TwoRequests(z, a), OneRequest(z, a.(request := WrongSeal)), PerSecret(z, a));
  }

  lemma RequestsIs(z: Sizes, a: Attempt)
    requires a.badApprovers <= z.approvers
    ensures OverRequests(z, a, 3) == Spread(z, a.mode, a.badWitnesses, PerSecret(z, a))
  {
    hide OverApprovals, Plus, Spread, PerRequest, PerSecret, Both;
    var x, y, w, m := a.(request := Absent), a.(request := Current), a.(request := WrongSeal), z.approvers + 1;
    RequestsThree(z, a);
    ApprovalsIs(z, x, m);
    ApprovalsIs(z, y, m);
    ApprovalsIs(z, w, m);
    var s, t, u := PerRequest(z, x, m), PerRequest(z, y, m), PerRequest(z, w, m);
    SpreadBoth(z, a.mode, a.badWitnesses, s, t);
    SpreadBoth(z, a.mode, a.badWitnesses, Both(s, t), u);
    RequestsAdd(z, a);
  }

  lemma RequestsThree(z: Sizes, a: Attempt)
    ensures var m := z.approvers + 1;
      OverRequests(z, a, 3) ==
        Plus(Plus(OverApprovals(z, a.(request := Absent), m), OverApprovals(z, a.(request := Current), m)),
             OverApprovals(z, a.(request := WrongSeal), m))
  {
    hide OverApprovals, Plus;
    var m := z.approvers + 1;
    assert REQUESTS[0] == Absent && REQUESTS[1] == Current && REQUESTS[2] == WrongSeal;
    assert OverRequests(z, a, 1) == Plus(OverRequests(z, a, 0), OverApprovals(z, a.(request := Absent), m));
    assert OverRequests(z, a, 2) == Plus(OverRequests(z, a, 1), OverApprovals(z, a.(request := Current), m));
    PlusLaws(OverApprovals(z, a.(request := Absent), m), NONE, NONE);
  }

  /** Both choices of a retained secret. */
  function PerBadApprover(z: Sizes, a: Attempt): (t: Tally) {
    var n, c := z.witnesses + 1, (z.witnesses + 1) * (z.approvers + 1);
    var gains, quorums :=
      Gains(z, a.mode, a.badWitnesses, n), Row(z.approvers, z.approverThreshold, a.badApprovers, z.approvers + 1);
    Tally(48 * c, When(z.approverThreshold == 0, 16 * c), 24 * c, 24 * c, 24 * c,
          8 * gains * quorums, When(Forging(z, a), 16 * n * quorums))
  }

  lemma RetainedIs(z: Sizes, a: Attempt)
    requires a.badApprovers <= z.approvers
    ensures OverRetained(z, a, 2) == Spread(z, a.mode, a.badWitnesses, PerBadApprover(z, a))
  {
    hide OverRetained, OverRequests, Plus, Spread, Both, PerSecret, PerBadApprover;
    var f, t := a.(retained := false), a.(retained := true);
    RetainedTwo(z, a);
    RequestsIs(z, f);
    RequestsIs(z, t);
    SpreadBoth(z, a.mode, a.badWitnesses, PerSecret(z, f), PerSecret(z, t));
    SecretsAdd(z, a);
  }

  lemma SecretsAdd(z: Sizes, a: Attempt)
    ensures Both(PerSecret(z, a.(retained := false)), PerSecret(z, a.(retained := true))) == PerBadApprover(z, a)
  {
    hide Forging, Both, Gains, Row;
    var f, t := a.(retained := false), a.(retained := true);
    SameForging(z, a, f);
    SameForging(z, a, t);
    Adds(PerSecret(z, f), PerSecret(z, t), PerBadApprover(z, a));
  }

  lemma RetainedTwo(z: Sizes, a: Attempt)
    ensures OverRetained(z, a, 2) ==
      Plus(OverRequests(z, a.(retained := false), 3), OverRequests(z, a.(retained := true), 3))
  {
    hide OverRequests, Plus;
    assert BOTH[0] == false && BOTH[1] == true;
    assert OverRetained(z, a, 1) == Plus(OverRetained(z, a, 0), OverRequests(z, a.(retained := false), 3));
    PlusLaws(OverRequests(z, a.(retained := false), 3), NONE, NONE);
  }

  // ---- Compromised approvers ----

  /** Quorums over the first `b` numbers of compromised approvers that could have forged one. */
  function Forged(z: Sizes, b: nat): (r: nat) {
    if b == 0 then 0
    else Forged(z, b - 1)
         + When(b - 1 >= z.approverThreshold, Row(z.approvers, z.approverThreshold, b - 1, z.approvers + 1))
  }

  lemma {:induction false} ForgedIs(z: Sizes, b: nat)
    requires b <= z.approvers + 1
    ensures Forged(z, b) == if b <= z.approverThreshold then 0 else (z.approvers + 1) * (b - z.approverThreshold)
  {
    if b == 0 {
    } else {
      ForgedIs(z, b - 1);
      RowIs(z.approvers, z.approverThreshold, b - 1, z.approvers + 1);
      if b > z.approverThreshold { OneMore(z.approvers + 1, b - 1 - z.approverThreshold); }
    }
  }

  /** The first `b` numbers of compromised approvers. */
  function PerBadWitness(z: Sizes, mode: Mode, bad: nat, b: nat): (t: Tally) {
    var n, c := z.witnesses + 1, (z.witnesses + 1) * (z.approvers + 1);
    Tally(Prod(48 * c, b), When(z.approverThreshold == 0, Prod(16 * c, b)), Prod(24 * c, b), Prod(24 * c, b),
          Prod(24 * c, b), Prod(8 * Gains(z, mode, bad, n), Rows(z.approvers, z.approverThreshold, b)),
          When(Applicable(z, mode, bad), Prod(16 * n, Forged(z, b))))
  }

  lemma BadApproverAdds(z: Sizes, a: Attempt, b: nat)
    ensures Both(PerBadWitness(z, a.mode, a.badWitnesses, b), PerBadApprover(z, a.(badApprovers := b)))
         == PerBadWitness(z, a.mode, a.badWitnesses, b + 1)
  {
    hide Both, Gains, Row, Applicable;
    var n, c := z.witnesses + 1, (z.witnesses + 1) * (z.approvers + 1);
    var g, row := Gains(z, a.mode, a.badWitnesses, n), Row(z.approvers, z.approverThreshold, b, z.approvers + 1);
    OneMore(48 * c, b);
    OneMore(16 * c, b);
    OneMore(24 * c, b);
    Distribute(8 * g, Rows(z.approvers, z.approverThreshold, b), row);
    Distribute(16 * n, Forged(z, b), When(b >= z.approverThreshold, row));
    Adds(PerBadWitness(z, a.mode, a.badWitnesses, b), PerBadApprover(z, a.(badApprovers := b)),
         PerBadWitness(z, a.mode, a.badWitnesses, b + 1));
  }

  lemma Distribute(k: nat, x: nat, y: nat)
    ensures k * (x + y) == k * x + k * y
  {
  }

  lemma {:induction false} BadApproversIs(z: Sizes, a: Attempt, b: nat)
    requires b <= z.approvers + 1
    ensures OverBadApprovers(z, a, b) == Spread(z, a.mode, a.badWitnesses, PerBadWitness(z, a.mode, a.badWitnesses, b))
  {
    hide OverRetained, Plus, Spread, Both, PerBadWitness, PerBadApprover;
    SpreadBoth(z, a.mode, a.badWitnesses, EMPTY, EMPTY);
    if b == 0 {
      assert PerBadWitness(z, a.mode, a.badWitnesses, 0) == EMPTY by { NoBadApprover(z, a.mode, a.badWitnesses); }
    } else {
      BadApproversIs(z, a, b - 1);
      RetainedIs(z, a.(badApprovers := b - 1));
      SpreadBoth(z, a.mode, a.badWitnesses,
                 PerBadWitness(z, a.mode, a.badWitnesses, b - 1), PerBadApprover(z, a.(badApprovers := b - 1)));
      BadApproverAdds(z, a, b - 1);
    }
  }

  lemma NoBadApprover(z: Sizes, mode: Mode, bad: nat)
    ensures PerBadWitness(z, mode, bad, 0) == EMPTY
  {
  }

  // ---- Compromised witnesses ----

  /** The states of one mode and number of compromised witnesses, and two products the other counters are made of. */
  function Column(z: Sizes): (n: nat) { 48 * ((z.witnesses + 1) * (z.approvers + 1)) * (z.approvers + 1) }

  function Quorums(z: Sizes): (n: nat) { Rows(z.approvers, z.approverThreshold, z.approvers + 1) }

  function Forgeries(z: Sizes): (n: nat) { 16 * (z.witnesses + 1) * Forged(z, z.approvers + 1) }

  /** The first `w` numbers of compromised witnesses in one mode, below the threshold or not. */
  function PerMode(z: Sizes, mode: Mode, w: nat): (r: Counts) {
    var n, below := Column(z), Min(z.witnessThreshold, w);
    var rows := Rows(z.witnesses, z.witnessThreshold, w);
    Counts(
      states := Prod(n, w),
      priorAuthorizations := When(z.approverThreshold == 0, Prod(n / 3, w)),
      earlierReopens := Prod(n / 2, w), approvalReplays := Prod(n / 2, w), responseReplays := Prod(n / 2, w),
      laterOpens := Prod(8 * Quorums(z), rows + if mode == WitnessedOnly then rows else Prod(z.witnesses + 1, w)),
      excludedDirect := if mode == WitnessedOnly then 0 else Prod(n, w),
      excludedThreshold := if mode == WitnessedOnly then Prod(n, w - below) else 0,
      applicable := if mode == WitnessedOnly then Prod(n, below) else 0,
      authorizationCompromise := if mode == WitnessedOnly then Prod(Forgeries(z), below) else 0,
      counterexamples := 0)
  }

  /** All numbers of compromised approvers. */
  function PerWitness(z: Sizes, mode: Mode, bad: nat): (t: Tally) {
    var n := Column(z);
    Tally(n, When(z.approverThreshold == 0, n / 3), n / 2, n / 2, n / 2,
          8 * Quorums(z) * Gains(z, mode, bad, z.witnesses + 1), When(Applicable(z, mode, bad), Forgeries(z)))
  }

  lemma ColumnTally(z: Sizes, mode: Mode, bad: nat)
    ensures PerBadWitness(z, mode, bad, z.approvers + 1) == PerWitness(z, mode, bad)
  {
    hide Gains, Rows, Forged, Applicable;
    var c, m := (z.witnesses + 1) * (z.approvers + 1), z.approvers + 1;
    var g, q := Gains(z, mode, bad, z.witnesses + 1), Quorums(z);
    assert 48 * c * m == 48 * (c * m) && 24 * c * m == 24 * (c * m) && 16 * c * m == 16 * (c * m);
    assert 8 * g * q == 8 * q * g;
  }

  lemma WitnessAdds(z: Sizes, mode: Mode, w: nat)
    ensures Plus(PerMode(z, mode, w), Spread(z, mode, w, PerWitness(z, mode, w))) == PerMode(z, mode, w + 1)
  {
    hide Row, Column, Quorums, Forgeries;
    var n, q, width := Column(z), 8 * Quorums(z), z.witnesses + 1;
    var row := Row(z.witnesses, z.witnessThreshold, w, width);
    var rows := Rows(z.witnesses, z.witnessThreshold, w);
    OneMore(n, w);
    OneMore(n / 3, w);
    OneMore(n / 2, w);
    OneMore(width, w);
    OneMore(n, Min(z.witnessThreshold, w));
    OneMore(n, w - Min(z.witnessThreshold, w));
    OneMore(Forgeries(z), Min(z.witnessThreshold, w));
    Distribute(q, rows + rows, row + row);
    Distribute(q, rows + width * w, row + width);
  }

  lemma {:induction false} BadWitnessesIs(z: Sizes, a: Attempt, w: nat)
    requires w <= z.witnesses + 1
    ensures OverBadWitnesses(z, a, w) == PerMode(z, a.mode, w)
  {
    hide OverBadApprovers, Plus, Spread, PerMode, PerWitness, PerBadWitness;
    if w == 0 {
      NoBadWitness(z, a.mode);
    } else {
      BadWitnessesIs(z, a, w - 1);
      BadApproversIs(z, a.(badWitnesses := w - 1), z.approvers + 1);
      ColumnTally(z, a.mode, w - 1);
      WitnessAdds(z, a.mode, w - 1);
    }
  }

  lemma NoBadWitness(z: Sizes, mode: Mode)
    ensures PerMode(z, mode, 0) == NONE
  {
  }

  // ---- All modes ----

  lemma ModesThree(z: Sizes)
    ensures var w := z.witnesses + 1;
      Total(z) == Plus(Plus(PerMode(z, WitnessedOnly, w), PerMode(z, Mixed, w)), PerMode(z, DirectOnly, w))
  {
    hide OverBadWitnesses, Plus, PerMode;
    var w := z.witnesses + 1;
    assert MODES[0] == WitnessedOnly && MODES[1] == Mixed && MODES[2] == DirectOnly;
    assert OverModes(z, START, 1) ==
           Plus(OverModes(z, START, 0), OverBadWitnesses(z, START.(mode := WitnessedOnly), w));
    assert OverModes(z, START, 2) == Plus(OverModes(z, START, 1), OverBadWitnesses(z, START.(mode := Mixed), w));
    BadWitnessesIs(z, START.(mode := WitnessedOnly), w);
    BadWitnessesIs(z, START.(mode := Mixed), w);
    BadWitnessesIs(z, START.(mode := DirectOnly), w);
    PlusLaws(PerMode(z, WitnessedOnly, w), NONE, NONE);
  }

  /** The eleven counters. Each combination is counted once and falls in exactly one of three classes. There is no
      counterexample, and an authorization by a prior state only if no approval is required at all. */
  predicate CountsAre(z: Sizes, r: Counts) {
    var w, m := z.witnesses + 1, z.approvers + 1;
    && r.states == 144 * (w * w) * (m * m)
    && r.counterexamples == 0
    && r.priorAuthorizations == (if z.approverThreshold == 0 then r.states / 3 else 0)
    && r.applicable + r.excludedThreshold + r.excludedDirect == r.states
    && r.excludedDirect == 96 * (w * w) * (m * m)
    && r.applicable == 48 * w * (m * m) * Min(z.witnessThreshold, w)
    && 2 * r.earlierReopens == 2 * r.approvalReplays == 2 * r.responseReplays == r.states
    && r.laterOpens ==
         16 * Pairs(z.approvers, z.approverThreshold) * (w * w + 2 * Pairs(z.witnesses, z.witnessThreshold))
    && r.authorizationCompromise ==
         (if z.approverThreshold > z.approvers then 0
          else 16 * w * (m * (m - z.approverThreshold)) * Min(z.witnessThreshold, w))
  }

  /** The enumeration has these counters at every size. */
  lemma TotalIs(z: Sizes)
    ensures CountsAre(z, Total(z))
  {
    hide Total, Pairs, Forged, Column;
    TotalParts(z);
    ColumnProducts(z);
    var below := Min(z.witnessThreshold, z.witnesses + 1);
    Distribute(Column(z), below, z.witnesses + 1 - below);
    PairsCounted(z.approvers, z.approverThreshold);
    PairsCounted(z.witnesses, z.witnessThreshold);
    OpenProducts(Quorums(z), Rows(z.witnesses, z.witnessThreshold, z.witnesses + 1), z.witnesses + 1);
    ForgedIs(z, z.approvers + 1);
  }

  /** The counters as the three modes leave them. */
  lemma TotalParts(z: Sizes)
    ensures var r, n, w, below := Total(z), Column(z), z.witnesses + 1, Min(z.witnessThreshold, z.witnesses + 1);
      var rows := Rows(z.witnesses, z.witnessThreshold, w);
      && r.states == 3 * Prod(n, w) && r.excludedDirect == 2 * Prod(n, w)
      && r.applicable == Prod(n, below) && r.excludedThreshold == Prod(n, w - below) && r.counterexamples == 0
      && r.priorAuthorizations == 3 * When(z.approverThreshold == 0, Prod(n / 3, w))
      && r.earlierReopens == r.approvalReplays == r.responseReplays == 3 * Prod(n / 2, w)
      && r.laterOpens == Prod(8 * Quorums(z), rows + rows) + 2 * Prod(8 * Quorums(z), rows + Prod(w, w))
      && r.authorizationCompromise == Prod(Forgeries(z), below)
  {
    hide Total, Column, Quorums, Forgeries, Rows, Min;
    ModesThree(z);
  }

  lemma ColumnProducts(z: Sizes)
    ensures var n, w, m := Column(z), z.witnesses + 1, z.approvers + 1;
      && 3 * (n * w) == 144 * (w * w) * (m * m) && 2 * (n * w) == 96 * (w * w) * (m * m)
      && n == 48 * w * (m * m) && 3 * (n / 3 * w) == n * w && 2 * (n / 2 * w) == n * w
  {
    var w, m := z.witnesses + 1, z.approvers + 1;
    var square := m * m;
    ColumnIs(z, w * square);
    Squares(w, square, w * square);
  }

  lemma ColumnIs(z: Sizes, k: nat)
    requires k == (z.witnesses + 1) * ((z.approvers + 1) * (z.approvers + 1))
    ensures Column(z) == 48 * k && Column(z) / 3 == 16 * k && Column(z) / 2 == 24 * k
  {
    var w, m := z.witnesses + 1, z.approvers + 1;
    assert w * m * m == w * (m * m);
  }

  lemma Squares(w: nat, square: nat, k: nat)
    requires k == w * square
    ensures 48 * k == 48 * w * square
    ensures 3 * (48 * k * w) == 144 * (w * w) * square && 2 * (48 * k * w) == 96 * (w * w) * square
    ensures 3 * (16 * k * w) == 48 * k * w && 2 * (24 * k * w) == 48 * k * w
  {
    var kw := k * w;
    assert kw == w * w * square;
    assert 48 * k * w == 48 * kw && 16 * k * w == 16 * kw && 24 * k * w == 24 * kw;
  }

  lemma OpenProducts(q: nat, rows: nat, w: nat)
    ensures 8 * q * (rows + rows) + 2 * (8 * q * (rows + w * w)) == 16 * q * (w * w + 2 * rows)
  {
  }

  /** The ten nested loops end with these counters at every size. */
  method ModelCounts(z: Sizes) returns (r: Counts)
    ensures CountsAre(z, r)
  {
    hide Total, CountsAre;
    r := Enumerate(z);
    TotalIs(z);
  }

  /** At the sizes the repository enumerates, these are the counts it records. */
  lemma RecordedCounts(z: Sizes, r: Counts)
    requires CountsAre(z, r) && z == Sizes(3, 2, 2, 2)
    ensures r == Counts(
      states := 20736, applicable := 3456, earlierReopens := 10368, approvalReplays := 10368, responseReplays := 10368,
      priorAuthorizations := 0, laterOpens := 4032, excludedDirect := 13824, excludedThreshold := 3456,
      authorizationCompromise := 384, counterexamples := 0)
  {
  }
}
