/** Publishing a candidate to two stores: the witness database and an external anchor. */
module SplitWrite {
  // ---- The recovery table ----

  datatype Database = AtBase | Advanced | OtherDatabase
  datatype External = HoldsBase | HoldsCandidate | OtherExternal
  datatype PendingView = NoPending | ExactCandidate | PublishedCandidate | OtherPending
  datatype Action = ServeBase | RepeatCasReadback | MarkPublished | ServeStableOutput | AnchorConflict

  function Recovery(database: Database, external: External, pending: PendingView, escaped: bool): (r: Action) {
    match (database, external, pending, escaped)
    case (AtBase, HoldsBase, NoPending, false) => ServeBase
    case (Advanced, HoldsBase, ExactCandidate, false) => RepeatCasReadback
    case (Advanced, HoldsCandidate, ExactCandidate, false) => MarkPublished
    case (Advanced, HoldsCandidate, PublishedCandidate, true) => ServeStableOutput
    case _ => AnchorConflict
  }

  // ---- The system the table is for ----

  /** A generation is known by its position and its value. */
  type Value = nat
  type History = seq<Value>

  datatype Progress = Idle | Candidate | Published

  /** A compare-and-swap on its way to the anchor: it moves `expected` to `expected + [value]`. */
  datatype Swap = Swap(expected: History, value: Value)

  /** `committed` and `progress` are the database, `anchor` is the external store, `flying` the swaps that may still
      arrive, any number of times, and `released` the outputs that escaped. */
  datatype System = System(
    committed: History, progress: Progress, anchor: History, flying: set<Swap>, released: History)

  /** What recovery looks at. */
  datatype Facts = Facts(database: Database, external: External, pending: PendingView, escaped: bool)

  /** How a database snapshot looks next to the anchor and the outputs. */
  function Seen(committed: History, progress: Progress, anchor: History, released: History): (r: Facts) {
    if progress == Idle then
      Facts(AtBase, if anchor == committed then HoldsBase else OtherExternal, NoPending, |released| > |committed|)
    else
      var pending := if progress == Candidate then ExactCandidate else PublishedCandidate;
      if committed == [] then Facts(OtherDatabase, OtherExternal, pending, released != [])
      else
        var base := committed[..|committed| - 1];
        Facts(Advanced,
              if anchor == base then HoldsBase else if anchor == committed then HoldsCandidate else OtherExternal,
              pending, |released| > |base|)
  }

  function View(committed: History, progress: Progress, anchor: History, released: History): (r: Action) {
    var f := Seen(committed, progress, anchor, released);
    Recovery(f.database, f.external, f.pending, f.escaped)
  }

  function ActionOf(s: System): (r: Action) { View(s.committed, s.progress, s.anchor, s.released) }

  datatype Step =
    | Commit(value: Value)        // the database moves to the next generation with its candidate
    | Send                        // issue the swap the table asks for
    | Arrive(swap: Swap)          // a swap reaches the anchor
    | Publish                     // mark published and release the output
    | Crash(kept: set<Swap>)      // everything volatile is lost; some swaps stay in flight

  predicate Enabled(s: System, step: Step) {
    match step
    case Commit(_) => ActionOf(s) == ServeBase || ActionOf(s) == ServeStableOutput
    case Send => ActionOf(s) == RepeatCasReadback
    case Arrive(swap) => swap in s.flying
    case Publish => ActionOf(s) == MarkPublished
    case Crash(kept) => kept <= s.flying
  }

  function Next(s: System, step: Step): (r: System)
    requires Enabled(s, step)
  {
    match step
    case Commit(value) => s.(committed := s.committed + [value], progress := Candidate)
    case Send =>
      var n := |s.committed| - 1;
      s.(flying := s.flying + {Swap(s.committed[..n], s.committed[n])})
    case Arrive(swap) => if s.anchor == swap.expected then s.(anchor := s.anchor + [swap.value]) else s
    case Publish => s.(progress := Published, released := s.released + [s.committed[|s.committed| - 1]])
    case Crash(kept) => s.(flying := kept)
  }

  ghost predicate Run(s: System, steps: seq<Step>, t: System)
    decreases |steps|
  {
    if steps == [] then s == t else Enabled(s, steps[0]) && Run(Next(s, steps[0]), steps[1..], t)
  }

  /** Both stores agree on some base generation and nothing is pending. */
  function Agreed(base: History): (r: System) { System(base, Idle, base, {}, base) }

  // ---- What every run keeps ----

  predicate Prefix(a: History, b: History) { |a| <= |b| && a == b[..|a|] }

  /** The anchor is at most one generation behind the database, and the outputs never ahead of either. */
  ghost predicate Inv(s: System) {
    && (forall w :: w in s.flying ==> Prefix(w.expected + [w.value], s.committed))
    && Prefix(s.released, s.committed)
    && match s.progress
       case Idle => s.anchor == s.committed == s.released
       case Candidate =>
         && s.committed != []
         && (s.anchor == s.committed || s.anchor == s.committed[..|s.committed| - 1])
         && |s.released| == |s.committed| - 1
       case Published => s.committed != [] && s.anchor == s.committed && s.released == s.committed
  }

  lemma ActionUnderInv(s: System)
    requires Inv(s)
    ensures ActionOf(s) ==
      match s.progress
      case Idle => ServeBase
      case Candidate => if s.anchor == s.committed then MarkPublished else RepeatCasReadback
      case Published => ServeStableOutput
  {
  }

  lemma Whole(h: History)
    requires h != []
    ensures h[..|h| - 1] + [h[|h| - 1]] == h
  {
  }

  lemma CommitKeeps(s: System, v: Value)
    requires Inv(s) && Enabled(s, Commit(v))
    ensures Inv(Next(s, Commit(v)))
  {
    hide ActionOf;
    ActionUnderInv(s);
    var t := Next(s, Commit(v));
    assert t.committed[..|t.committed| - 1] == s.committed;
    forall w | w in t.flying ensures Prefix(w.expected + [w.value], t.committed) {
      assert Prefix(w.expected + [w.value], s.committed);
    }
  }

  lemma SendKeeps(s: System)
    requires Inv(s) && Enabled(s, Send)
    ensures Inv(Next(s, Send))
  {
    hide ActionOf;
    ActionUnderInv(s);
    Whole(s.committed);
  }

  /** A swap that still finds what it expects carries the one pending candidate, however late it arrives. */
  lemma ArriveKeeps(s: System, w: Swap)
    requires Inv(s) && w in s.flying
    ensures var t := Next(s, Arrive(w)); Inv(t) && Prefix(s.anchor, t.anchor)
  {
    if s.anchor == w.expected {
      var longer := w.expected + [w.value];
      assert Prefix(longer, s.committed);
      assert |longer| == |w.expected| + 1;
      assert longer == s.committed;
    }
  }

  lemma PublishKeeps(s: System)
    requires Inv(s) && Enabled(s, Publish)
    ensures var t := Next(s, Publish); Inv(t) && Prefix(s.released, t.released) && t.anchor == t.committed == t.released
  {
    hide ActionOf;
    ActionUnderInv(s);
    Whole(s.committed);
  }

  lemma StepKeeps(s: System, step: Step)
    requires Inv(s) && Enabled(s, step)
    ensures var t := Next(s, step); Inv(t) && Prefix(s.anchor, t.anchor) && Prefix(s.released, t.released)
    ensures var t := Next(s, step); t.released != s.released ==> t.anchor == t.committed == t.released
  {
    hide ActionOf;
    match step
    case Commit(v) => CommitKeeps(s, v);
    case Send => SendKeeps(s);
    case Arrive(w) => ArriveKeeps(s, w);
    case Publish => PublishKeeps(s);
    case Crash(_) =>
  }

  lemma PrefixTrans(a: History, b: History, c: History)
    requires Prefix(a, b) && Prefix(b, c)
    ensures Prefix(a, c)
  {
  }

  lemma {:induction false} RunKeeps(s: System, steps: seq<Step>, t: System)
    requires Inv(s) && Run(s, steps, t)
    ensures Inv(t) && Prefix(s.anchor, t.anchor) && Prefix(s.released, t.released)
    decreases |steps|
  {
    hide Inv;
    if steps == [] {
    } else {
      StepKeeps(s, steps[0]);
      var n := Next(s, steps[0]);
      RunKeeps(n, steps[1..], t);
      PrefixTrans(s.anchor, n.anchor, t.anchor);
      PrefixTrans(s.released, n.released, t.released);
    }
  }

  /** No interleaving of commits, delayed or repeated swaps, crashes and recoveries reaches an anchor conflict. Every
      output was anchored as the exact candidate of its generation, and neither store nor output is ever rewritten. */
  lemma NeverConflicts(base: History, steps: seq<Step>, t: System)
    requires Run(Agreed(base), steps, t)
    ensures ActionOf(t) != AnchorConflict
    ensures Prefix(t.released, t.anchor) && Prefix(t.anchor, t.committed)
    ensures forall more, u :: Run(t, more, u) ==> Prefix(t.released, u.released) && Prefix(t.anchor, u.anchor)
  {
    hide ActionOf, Run;
    RunKeeps(Agreed(base), steps, t);
    ActionUnderInv(t);
    forall more, u | Run(t, more, u) ensures Prefix(t.released, u.released) && Prefix(t.anchor, u.anchor) {
      RunKeeps(t, more, u);
    }
  }

  /** What recovery does: the action the table names, until it names a serving state. */
  function RecoverySteps(s: System): (r: seq<Step>) {
    match ActionOf(s)
    case RepeatCasReadback =>
      var n := |s.committed| - 1;
      if n < 0 then [] else [Send, Arrive(Swap(s.committed[..n], s.committed[n])), Publish]
    case MarkPublished => [Publish]
    case _ => []
  }

  /** From any reachable state recovery needs one swap and one publication at most. A committed candidate ends as stable
      output, and without one the base is served unchanged. */
  lemma RecoveryCompletes(s: System) returns (t: System)
    requires Inv(s)
    ensures |RecoverySteps(s)| <= 3 && Run(s, RecoverySteps(s), t)
    ensures t.committed == s.committed
    ensures ActionOf(t) == if s.progress == Idle then ServeBase else ServeStableOutput
    ensures s.progress != Idle ==> t.anchor == t.released == s.committed
  {
    hide ActionOf, Run;
    ActionUnderInv(s);
    t := s;
    if ActionOf(s) == RepeatCasReadback {
      var n := |s.committed| - 1;
      var w := Swap(s.committed[..n], s.committed[n]);
      Whole(s.committed);
      StepKeeps(s, Send);
      var a := Next(s, Send);
      StepKeeps(a, Arrive(w));
      var b := Next(a, Arrive(w));
      ActionUnderInv(b);
      RunThree(s, w);
      StepKeeps(b, Publish);
      t := Next(b, Publish);
    } else if ActionOf(s) == MarkPublished {
      StepKeeps(s, Publish);
      t := Next(s, Publish);
      RunOne(s, Publish);
    } else {
      RunNone(s);
    }
    ActionUnderInv(t);
  }

  lemma RunNone(s: System)
    ensures Run(s, [], s)
  {
  }

  lemma RunOne(s: System, step: Step)
    requires Enabled(s, step)
    ensures Run(s, [step], Next(s, step))
  {
    assert [step][1..] == [];
  }

  lemma {:induction false} RunOn(s: System, steps: seq<Step>, t: System, step: Step)
    requires Run(s, steps, t) && Enabled(t, step)
    ensures Run(s, steps + [step], Next(t, step))
    decreases |steps|
  {
    hide Enabled, Next;
    if steps == [] {
      assert steps + [step] == [step] && [step][1..] == [];
      assert Run(Next(t, step), [], Next(t, step));
    } else {
      RunOn(Next(s, steps[0]), steps[1..], t, step);
      assert (steps + [step])[0] == steps[0] && (steps + [step])[1..] == steps[1..] + [step];
    }
  }

  lemma RunThree(s: System, w: Swap)
    requires Enabled(s, Send)
    requires Enabled(Next(s, Send), Arrive(w))
    requires Enabled(Next(Next(s, Send), Arrive(w)), Publish)
    ensures Run(s, [Send, Arrive(w), Publish], Next(Next(Next(s, Send), Arrive(w)), Publish))
  {
    hide Enabled, Next;
    var a := Next(s, Send);
    var b := Next(a, Arrive(w));
    var c := Next(b, Publish);
    assert Run(c, [], c);
    assert Run(b, [Publish], c) by { assert [Publish][1..] == []; }
    assert Run(a, [Arrive(w), Publish], c) by { assert [Arrive(w), Publish][1..] == [Publish]; }
    assert [Send, Arrive(w), Publish][1..] == [Arrive(w), Publish];
  }

  /** A database restored from before the anchored generation is always recognised, whatever it claims is pending. */
  lemma RollbackDetected(s: System, committed: History, progress: Progress)
    requires |committed| < |s.anchor|
    ensures View(committed, progress, s.anchor, s.released) == AnchorConflict
  {
  }

  // ---- The table is for exactly the states that arise ----

  /** Some run from agreement reaches a state that looks like this. */
  ghost predicate Arises(f: Facts) {
    exists base, steps, t :: Run(Agreed(base), steps, t) && Seen(t.committed, t.progress, t.anchor, t.released) == f
  }

  lemma Shown(base: History, steps: seq<Step>, t: System)
    requires Run(Agreed(base), steps, t)
    ensures Arises(Seen(t.committed, t.progress, t.anchor, t.released))
  {
  }

  /** One generation from agreement to stable output. */
  lemma Generation(base: History, v: Value) returns (a: System, b: System, c: System, d: System)
    ensures var w := Swap(base, v);
      && Run(Agreed(base), [Commit(v)], a)
      && Run(Agreed(base), [Commit(v)] + [Send], b)
      && Run(Agreed(base), [Commit(v)] + [Send] + [Arrive(w)], c)
      && Run(Agreed(base), [Commit(v)] + [Send] + [Arrive(w)] + [Publish], d)
    ensures a == System(base + [v], Candidate, base, {}, base)
    ensures c == System(base + [v], Candidate, base + [v], {Swap(base, v)}, base)
    ensures d == System(base + [v], Published, base + [v], {Swap(base, v)}, base + [v])
  {
    hide Run, ActionOf;
    var s, w := Agreed(base), Swap(base, v);
    ActionUnderInv(s);
    RunOne(s, Commit(v));
    a := Next(s, Commit(v));
    assert a.committed[..|a.committed| - 1] == base;
    ActionUnderInv(a);
    RunOn(s, [Commit(v)], a, Send);
    b := Next(a, Send);
    assert b.flying == {w};
    RunOn(s, [Commit(v)] + [Send], b, Arrive(w));
    c := Next(b, Arrive(w));
    ActionUnderInv(c);
    RunOn(s, [Commit(v)] + [Send] + [Arrive(w)], c, Publish);
    d := Next(c, Publish);
  }

  lemma RowsArise(base: History, v: Value)
    ensures Arises(Facts(AtBase, HoldsBase, NoPending, false))
    ensures Arises(Facts(Advanced, HoldsBase, ExactCandidate, false))
    ensures Arises(Facts(Advanced, HoldsCandidate, ExactCandidate, false))
    ensures Arises(Facts(Advanced, HoldsCandidate, PublishedCandidate, true))
  {
    hide Run, Arises;
    var a, b, c, d := Generation(base, v);
    RunNone(Agreed(base));
    Shown(base, [], Agreed(base));
    assert (base + [v])[..|base|] == base;
    Shown(base, [Commit(v)], a);
    Shown(base, [Commit(v)] + [Send] + [Arrive(Swap(base, v))], c);
    Shown(base, [Commit(v)] + [Send] + [Arrive(Swap(base, v))] + [Publish], d);
  }

  /** The table names an action exactly for what some run reaches, which is four combinations, and reports a conflict
      for every other: output before its anchor, an advance without a candidate, several candidates, another anchor. */
  lemma TableExactly(f: Facts)
    ensures Recovery(f.database, f.external, f.pending, f.escaped) != AnchorConflict <==> Arises(f)
    ensures Arises(f) <==>
      || (f.database == AtBase && f.external == HoldsBase && f.pending == NoPending && !f.escaped)
      || (f.database == Advanced && f.pending == ExactCandidate && f.external != OtherExternal && !f.escaped)
      || (f.database == Advanced && f.pending == PublishedCandidate && f.external == HoldsCandidate && f.escaped)
  {
    if Arises(f) {
      var base, steps, t :|
        Run(Agreed(base), steps, t) && Seen(t.committed, t.progress, t.anchor, t.released) == f;
      NeverConflicts(base, steps, t);
    } else {
      RowsArise([], 0);
    }
  }
}
