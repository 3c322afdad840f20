/** What each local-state operation writes, field by field, and when it is refused. */
module LocalStateEffects {
  import opened Common
  import opened LocalState

  // ----- events -----

  /** The event says what its draft said. */
  predicate Records(e: Event, d: Draft) {
    && e.body.policySequence == d.policySequence && e.body.operationId == d.operationId
    && e.body.action == d.action && e.body.outcome == d.outcome
    && e.body.item == d.item && e.link == d.link
  }

  predicate Named(item: Option<ItemScope>) { item.Some? && item.value.name.Some? }

  /** Which items and witness links go with which action. */
  predicate FitsAction(action: Action, item: Option<ItemScope>, link: Option<WitnessLink>) {
    && (link.Some? ==> action in {WitnessRequest, Verification} && item.Some? && !Named(item))
    && (action == ItemRead ==> item.Some?)
    && (action == WitnessRequest ==> link.Some?)
    && (action == Verification && item.Some? ==> link.Some?)
  }

  predicate LinkFits(link: Option<WitnessLink>, operationId: Digest) {
    link.Some? ==>
      && link.value.request != ZeroDigest && link.value.policyHash != ZeroDigest
      && link.value.decision != Some(ZeroDigest) && link.value.receipt != Some(ZeroDigest)
      && operationId == OfLink(link.value)
  }

  /** A later event is well shaped exactly when its parts fit its action. */
  lemma ShapeExactly(e: Event)
    requires e.body.action != VaultCreateOrImport
    ensures ShapeOk(e) <==>
      && e.body.version == 1 && e.sequence != 0 && e.body.operationId != ZeroDigest
      && (Named(e.body.item) ==> 1 <= |e.body.item.value.name.value| <= 256)
      && FitsAction(e.body.action, e.body.item, e.link)
      && LinkFits(e.link, e.body.operationId)
  {
  }

  /** The first event creates the vault's state and stands alone. */
  lemma FirstShapeExactly(e: Event)
    requires e.body.action == VaultCreateOrImport
    ensures ShapeOk(e) <==>
      && e.body.version == 1 && e.sequence == 1 && e.body.operationId != ZeroDigest
      && e.body.outcome == Success && e.body.item == None && e.link == None && e.body.previous == ZeroMac
  {
  }

  predicate Draftable(s: State, d: Draft) {
    && |s.audit| < 524288 && d.timestamp != 0 && d.operationId != ZeroDigest && d.action != VaultCreateOrImport
    && (Named(d.item) ==> 1 <= |d.item.value.name.value| <= 256)
    && FitsAction(d.action, d.item, d.link) && LinkFits(d.link, d.operationId)
  }

  lemma DraftExactly(ctx: Context, s: State, d: Draft)
    requires s.audit != []
    ensures DraftOk(ctx.scope, ctx.auditKey, s.audit, d) <==> Draftable(s, d)
  {
    hide ShapeOk;
    if d.action != VaultCreateOrImport { ShapeExactly(NextEvent(ctx.scope, ctx.auditKey, s.audit, d)); }
  }

  /** Appending succeeds exactly for a fitting draft and a clock that is not behind. It adds one event that records the
      draft, follows the last one and is authentic, and points the checkpoint at it. */
  lemma AppendRecords(ctx: Context, s: State, d: Draft, fits: bool)
    requires Consistent(ctx, s)
    ensures var (t, error) := Appended(ctx, s, d, fits);
      && (error.None? <==> Draftable(s, d) && fits && d.timestamp >= s.checkpoint.body.updatedAt)
      && (error == Some(CapacityExhausted) <==> Draftable(s, d) && !fits)
      && (error.None? ==>
            && |t.audit| == |s.audit| + 1 && t.audit[..|s.audit|] == s.audit
            && var e := t.audit[|s.audit|];
            && Records(e, d)
            && e.sequence == |s.audit| + 1 && e.body.version == 1 && e.body.scope == ctx.scope
            && e.body.previous == s.audit[|s.audit| - 1].mac && e.mac == EventMac(ctx.auditKey, e.body)
            && t.checkpoint.body == s.checkpoint.body.(latestMac := e.mac, updatedAt := d.timestamp)
            && t.receipts == s.receipts && t.tail == 0)
  {
    hide ShapeOk, Draftable, DraftOk;
    ConsistentInScope(ctx, s);
    DraftExactly(ctx, s, d);
    if DraftOk(ctx.scope, ctx.auditKey, s.audit, d) && fits {
      var longer := s.(audit := s.audit + [NextEvent(ctx.scope, ctx.auditKey, s.audit, d)]);
      AppendKeepsLog(ctx.scope, ctx.auditKey, s.audit, d);
      RecordedEffect(ctx, longer, d.timestamp);
    }
  }

  function Drafts(ops: seq<Op>): (ds: seq<Draft>)
    ensures |ds| == AppendCount(ops)
  {
    if ops == [] then [] else (if ops[0].Append? then [ops[0].draft] else []) + Drafts(ops[1..])
  }

  /** The events a successful run adds are its drafts in order. */
  lemma {:induction false} RunRecords(ctx: Context, s: State, ops: seq<Op>)
    requires Consistent(ctx, s) && Run(ctx, s, ops).Some?
    ensures var t, ds := Run(ctx, s, ops).value, Drafts(ops);
      && |t.audit| == |s.audit| + |ds| && t.audit[..|s.audit|] == s.audit
      && forall k :: 0 <= k < |ds| ==> Records(t.audit[|s.audit| + k], ds[k])
    decreases |ops|
  {
    hide Consistent, Records, Step, Appended;
    if ops == [] {
    } else {
      var u, rest := Step(ctx, s, ops[0]).0, Drafts(ops[1..]);
      StepAdvances(ctx, s, ops[0]);
      RunRecords(ctx, u, ops[1..]);
      var t, ds := Run(ctx, s, ops).value, Drafts(ops);
      if ops[0].Append? {
        StepOfAppend(ctx, s, ops[0]);
        AppendRecords(ctx, s, ops[0].draft, ops[0].fits);
        assert t.audit[|s.audit|] == t.audit[..|u.audit|][|s.audit|] == u.audit[|s.audit|];
        forall k | 0 <= k < |ds| ensures Records(t.audit[|s.audit| + k], ds[k]) {
          if k > 0 { assert ds[k] == rest[k - 1] && t.audit[|s.audit| + k] == t.audit[|u.audit| + (k - 1)]; }
        }
      } else {
        OtherKeepsLog(ctx, s, ops[0]);
      }
      assert t.audit[..|s.audit|] == t.audit[..|u.audit|][..|s.audit|];
    }
  }

  lemma OtherKeepsLog(ctx: Context, s: State, op: Op)
    requires Consistent(ctx, s) && !op.Append?
    ensures Step(ctx, s, op).0.audit == s.audit
  {
    LaggingByNone(ctx, s);
    var next := OtherAny(ctx, s, 0, op);
  }

  // ----- the accepted public state -----

  /** How public state relates to the accepted hash: it ends with it, contains it earlier, or has left it. */
  lemma RelationExactly(c: Candidate, b: CheckpointBody)
    requires c.history != []
    ensures var r, ours := RelationTo(c, b), c.vaultId == b.scope.vaultId && c.genesis == b.scope.genesis;
      && (r == Ok(Equal) <==> ours && c.history[|c.history| - 1] == b.accepted)
      && (r == Ok(StrictDescendant) <==> ours && exists k :: 0 <= k < |c.history| - 1 && c.history[k] == b.accepted
                                                            && c.history[|c.history| - 1] != b.accepted)
      && r.Ok?
  {
  }

  /** Accepting a strict descendant moves the checkpoint to its last hash, exactly when the clock is not behind.
      Accepting the same state changes nothing, and nothing else is accepted. */
  lemma CandidateExactly(ctx: Context, s: State, c: Candidate, timestamp: nat)
    requires Consistent(ctx, s)
    ensures var (t, r) := CandidateAccepted(ctx, s, c, timestamp);
      var accepted, ours := s.checkpoint.body.accepted,
        c.vaultId == ctx.scope.vaultId && c.genesis == ctx.scope.genesis && ctx.scope.principalId in c.principals
        && c.history != [] && ZeroDigest !in c.history;
      && (r == Err(ScopeMismatch) <==> !ours)
      && (r == Ok(Equal) <==> ours && c.history[|c.history| - 1] == accepted)
      && (r == Ok(StrictDescendant) <==>
            ours && accepted in c.history && c.history[|c.history| - 1] != accepted
            && timestamp >= s.checkpoint.body.updatedAt)
      && (r == Err(CheckpointDiverged) <==> ours && accepted !in c.history)
      && (r != Ok(StrictDescendant) ==> t == s)
      && (r == Ok(StrictDescendant) ==>
            && t.audit == s.audit && t.receipts == s.receipts && t.tail == s.tail
            && t.checkpoint.body ==
                 s.checkpoint.body.(accepted := c.history[|c.history| - 1], updatedAt := timestamp))
  {
    hide ValidLog, ReceiptsOk;
    ConsistentInScope(ctx, s);
  }

  /** Along a run that ends by accepting a strict descendant, the accepted state is that candidate's last hash. */
  lemma AcceptanceMoves(ctx: Context, s: State, ops: seq<Op>, c: Candidate, timestamp: nat)
    requires Consistent(ctx, s) && Run(ctx, s, ops).Some?
    requires CandidateAccepted(ctx, Run(ctx, s, ops).value, c, timestamp).1.Ok?
    ensures c.history != []
    ensures CandidateAccepted(ctx, Run(ctx, s, ops).value, c, timestamp).0.checkpoint.body.accepted
         == c.history[|c.history| - 1]
  {
    hide Consistent, Run;
    RunAdvances(ctx, s, ops);
    CandidateExactly(ctx, Run(ctx, s, ops).value, c, timestamp);
  }

  // ----- initialization -----

  /** A new state holds one event that names the accepted public state, a checkpoint at it and no receipt. */
  lemma InitialFields(ctx: Context, c: Candidate, timestamp: nat)
    requires Initialized(ctx, c, timestamp).Ok?
    ensures c.history != []
    ensures var s := Initialized(ctx, c, timestamp).value; var last := c.history[|c.history| - 1];
      && |s.audit| == 1 && s.tail == 0
      && var e := s.audit[0];
      && e.sequence == 1 && e.body.action == VaultCreateOrImport && e.body.outcome == Success
      && e.body.policySequence == |c.history| - 1 && e.body.operationId == OfGenesis(ctx.scope, last, timestamp)
      && e.body.item == None && e.link == None && e.body.previous == ZeroMac && e.body.scope == ctx.scope
      && s.checkpoint.body.accepted == last && s.checkpoint.body.updatedAt == timestamp
      && s.checkpoint.body.latestMac == e.mac && s.checkpoint.body.genesisDigest == e.body.operationId
      && s.checkpoint.body.scope == ctx.scope
      && s.receipts.latest == Latest(None, None, None, None)
  {
  }

  // ----- receipts -----

  predicate WellFilled(r: Receipt) {
    r.timestamp > 0 && ZeroDigest !in {r.id, r.captured, r.output} && r.covered
  }

  predicate After(prior: Option<Receipt>, r: Receipt) { prior.None? || prior.value.timestamp <= r.timestamp }

  /** Transfers and backups are recorded exactly when they capture the accepted public state. */
  lemma CaptureExactly(ctx: Context, s: State, r: Receipt)
    requires Consistent(ctx, s)
    ensures var (t, e) := ReceiptRecorded(ctx, s, TransferReceipt(r)); var l := s.receipts.latest;
      && (e.None? <==> r.captured == s.checkpoint.body.accepted && WellFilled(r) && After(l.transfer, r))
      && t.receipts.latest == (if e.None? then Latest(Some(r), l.backup, l.verification, l.drill) else l)
    ensures var (t, e) := ReceiptRecorded(ctx, s, BackupReceipt(r)); var l := s.receipts.latest;
      && (e.None? <==> r.captured == s.checkpoint.body.accepted && WellFilled(r) && After(l.backup, r))
      && t.receipts.latest == (if e.None? then Latest(l.transfer, Some(r), l.verification, l.drill) else l)
  {
    hide ValidLog;
    ConsistentInScope(ctx, s);
  }

  /** Verifications and drills are recorded exactly when they are about the latest backup. */
  lemma BackupUseExactly(ctx: Context, s: State, r: Receipt)
    requires Consistent(ctx, s)
    ensures var (t, e) := ReceiptRecorded(ctx, s, VerificationReceipt(r)); var l := s.receipts.latest;
      && (e.None? <==>
            && l.backup.Some? && r.id == l.backup.value.id && r.captured == l.backup.value.captured
            && r.output == l.backup.value.output && WellFilled(r) && After(l.verification, r))
      && t.receipts.latest == (if e.None? then Latest(l.transfer, l.backup, Some(r), l.drill) else l)
    ensures var (t, e) := ReceiptRecorded(ctx, s, DrillReceipt(r)); var l := s.receipts.latest;
      && (e.None? <==>
            && l.backup.Some? && r.id == l.backup.value.id && r.captured == l.backup.value.captured
            && WellFilled(r) && After(l.drill, r))
      && t.receipts.latest == (if e.None? then Latest(l.transfer, l.backup, l.verification, Some(r)) else l)
  {
    hide ValidLog;
    ConsistentInScope(ctx, s);
  }

  // ----- what a refused file is refused for -----

  predicate Formed(b: CheckpointBody) {
    && b.version == 1 && b.updatedAt > 0 && b.latestMac != ZeroMac
    && b.accepted != ZeroDigest && b.genesisDigest != ZeroDigest
  }

  predicate Filled(r: Option<Receipt>) { r.Some? ==> WellFilled(r.value) }

  /** A chain of events of this scope, each made out of the MAC of the one before, from the creation of the vault on. */
  ghost predicate Chain(ctx: Context, log: seq<Event>) {
    && 1 <= |log| <= MAX_AUDIT_EVENTS
    && log[0].body.previous == ZeroMac && log[0].body.action == VaultCreateOrImport
    && (forall i :: 0 <= i < |log| ==>
          && log[i].sequence == i + 1 && log[i].body.scope == ctx.scope && ShapeOk(log[i])
          && log[i].mac == EventMac(ctx.auditKey, log[i].body))
    && (forall i, j :: 0 <= i < |log| && j == i + 1 < |log| ==> log[j].body.previous == log[i].mac)
  }

  lemma FirstShape(e: Event)
    requires ShapeOk(e) && e.body.action == VaultCreateOrImport
    ensures e.body.outcome == Success
  {
  }

  lemma ChainExactly(ctx: Context, log: seq<Event>)
    ensures ValidLog(ctx.scope, ctx.auditKey, log) <==> Chain(ctx, log)
  {
    hide WitnessShapeOk, ActionShapeOk;
    if ValidLog(ctx.scope, ctx.auditKey, log) {
      forall i | 0 <= i < |log|
        ensures log[i].sequence == i + 1 && log[i].body.scope == ctx.scope && ShapeOk(log[i])
        ensures log[i].mac == EventMac(ctx.auditKey, log[i].body)
      {
        assert EventOk(ctx.scope, ctx.auditKey, log, i);
      }
      assert EventOk(ctx.scope, ctx.auditKey, log, 0);
      forall i, j | 0 <= i < |log| && j == i + 1 < |log| ensures log[j].body.previous == log[i].mac {
        assert EventOk(ctx.scope, ctx.auditKey, log, j);
      }
    }
    if Chain(ctx, log) {
      forall i | 0 <= i < |log| ensures EventOk(ctx.scope, ctx.auditKey, log, i) {
        if i > 0 {
          var k := i - 1;
          assert log[i].body.previous == log[k].mac;
        }
      }
      FirstShape(log[0]);
    }
  }

  /** The first thing wrong with the three files decides the error, and files with nothing wrong are taken as they
      are. */
  lemma FilesRefused(ctx: Context, log: seq<Event>, checkpoint: Checkpoint, receipts: Receipts)
    ensures VerifiedFiles(ctx, None, Some(checkpoint), Some(receipts)) == Err(IncompleteState)
    ensures VerifiedFiles(ctx, Some(log), None, Some(receipts)) == Err(IncompleteState)
    ensures VerifiedFiles(ctx, Some(log), Some(checkpoint), None) == Err(IncompleteState)
    ensures var r := VerifiedFiles(ctx, Some(log), Some(checkpoint), Some(receipts));
      var b, l := checkpoint.body, receipts.latest;
      var filled := Filled(l.transfer) && Filled(l.backup) && Filled(l.verification) && Filled(l.drill);
      if log == [] then r == Err(InvalidFormat)
      else if !Chain(ctx, log) then r == Err(AuditTampered)
      else if !Formed(b) then r == Err(InvalidFormat)
      else if b.scope != ctx.scope then r == Err(ScopeMismatch)
      else if checkpoint.seal != Seal(ctx.checkpointKey, b) then r == Err(AuthenticationFailed)
      else if !filled then r == Err(InvalidFormat)
      else if receipts.scope != ctx.scope then r == Err(ScopeMismatch)
      else if receipts.seal != Seal(ctx.receiptsKey, (receipts.scope, l)) then r == Err(AuthenticationFailed)
      else if log[0].body.operationId != b.genesisDigest then r == Err(AuditTampered)
      else if forall i :: 0 <= i < |log| ==> log[i].mac != b.latestMac then r == Err(AuditTampered)
      else r.Ok? && r.value.audit == log && r.value.checkpoint == checkpoint && r.value.receipts == receipts
           && r.value.tail < |log| && log[|log| - 1 - r.value.tail].mac == b.latestMac
  {
    hide ValidLog, Chain;
    ChainExactly(ctx, log);
  }
}
