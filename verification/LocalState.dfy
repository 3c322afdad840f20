/**
 Principal-local audit log, rollback checkpoint and their crash recovery.

 Digests and MACs are ideal: a MAC is its key and its preimage, a digest is its
 preimage. The preimage of an event MAC leaves out the sequence number and the
 witness link, as the frozen format does.
 */
module LocalState {
  import opened Common
  import Canonical

  type Key = nat

  const MAX_AUDIT_EVENTS := 524_288
  const MAX_PERMITTED_ITEM_NAME_BYTES := 256

  datatype Scope = Scope(vaultId: nat, genesis: Digest, principalId: nat)

  datatype Digest =
    | ZeroDigest
    | Plain(id: nat)
    | OfLink(link: WitnessLink)
    | OfGenesis(scope: Scope, accepted: Digest, updatedAt: nat)

  datatype WitnessLink = WitnessLink(
    request: Digest,
    decision: Option<Digest>,
    receipt: Option<Digest>,
    policyHash: Digest,
    sealId: nat
  )

  datatype Action =
    | VaultCreateOrImport | IdentityAction | PolicyMutation | ItemMutation | ItemRead | Transfer
    | Backup | Restore | ExecuteOrInject | WitnessRequest | Verification | PrivacyCover

  datatype FailureStage =
    | PublicSyntax | Authorization | PrivateAuthentication | Execution | Mutation | DurableCommit

  datatype Outcome = Success | Denied | Cancelled | Failed(stage: FailureStage)

  datatype ItemScope = ItemScope(itemId: nat, name: Option<Canonical.Bytes>)

  datatype Mac = ZeroMac | EventMac(key: Key, body: EventBody)

  /** The fields under the event MAC. */
  datatype EventBody = EventBody(
    version: nat,
    scope: Scope,
    policySequence: nat,
    operationId: Digest,
    action: Action,
    item: Option<ItemScope>,
    outcome: Outcome,
    previous: Mac
  )

  datatype Event = Event(sequence: nat, body: EventBody, link: Option<WitnessLink>, mac: Mac)

  datatype Draft = Draft(
    timestamp: nat,
    operationId: Digest,
    policySequence: nat,
    action: Action,
    outcome: Outcome,
    item: Option<ItemScope>,
    link: Option<WitnessLink>
  )

  datatype CheckpointBody = CheckpointBody(
    version: nat,
    scope: Scope,
    accepted: Digest,
    latestMac: Mac,
    genesisDigest: Digest,
    updatedAt: nat
  )

  datatype Seal<T> = NoSeal | Seal(key: Key, contents: T)

  datatype Checkpoint = Checkpoint(body: CheckpointBody, seal: Seal<CheckpointBody>)

  /** One receipt: the transfer or backup it is for, the public revision captured, and the digest of what was written.
      `covered` says that a backup's coverage record is well formed; it is true of the other kinds. */
  datatype Receipt = Receipt(id: Digest, captured: Digest, timestamp: nat, output: Digest, covered: bool)

  datatype Latest = Latest(
    transfer: Option<Receipt>, backup: Option<Receipt>, verification: Option<Receipt>, drill: Option<Receipt>)

  datatype Receipts = Receipts(scope: Scope, latest: Latest, seal: Seal<(Scope, Latest)>)

  datatype ReceiptUpdate =
    | TransferReceipt(receipt: Receipt)
    | BackupReceipt(receipt: Receipt)
    | VerificationReceipt(receipt: Receipt)
    | DrillReceipt(receipt: Receipt)

  datatype Context = Context(scope: Scope, auditKey: Key, checkpointKey: Key, receiptsKey: Key)

  /** Public state already validated: the policy hashes in sequence order, genesis first. */
  datatype Candidate = Candidate(vaultId: nat, genesis: Digest, principals: set<nat>, history: seq<Digest>)

  datatype Relation = Equal | StrictDescendant | Divergent

  datatype Error =
    | InvalidFormat | ScopeMismatch | AuthenticationFailed | AuditTampered
    | CheckpointDiverged | IncompleteState | CapacityExhausted

  datatype Result<+T> = Ok(value: T) | Err(error: Error)

  /** The four fields of a verified local state. */
  datatype State = State(audit: seq<Event>, checkpoint: Checkpoint, receipts: Receipts, tail: nat)

  // ----- audit log -----

  predicate WitnessShapeOk(e: Event) {
    match e.link
    case None => true
    case Some(w) =>
      && w.request != ZeroDigest
      && w.policyHash != ZeroDigest
      && (w.decision.Some? ==> w.decision.value != ZeroDigest)
      && (w.receipt.Some? ==> w.receipt.value != ZeroDigest)
      && e.body.operationId == OfLink(w)
  }

  predicate ActionShapeOk(e: Event) {
    match e.body.action
    case VaultCreateOrImport =>
      && e.sequence == 1 && e.body.outcome.Success? && e.body.item.None? && e.link.None?
      && e.body.previous == ZeroMac
    case ItemRead => e.body.item.Some? && e.link.None?
    case WitnessRequest => e.link.Some? && e.body.item.Some? && e.body.item.value.name.None?
    case Verification =>
      || (e.body.item.None? && e.link.None?)
      || (e.link.Some? && e.body.item.Some? && e.body.item.value.name.None?)
    case _ => e.link.None?
  }

  predicate ShapeOk(e: Event) {
    && e.body.version == 1 && e.sequence != 0 && e.body.operationId != ZeroDigest
    && (e.body.item.Some? && e.body.item.value.name.Some? ==>
          1 <= |e.body.item.value.name.value| <= MAX_PERMITTED_ITEM_NAME_BYTES)
    && ActionShapeOk(e)
    && WitnessShapeOk(e)
  }

  function PreviousMac(log: seq<Event>, i: nat): (m: Mac)
    requires i <= |log|
  {
    if i == 0 then ZeroMac else log[i - 1].mac
  }

  /** Event i of a log is in its place, in scope, well shaped and authentic. */
  predicate EventOk(scope: Scope, key: Key, log: seq<Event>, i: nat)
    requires i < |log|
  {
    && log[i].sequence == i + 1
    && log[i].body.previous == PreviousMac(log, i)
    && log[i].body.scope == scope
    && ShapeOk(log[i])
    && log[i].mac == EventMac(key, log[i].body)
  }

  predicate ValidLog(scope: Scope, key: Key, log: seq<Event>) {
    && 1 <= |log| <= MAX_AUDIT_EVENTS
    && (forall i :: 0 <= i < |log| ==> EventOk(scope, key, log, i))
    && log[0].body.action == VaultCreateOrImport
    && log[0].body.outcome == Success
  }

  /** Parsing checks the events in order against the MAC of the one before. */
  method ParseLog(scope: Scope, key: Key, log: seq<Event>) returns (ok: bool)
    ensures ok <==> ValidLog(scope, key, log)
  {
    var previous := ZeroMac;
    for i := 0 to |log|
      invariant i <= MAX_AUDIT_EVENTS
      invariant previous == PreviousMac(log, i)
      invariant forall k :: 0 <= k < i ==> EventOk(scope, key, log, k)
    {
      var e := log[i];
      if i >= MAX_AUDIT_EVENTS || e.sequence != i + 1 || e.body.previous != previous
         || e.body.scope != scope || !ShapeOk(e) || e.mac != EventMac(key, e.body) {
        assert i < MAX_AUDIT_EVENTS ==> !EventOk(scope, key, log, i);
        return false;
      }
      previous := e.mac;
    }
    return log != [] && log[0].body.action == VaultCreateOrImport && log[0].body.outcome == Success;
  }

  /** The first position holding the given MAC. */
  function MacIndex(log: seq<Event>, mac: Mac): (r: Option<nat>)
    ensures r.Some? ==> r.value < |log| && log[r.value].mac == mac
    ensures r.Some? ==> forall k :: 0 <= k < r.value ==> log[k].mac != mac
    ensures r.None? ==> forall k :: 0 <= k < |log| ==> log[k].mac != mac
  {
    if log == [] then None
    else if log[0].mac == mac then Some(0)
    else
      match MacIndex(log[1..], mac)
      case None => None
      case Some(k) => Some(k + 1)
  }

  /** The event that appending a draft to a log would add. */
  function NextEvent(scope: Scope, key: Key, log: seq<Event>, d: Draft): (e: Event)
    requires log != []
  {
    var body := EventBody(1, scope, d.policySequence, d.operationId, d.action, d.item, d.outcome,
                          log[|log| - 1].mac);
    Event(|log| + 1, body, d.link, EventMac(key, body))
  }

  predicate DraftOk(scope: Scope, key: Key, log: seq<Event>, d: Draft)
    requires log != []
  {
    && |log| < MAX_AUDIT_EVENTS
    && d.timestamp != 0
    && d.operationId != ZeroDigest
    && d.action != VaultCreateOrImport
    && ShapeOk(NextEvent(scope, key, log, d))
  }

  // ----- checkpoint -----

  predicate CheckpointShapeOk(b: CheckpointBody) {
    b.version == 1 && b.updatedAt != 0 && b.accepted != ZeroDigest && b.latestMac != ZeroMac
    && b.genesisDigest != ZeroDigest
  }

  function Authenticated(b: CheckpointBody, key: Key): (c: Checkpoint) {
    Checkpoint(b, Seal(key, b))
  }

  predicate CandidateInScope(c: Candidate, scope: Scope) {
    && c.vaultId == scope.vaultId
    && c.genesis == scope.genesis
    && scope.principalId in c.principals
    && c.history != []
    && ZeroDigest !in c.history
  }

  /** How validated public state relates to the retained checkpoint. */
  function RelationTo(c: Candidate, b: CheckpointBody): (r: Result<Relation>) {
    if c.vaultId != b.scope.vaultId || c.genesis != b.scope.genesis then Ok(Divergent)
    else if c.history == [] then Err(InvalidFormat)
    else if c.history[|c.history| - 1] == b.accepted then Ok(Equal)
    else if b.accepted in c.history then Ok(StrictDescendant)
    else Ok(Divergent)
  }

  // ----- receipts -----

  predicate ReceiptOk(r: Receipt) {
    r.timestamp != 0 && r.id != ZeroDigest && r.captured != ZeroDigest && r.output != ZeroDigest && r.covered
  }

  predicate OptionalOk(r: Option<Receipt>) { r.Some? ==> ReceiptOk(r.value) }

  predicate LatestOk(l: Latest) {
    OptionalOk(l.transfer) && OptionalOk(l.backup) && OptionalOk(l.verification) && OptionalOk(l.drill)
  }

  /** Receipts that a context sealed itself. */
  predicate ReceiptsOk(ctx: Context, r: Receipts) {
    LatestOk(r.latest) && r.scope == ctx.scope && r.seal == Seal(ctx.receiptsKey, (r.scope, r.latest))
  }

  /** The receipt is about the accepted public state, or about the latest backup. */
  predicate UpdateMatches(s: State, u: ReceiptUpdate) {
    match u
    case TransferReceipt(r) => r.captured == s.checkpoint.body.accepted
    case BackupReceipt(r) => r.captured == s.checkpoint.body.accepted
    case VerificationReceipt(r) =>
      && s.receipts.latest.backup.Some?
      && var b := s.receipts.latest.backup.value; r.id == b.id && r.captured == b.captured && r.output == b.output
    case DrillReceipt(r) =>
      && s.receipts.latest.backup.Some?
      && var b := s.receipts.latest.backup.value; r.id == b.id && r.captured == b.captured
  }

  function Slot(l: Latest, u: ReceiptUpdate): (r: Option<Receipt>) {
    match u
    case TransferReceipt(_) => l.transfer
    case BackupReceipt(_) => l.backup
    case VerificationReceipt(_) => l.verification
    case DrillReceipt(_) => l.drill
  }

  function WithReceipt(l: Latest, u: ReceiptUpdate): (r: Latest) {
    match u
    case TransferReceipt(r) => l.(transfer := Some(r))
    case BackupReceipt(r) => l.(backup := Some(r))
    case VerificationReceipt(r) => l.(verification := Some(r))
    case DrillReceipt(r) => l.(drill := Some(r))
  }

  /** No receipt may be older than the latest of its kind. */
  predicate NotOlder(prior: Option<Receipt>, r: Receipt) {
    r.timestamp != 0 && (prior.Some? ==> prior.value.timestamp <= r.timestamp)
  }

  // ----- the operations, on values -----

  predicate StateInScope(ctx: Context, s: State) {
    && s.checkpoint.body.scope == ctx.scope
    && s.receipts.scope == ctx.scope
    && s.audit != []
    && s.audit[0].body.scope == ctx.scope
  }

  function SealedReceipts(ctx: Context, scope: Scope, l: Latest): (r: Receipts) {
    Receipts(scope, l, Seal(ctx.receiptsKey, (scope, l)))
  }

  function Initialized(ctx: Context, c: Candidate, timestamp: nat): (r: Result<State>) {
    if !CandidateInScope(c, ctx.scope) then Err(ScopeMismatch)
    else if timestamp == 0 then Err(InvalidFormat)
    else
      var accepted := c.history[|c.history| - 1];
      var genesis := OfGenesis(ctx.scope, accepted, timestamp);
      var body := EventBody(1, ctx.scope, |c.history| - 1, genesis, VaultCreateOrImport, None, Success, ZeroMac);
      var first := Event(1, body, None, EventMac(ctx.auditKey, body));
      var checkpoint := CheckpointBody(1, ctx.scope, accepted, first.mac, genesis, timestamp);
      Ok(State([first], Authenticated(checkpoint, ctx.checkpointKey),
               SealedReceipts(ctx, ctx.scope, Latest(None, None, None, None)), 0))
  }

  function VerifiedFiles(ctx: Context, audit: Option<seq<Event>>, checkpoint: Option<Checkpoint>,
                         receipts: Option<Receipts>): (r: Result<State>)
  {
    if audit.None? || checkpoint.None? || receipts.None? then Err(IncompleteState)
    else if audit.value == [] then Err(InvalidFormat)
    else if !ValidLog(ctx.scope, ctx.auditKey, audit.value) then Err(AuditTampered)
    else if !CheckpointShapeOk(checkpoint.value.body) then Err(InvalidFormat)
    else if checkpoint.value.body.scope != ctx.scope then Err(ScopeMismatch)
    else if checkpoint.value.seal != Seal(ctx.checkpointKey, checkpoint.value.body) then Err(AuthenticationFailed)
    else if !LatestOk(receipts.value.latest) then Err(InvalidFormat)
    else if receipts.value.scope != ctx.scope then Err(ScopeMismatch)
    else if receipts.value.seal != Seal(ctx.receiptsKey, (receipts.value.scope, receipts.value.latest)) then
      Err(AuthenticationFailed)
    else if audit.value[0].body.operationId != checkpoint.value.body.genesisDigest then Err(AuditTampered)
    else
      match MacIndex(audit.value, checkpoint.value.body.latestMac)
      case None => Err(AuditTampered)
      case Some(i) => Ok(State(audit.value, checkpoint.value, receipts.value, |audit.value| - (i + 1)))
  }

  /** Point the checkpoint at the end of the log, or refuse a clock that moved back. */
  function Recorded(ctx: Context, s: State, timestamp: nat): (r: (State, Option<Error>))
    requires s.audit != []
  {
    var mac := s.audit[|s.audit| - 1].mac;
    var b := s.checkpoint.body;
    if timestamp < b.updatedAt || mac == ZeroMac then (s, Some(InvalidFormat))
    else
      var next := b.(latestMac := mac, updatedAt := timestamp);
      if !CheckpointShapeOk(next) then (s.(checkpoint := s.checkpoint.(body := next)), Some(InvalidFormat))
      else (s.(checkpoint := Authenticated(next, ctx.checkpointKey), tail := 0), None)
  }

  /** fits stands for the encoded-size limits on one event and on the whole file. */
  function Appended(ctx: Context, s: State, d: Draft, fits: bool): (r: (State, Option<Error>)) {
    if !StateInScope(ctx, s) then (s, Some(ScopeMismatch))
    else if !DraftOk(ctx.scope, ctx.auditKey, s.audit, d) then (s, Some(InvalidFormat))
    else if !fits then (s, Some(CapacityExhausted))
    else Recorded(ctx, s.(audit := s.audit + [NextEvent(ctx.scope, ctx.auditKey, s.audit, d)]), d.timestamp)
  }

  function TailAccepted(ctx: Context, s: State, timestamp: nat): (r: (State, Option<Error>)) {
    if !StateInScope(ctx, s) then (s, Some(ScopeMismatch))
    else if s.tail == 0 then (s, None)
    else Recorded(ctx, s, timestamp)
  }

  function CandidateAccepted(ctx: Context, s: State, c: Candidate, timestamp: nat)
    : (r: (State, Result<Relation>))
  {
    if !StateInScope(ctx, s) then (s, Err(ScopeMismatch))
    else if !CandidateInScope(c, ctx.scope) then (s, Err(ScopeMismatch))
    else
      match RelationTo(c, s.checkpoint.body)
      case Err(e) => (s, Err(e))
      case Ok(Equal) => (s, Ok(Equal))
      case Ok(Divergent) => (s, Err(CheckpointDiverged))
      case Ok(StrictDescendant) =>
        if timestamp < s.checkpoint.body.updatedAt then (s, Err(InvalidFormat))
        else
          var next := s.checkpoint.body.(accepted := c.history[|c.history| - 1], updatedAt := timestamp);
          if !CheckpointShapeOk(next) then (s.(checkpoint := s.checkpoint.(body := next)), Err(InvalidFormat))
          else (s.(checkpoint := Authenticated(next, ctx.checkpointKey)), Ok(StrictDescendant))
  }

  /** Replaces the latest receipt of its kind and seals the receipts again. */
  function ReceiptRecorded(ctx: Context, s: State, u: ReceiptUpdate): (r: (State, Option<Error>)) {
    if !StateInScope(ctx, s) then (s, Some(ScopeMismatch))
    else if !UpdateMatches(s, u) || !NotOlder(Slot(s.receipts.latest, u), u.receipt) || !ReceiptOk(u.receipt) then
      (s, Some(InvalidFormat))
    else
      var next := WithReceipt(s.receipts.latest, u);
      if !LatestOk(next) then (s.(receipts := s.receipts.(latest := next)), Some(InvalidFormat))
      else (s.(receipts := SealedReceipts(ctx, s.receipts.scope, next)), None)
  }

  // ----- a MAC pins its whole history -----

  /** Position and shape fix the two fields that the event MAC does not cover. */
  lemma BodyPinsEvent(d: Event, e: Event)
    requires ShapeOk(d) && ShapeOk(e)
    requires d.body == e.body && d.mac == e.mac && d.sequence == e.sequence
    ensures d == e
  {}

  /** Only the first event follows no MAC. */
  lemma FirstHasNoPrevious(scope: Scope, key: Key, log: seq<Event>, i: nat)
    requires ValidLog(scope, key, log) && i < |log|
    ensures PreviousMac(log, i) == ZeroMac <==> i == 0
  {
    assert i > 0 ==> EventOk(scope, key, log, i - 1);
  }

  /** Two logs that hold one MAC hold it at the same place and agree up to there. */
  lemma {:induction false} MacPinsPrefix(scope: Scope, key: Key, a: seq<Event>, b: seq<Event>, i: nat, j: nat)
    requires ValidLog(scope, key, a) && ValidLog(scope, key, b)
    requires i < |a| && j < |b| && a[i].mac == b[j].mac
    ensures i == j && a[..i + 1] == b[..j + 1]
    decreases i
  {
    assert EventOk(scope, key, a, i) && EventOk(scope, key, b, j);
    FirstHasNoPrevious(scope, key, a, i);
    FirstHasNoPrevious(scope, key, b, j);
    if i != 0 {
      MacPinsPrefix(scope, key, a, b, i - 1, j - 1);
      assert a[..i + 1] == a[..i] + [a[i]] && b[..j + 1] == b[..j] + [b[j]];
    }
    BodyPinsEvent(a[i], b[j]);
  }

  /** No two events of one log share a MAC, so the index of a held MAC is its position. */
  lemma MacIndexIsPosition(scope: Scope, key: Key, log: seq<Event>, i: nat)
    requires ValidLog(scope, key, log) && i < |log|
    ensures MacIndex(log, log[i].mac) == Some(i)
  {
    var k := MacIndex(log, log[i].mac).value;
    MacPinsPrefix(scope, key, log, log, k, i);
  }

  // ----- consistency -----

  /** The checkpoint is authentic and points at the event after which tail events follow. */
  predicate Consistent(ctx: Context, s: State) {
    && ValidLog(ctx.scope, ctx.auditKey, s.audit)
    && CheckpointShapeOk(s.checkpoint.body)
    && s.checkpoint.body.scope == ctx.scope
    && s.checkpoint == Authenticated(s.checkpoint.body, ctx.checkpointKey)
    && ReceiptsOk(ctx, s.receipts)
    && s.audit[0].body.operationId == s.checkpoint.body.genesisDigest
    && s.tail < |s.audit|
    && s.checkpoint.body.latestMac == s.audit[|s.audit| - 1 - s.tail].mac
  }

  lemma ConsistentInScope(ctx: Context, s: State)
    requires Consistent(ctx, s)
    ensures StateInScope(ctx, s)
  {
    assert EventOk(ctx.scope, ctx.auditKey, s.audit, 0);
  }

  /** Exactly the consistent states come back unchanged from their own three files. */
  lemma FilesRoundTrip(ctx: Context, s: State)
    ensures Consistent(ctx, s) <==>
            VerifiedFiles(ctx, Some(s.audit), Some(s.checkpoint), Some(s.receipts)) == Ok(s)
  {
    if Consistent(ctx, s) {
      MacIndexIsPosition(ctx.scope, ctx.auditKey, s.audit, |s.audit| - 1 - s.tail);
    }
  }

  lemma InitialIsConsistent(ctx: Context, c: Candidate, timestamp: nat)
    ensures Initialized(ctx, c, timestamp).Ok? <==> CandidateInScope(c, ctx.scope) && timestamp != 0
    ensures Initialized(ctx, c, timestamp).Ok? ==>
              var s := Initialized(ctx, c, timestamp).value;
              Consistent(ctx, s) && s.tail == 0 && |s.audit| == 1
              && s.checkpoint.body.accepted == c.history[|c.history| - 1]
  {
    if Initialized(ctx, c, timestamp).Ok? {
      var s := Initialized(ctx, c, timestamp).value;
      assert EventOk(ctx.scope, ctx.auditKey, s.audit, 0);
    }
  }

  lemma AppendKeepsLog(scope: Scope, key: Key, log: seq<Event>, d: Draft)
    requires ValidLog(scope, key, log) && DraftOk(scope, key, log, d)
    ensures ValidLog(scope, key, log + [NextEvent(scope, key, log, d)])
  {
    var longer := log + [NextEvent(scope, key, log, d)];
    forall i | 0 <= i < |longer| ensures EventOk(scope, key, longer, i) {
      if i < |log| {
        assert EventOk(scope, key, log, i);
      }
    }
  }

  lemma RecordedEffect(ctx: Context, s: State, timestamp: nat)
    requires ValidLog(ctx.scope, ctx.auditKey, s.audit) && CheckpointShapeOk(s.checkpoint.body)
    ensures var (t, e) := Recorded(ctx, s, timestamp);
            && t.audit == s.audit && t.receipts == s.receipts
            && (e.None? <==> timestamp >= s.checkpoint.body.updatedAt)
            && (e.Some? ==> t == s)
            && (e.None? ==> t.tail == 0 && t.checkpoint == Authenticated(
                  s.checkpoint.body.(latestMac := s.audit[|s.audit| - 1].mac, updatedAt := timestamp),
                  ctx.checkpointKey))
  {
    assert EventOk(ctx.scope, ctx.auditKey, s.audit, |s.audit| - 1);
  }

  // ----- runs of operations -----

  datatype Op =
    | Append(draft: Draft, fits: bool)
    | AcceptTail(timestamp: nat)
    | AcceptCandidate(candidate: Candidate, timestamp: nat)
    | RecordReceipt(update: ReceiptUpdate)

  /** The next state and whether the operation succeeded. */
  function Step(ctx: Context, s: State, op: Op): (r: (State, bool)) {
    match op
    case Append(d, fits) => var (t, e) := Appended(ctx, s, d, fits); (t, e.None?)
    case AcceptTail(timestamp) => var (t, e) := TailAccepted(ctx, s, timestamp); (t, e.None?)
    case AcceptCandidate(c, timestamp) => var (t, r) := CandidateAccepted(ctx, s, c, timestamp); (t, r.Ok?)
    case RecordReceipt(update) => var (t, e) := ReceiptRecorded(ctx, s, update); (t, e.None?)
  }

  /** The state after a run, None as soon as one operation fails. */
  function Run(ctx: Context, s: State, ops: seq<Op>): (r: Option<State>)
    decreases |ops|
  {
    if ops == [] then Some(s)
    else
      var (t, ok) := Step(ctx, s, ops[0]);
      if ok then Run(ctx, t, ops[1..]) else None
  }

  function AppendCount(ops: seq<Op>): (n: nat) {
    if ops == [] then 0 else (if ops[0].Append? then 1 else 0) + AppendCount(ops[1..])
  }

  /** What one successful operation keeps. */
  ghost predicate Advances(s: State, t: State, appended: nat) {
    && s.audit <= t.audit
    && |t.audit| == |s.audit| + appended
    && t.checkpoint.body.genesisDigest == s.checkpoint.body.genesisDigest
    && s.checkpoint.body.updatedAt <= t.checkpoint.body.updatedAt
    && (t.tail == 0 || (appended == 0 && t.tail == s.tail))
  }

  lemma StepAdvances(ctx: Context, s: State, op: Op)
    requires Consistent(ctx, s) && Step(ctx, s, op).1
    ensures Consistent(ctx, Step(ctx, s, op).0)
    ensures Advances(s, Step(ctx, s, op).0, if op.Append? then 1 else 0)
    ensures op.Append? ==> Step(ctx, s, op).0.tail == 0
  {
    match op
    case Append(d, fits) =>
      AppendKeepsLog(ctx.scope, ctx.auditKey, s.audit, d);
      RecordedEffect(ctx, s.(audit := s.audit + [NextEvent(ctx.scope, ctx.auditKey, s.audit, d)]), d.timestamp);
    case AcceptTail(timestamp) =>
      RecordedEffect(ctx, s, timestamp);
    case AcceptCandidate(c, timestamp) =>
    case RecordReceipt(update) =>
  }

  lemma {:induction false} RunAdvances(ctx: Context, s: State, ops: seq<Op>)
    requires Consistent(ctx, s) && Run(ctx, s, ops).Some?
    ensures Consistent(ctx, Run(ctx, s, ops).value)
    ensures Advances(s, Run(ctx, s, ops).value, AppendCount(ops))
    decreases |ops|
  {
    if ops == [] {
    } else {
      StepAdvances(ctx, s, ops[0]);
      RunAdvances(ctx, Step(ctx, s, ops[0]).0, ops[1..]);
    }
  }

  // ----- crash recovery -----

  /** A log from a later point verifies against an earlier checkpoint, with the events since as its tail, whichever of
      the context's own receipts lie beside them. */
  lemma LaterAuditVerifies(ctx: Context, s: State, ops: seq<Op>, receipts: Receipts)
    requires Consistent(ctx, s) && Run(ctx, s, ops).Some? && ReceiptsOk(ctx, receipts)
    ensures var t := Run(ctx, s, ops).value;
            VerifiedFiles(ctx, Some(t.audit), Some(s.checkpoint), Some(receipts))
            == Ok(State(t.audit, s.checkpoint, receipts, s.tail + AppendCount(ops)))
  {
    hide Run, VerifiedFiles, Consistent, Advances, ReceiptsOk;
    RunAdvances(ctx, s, ops);
    var t := Run(ctx, s, ops).value;
    LaterIsConsistent(ctx, s, t, AppendCount(ops), receipts);
    FilesRoundTrip(ctx, State(t.audit, s.checkpoint, receipts, s.tail + AppendCount(ops)));
  }

  lemma LaterIsConsistent(ctx: Context, s: State, t: State, appended: nat, receipts: Receipts)
    requires Consistent(ctx, s) && Consistent(ctx, t) && Advances(s, t, appended) && ReceiptsOk(ctx, receipts)
    ensures Consistent(ctx, State(t.audit, s.checkpoint, receipts, s.tail + appended))
  {
    hide EventOk, ReceiptsOk;
    assert t.audit[|s.audit| - 1 - s.tail] == s.audit[|s.audit| - 1 - s.tail] && t.audit[0] == s.audit[0];
  }

  /** A log from an earlier point is refused against any checkpoint recorded after a further event. */
  lemma EarlierAuditRejected(ctx: Context, s: State, ops: seq<Op>, receipts: Receipts)
    requires Consistent(ctx, s) && Run(ctx, s, ops).Some? && AppendCount(ops) > 0
    requires ReceiptsOk(ctx, receipts)
    ensures VerifiedFiles(ctx, Some(s.audit), Some(Run(ctx, s, ops).value.checkpoint), Some(receipts))
            == Err(AuditTampered)
  {
    hide Run;
    RunAdvances(ctx, s, ops);
    var t := Run(ctx, s, ops).value;
    var last := |t.audit| - 1;
    var found := MacIndex(s.audit, t.audit[last].mac);
    if found.Some? {
      MacPinsPrefix(ctx.scope, ctx.auditKey, s.audit, t.audit, found.value, last);
    }
    assert s.audit[0] == t.audit[0];
  }

  /** Accepting the tail of a recovered state adds no event and leaves files that agree; only the clock can refuse
      it. */
  lemma AcceptingTailRestoresAgreement(ctx: Context, s: State, timestamp: nat)
    requires Consistent(ctx, s) && s.tail > 0
    ensures var (t, e) := TailAccepted(ctx, s, timestamp);
            && (e.None? <==> timestamp >= s.checkpoint.body.updatedAt)
            && (e.Some? ==> t == s)
            && (e.None? ==>
                  && t.audit == s.audit && t.tail == 0 && Consistent(ctx, t)
                  && VerifiedFiles(ctx, Some(t.audit), Some(t.checkpoint), Some(t.receipts)) == Ok(t))
  {
    ConsistentInScope(ctx, s);
    RecordedEffect(ctx, s, timestamp);
    FilesRoundTrip(ctx, TailAccepted(ctx, s, timestamp).0);
  }

  /** Whatever file is offered as the log, if it verifies it repeats every event the checkpoint covers. */
  lemma CheckpointPinsAudit(ctx: Context, s: State, offered: seq<Event>, receipts: Option<Receipts>)
    requires Consistent(ctx, s)
    requires VerifiedFiles(ctx, Some(offered), Some(s.checkpoint), receipts).Ok?
    ensures s.audit[..|s.audit| - s.tail] <= offered
    ensures VerifiedFiles(ctx, Some(offered), Some(s.checkpoint), receipts).value.tail
            == |offered| - (|s.audit| - s.tail)
  {
    var i := MacIndex(offered, s.checkpoint.body.latestMac).value;
    MacPinsPrefix(ctx.scope, ctx.auditKey, s.audit, offered, |s.audit| - 1 - s.tail, i);
  }

  // ----- a failed append -----

  /**
   Appending with a clock behind the checkpoint fails, yet it has already
   extended the log while the tail count stays as it was. That is the only
   failure that changes the state, and exactly then the state is no longer the
   one its files describe.
   */
  lemma FailedAppendEffect(ctx: Context, s: State, d: Draft, fits: bool)
    requires Consistent(ctx, s)
    ensures var (t, e) := Appended(ctx, s, d, fits);
            var behind := d.timestamp < s.checkpoint.body.updatedAt;
            var stale := DraftOk(ctx.scope, ctx.auditKey, s.audit, d) && fits && behind;
            && (stale ==> e == Some(InvalidFormat) && |t.audit| == |s.audit| + 1 && t.tail == s.tail)
            && (e.Some? && !stale ==> t == s)
            && (!Consistent(ctx, t) <==> stale)
            && (stale ==> VerifiedFiles(ctx, Some(t.audit), Some(t.checkpoint), Some(t.receipts))
                          == Ok(t.(tail := s.tail + 1)))
  {
    ConsistentInScope(ctx, s);
    if DraftOk(ctx.scope, ctx.auditKey, s.audit, d) && fits {
      var longer := s.(audit := s.audit + [NextEvent(ctx.scope, ctx.auditKey, s.audit, d)]);
      AppendKeepsLog(ctx.scope, ctx.auditKey, s.audit, d);
      RecordedEffect(ctx, longer, d.timestamp);
      if d.timestamp < s.checkpoint.body.updatedAt {
        var i := |s.audit| - 1 - s.tail;
        MacIndexIsPosition(ctx.scope, ctx.auditKey, longer.audit, i);
        FilesRoundTrip(ctx, longer.(tail := s.tail + 1));
        FilesRoundTrip(ctx, longer);
      }
    }
  }

  function ExampleContext(): (ctx: Context) { Context(Scope(1, Plain(2), 3), 4, 5, 6) }

  function ExampleCandidate(): (c: Candidate) { Candidate(1, Plain(2), {3}, [Plain(2)]) }

  /** It happens: state initialized at time 5 and an event drafted at time 4. */
  lemma FailedAppendHappens()
    ensures var ctx := ExampleContext(); var s := Initialized(ctx, ExampleCandidate(), 5);
      s.Ok? && Consistent(ctx, s.value) &&
      var (t, e) := Appended(ctx, s.value, Draft(4, Plain(7), 0, PolicyMutation, Success, None, None), true);
      e == Some(InvalidFormat) && |t.audit| == 2 && !Consistent(ctx, t)
  {
    var ctx, c, d := ExampleContext(), ExampleCandidate(), Draft(4, Plain(7), 0, PolicyMutation, Success, None, None);
    InitialIsConsistent(ctx, c, 5);
    FailedAppendEffect(ctx, Initialized(ctx, c, 5).value, d, true);
  }

  // ----- runs that go on after failures -----

  /** The state is consistent but for `lag` events that failed appends left behind uncounted. */
  predicate Lagging(ctx: Context, s: State, lag: nat) {
    Consistent(ctx, s.(tail := s.tail + lag))
  }

  /** The state after a run, whether or not its operations succeed. */
  function RunAny(ctx: Context, s: State, ops: seq<Op>): (t: State)
    decreases |ops|
  {
    if ops == [] then s else RunAny(ctx, Step(ctx, s, ops[0]).0, ops[1..])
  }

  lemma LaggingInScope(ctx: Context, s: State, lag: nat)
    requires Lagging(ctx, s, lag)
    ensures StateInScope(ctx, s) && ValidLog(ctx.scope, ctx.auditKey, s.audit) && CheckpointShapeOk(s.checkpoint.body)
  {
    ConsistentInScope(ctx, s.(tail := s.tail + lag));
  }

  lemma AppendAny(ctx: Context, s: State, lag: nat, d: Draft, fits: bool) returns (next: nat)
    requires Lagging(ctx, s, lag)
    ensures var (t, e) := Appended(ctx, s, d, fits);
      Lagging(ctx, t, next) && s.audit <= t.audit && (e.None? ==> next == 0)
  {
    LaggingInScope(ctx, s, lag);
    next := lag;
    if DraftOk(ctx.scope, ctx.auditKey, s.audit, d) && fits {
      var longer := s.(audit := s.audit + [NextEvent(ctx.scope, ctx.auditKey, s.audit, d)]);
      AppendKeepsLog(ctx.scope, ctx.auditKey, s.audit, d);
      RecordedEffect(ctx, longer, d.timestamp);
      next := if d.timestamp < s.checkpoint.body.updatedAt then lag + 1 else 0;
    }
  }

  lemma TailAny(ctx: Context, s: State, lag: nat, timestamp: nat) returns (next: nat)
    requires Lagging(ctx, s, lag)
    ensures var t := TailAccepted(ctx, s, timestamp).0; Lagging(ctx, t, next) && t.audit == s.audit
  {
    LaggingInScope(ctx, s, lag);
    next := lag;
    RecordedEffect(ctx, s, timestamp);
    if s.tail != 0 && timestamp >= s.checkpoint.body.updatedAt { next := 0; }
  }

  lemma CandidateAny(ctx: Context, s: State, lag: nat, c: Candidate, timestamp: nat)
    requires Lagging(ctx, s, lag)
    ensures var t := CandidateAccepted(ctx, s, c, timestamp).0; Lagging(ctx, t, lag) && t.audit == s.audit
  {
    hide ValidLog, ReceiptsOk;
  }

  lemma ReceiptAny(ctx: Context, s: State, lag: nat, u: ReceiptUpdate)
    requires Lagging(ctx, s, lag)
    ensures var t := ReceiptRecorded(ctx, s, u).0; Lagging(ctx, t, lag) && t.audit == s.audit
  {
    hide ValidLog;
  }

  lemma OtherAny(ctx: Context, s: State, lag: nat, op: Op) returns (next: nat)
    requires Lagging(ctx, s, lag) && !op.Append?
    ensures var t := Step(ctx, s, op).0; Lagging(ctx, t, next) && t.audit == s.audit
  {
    hide Lagging, TailAccepted, CandidateAccepted, ReceiptRecorded;
    next := lag;
    match op
    case AcceptTail(timestamp) => next := TailAny(ctx, s, lag, timestamp);
    case AcceptCandidate(c, timestamp) => CandidateAny(ctx, s, lag, c, timestamp);
    case RecordReceipt(update) => ReceiptAny(ctx, s, lag, update);
  }

  /** Along any run, failures included, the log only grows and the three files verify, with every event after the
      checkpoint as their tail. */
  lemma {:induction false} AnyRunVerifies(ctx: Context, s: State, lag: nat, ops: seq<Op>) returns (end: nat)
    requires Lagging(ctx, s, lag)
    ensures var t := RunAny(ctx, s, ops);
      && Lagging(ctx, t, end) && s.audit <= t.audit
      && VerifiedFiles(ctx, Some(t.audit), Some(t.checkpoint), Some(t.receipts)) == Ok(t.(tail := t.tail + end))
    decreases |ops|
  {
    hide Lagging, Step, VerifiedFiles, Consistent;
    if ops == [] {
      end := lag;
      LaggingVerifies(ctx, s, lag);
    } else {
      var op, next := ops[0], lag;
      if op.Append? {
        next := AppendAny(ctx, s, lag, op.draft, op.fits);
        StepOfAppend(ctx, s, op);
      } else {
        next := OtherAny(ctx, s, lag, op);
      }
      end := AnyRunVerifies(ctx, Step(ctx, s, op).0, next, ops[1..]);
    }
  }

  lemma StepOfAppend(ctx: Context, s: State, op: Op)
    requires op.Append?
    ensures Step(ctx, s, op).0 == Appended(ctx, s, op.draft, op.fits).0
    ensures Step(ctx, s, op).1 <==> Appended(ctx, s, op.draft, op.fits).1.None?
  {
  }

  lemma LaggingVerifies(ctx: Context, s: State, lag: nat)
    requires Lagging(ctx, s, lag)
    ensures VerifiedFiles(ctx, Some(s.audit), Some(s.checkpoint), Some(s.receipts)) == Ok(s.(tail := s.tail + lag))
  {
    FilesRoundTrip(ctx, s.(tail := s.tail + lag));
  }

  /** After any run, failures included, the next append that succeeds restores consistency. */
  lemma AppendRestores(ctx: Context, s: State, ops: seq<Op>, d: Draft, fits: bool)
    requires Consistent(ctx, s) && Appended(ctx, RunAny(ctx, s, ops), d, fits).1.None?
    ensures Consistent(ctx, Appended(ctx, RunAny(ctx, s, ops), d, fits).0)
  {
    hide Consistent, Appended, RunAny;
    LaggingByNone(ctx, s);
    var end := AnyRunVerifies(ctx, s, 0, ops);
    var next := AppendAny(ctx, RunAny(ctx, s, ops), end, d, fits);
    LaggingByNone(ctx, Appended(ctx, RunAny(ctx, s, ops), d, fits).0);
  }

  lemma LaggingByNone(ctx: Context, s: State)
    ensures Lagging(ctx, s, 0) <==> Consistent(ctx, s)
  {
    assert s.(tail := s.tail + 0) == s;
  }

  /** After any run, failures included, a file that verifies against the checkpoint repeats every event it covers. */
  lemma AnyCheckpointPins(ctx: Context, s: State, ops: seq<Op>, offered: seq<Event>, receipts: Option<Receipts>)
    requires Consistent(ctx, s)
    requires VerifiedFiles(ctx, Some(offered), Some(RunAny(ctx, s, ops).checkpoint), receipts).Ok?
    ensures var t := RunAny(ctx, s, ops);
      exists covered: nat :: covered <= |t.audit| && t.audit[..covered] <= offered
        && 0 < covered && t.checkpoint.body.latestMac == t.audit[covered - 1].mac
        && VerifiedFiles(ctx, Some(offered), Some(t.checkpoint), receipts).value.tail == |offered| - covered
  {
    hide VerifiedFiles, RunAny;
    LaggingByNone(ctx, s);
    var end := AnyRunVerifies(ctx, s, 0, ops);
    var t := RunAny(ctx, s, ops);
    CheckpointPinsAudit(ctx, t.(tail := t.tail + end), offered, receipts);
    var covered: nat := |t.audit| - t.tail - end;
    assert t.audit[..covered] <= offered;
  }

  // ----- receipts only move forward -----

  predicate Later(prior: Option<Receipt>, next: Option<Receipt>) {
    prior.Some? ==> next.Some? && prior.value.timestamp <= next.value.timestamp
  }

  predicate LatestLater(l: Latest, m: Latest) {
    && Later(l.transfer, m.transfer) && Later(l.backup, m.backup)
    && Later(l.verification, m.verification) && Later(l.drill, m.drill)
  }

  lemma StepReceipts(ctx: Context, s: State, op: Op)
    requires Consistent(ctx, s)
    ensures var t := Step(ctx, s, op).0; LatestLater(s.receipts.latest, t.receipts.latest)
    ensures op.RecordReceipt? && Step(ctx, s, op).1 ==>
      var t := Step(ctx, s, op).0;
      && t.receipts.latest == WithReceipt(s.receipts.latest, op.update) && ReceiptsOk(ctx, t.receipts)
      && t.audit == s.audit && t.checkpoint == s.checkpoint && t.tail == s.tail
  {
    hide Recorded, ReceiptRecorded, Consistent;
    match op
    case Append(d, fits) =>
      if StateInScope(ctx, s) {
        RecordedReceipts(ctx, s.(audit := s.audit + [NextEvent(ctx.scope, ctx.auditKey, s.audit, d)]), d.timestamp);
      }
    case AcceptTail(timestamp) => if StateInScope(ctx, s) { RecordedReceipts(ctx, s, timestamp); }
    case AcceptCandidate(c, timestamp) =>
    case RecordReceipt(update) => ReceiptEffect(ctx, s, update);
  }

  lemma RecordedReceipts(ctx: Context, s: State, timestamp: nat)
    requires s.audit != []
    ensures Recorded(ctx, s, timestamp).0.receipts == s.receipts
  {
  }

  lemma ReceiptEffect(ctx: Context, s: State, u: ReceiptUpdate)
    requires Consistent(ctx, s)
    ensures var (t, e) := ReceiptRecorded(ctx, s, u);
      && LatestLater(s.receipts.latest, t.receipts.latest)
      && (e.Some? ==> t == s)
      && (e.None? ==> t == s.(receipts := t.receipts) && ReceiptsOk(ctx, t.receipts)
                      && t.receipts.latest == WithReceipt(s.receipts.latest, u))
  {
    hide ValidLog;
  }

  /** Along any run no kind of receipt is lost or replaced by an older one. */
  lemma {:induction false} ReceiptsNeverOlder(ctx: Context, s: State, ops: seq<Op>)
    requires Consistent(ctx, s) && Run(ctx, s, ops).Some?
    ensures LatestLater(s.receipts.latest, Run(ctx, s, ops).value.receipts.latest)
    decreases |ops|
  {
    hide Consistent, Step;
    if ops == [] {
    } else {
      StepReceipts(ctx, s, ops[0]);
      StepAdvances(ctx, s, ops[0]);
      ReceiptsNeverOlder(ctx, Step(ctx, s, ops[0]).0, ops[1..]);
    }
  }

  // ----- the accepted public state only moves forward -----

  /** Hashes chain: wherever two histories meet they have met at every earlier place. */
  predicate Chained(g: seq<Digest>, h: seq<Digest>) {
    forall i, j :: 0 <= i < |g| && 0 <= j < |h| && g[i] == h[j] ==> i == j && g[..i + 1] == h[..j + 1]
  }

  predicate CollisionFree(family: set<Candidate>) {
    forall c, d :: c in family && d in family ==> Chained(c.history, d.history)
  }

  predicate OffersFrom(ops: seq<Op>, family: set<Candidate>) {
    forall k :: 0 <= k < |ops| && ops[k].AcceptCandidate? ==> ops[k].candidate in family
  }

  /** The checkpoint retains the end of c's history. */
  predicate Retains(s: State, c: Candidate) {
    c.history != [] && s.checkpoint.body.accepted == c.history[|c.history| - 1]
  }

  lemma StepNeverLowers(ctx: Context, s: State, op: Op, family: set<Candidate>, c: Candidate) returns (d: Candidate)
    requires Consistent(ctx, s) && Step(ctx, s, op).1
    requires CollisionFree(family) && c in family && Retains(s, c)
    requires op.AcceptCandidate? ==> op.candidate in family
    ensures d in family && Retains(Step(ctx, s, op).0, d) && c.history <= d.history
  {
    d := c;
    match op
    case Append(draft, fits) =>
    case AcceptTail(timestamp) =>
    case RecordReceipt(update) =>
    case AcceptCandidate(offer, timestamp) =>
      if RelationTo(offer, s.checkpoint.body) == Ok(StrictDescendant) {
        var i :| 0 <= i < |offer.history| && offer.history[i] == s.checkpoint.body.accepted;
        assert Chained(c.history, offer.history);
        assert c.history == c.history[..|c.history| - 1 + 1];
        d := offer;
      }
  }

  /** Along any successful run the retained history only grows by extension. */
  lemma {:induction false} AcceptedNeverLowers(ctx: Context, s: State, ops: seq<Op>, family: set<Candidate>,
                                               c: Candidate)
    returns (d: Candidate)
    requires Consistent(ctx, s) && Run(ctx, s, ops).Some?
    requires CollisionFree(family) && c in family && Retains(s, c) && OffersFrom(ops, family)
    ensures d in family && Retains(Run(ctx, s, ops).value, d) && c.history <= d.history
    decreases |ops|
  {
    d := c;
    if ops == [] {
    } else {
      var mid := StepNeverLowers(ctx, s, ops[0], family, c);
      StepAdvances(ctx, s, ops[0]);
      d := AcceptedNeverLowers(ctx, Step(ctx, s, ops[0]).0, ops[1..], family, mid);
    }
  }

  /** Public state that ends before the retained one is refused and changes nothing. */
  lemma RollbackRefused(ctx: Context, s: State, c: Candidate, older: Candidate, timestamp: nat)
    requires Consistent(ctx, s) && Retains(s, c) && Chained(c.history, c.history)
    requires CandidateInScope(older, ctx.scope) && older.history < c.history
    ensures CandidateAccepted(ctx, s, older, timestamp) == (s, Err(CheckpointDiverged))
  {
    ConsistentInScope(ctx, s);
    forall k | 0 <= k < |older.history| ensures older.history[k] != s.checkpoint.body.accepted {
      assert older.history[k] == c.history[k];
    }
  }
}

/** The mutable local state and the operations that update it. */
module LocalStateStore {
  import opened Common
  import opened LocalState

  class VerifiedLocalState {
    var audit: seq<Event>
    var checkpoint: Checkpoint
    var receipts: Receipts
    var eventsAfterCheckpoint: nat

    constructor (s: State)
      ensures Value() == s
    {
      audit, checkpoint, receipts, eventsAfterCheckpoint := s.audit, s.checkpoint, s.receipts, s.tail;
    }

    function Value(): (s: State)
      reads this
    {
      State(audit, checkpoint, receipts, eventsAfterCheckpoint)
    }
  }

  class PrincipalLocalState {
    const ctx: Context

    constructor (ctx: Context)
      ensures this.ctx == ctx
    {
      this.ctx := ctx;
    }

    method VerifyFiles(auditFile: Option<seq<Event>>, checkpointFile: Option<Checkpoint>,
                       receiptsFile: Option<Receipts>)
      returns (r: Result<State>)
      ensures r == VerifiedFiles(ctx, auditFile, checkpointFile, receiptsFile)
    {
      if auditFile.None? || checkpointFile.None? || receiptsFile.None? {
        return Err(IncompleteState);
      }
      var audit, checkpoint, receipts := auditFile.value, checkpointFile.value, receiptsFile.value;
      if audit == [] {
        return Err(InvalidFormat);
      }
      var parsed := ParseLog(ctx.scope, ctx.auditKey, audit);
      if !parsed {
        return Err(AuditTampered);
      }
      if !CheckpointShapeOk(checkpoint.body) {
        return Err(InvalidFormat);
      }
      if checkpoint.body.scope != ctx.scope {
        return Err(ScopeMismatch);
      }
      if checkpoint.seal != Seal(ctx.checkpointKey, checkpoint.body) {
        return Err(AuthenticationFailed);
      }
      if !LatestOk(receipts.latest) {
        return Err(InvalidFormat);
      }
      if receipts.scope != ctx.scope {
        return Err(ScopeMismatch);
      }
      if receipts.seal != Seal(ctx.receiptsKey, (receipts.scope, receipts.latest)) {
        return Err(AuthenticationFailed);
      }
      if audit[0].body.operationId != checkpoint.body.genesisDigest {
        return Err(AuditTampered);
      }
      var index := MacIndex(audit, checkpoint.body.latestMac);
      if index.None? {
        return Err(AuditTampered);
      }
      return Ok(State(audit, checkpoint, receipts, |audit| - (index.value + 1)));
    }

    /** Checkpoint recording shared by appending and by accepting a tail. */
    method RecordAudit(state: VerifiedLocalState, timestamp: nat) returns (error: Option<Error>)
      requires state.audit != []
      modifies state`checkpoint, state`eventsAfterCheckpoint
      ensures (state.Value(), error) == Recorded(ctx, old(state.Value()), timestamp)
    {
      var mac := state.audit[|state.audit| - 1].mac;
      if timestamp < state.checkpoint.body.updatedAt || mac == ZeroMac {
        return Some(InvalidFormat);
      }
      state.checkpoint := state.checkpoint.(body := state.checkpoint.body.(latestMac := mac, updatedAt := timestamp));
      if !CheckpointShapeOk(state.checkpoint.body) {
        return Some(InvalidFormat);
      }
      state.checkpoint := Authenticated(state.checkpoint.body, ctx.checkpointKey);
      state.eventsAfterCheckpoint := 0;
      return None;
    }

    method AppendEvent(state: VerifiedLocalState, draft: Draft, fits: bool) returns (error: Option<Error>)
      modifies state
      ensures (state.Value(), error) == Appended(ctx, old(state.Value()), draft, fits)
    {
      if !StateInScope(ctx, state.Value()) {
        return Some(ScopeMismatch);
      }
      if !DraftOk(ctx.scope, ctx.auditKey, state.audit, draft) {
        return Some(InvalidFormat);
      }
      if !fits {
        return Some(CapacityExhausted);
      }
      state.audit := state.audit + [NextEvent(ctx.scope, ctx.auditKey, state.audit, draft)];
      error := RecordAudit(state, draft.timestamp);
    }

    method AcceptAuditTail(state: VerifiedLocalState, timestamp: nat) returns (error: Option<Error>)
      modifies state
      ensures (state.Value(), error) == TailAccepted(ctx, old(state.Value()), timestamp)
    {
      if !StateInScope(ctx, state.Value()) {
        return Some(ScopeMismatch);
      }
      if state.eventsAfterCheckpoint == 0 {
        return None;
      }
      error := RecordAudit(state, timestamp);
    }

    method RecordReceipt(state: VerifiedLocalState, update: ReceiptUpdate) returns (error: Option<Error>)
      modifies state
      ensures (state.Value(), error) == ReceiptRecorded(ctx, old(state.Value()), update)
    {
      if !StateInScope(ctx, state.Value()) {
        return Some(ScopeMismatch);
      }
      if !UpdateMatches(state.Value(), update) {
        return Some(InvalidFormat);
      }
      if !NotOlder(Slot(state.receipts.latest, update), update.receipt) || !ReceiptOk(update.receipt) {
        return Some(InvalidFormat);
      }
      state.receipts := state.receipts.(latest := WithReceipt(state.receipts.latest, update));
      if !LatestOk(state.receipts.latest) {
        return Some(InvalidFormat);
      }
      state.receipts := SealedReceipts(ctx, state.receipts.scope, state.receipts.latest);
      return None;
    }

    method AcceptCandidate(state: VerifiedLocalState, candidate: Candidate, timestamp: nat)
      returns (r: Result<Relation>)
      modifies state
      ensures (state.Value(), r) == CandidateAccepted(ctx, old(state.Value()), candidate, timestamp)
    {
      if !StateInScope(ctx, state.Value()) || !CandidateInScope(candidate, ctx.scope) {
        return Err(ScopeMismatch);
      }
      var relation := RelationTo(candidate, state.checkpoint.body);
      match relation
      case Err(_) =>
        return relation;
      case Ok(Equal) =>
        return relation;
      case Ok(Divergent) =>
        return Err(CheckpointDiverged);
      case Ok(StrictDescendant) =>
        if timestamp < state.checkpoint.body.updatedAt {
          return Err(InvalidFormat);
        }
        state.checkpoint := state.checkpoint.(body := state.checkpoint.body.(
          accepted := candidate.history[|candidate.history| - 1], updatedAt := timestamp));
        if !CheckpointShapeOk(state.checkpoint.body) {
          return Err(InvalidFormat);
        }
        state.checkpoint := Authenticated(state.checkpoint.body, ctx.checkpointKey);
        return relation;
    }
  }
}
