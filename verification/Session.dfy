/**
 Principal-scoped partial-unlock sessions over a publicly validated vault.

 The item access provider is arbitrary: each access carries the reply the
 provider would give if it were asked.
 */
module SessionModel {
  import opened Common
  import L = LocalState

  const MAX_PREFLIGHT_ITEMS := 64
  const MAX_ACCESSIBLE_CATALOG_ITEMS := 1_024

  type U64 = n: nat | n <= MAX_U64

  type ItemId = nat
  type PrincipalId = nat
  type Name = string

  datatype Phase =
    | Principal | WitnessPending | Approved | UnlockedItem
    | DeniedPhase | ExpiredPhase | StalePhase | ReplayPhase | UnavailablePhase | CancelledPhase
    | FailedPhase | LockedPhase | InsufficientQuorumPhase
  {
    predicate Operable() {
      Principal? || Approved? || UnlockedItem? || WitnessPending?
    }
  }

  datatype SessionError =
    | ScopeMismatchError | CheckpointConflict | UnknownPrincipal | InvalidLimits | ClockRegression
    | SessionExpired | SessionCancelled | ItemUnavailable | InvalidBinding | Conflict
    | Capacity | SessionLocked | SessionFailed

  datatype ContentRole = Descriptor | Body
  datatype Capability = Read | Write | Administer
  datatype AccessRole = Reader | Writer | Owner
  datatype AccessMode = DirectOnly | WitnessedOnly | Mixed
  type Operation = nat

  // ----- public state -----

  datatype WitnessedSlot = WitnessedSlot(
    slotId: nat,
    contentRole: ContentRole,
    revision: nat,
    sealId: nat,
    keyEpoch: nat,
    mode: AccessMode,
    policyId: nat,
    policyRevision: nat,
    policyDigest: L.Digest
  )

  datatype ItemPolicy = ItemPolicy(
    keyEpoch: nat,
    grants: map<PrincipalId, AccessRole>,
    directRecipients: set<PrincipalId>,
    witnessed: Option<seq<WitnessedSlot>>
  )

  /** Allowed request lifetimes per operation, and the digest of the intended witnesses. */
  datatype WitnessPolicy = WitnessPolicy(
    policyId: nat,
    revision: nat,
    lifetimes: map<Operation, nat>,
    intendedSet: L.Digest
  )

  datatype Policy = Policy(
    suite: nat,
    vaultId: nat,
    genesis: L.Digest,
    sequence: nat,
    terminalHash: L.Digest,
    principals: set<PrincipalId>,
    owners: set<PrincipalId>,
    items: map<ItemId, ItemPolicy>,
    witnessPolicies: map<L.Digest, WitnessPolicy>
  )

  datatype Envelope = Envelope(descriptorRevision: nat, descriptorSeal: nat, itemRevision: nat, itemSeal: nat)

  datatype PublicVault = PublicVault(policy: Policy, envelopes: map<ItemId, Envelope>, candidate: L.Candidate)

  datatype RevisionToken = RevisionToken(
    suite: nat,
    vaultId: nat,
    genesis: L.Digest,
    itemId: ItemId,
    keyEpoch: nat,
    contentRole: ContentRole,
    revision: nat,
    sealId: nat,
    policySequence: nat,
    policyHash: L.Digest,
    principalId: PrincipalId,
    accessRole: AccessRole,
    mode: AccessMode,
    capability: Capability
  )

  datatype Binding = Binding(
    requestId: L.Digest,
    requestDigest: L.Digest,
    actionManifest: L.Digest,
    approvalTarget: L.Digest,
    workload: L.Digest,
    policyCheckpoint: L.Digest,
    policyId: nat,
    policyRevision: nat,
    policyDigest: L.Digest,
    intendedSet: L.Digest,
    sessionKey: L.Digest,
    slotId: nat,
    operation: Operation,
    issuedAt: U64,
    notBefore: Option<U64>,
    expiresAt: U64,
    revision: RevisionToken
  )

  // ----- session state -----

  /** What a session never changes after it started. */
  datatype Config = Config(
    vault: PublicVault,
    principalId: PrincipalId,
    policyCheckpoint: Option<L.Digest>,
    inactivity: U64,
    startedAt: U64,
    absoluteExpiry: U64
  )

  datatype Entry = Entry(itemId: ItemId, name: Name, role: AccessRole)
  datatype Metadata = Metadata(fieldCount: nat, updatedAt: Option<nat>)

  datatype Session = Session(
    phase: Phase,
    catalog: seq<Entry>,
    metadata: map<ItemId, Metadata>,
    pending: Option<Binding>,
    active: Option<RevisionToken>,
    lastActivity: U64
  )

  datatype Authority = DirectAuthority | WitnessedAuthority

  datatype Status =
    | StillPending | StatusDenied | StatusExpired | StatusStale | StatusReplay | StatusUnavailable
    | StatusCancelled | StatusInsufficientQuorum

  datatype ProviderError =
    | CancelledAccess | StalePolicy | Unauthorized | WrongPrincipal | DirectSlotUnavailable | OtherProviderError

  /** Everything a provider can answer to one access. */
  datatype Reply<+T> =
    | Complete(authority: Authority, value: T)
    | Witnessed(status: Status)
    | ProviderFailed(error: ProviderError)
    | ConsumerFailed

  datatype AccessOutcome<+T> =
    | Direct(value: T) | WitnessedApproved(value: T)
    | Pending | AccessDenied | AccessExpired | AccessStale | AccessReplay | AccessUnavailable
    | AccessCancelled | AccessFailed | AccessInsufficientQuorum
  {
    predicate Completes() {
      Direct? || WitnessedApproved?
    }
  }

  datatype Answer<+T> = Success(value: T) | Failure(error: SessionError)

  datatype Attempt = Attempt(
    itemId: ItemId,
    contentRole: ContentRole,
    capability: Capability,
    binding: Option<Binding>,
    now: U64,
    cancelled: bool
  )

  // ----- policy lookups -----

  function EffectiveRole(p: Policy, itemId: ItemId, principal: PrincipalId): (r: Option<AccessRole>) {
    if principal in p.owners then Some(Owner)
    else if itemId in p.items && principal in p.items[itemId].grants then
      Some(p.items[itemId].grants[principal])
    else None
  }

  predicate Permits(role: AccessRole, capability: Capability) {
    match role
    case Reader => capability == Read
    case Writer => capability != Administer
    case Owner => true
  }

  predicate AccessAllowed(p: Policy, itemId: ItemId, principal: PrincipalId, capability: Capability) {
    && itemId in p.items
    && principal in p.principals
    && var role := EffectiveRole(p, itemId, principal);
    && role.Some?
    && Permits(role.value, capability)
    && (principal in p.items[itemId].directRecipients || p.items[itemId].witnessed.Some?)
  }

  function ModeOf(item: ItemPolicy): (m: Option<AccessMode>) {
    match (item.directRecipients == {}, item.witnessed.None?)
    case (false, false) => Some(Mixed)
    case (false, true) => Some(DirectOnly)
    case (true, false) => Some(WitnessedOnly)
    case (true, true) => None
  }

  /** The exact revision and authority scope of one access, taken from current public state. */
  function CurrentToken(cfg: Config, itemId: ItemId, role: ContentRole, capability: Capability)
    : (r: Answer<RevisionToken>)
  {
    var p := cfg.vault.policy;
    if itemId !in cfg.vault.envelopes then Failure(ItemUnavailable)
    else if !AccessAllowed(p, itemId, cfg.principalId, capability) then Failure(ItemUnavailable)
    else
      var item, envelope := p.items[itemId], cfg.vault.envelopes[itemId];
      match ModeOf(item)
      case None => Failure(ItemUnavailable)
      case Some(mode) =>
        Success(RevisionToken(
          p.suite, p.vaultId, p.genesis, itemId, item.keyEpoch, role,
          if role == Descriptor then envelope.descriptorRevision else envelope.itemRevision,
          if role == Descriptor then envelope.descriptorSeal else envelope.itemSeal,
          p.sequence, p.terminalHash, cfg.principalId,
          EffectiveRole(p, itemId, cfg.principalId).value, mode, capability))
  }

  /** The allowed lifetime of a witnessed request, when the binding names the item's current witness policy. */
  function RequestLifetime(p: Policy, itemId: ItemId, b: Binding): (r: Option<nat>) {
    if itemId !in p.items || p.items[itemId].witnessed.None? || p.items[itemId].witnessed.value == [] then None
    else
      var first := p.items[itemId].witnessed.value[0];
      if first.policyDigest !in p.witnessPolicies then None
      else
        var w := p.witnessPolicies[first.policyDigest];
        if b.operation !in w.lifetimes
           || b.policyId != first.policyId || b.policyRevision != first.policyRevision
           || b.policyDigest != first.policyDigest
           || b.policyId != w.policyId || b.policyRevision != w.revision
           || b.intendedSet != w.intendedSet
        then None
        else Some(w.lifetimes[b.operation])
  }

  predicate DigestsPresent(b: Binding) {
    L.ZeroDigest !in {b.requestId, b.requestDigest, b.actionManifest, b.approvalTarget, b.workload,
                    b.policyCheckpoint, b.policyDigest, b.intendedSet, b.sessionKey}
  }

  predicate SlotFor(slot: WitnessedSlot, slotId: nat, token: RevisionToken) {
    && slot.slotId == slotId && slot.contentRole == token.contentRole && slot.revision == token.revision
    && slot.sealId == token.sealId && slot.keyEpoch == token.keyEpoch && slot.mode == token.mode
  }

  predicate SlotMatches(p: Policy, b: Binding, token: RevisionToken) {
    && token.itemId in p.items
    && p.items[token.itemId].witnessed.Some?
    && exists slot :: slot in p.items[token.itemId].witnessed.value && SlotFor(slot, b.slotId, token)
  }

  /** Every bound on the times of a witnessed request. */
  predicate TimesOk(cfg: Config, b: Binding, now: nat, lifetime: nat) {
    && cfg.startedAt <= b.issuedAt <= now < b.expiresAt <= cfg.absoluteExpiry
    && b.expiresAt - b.issuedAt <= lifetime
    && (b.notBefore.Some? ==> b.issuedAt <= b.notBefore.value <= b.expiresAt)
  }

  predicate ValidBinding(cfg: Config, b: Binding, token: RevisionToken, now: nat) {
    && DigestsPresent(b)
    && cfg.policyCheckpoint == Some(b.policyCheckpoint)
    && b.revision == token
    && RequestLifetime(cfg.vault.policy, token.itemId, b).Some?
    && TimesOk(cfg, b, now, RequestLifetime(cfg.vault.policy, token.itemId, b).value)
    && token.mode != DirectOnly
    && SlotMatches(cfg.vault.policy, b, token)
  }

  // ----- transitions -----

  function Terminal(s: Session, phase: Phase): (t: Session) {
    Session(phase, [], map[], None, None, s.lastActivity)
  }

  function LiveError(phase: Phase): (e: SessionError) {
    match phase
    case LockedPhase => SessionLocked
    case ExpiredPhase => SessionExpired
    case CancelledPhase => SessionCancelled
    case UnavailablePhase => ItemUnavailable
    case _ => SessionFailed
  }

  /** Inside the absolute and inactivity windows. */
  predicate InWindow(cfg: Config, s: Session, now: nat) {
    s.lastActivity <= now < cfg.absoluteExpiry && now - s.lastActivity < cfg.inactivity
  }

  function CheckLive(cfg: Config, s: Session, now: U64): (r: (Session, Option<SessionError>)) {
    if !s.phase.Operable() then (s, Some(LiveError(s.phase)))
    else if now < s.lastActivity then (Terminal(s, FailedPhase), Some(ClockRegression))
    else if !InWindow(cfg, s, now) then (Terminal(s, ExpiredPhase), Some(SessionExpired))
    else (s, None)
  }

  function StatusPhase(status: Status): (p: Phase)
    requires !status.StillPending?
  {
    match status
    case StatusDenied => DeniedPhase
    case StatusExpired => ExpiredPhase
    case StatusStale => StalePhase
    case StatusReplay => ReplayPhase
    case StatusUnavailable => UnavailablePhase
    case StatusCancelled => CancelledPhase
    case StatusInsufficientQuorum => InsufficientQuorumPhase
  }

  function ErrorPhase(e: ProviderError): (p: Phase) {
    match e
    case CancelledAccess => CancelledPhase
    case StalePolicy => StalePhase
    case Unauthorized => UnavailablePhase
    case WrongPrincipal => UnavailablePhase
    case DirectSlotUnavailable => UnavailablePhase
    case OtherProviderError => FailedPhase
  }

  function PhaseOutcome<T>(p: Phase): (o: AccessOutcome<T>) {
    match p
    case DeniedPhase => AccessDenied
    case ExpiredPhase => AccessExpired
    case StalePhase => AccessStale
    case ReplayPhase => AccessReplay
    case UnavailablePhase => AccessUnavailable
    case CancelledPhase => AccessCancelled
    case InsufficientQuorumPhase => AccessInsufficientQuorum
    case _ => AccessFailed
  }

  function Ended<T>(s: Session, p: Phase): (r: (Session, Answer<AccessOutcome<T>>)) {
    (Terminal(s, p), Success(PhaseOutcome(p)))
  }

  /** The provider's reply to an access that passed every check made before asking. */
  function Replied<T>(s: Session, a: Attempt, token: RevisionToken, reply: Reply<T>)
    : (r: (Session, Answer<AccessOutcome<T>>))
  {
    match reply
    case Complete(authority, value) =>
      var authorized := if authority.DirectAuthority? then a.binding.None? && s.pending.None? else a.binding.Some?;
      if !authorized then Ended(s, ReplayPhase)
      else
        var t := s.(pending := None, active := Some(token), lastActivity := a.now,
                    phase := if authority.DirectAuthority? then UnlockedItem else Approved);
        (t, Success(if authority.DirectAuthority? then Direct(value) else WitnessedApproved(value)))
    case Witnessed(status) =>
      if a.binding.None? then Ended(s, FailedPhase)
      else if status.StillPending? then
        (s.(pending := a.binding, phase := WitnessPending), Success(Pending))
      else Ended(s, StatusPhase(status))
    case ProviderFailed(error) => Ended(s, ErrorPhase(error))
    case ConsumerFailed => Ended(s, FailedPhase)
  }

  /** One access to one revision, from the liveness check to the reply. */
  function Accessed<T>(cfg: Config, s: Session, a: Attempt, reply: Reply<T>)
    : (r: (Session, Answer<AccessOutcome<T>>))
  {
    var (live, error) := CheckLive(cfg, s, a.now);
    if error.Some? then (live, Failure(error.value))
    else if a.cancelled then Ended(s, CancelledPhase)
    else
      var current := CurrentToken(cfg, a.itemId, a.contentRole, a.capability);
      if current.Failure? then (s, Failure(current.error))
      else if s.pending.Some? && a.binding != s.pending then Ended(s, ReplayPhase)
      else if a.binding.Some? && a.binding.value.expiresAt <= a.now then Ended(s, ExpiredPhase)
      else if a.binding.Some? && !ValidBinding(cfg, a.binding.value, current.value, a.now) then
        if s.pending.Some? then Ended(s, ReplayPhase) else (s, Failure(InvalidBinding))
      else if a.binding.Some? && a.binding.value.notBefore.Some? && a.now < a.binding.value.notBefore.value then
        (s.(pending := a.binding, active := Some(current.value), phase := WitnessPending), Success(Pending))
      else Replied(s, a, current.value, reply)
  }

  // ----- catalog -----

  predicate Listed(catalog: seq<Entry>, itemId: ItemId) {
    exists k :: 0 <= k < |catalog| && catalog[k].itemId == itemId
  }

  predicate CatalogOk(catalog: seq<Entry>) {
    && |catalog| <= MAX_ACCESSIBLE_CATALOG_ITEMS
    && forall i, j :: 0 <= i < j < |catalog| ==>
      catalog[i].itemId != catalog[j].itemId && catalog[i].name != catalog[j].name
  }

  function Resolve(catalog: seq<Entry>, name: Name): (r: Option<ItemId>) {
    if catalog == [] then None
    else if catalog[0].name == name then Some(catalog[0].itemId)
    else Resolve(catalog[1..], name)
  }

  /** Catalogue a decrypted descriptor; None is a name that does not parse. */
  function Catalogued(cfg: Config, s: Session, itemId: ItemId, name: Option<Name>)
    : (r: (Session, Option<SessionError>))
  {
    var role := EffectiveRole(cfg.vault.policy, itemId, cfg.principalId);
    if name.None? then (s, Some(SessionFailed))
    else if role.None? then (s, Some(ItemUnavailable))
    else
      var next := s.catalog + [Entry(itemId, name.value, role.value)];
      if |next| > MAX_ACCESSIBLE_CATALOG_ITEMS then (s, Some(Capacity))
      else if !CatalogOk(next) then (s, Some(Conflict))
      else (s.(catalog := next), None)
  }

  // ----- operations -----

  /** A plaintext handed out, with everything that authorized it. */
  datatype Release = Release(now: U64, authority: Authority, binding: Option<Binding>, token: RevisionToken)

  datatype Op =
    | Discover(itemId: ItemId, binding: Option<Binding>, now: U64, cancelled: bool, descriptor: Reply<Option<Name>>)
    | Open(name: Name, capability: Capability, binding: Option<Binding>, now: U64, cancelled: bool,
           body: Reply<seq<nat>>)
    | Preflight(names: seq<Name>, now: U64)
    | Snapshot(now: U64)
    | Refresh(vault: PublicVault, checkpoint: L.CheckpointBody, digest: Option<L.Digest>, now: U64)
    | Cancel
    | Lock

  function Discovered(cfg: Config, s: Session, itemId: ItemId, binding: Option<Binding>, now: U64, cancelled: bool,
                      reply: Reply<Option<Name>>): (r: (Session, Answer<AccessOutcome<()>>))
  {
    if Listed(s.catalog, itemId) then
      var (live, error) := CheckLive(cfg, s, now);
      (live, if error.Some? then Failure(error.value) else Success(Direct(())))
    else
      var (t, answer) := Accessed(cfg, s, Attempt(itemId, Descriptor, Read, binding, now, cancelled), reply);
      match answer
      case Failure(e) => (t, Failure(e))
      case Success(outcome) =>
        if outcome.Completes() then
          var (u, error) := Catalogued(cfg, t, itemId, outcome.value);
          (u, if error.Some? then Failure(error.value)
              else Success(if outcome.Direct? then Direct(()) else WitnessedApproved(())))
        else (t, Success(PhaseOutcomeOf(outcome)))
  }

  /** The same outcome at another value type, for outcomes without a value. */
  function PhaseOutcomeOf<T, U>(o: AccessOutcome<T>): (r: AccessOutcome<U>)
    requires !o.Completes()
  {
    match o
    case Pending => Pending
    case AccessDenied => AccessDenied
    case AccessExpired => AccessExpired
    case AccessStale => AccessStale
    case AccessReplay => AccessReplay
    case AccessUnavailable => AccessUnavailable
    case AccessCancelled => AccessCancelled
    case AccessFailed => AccessFailed
    case AccessInsufficientQuorum => AccessInsufficientQuorum
  }

  function Latest(times: seq<nat>): (r: Option<nat>) {
    if times == [] then None
    else
      match Latest(times[1..])
      case None => Some(times[0])
      case Some(t) => Some(if times[0] > t then times[0] else t)
  }

  function Opened(cfg: Config, s: Session, name: Name, capability: Capability, binding: Option<Binding>, now: U64,
                  cancelled: bool, reply: Reply<seq<nat>>): (r: (Session, Answer<AccessOutcome<seq<nat>>>))
  {
    match Resolve(s.catalog, name)
    case None => (s, Failure(ItemUnavailable))
    case Some(itemId) =>
      var (t, answer) := Accessed(cfg, s, Attempt(itemId, Body, capability, binding, now, cancelled), reply);
      if answer.Success? && answer.value.Completes() then
        var fields := answer.value.value;
        (t.(metadata := t.metadata[itemId := Metadata(|fields|, Latest(fields))]), answer)
      else (t, answer)
  }

  function Refreshed(cfg: Config, s: Session, vault: PublicVault, checkpoint: L.CheckpointBody,
                     digest: Option<L.Digest>, now: U64): (r: (Session, Option<SessionError>))
  {
    var (live, error) := CheckLive(cfg, s, now);
    if error.Some? then (live, error)
    else
      var p, q := cfg.vault.policy, vault.policy;
      var same :=
        && s.pending.None?
        && q.vaultId == p.vaultId && q.genesis == p.genesis && q.sequence == p.sequence
        && q.terminalHash == p.terminalHash
        && checkpoint.scope.principalId == cfg.principalId
        && checkpoint.accepted == p.terminalHash
        && L.RelationTo(vault.candidate, checkpoint) == L.Ok(L.Equal)
        && digest == cfg.policyCheckpoint;
      if same then (s.(lastActivity := now, phase := Principal), None)
      else (Terminal(s, StalePhase), Some(CheckpointConflict))
  }

  /** The item identifiers the names resolve to, when all do and none repeats. */
  function Preflighted(catalog: seq<Entry>, names: seq<Name>): (r: Answer<seq<ItemId>>) {
    if names == [] then Success([])
    else
      var last := |names| - 1;
      match Preflighted(catalog, names[..last])
      case Failure(e) => Failure(e)
      case Success(ids) =>
        match Resolve(catalog, names[last])
        case None => Failure(ItemUnavailable)
        case Some(id) => if id in ids then Failure(Conflict) else Success(ids + [id])
  }

  /** Every catalogued item is still in the policy and has an envelope. */
  predicate CatalogCurrent(cfg: Config, catalog: seq<Entry>) {
    forall k :: 0 <= k < |catalog| ==>
      catalog[k].itemId in cfg.vault.policy.items && catalog[k].itemId in cfg.vault.envelopes
  }

  function Snapshotted(cfg: Config, s: Session, now: U64): (r: (Session, Option<SessionError>)) {
    var (live, error) := CheckLive(cfg, s, now);
    if error.Some? then (live, error)
    else if !CatalogCurrent(cfg, s.catalog) then (s, Some(SessionFailed))
    else (s.(lastActivity := now), None)
  }

  function PreflightStep(cfg: Config, s: Session, names: seq<Name>, now: U64): (r: (Session, Answer<seq<ItemId>>)) {
    var (live, error) := CheckLive(cfg, s, now);
    if error.Some? then (live, Failure(error.value))
    else if names == [] || |names| > MAX_PREFLIGHT_ITEMS then (s, Failure(Capacity))
    else
      var ids := Preflighted(s.catalog, names);
      (if ids.Success? then s.(lastActivity := now) else s, ids)
  }

  function Released<T>(t: Session, binding: Option<Binding>, now: U64, answer: Answer<AccessOutcome<T>>)
    : (r: Option<Release>)
  {
    if answer.Success? && answer.value.Completes() && t.active.Some? then
      Some(Release(now, if answer.value.Direct? then DirectAuthority else WitnessedAuthority, binding, t.active.value))
    else None
  }

  /** The next session state and the plaintext released on the way, if any. */
  function Step(cfg: Config, s: Session, op: Op): (r: (Session, Option<Release>)) {
    match op
    case Discover(itemId, binding, now, cancelled, reply) =>
      var (t, answer) := Discovered(cfg, s, itemId, binding, now, cancelled, reply);
      (t, if Listed(s.catalog, itemId) then None else Released(t, binding, now, answer))
    case Open(name, capability, binding, now, cancelled, reply) =>
      var (t, answer) := Opened(cfg, s, name, capability, binding, now, cancelled, reply);
      (t, Released(t, binding, now, answer))
    case Preflight(names, now) => (PreflightStep(cfg, s, names, now).0, None)
    case Snapshot(now) => (Snapshotted(cfg, s, now).0, None)
    case Refresh(vault, checkpoint, digest, now) => (Refreshed(cfg, s, vault, checkpoint, digest, now).0, None)
    case Cancel => (Terminal(s, CancelledPhase), None)
    case Lock => (Terminal(s, LockedPhase), None)
  }

  function Started(cfg: Config): (s: Session) {
    Session(Principal, [], map[], None, None, cfg.startedAt)
  }

  /** Opening a session on a checkpoint that agrees exactly with the public state. */
  function StartSession(vault: PublicVault, principalId: PrincipalId, checkpoint: L.CheckpointBody,
                        digest: Option<L.Digest>, inactivity: U64, lifetime: U64, now: U64): (r: Answer<Config>)
  {
    var p := vault.policy;
    if inactivity == 0 || lifetime == 0 || inactivity > lifetime then Failure(InvalidLimits)
    else if checkpoint.scope.vaultId != p.vaultId || checkpoint.scope.genesis != p.genesis
            || checkpoint.scope.principalId != principalId then Failure(ScopeMismatchError)
    else if principalId !in p.principals then Failure(UnknownPrincipal)
    else if now < checkpoint.updatedAt then Failure(ClockRegression)
    else if L.RelationTo(vault.candidate, checkpoint) != L.Ok(L.Equal) || checkpoint.accepted != p.terminalHash then
      Failure(CheckpointConflict)
    else if now + lifetime > MAX_U64 then Failure(InvalidLimits)
    else Success(Config(vault, principalId, digest, inactivity, now, now + lifetime))
  }

  datatype Trace = Trace(end: Session, releases: seq<Release>)

  function Run(cfg: Config, s: Session, ops: seq<Op>): (r: Trace)
    decreases |ops|
  {
    if ops == [] then Trace(s, [])
    else
      var (t, release) := Step(cfg, s, ops[0]);
      var rest := Run(cfg, t, ops[1..]);
      Trace(rest.end, (if release.Some? then [release.value] else []) + rest.releases)
  }
}

/** What every run of a session keeps, whatever the provider answers. */
module SessionSafety {
  import opened Common
  import opened SessionModel
  import L = LocalState

  // ----- the session invariant -----

  /** The token of the revision that public state currently has for its item, role and capability. */
  predicate IsCurrent(cfg: Config, token: RevisionToken) {
    CurrentToken(cfg, token.itemId, token.contentRole, token.capability) == Success(token)
  }

  predicate ConfigOk(cfg: Config) {
    cfg.startedAt < cfg.absoluteExpiry && 0 < cfg.inactivity
  }

  predicate Cleared(s: Session) {
    s.catalog == [] && s.metadata == map[] && s.pending.None? && s.active.None?
  }

  predicate Inv(cfg: Config, s: Session) {
    && (s.pending.Some? <==> s.phase.WitnessPending?)
    && (s.phase.Approved? || s.phase.UnlockedItem? ==> s.active.Some?)
    && (!s.phase.Operable() ==> Cleared(s))
    && (s.active.Some? ==> IsCurrent(cfg, s.active.value))
    && (s.pending.Some? ==> Awaitable(cfg, s.pending.value))
    && CatalogOk(s.catalog)
    && CatalogCurrent(cfg, s.catalog)
    && (forall id :: id in s.metadata ==> Listed(s.catalog, id))
    && cfg.startedAt <= s.lastActivity < cfg.absoluteExpiry
  }

  lemma TerminalInv(cfg: Config, s: Session, phase: Phase)
    requires Inv(cfg, s) && !phase.Operable()
    ensures Inv(cfg, Terminal(s, phase))
  {}

  lemma TokenFacts(cfg: Config, itemId: ItemId, role: ContentRole, capability: Capability)
    requires CurrentToken(cfg, itemId, role, capability).Success?
    ensures var token := CurrentToken(cfg, itemId, role, capability).value;
            && IsCurrent(cfg, token) && token.itemId == itemId && token.principalId == cfg.principalId
            && itemId in cfg.vault.policy.items && itemId in cfg.vault.envelopes
            && AccessAllowed(cfg.vault.policy, itemId, cfg.principalId, capability)
  {}

  lemma ValidWhenIssued(cfg: Config, b: Binding, token: RevisionToken, now: nat)
    requires ValidBinding(cfg, b, token, now)
    ensures b.revision == token && now < b.expiresAt && ValidBinding(cfg, b, token, b.issuedAt)
  {}

  /** An access completes exactly when every bound on it holds and the reply claims the matching authority. */
  predicate Completable<T>(cfg: Config, s: Session, a: Attempt, reply: Reply<T>) {
    && s.phase.Operable() && InWindow(cfg, s, a.now) && !a.cancelled
    && CurrentToken(cfg, a.itemId, a.contentRole, a.capability).Success?
    && (s.pending.Some? ==> a.binding == s.pending)
    && (a.binding.Some? ==>
          && ValidBinding(cfg, a.binding.value, CurrentToken(cfg, a.itemId, a.contentRole, a.capability).value, a.now)
          && (a.binding.value.notBefore.Some? ==> a.binding.value.notBefore.value <= a.now))
    && reply.Complete?
    && (reply.authority.DirectAuthority? <==> a.binding.None?)
  }

  lemma CompletesExactly<T>(cfg: Config, s: Session, a: Attempt, reply: Reply<T>)
    ensures var (t, answer) := Accessed(cfg, s, a, reply);
            (answer.Success? && answer.value.Completes() <==> Completable(cfg, s, a, reply))
    ensures var (t, answer) := Accessed(cfg, s, a, reply);
            Completable(cfg, s, a, reply) ==>
              && answer.value.value == reply.value
              && (answer.value.Direct? <==> a.binding.None?)
              && t == s.(pending := None, lastActivity := a.now,
                         active := Some(CurrentToken(cfg, a.itemId, a.contentRole, a.capability).value),
                         phase := if a.binding.None? then UnlockedItem else Approved)
  {
    hide ValidBinding, CurrentToken;
    var current := CurrentToken(cfg, a.itemId, a.contentRole, a.capability);
    if current.Success? && a.binding.Some? && ValidBinding(cfg, a.binding.value, current.value, a.now) {
      ValidWhenIssued(cfg, a.binding.value, current.value, a.now);
    }
  }

  /** The binding is one a request may wait on. */
  predicate Awaitable(cfg: Config, b: Binding) {
    IsCurrent(cfg, b.revision) && ValidBinding(cfg, b, b.revision, b.issuedAt)
  }

  lemma RepliedInv<T>(cfg: Config, s: Session, a: Attempt, token: RevisionToken, reply: Reply<T>)
    requires Inv(cfg, s) && s.phase.Operable() && InWindow(cfg, s, a.now) && IsCurrent(cfg, token)
    requires a.binding.Some? ==> Awaitable(cfg, a.binding.value)
    ensures Inv(cfg, Replied(s, a, token, reply).0)
  {
    hide ValidBinding, IsCurrent, CatalogOk, CatalogCurrent, Listed;
    EmptyCatalog(cfg);
  }

  lemma AccessInv<T>(cfg: Config, s: Session, a: Attempt, reply: Reply<T>)
    requires Inv(cfg, s)
    ensures Inv(cfg, Accessed(cfg, s, a, reply).0)
  {
    hide ValidBinding, CurrentToken, IsCurrent, CatalogOk, CatalogCurrent, Listed, Replied;
    EmptyCatalog(cfg);
    if CurrentToken(cfg, a.itemId, a.contentRole, a.capability).Success? {
      TokenFacts(cfg, a.itemId, a.contentRole, a.capability);
      var token := CurrentToken(cfg, a.itemId, a.contentRole, a.capability).value;
      if a.binding.Some? && ValidBinding(cfg, a.binding.value, token, a.now) {
        ValidWhenIssued(cfg, a.binding.value, token, a.now);
      }
      if CheckLive(cfg, s, a.now).1.None?
         && (a.binding.Some? ==> ValidBinding(cfg, a.binding.value, token, a.now)) {
        RepliedInv(cfg, s, a, token, reply);
      }
    }
  }

  lemma EmptyCatalog(cfg: Config)
    ensures CatalogOk([]) && CatalogCurrent(cfg, [])
  {}

  lemma CataloguedInv(cfg: Config, s: Session, itemId: ItemId, name: Option<Name>)
    requires Inv(cfg, s) && s.phase.Operable()
    requires itemId in cfg.vault.policy.items && itemId in cfg.vault.envelopes
    ensures Inv(cfg, Catalogued(cfg, s, itemId, name).0)
    ensures Catalogued(cfg, s, itemId, name).0.active == s.active
    ensures Catalogued(cfg, s, itemId, name).0.phase == s.phase
  {
    hide ValidBinding, IsCurrent, CatalogOk;
    var t := Catalogued(cfg, s, itemId, name).0;
    if t != s {
      forall id | Listed(s.catalog, id) ensures Listed(t.catalog, id) {
        var k :| 0 <= k < |s.catalog| && s.catalog[k].itemId == id;
        assert t.catalog[k].itemId == id;
      }
    }
  }

  lemma {:induction false} ResolvedIsListed(catalog: seq<Entry>, name: Name)
    ensures Resolve(catalog, name).Some? ==> Listed(catalog, Resolve(catalog, name).value)
  {
    if catalog != [] && catalog[0].name != name && Resolve(catalog[1..], name).Some? {
      var id := Resolve(catalog[1..], name).value;
      ResolvedIsListed(catalog[1..], name);
      var k :| 0 <= k < |catalog[1..]| && catalog[1..][k].itemId == id;
      assert catalog[k + 1].itemId == id;
    }
  }

  // ----- one step -----

  /** The facts behind one release from state s. */
  predicate ReleaseOk(cfg: Config, s: Session, r: Release) {
    && s.phase.Operable() && InWindow(cfg, s, r.now)
    && IsCurrent(cfg, r.token)
    && (r.authority.DirectAuthority? <==> r.binding.None?)
    && (s.pending.Some? ==> r.binding == s.pending)
    && (r.binding.Some? ==>
          && ValidBinding(cfg, r.binding.value, r.token, r.now)
          && (r.binding.value.notBefore.Some? ==> r.binding.value.notBefore.value <= r.now))
  }

  lemma DiscoverStep(cfg: Config, s: Session, op: Op)
    requires Inv(cfg, s) && op.Discover?
    ensures Inv(cfg, Step(cfg, s, op).0)
    ensures Step(cfg, s, op).1.Some? ==> ReleaseOk(cfg, s, Step(cfg, s, op).1.value)
  {
    hide ValidBinding, CurrentToken, CatalogOk, CatalogCurrent, Listed, Accessed, Catalogued, Inv;
    if Listed(s.catalog, op.itemId) {
      LiveInv(cfg, s, op.now);
    } else {
      var a := Attempt(op.itemId, Descriptor, Read, op.binding, op.now, op.cancelled);
      AccessInv(cfg, s, a, op.descriptor);
      CompletesExactly(cfg, s, a, op.descriptor);
      if Completable(cfg, s, a, op.descriptor) {
        TokenFacts(cfg, op.itemId, Descriptor, Read);
        CataloguedInv(cfg, Accessed(cfg, s, a, op.descriptor).0, op.itemId, op.descriptor.value);
      }
    }
  }

  lemma LiveInv(cfg: Config, s: Session, now: U64)
    requires Inv(cfg, s)
    ensures Inv(cfg, CheckLive(cfg, s, now).0)
    ensures CheckLive(cfg, s, now).1.None? <==> s.phase.Operable() && InWindow(cfg, s, now)
    ensures CheckLive(cfg, s, now).1.None? ==> CheckLive(cfg, s, now).0 == s
  {
    hide ValidBinding, CurrentToken;
  }

  lemma OpenStep(cfg: Config, s: Session, op: Op)
    requires Inv(cfg, s) && op.Open?
    ensures Inv(cfg, Step(cfg, s, op).0)
    ensures Step(cfg, s, op).1.Some? ==> ReleaseOk(cfg, s, Step(cfg, s, op).1.value)
  {
    hide ValidBinding, CurrentToken, CatalogOk, CatalogCurrent, Listed, Accessed;
    ResolvedIsListed(s.catalog, op.name);
    if Resolve(s.catalog, op.name).Some? {
      var itemId := Resolve(s.catalog, op.name).value;
      var a := Attempt(itemId, Body, op.capability, op.binding, op.now, op.cancelled);
      AccessInv(cfg, s, a, op.body);
      CompletesExactly(cfg, s, a, op.body);
      if Completable(cfg, s, a, op.body) {
        TokenFacts(cfg, itemId, Body, op.capability);
      }
    }
  }

  /** Every operation keeps the invariant, and releases plaintext only inside every window. */
  lemma StepKeeps(cfg: Config, s: Session, op: Op)
    requires Inv(cfg, s)
    ensures Inv(cfg, Step(cfg, s, op).0)
    ensures Step(cfg, s, op).1.Some? ==> ReleaseOk(cfg, s, Step(cfg, s, op).1.value)
  {
    hide ValidBinding, CurrentToken, CatalogOk, Listed, Discovered, Opened;
    match op
    case Discover(_, _, _, _, _) => DiscoverStep(cfg, s, op);
    case Open(_, _, _, _, _, _) => OpenStep(cfg, s, op);
    case Preflight(_, now) => LiveInv(cfg, s, now);
    case Snapshot(now) => LiveInv(cfg, s, now);
    case Refresh(_, _, _, now) => LiveInv(cfg, s, now); TerminalInv(cfg, s, StalePhase);
    case Cancel => TerminalInv(cfg, s, CancelledPhase);
    case Lock => TerminalInv(cfg, s, LockedPhase);
  }

  // ----- whole runs -----

  /** Bounds that hold of a release whatever the state it came from. */
  predicate ReleaseBounds(cfg: Config, r: Release) {
    && cfg.startedAt <= r.now < cfg.absoluteExpiry
    && IsCurrent(cfg, r.token)
    && (r.authority.DirectAuthority? <==> r.binding.None?)
    && (r.binding.Some? ==>
          var b := r.binding.value;
          && b.revision == r.token
          && cfg.policyCheckpoint == Some(b.policyCheckpoint)
          && cfg.startedAt <= b.issuedAt <= r.now < b.expiresAt <= cfg.absoluteExpiry
          && (b.notBefore.Some? ==> b.notBefore.value <= r.now)
          && RequestLifetime(cfg.vault.policy, r.token.itemId, b).Some?
          && b.expiresAt - b.issuedAt <= RequestLifetime(cfg.vault.policy, r.token.itemId, b).value)
  }

  lemma ReleaseIsBounded(cfg: Config, s: Session, r: Release)
    requires Inv(cfg, s) && ReleaseOk(cfg, s, r)
    ensures ReleaseBounds(cfg, r)
  {
    hide CurrentToken, RequestLifetime, SlotMatches, DigestsPresent;
  }

  lemma AccessActivity<T>(cfg: Config, s: Session, a: Attempt, reply: Reply<T>)
    ensures s.lastActivity <= Accessed(cfg, s, a, reply).0.lastActivity
    ensures Completable(cfg, s, a, reply) ==> Accessed(cfg, s, a, reply).0.lastActivity == a.now
  {
    hide ValidBinding, CurrentToken;
    CompletesExactly(cfg, s, a, reply);
  }

  /** Recorded activity never moves back, and a release is recorded at its own time. */
  lemma StepActivity(cfg: Config, s: Session, op: Op)
    ensures s.lastActivity <= Step(cfg, s, op).0.lastActivity
    ensures Step(cfg, s, op).1.Some? ==> Step(cfg, s, op).0.lastActivity == Step(cfg, s, op).1.value.now
  {
    hide CatalogOk, CatalogCurrent, Listed, Resolve, Preflighted, Accessed, Completable;
    match op
    case Discover(itemId, binding, now, cancelled, reply) =>
      var a := Attempt(itemId, Descriptor, Read, binding, now, cancelled);
      CompletesExactly(cfg, s, a, reply);
      AccessActivity(cfg, s, a, reply);
    case Open(name, capability, binding, now, cancelled, reply) =>
      if Resolve(s.catalog, name).Some? {
        var a := Attempt(Resolve(s.catalog, name).value, Body, capability, binding, now, cancelled);
        CompletesExactly(cfg, s, a, reply);
        AccessActivity(cfg, s, a, reply);
      }
    case _ =>
  }

  predicate InTimeOrder(rs: seq<Release>, low: nat, high: nat) {
    && (forall i :: 0 <= i < |rs| ==> low <= rs[i].now <= high)
    && (forall i, j :: 0 <= i < j < |rs| ==> rs[i].now <= rs[j].now)
  }

  /** In every run each release is inside every window, and releases come in time order. */
  lemma {:induction false} RunKeeps(cfg: Config, s: Session, ops: seq<Op>)
    requires Inv(cfg, s)
    ensures Inv(cfg, Run(cfg, s, ops).end)
    ensures forall r :: r in Run(cfg, s, ops).releases ==> ReleaseBounds(cfg, r)
    ensures InTimeOrder(Run(cfg, s, ops).releases, s.lastActivity, Run(cfg, s, ops).end.lastActivity)
    ensures s.lastActivity <= Run(cfg, s, ops).end.lastActivity
    decreases |ops|
  {
    hide Inv, Step, ReleaseBounds, ReleaseOk;
    if ops == [] {
    } else {
      var (t, release) := Step(cfg, s, ops[0]);
      StepKeeps(cfg, s, ops[0]);
      StepActivity(cfg, s, ops[0]);
      if release.Some? {
        ReleaseIsBounded(cfg, s, release.value);
      }
      RunKeeps(cfg, t, ops[1..]);
    }
  }

  lemma StartedInv(cfg: Config)
    requires ConfigOk(cfg)
    ensures Inv(cfg, Started(cfg))
  {
    EmptyCatalog(cfg);
  }

  /** A started session runs for a known principal on public state its checkpoint accepted last. */
  lemma StartEstablishes(vault: PublicVault, principalId: PrincipalId, checkpoint: L.CheckpointBody,
                         digest: Option<L.Digest>, inactivity: U64, lifetime: U64, now: U64)
    requires StartSession(vault, principalId, checkpoint, digest, inactivity, lifetime, now).Success?
    ensures var cfg := StartSession(vault, principalId, checkpoint, digest, inactivity, lifetime, now).value;
            && ConfigOk(cfg) && Inv(cfg, Started(cfg))
            && cfg.absoluteExpiry - cfg.startedAt == lifetime >= cfg.inactivity
            && principalId in vault.policy.principals
            && vault.candidate.history != []
            && vault.candidate.history[|vault.candidate.history| - 1] == vault.policy.terminalHash
  {
    StartedInv(StartSession(vault, principalId, checkpoint, digest, inactivity, lifetime, now).value);
  }

  ghost predicate Reachable(cfg: Config, s: Session) {
    exists ops: seq<Op> :: Run(cfg, Started(cfg), ops).end == s
  }

  /** Every reachable state satisfies the session invariant, and whatever is done next releases plaintext only inside
      the inactivity window as well as every other. */
  lemma ReachableInv(cfg: Config, s: Session)
    requires ConfigOk(cfg) && Reachable(cfg, s)
    ensures Inv(cfg, s)
    ensures forall op :: Step(cfg, s, op).1.Some? ==> ReleaseOk(cfg, s, Step(cfg, s, op).1.value)
  {
    hide Inv, Run, Step, ReleaseOk;
    var ops: seq<Op> :| Run(cfg, Started(cfg), ops).end == s;
    StartedInv(cfg);
    RunKeeps(cfg, Started(cfg), ops);
    forall op | Step(cfg, s, op).1.Some? ensures ReleaseOk(cfg, s, Step(cfg, s, op).1.value) {
      StepKeeps(cfg, s, op);
    }
  }

  // ----- terminal phases -----

  lemma TerminalStep(cfg: Config, s: Session, op: Op)
    requires Inv(cfg, s) && !s.phase.Operable()
    ensures !Step(cfg, s, op).0.phase.Operable() && Step(cfg, s, op).1.None?
  {
    hide ValidBinding, CurrentToken, CatalogOk, CatalogCurrent, Listed;
  }

  /** A terminal session stays terminal, holds nothing and releases nothing. */
  lemma {:induction false} TerminalRun(cfg: Config, s: Session, ops: seq<Op>)
    requires Inv(cfg, s) && !s.phase.Operable()
    ensures !Run(cfg, s, ops).end.phase.Operable() && Cleared(Run(cfg, s, ops).end)
    ensures Run(cfg, s, ops).releases == []
    decreases |ops|
  {
    hide Step;
    if ops == [] {
    } else {
      TerminalStep(cfg, s, ops[0]);
      StepKeeps(cfg, s, ops[0]);
      TerminalRun(cfg, Step(cfg, s, ops[0]).0, ops[1..]);
    }
  }

  // ----- a pending request -----

  /** An attempt that reaches the pending check with any other binding ends the session as a replay, unasked. */
  lemma PendingIsPinned<T>(cfg: Config, s: Session, a: Attempt, reply: Reply<T>)
    requires Inv(cfg, s) && s.pending.Some? && InWindow(cfg, s, a.now) && !a.cancelled
    requires CurrentToken(cfg, a.itemId, a.contentRole, a.capability).Success?
    ensures a.binding != s.pending ==>
              Accessed(cfg, s, a, reply) == (Terminal(s, ReplayPhase), Success(AccessReplay))
    ensures a.binding == s.pending && a.now < s.pending.value.expiresAt
            && CurrentToken(cfg, a.itemId, a.contentRole, a.capability).value != s.pending.value.revision ==>
              Accessed(cfg, s, a, reply) == (Terminal(s, ReplayPhase), Success(AccessReplay))
    ensures a.binding == s.pending && s.pending.value.expiresAt <= a.now ==>
              Accessed(cfg, s, a, reply) == (Terminal(s, ExpiredPhase), Success(AccessExpired))
  {
    hide CurrentToken, RequestLifetime, SlotMatches, DigestsPresent, CatalogOk, CatalogCurrent, Listed;
  }

  /** The operation completes an access under binding b for exactly the revision that b names. */
  predicate Approves(cfg: Config, s: Session, op: Op, b: Binding) {
    match op
    case Discover(itemId, binding, now, cancelled, reply) =>
      && binding == Some(b) && !Listed(s.catalog, itemId)
      && Completable(cfg, s, Attempt(itemId, Descriptor, Read, binding, now, cancelled), reply)
      && CurrentToken(cfg, itemId, Descriptor, Read) == Success(b.revision)
    case Open(name, capability, binding, now, cancelled, reply) =>
      && binding == Some(b) && Resolve(s.catalog, name).Some?
      && var itemId := Resolve(s.catalog, name).value;
      && Completable(cfg, s, Attempt(itemId, Body, capability, binding, now, cancelled), reply)
      && CurrentToken(cfg, itemId, Body, capability) == Success(b.revision)
    case _ => false
  }

  lemma CompletionMatches<T>(cfg: Config, s: Session, a: Attempt, reply: Reply<T>)
    requires Inv(cfg, s) && s.pending.Some? && Completable(cfg, s, a, reply)
    ensures a.binding == s.pending
    ensures CurrentToken(cfg, a.itemId, a.contentRole, a.capability) == Success(s.pending.value.revision)
  {
    hide CurrentToken, RequestLifetime, SlotMatches, DigestsPresent, CatalogOk, CatalogCurrent, Listed;
  }

  lemma IncompleteAccess<T>(cfg: Config, s: Session, a: Attempt, reply: Reply<T>)
    requires Inv(cfg, s) && s.pending.Some? && !Completable(cfg, s, a, reply)
    ensures var t := Accessed(cfg, s, a, reply).0;
            !t.phase.Operable() || t.pending == s.pending
  {
    hide ValidBinding, CurrentToken, CatalogOk, CatalogCurrent, Listed;
    CompletesExactly(cfg, s, a, reply);
  }

  /** From a pending state one step approves exactly that request, keeps waiting on it, or ends the session. */
  lemma PendingStep(cfg: Config, s: Session, op: Op)
    requires Inv(cfg, s) && s.pending.Some?
    ensures var (t, release) := Step(cfg, s, op);
            if Approves(cfg, s, op, s.pending.value) then
              release.Some? ==> release.value.binding == s.pending && release.value.token == s.pending.value.revision
            else
              release.None? && (t.pending == s.pending || !t.phase.Operable())
  {
    hide ValidBinding, CurrentToken, CatalogOk, CatalogCurrent, Listed, Accessed, Inv, Preflighted;
    match op
    case Discover(itemId, binding, now, cancelled, reply) =>
      LiveStaysPending(cfg, s, now);
      if !Listed(s.catalog, itemId) {
        var a := Attempt(itemId, Descriptor, Read, binding, now, cancelled);
        CompletesExactly(cfg, s, a, reply);
        if Completable(cfg, s, a, reply) {
          CompletionMatches(cfg, s, a, reply);
        } else {
          IncompleteAccess(cfg, s, a, reply);
        }
      }
    case Open(name, capability, binding, now, cancelled, reply) =>
      if Resolve(s.catalog, name).Some? {
        var a := Attempt(Resolve(s.catalog, name).value, Body, capability, binding, now, cancelled);
        CompletesExactly(cfg, s, a, reply);
        if Completable(cfg, s, a, reply) {
          CompletionMatches(cfg, s, a, reply);
        } else {
          IncompleteAccess(cfg, s, a, reply);
        }
      }
    case Preflight(_, now) => LiveStaysPending(cfg, s, now);
    case Snapshot(now) => LiveStaysPending(cfg, s, now);
    case Refresh(_, _, _, now) => LiveStaysPending(cfg, s, now);
    case Cancel =>
    case Lock =>
  }

  lemma LiveStaysPending(cfg: Config, s: Session, now: U64)
    ensures var t := CheckLive(cfg, s, now).0; t == s || !t.phase.Operable()
  {}

  /**
   From the moment a request is pending nothing is released until an access
   with the identical binding for the identical revision is approved; a run
   without such an access releases nothing at all.
   */
  lemma {:induction false} PendingUntilApproved(cfg: Config, s: Session, ops: seq<Op>) returns (k: nat)
    requires Inv(cfg, s) && s.pending.Some?
    ensures k <= |ops|
    ensures Run(cfg, s, ops[..k]).releases == []
    ensures Run(cfg, s, ops).releases == []
            || (k < |ops| && Approves(cfg, Run(cfg, s, ops[..k]).end, ops[k], s.pending.value)
                && Run(cfg, s, ops[..k]).end.pending == s.pending)
    decreases |ops|
  {
    hide Inv, Step, Approves;
    k := 0;
    assert ops[..0] == [];
    if ops != [] && !Approves(cfg, s, ops[0], s.pending.value) {
      var t := Step(cfg, s, ops[0]).0;
      PendingStep(cfg, s, ops[0]);
      StepKeeps(cfg, s, ops[0]);
      if t.phase.Operable() {
        var rest := PendingUntilApproved(cfg, t, ops[1..]);
        k := rest + 1;
        assert ops[..k][1..] == ops[1..][..rest] && ops[..k][0] == ops[0];
      } else {
        TerminalRun(cfg, t, ops[1..]);
      }
    }
  }
}

/** The session object and the methods that update it. */
module SessionObject {
  import opened Common
  import opened SessionModel
  import L = LocalState

  datatype ItemSnapshot = ItemSnapshot(
    itemId: ItemId,
    name: Name,
    role: AccessRole,
    keyEpoch: nat,
    itemRevision: nat,
    metadata: Option<Metadata>
  )

  /** A view of the whole session: its public state, phase, times, items, pending request and active revision. */
  datatype SessionSnapshot = SessionSnapshot(
    vaultId: nat,
    policySequence: nat,
    policyHash: L.Digest,
    principalId: PrincipalId,
    phase: Phase,
    startedAt: U64,
    lastActivity: U64,
    absoluteExpiry: U64,
    items: seq<ItemSnapshot>,
    pendingRequest: Option<L.Digest>,
    active: Option<RevisionToken>
  )

  class PrincipalVaultSession {
    const cfg: Config
    var phase: Phase
    var catalog: seq<Entry>
    var metadata: map<ItemId, Metadata>
    var pending: Option<Binding>
    var active: Option<RevisionToken>
    var lastActivity: U64

    constructor (cfg: Config)
      ensures this.cfg == cfg && Value() == Started(cfg)
    {
      this.cfg := cfg;
      phase, catalog, metadata, pending, active := Principal, [], map[], None, None;
      lastActivity := cfg.startedAt;
    }

    function Value(): (s: Session)
      reads this
    {
      Session(phase, catalog, metadata, pending, active, lastActivity)
    }

    method EnterTerminal(next: Phase)
      modifies this
      ensures Value() == Terminal(old(Value()), next)
    {
      catalog, metadata, pending, active := [], map[], None, None;
      phase := next;
    }

    method CheckLiveAt(now: U64) returns (error: Option<SessionError>)
      modifies this
      ensures (Value(), error) == CheckLive(cfg, old(Value()), now)
    {
      if !phase.Operable() {
        return Some(LiveError(phase));
      }
      if now < lastActivity {
        EnterTerminal(FailedPhase);
        return Some(ClockRegression);
      }
      if now >= cfg.absoluteExpiry || now - lastActivity >= cfg.inactivity {
        EnterTerminal(ExpiredPhase);
        return Some(SessionExpired);
      }
      return None;
    }

    method ApplyWitnessStatus<T>(status: Status, binding: Option<Binding>) returns (outcome: AccessOutcome<T>)
      modifies this
      ensures status.StillPending? ==>
                outcome == Pending && Value() == old(Value()).(pending := binding, phase := WitnessPending)
      ensures !status.StillPending? ==> (Value(), Success(outcome)) == Ended<T>(old(Value()), StatusPhase(status))
    {
      match status
      case StillPending =>
        pending := binding;
        phase := WitnessPending;
        return Pending;
      case StatusDenied =>
        EnterTerminal(DeniedPhase);
        return AccessDenied;
      case StatusExpired =>
        EnterTerminal(ExpiredPhase);
        return AccessExpired;
      case StatusStale =>
        EnterTerminal(StalePhase);
        return AccessStale;
      case StatusReplay =>
        EnterTerminal(ReplayPhase);
        return AccessReplay;
      case StatusUnavailable =>
        EnterTerminal(UnavailablePhase);
        return AccessUnavailable;
      case StatusCancelled =>
        EnterTerminal(CancelledPhase);
        return AccessCancelled;
      case StatusInsufficientQuorum =>
        EnterTerminal(InsufficientQuorumPhase);
        return AccessInsufficientQuorum;
    }

    method AccessRevision<T>(a: Attempt, reply: Reply<T>) returns (answer: Answer<AccessOutcome<T>>)
      modifies this
      ensures (Value(), answer) == Accessed(cfg, old(Value()), a, reply)
    {
      hide ValidBinding, CurrentToken;
      var error := CheckLiveAt(a.now);
      if error.Some? {
        return Failure(error.value);
      }
      if a.cancelled {
        EnterTerminal(CancelledPhase);
        return Success(AccessCancelled);
      }
      var current := CurrentToken(cfg, a.itemId, a.contentRole, a.capability);
      if current.Failure? {
        return Failure(current.error);
      }
      var token := current.value;
      if pending.Some? && a.binding != pending {
        EnterTerminal(ReplayPhase);
        return Success(AccessReplay);
      }
      if a.binding.Some? {
        var binding := a.binding.value;
        if binding.expiresAt <= a.now {
          EnterTerminal(ExpiredPhase);
          return Success(AccessExpired);
        }
        if !ValidBinding(cfg, binding, token, a.now) {
          if pending.Some? {
            EnterTerminal(ReplayPhase);
            return Success(AccessReplay);
          }
          return Failure(InvalidBinding);
        }
        if binding.notBefore.Some? && a.now < binding.notBefore.value {
          pending := Some(binding);
          active := Some(token);
          phase := WitnessPending;
          return Success(Pending);
        }
      }
      answer := ApplyReply(a, token, reply);
    }

    method ApplyReply<T>(a: Attempt, token: RevisionToken, reply: Reply<T>) returns (answer: Answer<AccessOutcome<T>>)
      modifies this
      ensures (Value(), answer) == Replied(old(Value()), a, token, reply)
    {
      match reply
      case Complete(authority, value) =>
        var authorized := if authority.DirectAuthority? then a.binding.None? && pending.None? else a.binding.Some?;
        if !authorized {
          EnterTerminal(ReplayPhase);
          return Success(AccessReplay);
        }
        pending := None;
        active := Some(token);
        lastActivity := a.now;
        if authority.DirectAuthority? {
          phase := UnlockedItem;
          return Success(Direct(value));
        }
        phase := Approved;
        return Success(WitnessedApproved(value));
      case Witnessed(status) =>
        if a.binding.None? {
          EnterTerminal(FailedPhase);
          return Success(AccessFailed);
        }
        var outcome := ApplyWitnessStatus<T>(status, a.binding);
        return Success(outcome);
      case ProviderFailed(error) =>
        EnterTerminal(ErrorPhase(error));
        return Success(PhaseOutcome(ErrorPhase(error)));
      case ConsumerFailed =>
        EnterTerminal(FailedPhase);
        return Success(AccessFailed);
    }

    method DiscoverDescriptor(itemId: ItemId, binding: Option<Binding>, now: U64, cancelled: bool,
                              reply: Reply<Option<Name>>) returns (answer: Answer<AccessOutcome<()>>)
      modifies this
      ensures (Value(), answer) == Discovered(cfg, old(Value()), itemId, binding, now, cancelled, reply)
    {
      hide Accessed, CatalogOk;
      if Listed(catalog, itemId) {
        var error := CheckLiveAt(now);
        return if error.Some? then Failure(error.value) else Success(Direct(()));
      }
      var accessed := AccessRevision(Attempt(itemId, Descriptor, Read, binding, now, cancelled), reply);
      if accessed.Failure? {
        return Failure(accessed.error);
      }
      var outcome := accessed.value;
      if !outcome.Completes() {
        return Success(PhaseOutcomeOf(outcome));
      }
      var role := EffectiveRole(cfg.vault.policy, itemId, cfg.principalId);
      if outcome.value.None? {
        return Failure(SessionFailed);
      }
      if role.None? {
        return Failure(ItemUnavailable);
      }
      var entries := catalog + [Entry(itemId, outcome.value.value, role.value)];
      if |entries| > MAX_ACCESSIBLE_CATALOG_ITEMS {
        return Failure(Capacity);
      }
      if !CatalogOk(entries) {
        return Failure(Conflict);
      }
      catalog := entries;
      return Success(if outcome.Direct? then Direct(()) else WitnessedApproved(()));
    }

    method OpenItem(name: Name, capability: Capability, binding: Option<Binding>, now: U64, cancelled: bool,
                    reply: Reply<seq<nat>>) returns (answer: Answer<AccessOutcome<seq<nat>>>)
      modifies this
      ensures (Value(), answer) == Opened(cfg, old(Value()), name, capability, binding, now, cancelled, reply)
    {
      hide Accessed;
      var resolved := Resolve(catalog, name);
      if resolved.None? {
        return Failure(ItemUnavailable);
      }
      answer := AccessRevision(Attempt(resolved.value, Body, capability, binding, now, cancelled), reply);
      if answer.Success? && answer.value.Completes() {
        var fields := answer.value.value;
        metadata := metadata[resolved.value := Metadata(|fields|, Latest(fields))];
      }
    }

    method PreflightItems(names: seq<Name>, now: U64) returns (answer: Answer<seq<ItemId>>)
      modifies this
      ensures (Value(), answer) == PreflightStep(cfg, old(Value()), names, now)
    {
      var error := CheckLiveAt(now);
      if error.Some? {
        return Failure(error.value);
      }
      if names == [] || |names| > MAX_PREFLIGHT_ITEMS {
        return Failure(Capacity);
      }
      var seen: set<ItemId> := {};
      var ids: seq<ItemId> := [];
      for i := 0 to |names|
        invariant Value() == old(Value())
        invariant Preflighted(catalog, names[..i]) == Success(ids)
        invariant forall id :: id in seen <==> id in ids
      {
        assert names[..i + 1][..i] == names[..i];
        var resolved := Resolve(catalog, names[i]);
        if resolved.None? {
          PreflightFails(catalog, names, i + 1, ItemUnavailable);
          return Failure(ItemUnavailable);
        }
        if resolved.value in seen {
          PreflightFails(catalog, names, i + 1, Conflict);
          return Failure(Conflict);
        }
        seen := seen + {resolved.value};
        ids := ids + [resolved.value];
      }
      assert names[..|names|] == names;
      lastActivity := now;
      return Success(ids);
    }

    /** The snapshot reports the session as it was, but for the activity it records. */
    method TakeSnapshot(now: U64) returns (answer: Answer<SessionSnapshot>)
      modifies this
      ensures Value() == Snapshotted(cfg, old(Value()), now).0
      ensures answer.Failure? <==> Snapshotted(cfg, old(Value()), now).1.Some?
      ensures answer.Failure? ==> Some(answer.error) == Snapshotted(cfg, old(Value()), now).1
      ensures answer.Success? ==>
                var p, s := cfg.vault.policy, answer.value;
                && Value() == old(Value()).(lastActivity := now) && CatalogCurrent(cfg, catalog)
                && s.vaultId == p.vaultId && s.policySequence == p.sequence && s.policyHash == p.terminalHash
                && s.principalId == cfg.principalId && s.phase == phase && s.startedAt == cfg.startedAt
                && s.lastActivity == now && s.absoluteExpiry == cfg.absoluteExpiry && s.active == active
                && (s.pendingRequest.Some? <==> pending.Some?)
                && (pending.Some? ==> s.pendingRequest.value == pending.value.requestDigest)
                && |s.items| == |catalog|
                && forall k :: 0 <= k < |catalog| ==> Describes(s.items[k], catalog[k])
    {
      var error := CheckLiveAt(now);
      if error.Some? {
        return Failure(error.value);
      }
      var items: seq<ItemSnapshot> := [];
      for k := 0 to |catalog|
        invariant Value() == old(Value()) && |items| == k
        invariant forall j :: 0 <= j < k ==>
          && catalog[j].itemId in cfg.vault.policy.items && catalog[j].itemId in cfg.vault.envelopes
          && items[j] == SnapshotOf(j)
      {
        var id := catalog[k].itemId;
        if id !in cfg.vault.policy.items || id !in cfg.vault.envelopes {
          return Failure(SessionFailed);
        }
        items := items + [SnapshotOf(k)];
      }
      lastActivity := now;
      var p := cfg.vault.policy;
      return Success(SessionSnapshot(
        p.vaultId, p.sequence, p.terminalHash, cfg.principalId, phase, cfg.startedAt, lastActivity, cfg.absoluteExpiry,
        items, if pending.Some? then Some(pending.value.requestDigest) else None, active));
    }

    /** One line of a snapshot is about one catalogued item as it is now. */
    predicate Describes(i: ItemSnapshot, e: Entry)
      reads this
    {
      && i.itemId == e.itemId && i.name == e.name && i.role == e.role
      && e.itemId in cfg.vault.policy.items && i.keyEpoch == cfg.vault.policy.items[e.itemId].keyEpoch
      && e.itemId in cfg.vault.envelopes && i.itemRevision == cfg.vault.envelopes[e.itemId].itemRevision
      && (i.metadata.Some? <==> e.itemId in metadata)
      && (e.itemId in metadata ==> i.metadata == Some(metadata[e.itemId]))
    }

    function SnapshotOf(k: nat): (item: ItemSnapshot)
      requires k < |catalog|
      requires catalog[k].itemId in cfg.vault.policy.items && catalog[k].itemId in cfg.vault.envelopes
      reads this
    {
      var e := catalog[k];
      ItemSnapshot(e.itemId, e.name, e.role, cfg.vault.policy.items[e.itemId].keyEpoch,
                   cfg.vault.envelopes[e.itemId].itemRevision,
                   if e.itemId in metadata then Some(metadata[e.itemId]) else None)
    }

    method RefreshSame(vault: PublicVault, checkpoint: L.CheckpointBody, digest: Option<L.Digest>, now: U64)
      returns (error: Option<SessionError>)
      modifies this
      ensures (Value(), error) == Refreshed(cfg, old(Value()), vault, checkpoint, digest, now)
    {
      error := CheckLiveAt(now);
      if error.Some? {
        return;
      }
      var p, q := cfg.vault.policy, vault.policy;
      if pending.Some? || q.vaultId != p.vaultId || q.genesis != p.genesis || q.sequence != p.sequence
         || q.terminalHash != p.terminalHash || checkpoint.scope.principalId != cfg.principalId
         || checkpoint.accepted != p.terminalHash || L.RelationTo(vault.candidate, checkpoint) != L.Ok(L.Equal)
         || digest != cfg.policyCheckpoint {
        EnterTerminal(StalePhase);
        return Some(CheckpointConflict);
      }
      lastActivity := now;
      phase := Principal;
      return None;
    }
  }

  lemma {:induction false} PreflightFails(catalog: seq<Entry>, names: seq<Name>, i: nat, e: SessionError)
    requires i <= |names| && Preflighted(catalog, names[..i]) == Failure(e)
    ensures Preflighted(catalog, names) == Failure(e)
    decreases |names| - i
  {
    if i < |names| {
      assert names[..i + 1][..i] == names[..i];
      PreflightFails(catalog, names, i + 1, e);
    } else {
      assert names[..i] == names;
    }
  }

  /** Preflight succeeds exactly on names that all resolve to pairwise distinct items, and returns those items in
      order. */
  lemma {:induction false} PreflightExact(catalog: seq<Entry>, names: seq<Name>)
    ensures Preflighted(catalog, names).Success? <==>
            && (forall k :: 0 <= k < |names| ==> Resolve(catalog, names[k]).Some?)
            && (forall i, k :: 0 <= i < k < |names| ==> Resolve(catalog, names[i]) != Resolve(catalog, names[k]))
    ensures Preflighted(catalog, names).Success? ==>
              var ids := Preflighted(catalog, names).value;
              |ids| == |names| && forall k :: 0 <= k < |names| ==> Some(ids[k]) == Resolve(catalog, names[k])
  {
    hide Resolve;
    if names == [] {
    } else {
      var last := |names| - 1;
      PreflightExact(catalog, names[..last]);
    }
  }
}
