/** Which item, revision and authority a session operation is about, field by field. */
module SessionEffects {
  import opened Common
  import opened SessionModel
  import opened SessionSafety
  import L = LocalState

  // ----- names -----

  /** The entry at place `k` is the one this name stands for. */
  predicate Names(catalog: seq<Entry>, k: int, name: Name, id: ItemId) {
    0 <= k < |catalog| && catalog[k].name == name && catalog[k].itemId == id
  }

  /** Some entry has this name and this item. */
  predicate Stands(catalog: seq<Entry>, name: Name, id: ItemId) {
    exists k :: 0 <= k < |catalog| && Names(catalog, k, name, id)
  }

  /** A name opens the item catalogued under it, and no other. */
  lemma {:induction false} ResolveExactly(catalog: seq<Entry>, name: Name, id: ItemId)
    requires CatalogOk(catalog)
    ensures Resolve(catalog, name) == Some(id) <==> Stands(catalog, name, id)
    ensures Resolve(catalog, name) == None <==> forall k :: 0 <= k < |catalog| ==> catalog[k].name != name
  {
    if catalog == [] {
    } else {
      var rest := catalog[1..];
      assert forall k :: 0 <= k < |rest| ==> rest[k] == catalog[k + 1];
      ResolveExactly(rest, name, id);
      if k :| Names(rest, k, name, id) { assert Names(catalog, k + 1, name, id); }
      if k :| Names(catalog, k, name, id) {
        if k == 0 {
        } else {
          assert Names(rest, k - 1, name, id);
        }
      }
      if catalog[0].name == name { assert Names(catalog, 0, name, catalog[0].itemId); }
    }
  }

  /** Preflight returns, for each name in order, the item catalogued under it. */
  lemma {:induction false} PreflightNames(catalog: seq<Entry>, names: seq<Name>)
    requires CatalogOk(catalog) && Preflighted(catalog, names).Success?
    ensures var ids := Preflighted(catalog, names).value;
      && |ids| == |names|
      && forall k :: 0 <= k < |names| ==> Stands(catalog, names[k], ids[k])
  {
    hide CatalogOk, Resolve, Stands;
    if names == [] {
    } else {
      var last := |names| - 1;
      PreflightNames(catalog, names[..last]);
      var ids, before := Preflighted(catalog, names).value, Preflighted(catalog, names[..last]).value;
      var id := Resolve(catalog, names[last]).value;
      ResolveExactly(catalog, names[last], id);
      assert ids == before + [id];
      forall k | 0 <= k < |names| ensures Stands(catalog, names[k], ids[k]) {
        if k < last { assert names[..last][k] == names[k] && ids[k] == before[k]; }
      }
    }
  }

  // ----- tokens -----

  /** Readers read, writers also write, owners also administer. */
  predicate May(role: AccessRole, capability: Capability) {
    capability == Read || (capability == Write && role != Reader) || role == Owner
  }

  predicate RoleIs(p: Policy, itemId: ItemId, who: PrincipalId, role: AccessRole) {
    if who in p.owners then role == Owner
    else itemId in p.items && who in p.items[itemId].grants && p.items[itemId].grants[who] == role
  }

  /** A token is available exactly for a known principal whose role permits the capability, on an item that has an
      envelope and a path that principal can use. */
  lemma TokenExactly(cfg: Config, itemId: ItemId, content: ContentRole, capability: Capability)
    ensures var p := cfg.vault.policy;
      CurrentToken(cfg, itemId, content, capability).Success? <==>
        && itemId in cfg.vault.envelopes && itemId in p.items && cfg.principalId in p.principals
        && (exists role :: RoleIs(p, itemId, cfg.principalId, role) && May(role, capability))
        && (cfg.principalId in p.items[itemId].directRecipients || p.items[itemId].witnessed.Some?)
  {
    var p := cfg.vault.policy;
    if cfg.principalId in p.owners {
      assert RoleIs(p, itemId, cfg.principalId, Owner);
    } else if itemId in p.items && cfg.principalId in p.items[itemId].grants {
      assert RoleIs(p, itemId, cfg.principalId, p.items[itemId].grants[cfg.principalId]);
    }
  }

  /** What a token says: the current revision and seal of that content, under the current policy, for that principal. */
  lemma TokenFields(cfg: Config, itemId: ItemId, content: ContentRole, capability: Capability)
    requires CurrentToken(cfg, itemId, content, capability).Success?
    ensures var t, p := CurrentToken(cfg, itemId, content, capability).value, cfg.vault.policy;
      && itemId in p.items && itemId in cfg.vault.envelopes
      && t.itemId == itemId && t.contentRole == content && t.capability == capability
      && t.suite == p.suite && t.vaultId == p.vaultId && t.genesis == p.genesis
      && t.policySequence == p.sequence && t.policyHash == p.terminalHash
      && t.principalId == cfg.principalId && t.keyEpoch == p.items[itemId].keyEpoch
      && RoleIs(p, itemId, cfg.principalId, t.accessRole)
      && (content == Descriptor ==>
            t.revision == cfg.vault.envelopes[itemId].descriptorRevision
            && t.sealId == cfg.vault.envelopes[itemId].descriptorSeal)
      && (content == Body ==>
            t.revision == cfg.vault.envelopes[itemId].itemRevision && t.sealId == cfg.vault.envelopes[itemId].itemSeal)
      && (t.mode == WitnessedOnly <==> p.items[itemId].directRecipients == {})
      && (t.mode == DirectOnly <==> p.items[itemId].witnessed.None?)
  {
  }

  // ----- releases -----

  /** Opening a name releases the body of the item catalogued under it, for the capability asked. */
  lemma OpenReleases(cfg: Config, s: Session, op: Op)
    requires Inv(cfg, s) && op.Open? && Step(cfg, s, op).1.Some?
    ensures var r := Step(cfg, s, op).1.value;
      && Stands(s.catalog, op.name, r.token.itemId)
      && r.token.contentRole == Body && r.token.capability == op.capability
      && r.now == op.now && r.binding == op.binding
  {
    hide ValidBinding, CurrentToken, CatalogOk, CatalogCurrent, Listed, Accessed, Resolve;
    if Resolve(s.catalog, op.name).Some? {
      var itemId := Resolve(s.catalog, op.name).value;
      ResolveExactly(s.catalog, op.name, itemId);
      var a := Attempt(itemId, Body, op.capability, op.binding, op.now, op.cancelled);
      CompletesExactly(cfg, s, a, op.body);
      if Completable(cfg, s, a, op.body) { TokenFields(cfg, itemId, Body, op.capability); }
    }
  }

  /** Discovering an item releases its descriptor for reading. */
  lemma DiscoverReleases(cfg: Config, s: Session, op: Op)
    requires Inv(cfg, s) && op.Discover? && Step(cfg, s, op).1.Some?
    ensures var r := Step(cfg, s, op).1.value;
      && r.token.itemId == op.itemId && r.token.contentRole == Descriptor && r.token.capability == Read
      && r.now == op.now && r.binding == op.binding
  {
    hide ValidBinding, CurrentToken, CatalogOk, CatalogCurrent, Listed, Accessed;
    var a := Attempt(op.itemId, Descriptor, Read, op.binding, op.now, op.cancelled);
    CompletesExactly(cfg, s, a, op.descriptor);
    if Completable(cfg, s, a, op.descriptor) { TokenFields(cfg, op.itemId, Descriptor, Read); }
  }

  predicate IsLatest(times: seq<nat>, t: Option<nat>) {
    if times == [] then t.None?
    else t.Some? && t.value in times && forall k :: 0 <= k < |times| ==> times[k] <= t.value
  }

  lemma {:induction false} LatestIs(times: seq<nat>)
    ensures IsLatest(times, Latest(times))
  {
    if times == [] {
    } else {
      LatestIs(times[1..]);
      assert times == [times[0]] + times[1..];
    }
  }

  /** An opened body leaves the number of its fields and their latest change, and nothing changes about other items. */
  lemma OpenRemembers(cfg: Config, s: Session, op: Op)
    requires Inv(cfg, s) && op.Open? && Step(cfg, s, op).1.Some?
    ensures var t, id := Step(cfg, s, op).0, Step(cfg, s, op).1.value.token.itemId;
      && op.body.Complete? && id in t.metadata
      && t.metadata[id].fieldCount == |op.body.value| && IsLatest(op.body.value, t.metadata[id].updatedAt)
      && (forall other :: other != id ==> (other in t.metadata <==> other in s.metadata))
      && (forall other :: other in s.metadata && other != id ==> t.metadata[other] == s.metadata[other])
      && t.catalog == s.catalog
  {
    hide ValidBinding, CurrentToken, CatalogOk, CatalogCurrent, Listed, Accessed, Resolve, Latest;
    if Resolve(s.catalog, op.name).Some? {
      var itemId := Resolve(s.catalog, op.name).value;
      var a := Attempt(itemId, Body, op.capability, op.binding, op.now, op.cancelled);
      CompletesExactly(cfg, s, a, op.body);
      if Completable(cfg, s, a, op.body) {
        TokenFields(cfg, itemId, Body, op.capability);
        LatestIs(op.body.value);
      }
    }
  }

  /** A released descriptor is catalogued last, under its name and the principal's role. */
  lemma DiscoverCatalogues(cfg: Config, s: Session, op: Op)
    requires Inv(cfg, s) && op.Discover? && Step(cfg, s, op).1.Some?
    ensures var t := Step(cfg, s, op).0;
      && op.descriptor.Complete? && op.descriptor.value.Some?
      && |t.catalog| == |s.catalog| + 1 && t.catalog[..|s.catalog|] == s.catalog
      && var e := t.catalog[|s.catalog|];
      && e.itemId == op.itemId && e.name == op.descriptor.value.value
      && RoleIs(cfg.vault.policy, op.itemId, cfg.principalId, e.role)
  {
    hide ValidBinding, CurrentToken, CatalogOk, CatalogCurrent, Listed, Accessed;
    var a := Attempt(op.itemId, Descriptor, Read, op.binding, op.now, op.cancelled);
    CompletesExactly(cfg, s, a, op.descriptor);
    if Completable(cfg, s, a, op.descriptor) { TokenFields(cfg, op.itemId, Descriptor, Read); }
  }

  // ----- what ends a session, and how -----

  /** The phase and the outcome of each way a provider's answer can end an access. */
  lemma EndingsOf<T>(s: Session, a: Attempt, token: RevisionToken)
    ensures a.binding.Some? ==>
      forall status: Status :: !status.StillPending? ==>
        var (t, r) := Replied<T>(s, a, token, Witnessed(status));
        && Cleared(t)
        && (t.phase, r) == match status
           case StatusDenied => (DeniedPhase, Success(AccessDenied))
           case StatusExpired => (ExpiredPhase, Success(AccessExpired))
           case StatusStale => (StalePhase, Success(AccessStale))
           case StatusReplay => (ReplayPhase, Success(AccessReplay))
           case StatusUnavailable => (UnavailablePhase, Success(AccessUnavailable))
           case StatusCancelled => (CancelledPhase, Success(AccessCancelled))
           case StatusInsufficientQuorum => (InsufficientQuorumPhase, Success(AccessInsufficientQuorum))
    ensures forall error: ProviderError ::
      var (t, r) := Replied<T>(s, a, token, ProviderFailed(error));
      && Cleared(t)
      && (t.phase, r) == match error
         case CancelledAccess => (CancelledPhase, Success(AccessCancelled))
         case StalePolicy => (StalePhase, Success(AccessStale))
         case OtherProviderError => (FailedPhase, Success(AccessFailed))
         case _ => (UnavailablePhase, Success(AccessUnavailable))
    ensures Replied<T>(s, a, token, ConsumerFailed) == (Terminal(s, FailedPhase), Success(AccessFailed))
    ensures a.binding.None? ==>
      forall status: Status ::
        Replied<T>(s, a, token, Witnessed(status)) == (Terminal(s, FailedPhase), Success(AccessFailed))
  {
  }

  /** A reply may only claim the authority it was asked for; otherwise the session ends as a replay. */
  lemma WrongAuthority<T>(s: Session, a: Attempt, token: RevisionToken, value: T)
    ensures a.binding.None? ==>
      Replied(s, a, token, Complete(WitnessedAuthority, value)) == (Terminal(s, ReplayPhase), Success(AccessReplay))
    ensures a.binding.Some? ==>
      Replied(s, a, token, Complete(DirectAuthority, value)) == (Terminal(s, ReplayPhase), Success(AccessReplay))
  {
  }

  /** What is answered before the provider is asked, first reason first. */
  lemma BeforeAsking<T>(cfg: Config, s: Session, a: Attempt, reply: Reply<T>)
    requires s.phase.Operable()
    ensures var (t, r) := Accessed(cfg, s, a, reply);
      && (a.now < s.lastActivity ==> t == Terminal(s, FailedPhase) && r == Failure(ClockRegression))
      && (s.lastActivity <= a.now && (a.now >= cfg.absoluteExpiry || a.now - s.lastActivity >= cfg.inactivity) ==>
            t == Terminal(s, ExpiredPhase) && r == Failure(SessionExpired))
      && (InWindow(cfg, s, a.now) && a.cancelled ==> t == Terminal(s, CancelledPhase) && r == Success(AccessCancelled))
      && (InWindow(cfg, s, a.now) && !a.cancelled
          && CurrentToken(cfg, a.itemId, a.contentRole, a.capability).Failure? ==>
            t == s && r == Failure(ItemUnavailable))
  {
    hide ValidBinding;
  }

  /** A witnessed request is refused, awaited or asked about: an invalid one is refused unless one is pending, one that
      is early waits without asking, and one the witnesses have not decided waits. */
  lemma RequestsWait<T>(cfg: Config, s: Session, a: Attempt, reply: Reply<T>)
    requires s.phase.Operable() && InWindow(cfg, s, a.now) && !a.cancelled && a.binding.Some?
    requires s.pending.None? || s.pending == a.binding
    requires CurrentToken(cfg, a.itemId, a.contentRole, a.capability).Success?
    requires a.now < a.binding.value.expiresAt
    ensures var (t, r) := Accessed(cfg, s, a, reply); var b := a.binding.value;
      var token := CurrentToken(cfg, a.itemId, a.contentRole, a.capability).value;
      && (!ValidBinding(cfg, b, token, a.now) && s.pending.None? ==> t == s && r == Failure(InvalidBinding))
      && (ValidBinding(cfg, b, token, a.now) && b.notBefore.Some? && a.now < b.notBefore.value ==>
            && r == Success(Pending)
            && t == Session(WitnessPending, s.catalog, s.metadata, Some(b), Some(token), s.lastActivity))
      && (ValidBinding(cfg, b, token, a.now) && (b.notBefore.Some? ==> b.notBefore.value <= a.now)
          && reply == Witnessed(StillPending) ==>
            && r == Success(Pending)
            && t == Session(WitnessPending, s.catalog, s.metadata, Some(b), s.active, s.lastActivity))
  {
    hide ValidBinding, CurrentToken;
  }

  /** Preflight needs one to sixty-four names and records the activity of a success only. */
  lemma PreflightSteps(cfg: Config, s: Session, names: seq<Name>, now: U64)
    requires s.phase.Operable() && InWindow(cfg, s, now)
    ensures var (t, r) := PreflightStep(cfg, s, names, now);
      && (|names| == 0 || |names| > 64 ==> t == s && r == Failure(Capacity))
      && (1 <= |names| <= 64 ==> r == Preflighted(s.catalog, names))
      && (r.Success? ==> t == s.(lastActivity := now)) && (r.Failure? ==> t == s)
  {
  }

  /** A discovery that does not complete reports the access outcome unchanged. */
  lemma DiscoveryReports(o: AccessOutcome<Option<Name>>)
    requires !o.Completes()
    ensures var r: AccessOutcome<()> := PhaseOutcomeOf(o);
      && !r.Completes() && (r.Pending? <==> o.Pending?) && (r.AccessDenied? <==> o.AccessDenied?)
      && (r.AccessExpired? <==> o.AccessExpired?) && (r.AccessStale? <==> o.AccessStale?)
      && (r.AccessReplay? <==> o.AccessReplay?) && (r.AccessUnavailable? <==> o.AccessUnavailable?)
      && (r.AccessCancelled? <==> o.AccessCancelled?) && (r.AccessFailed? <==> o.AccessFailed?)
      && (r.AccessInsufficientQuorum? <==> o.AccessInsufficientQuorum?)
  {
  }

  /** A session that has ended answers each call with the reason it ended for. */
  lemma AfterTheEnd(cfg: Config, s: Session, now: U64)
    requires !s.phase.Operable()
    ensures CheckLive(cfg, s, now) == (s, Some(match s.phase
      case LockedPhase => SessionLocked
      case ExpiredPhase => SessionExpired
      case CancelledPhase => SessionCancelled
      case UnavailablePhase => ItemUnavailable
      case _ => SessionFailed))
  {
  }

  ghost predicate Erased(t: Session) {
    t.catalog == [] && t.metadata == map[] && t.pending.None? && t.active.None?
  }

  /** Locking and cancelling end the session at once, erase what it held, and are what every later call reports. */
  lemma EndsOnRequest(cfg: Config, s: Session, now: U64)
    ensures var t := Step(cfg, s, Lock).0;
      t.phase == LockedPhase && Erased(t) && CheckLive(cfg, t, now) == (t, Some(SessionLocked))
    ensures var t := Step(cfg, s, Cancel).0;
      t.phase == CancelledPhase && Erased(t) && CheckLive(cfg, t, now) == (t, Some(SessionCancelled))
  {
  }

  /** A snapshot of a live session counts as activity when every catalogued item is still there, and changes nothing
      else; one taken too late or before the last activity ends the session. */
  lemma SnapshotSteps(cfg: Config, s: Session, now: U64)
    requires s.phase.Operable()
    ensures var (t, e) := Snapshotted(cfg, s, now);
      && (e.None? <==> InWindow(cfg, s, now) && forall entry :: entry in s.catalog ==>
            entry.itemId in cfg.vault.policy.items && entry.itemId in cfg.vault.envelopes)
      && (e.None? ==> t == s.(lastActivity := now))
      && (e == Some(SessionFailed) ==> t == s)
      && (e == Some(ClockRegression) <==> now < s.lastActivity)
      && (e == Some(ClockRegression) ==> t.phase == FailedPhase && Erased(t))
      && (e == Some(SessionExpired) <==> s.lastActivity <= now && !InWindow(cfg, s, now))
      && (e == Some(SessionExpired) ==> t.phase == ExpiredPhase && Erased(t))
  {
    assert forall k :: 0 <= k < |s.catalog| ==> s.catalog[k] in s.catalog;
  }

  /** Discovering an item again asks nobody: a live session says so at once, any other fails. */
  lemma ListedAgain(cfg: Config, s: Session, itemId: ItemId, binding: Option<Binding>, now: U64, cancelled: bool,
                    reply: Reply<Option<Name>>)
    requires exists k :: 0 <= k < |s.catalog| && s.catalog[k].itemId == itemId
    ensures var (t, r) := Discovered(cfg, s, itemId, binding, now, cancelled, reply);
      && (r.Success? <==> s.phase.Operable() && InWindow(cfg, s, now))
      && (r.Success? ==> r == Success(Direct(())) && t == s)
      && Step(cfg, s, Discover(itemId, binding, now, cancelled, reply)).1.None?
  {
    assert Listed(s.catalog, itemId);
  }

  // ----- bindings, starts and refreshes -----

  predicate NoZero(b: Binding) {
    && b.requestId != L.ZeroDigest && b.requestDigest != L.ZeroDigest && b.actionManifest != L.ZeroDigest
    && b.approvalTarget != L.ZeroDigest && b.workload != L.ZeroDigest && b.policyCheckpoint != L.ZeroDigest
    && b.policyDigest != L.ZeroDigest && b.intendedSet != L.ZeroDigest && b.sessionKey != L.ZeroDigest
  }

  /** The binding names the witness policy of the item's slots, and the slot of the token's revision. */
  predicate NamesQuorum(p: Policy, b: Binding, token: RevisionToken) {
    && token.itemId in p.items && p.items[token.itemId].witnessed.Some? && p.items[token.itemId].witnessed.value != []
    && var slots := p.items[token.itemId].witnessed.value;
    && slots[0].policyId == b.policyId && slots[0].policyRevision == b.policyRevision
    && slots[0].policyDigest == b.policyDigest && b.policyDigest in p.witnessPolicies
    && var w := p.witnessPolicies[b.policyDigest];
    && w.policyId == b.policyId && w.revision == b.policyRevision && w.intendedSet == b.intendedSet
    && b.operation in w.lifetimes && b.expiresAt - b.issuedAt <= w.lifetimes[b.operation]
    && exists k :: 0 <= k < |slots| && slots[k].slotId == b.slotId && slots[k].contentRole == token.contentRole
                   && slots[k].revision == token.revision && slots[k].sealId == token.sealId
                   && slots[k].keyEpoch == token.keyEpoch && slots[k].mode == token.mode
  }

  /** A binding is valid exactly when it is complete, for this revision and quorum, and inside every time bound. */
  lemma BindingExactly(cfg: Config, b: Binding, token: RevisionToken, now: nat)
    ensures ValidBinding(cfg, b, token, now) <==>
      && NoZero(b) && b.revision == token && token.mode != DirectOnly
      && cfg.policyCheckpoint == Some(b.policyCheckpoint) && NamesQuorum(cfg.vault.policy, b, token)
      && cfg.startedAt <= b.issuedAt && b.issuedAt <= now && now < b.expiresAt && b.expiresAt <= cfg.absoluteExpiry
      && (b.notBefore.Some? ==> b.issuedAt <= b.notBefore.value && b.notBefore.value <= b.expiresAt)
  {
    hide SlotMatches;
    SlotExactly(cfg.vault.policy, b, token);
  }

  lemma SlotExactly(p: Policy, b: Binding, token: RevisionToken)
    ensures SlotMatches(p, b, token) <==>
      && token.itemId in p.items && p.items[token.itemId].witnessed.Some?
      && var slots := p.items[token.itemId].witnessed.value;
      exists k :: 0 <= k < |slots| && slots[k].slotId == b.slotId && slots[k].contentRole == token.contentRole
                  && slots[k].revision == token.revision && slots[k].sealId == token.sealId
                  && slots[k].keyEpoch == token.keyEpoch && slots[k].mode == token.mode
  {
    if token.itemId in p.items && p.items[token.itemId].witnessed.Some? {
      var slots := p.items[token.itemId].witnessed.value;
      if k :| 0 <= k < |slots| && slots[k].slotId == b.slotId && slots[k].contentRole == token.contentRole
              && slots[k].revision == token.revision && slots[k].sealId == token.sealId
              && slots[k].keyEpoch == token.keyEpoch && slots[k].mode == token.mode {
        assert slots[k] in slots && SlotFor(slots[k], b.slotId, token);
      }
    }
  }

  /** Public state and checkpoint agree: the checkpoint accepted the last hash of exactly this history. */
  predicate Agree(vault: PublicVault, checkpoint: L.CheckpointBody) {
    && vault.candidate.vaultId == checkpoint.scope.vaultId && vault.candidate.genesis == checkpoint.scope.genesis
    && vault.candidate.history != []
    && vault.candidate.history[|vault.candidate.history| - 1] == checkpoint.accepted == vault.policy.terminalHash
  }

  /** A session starts exactly within its limits, for a known principal, on state its own checkpoint agrees with. */
  lemma StartExactly(vault: PublicVault, who: PrincipalId, checkpoint: L.CheckpointBody, digest: Option<L.Digest>,
                     inactivity: U64, lifetime: U64, now: U64)
    ensures var r := StartSession(vault, who, checkpoint, digest, inactivity, lifetime, now);
      && (r.Success? <==>
            && 0 < inactivity <= lifetime && now + lifetime <= MAX_U64 && checkpoint.updatedAt <= now
            && checkpoint.scope.vaultId == vault.policy.vaultId && checkpoint.scope.genesis == vault.policy.genesis
            && checkpoint.scope.principalId == who && who in vault.policy.principals && Agree(vault, checkpoint))
      && (r.Success? ==>
            && r.value.vault == vault && r.value.principalId == who && r.value.policyCheckpoint == digest
            && r.value.inactivity == inactivity && r.value.startedAt == now && r.value.absoluteExpiry == now + lifetime)
  {
  }

  /** A refresh succeeds exactly with nothing pending on the same revision; otherwise the session ends as stale. */
  lemma RefreshExactly(cfg: Config, s: Session, vault: PublicVault, checkpoint: L.CheckpointBody,
                       digest: Option<L.Digest>, now: U64)
    requires s.phase.Operable() && InWindow(cfg, s, now)
    ensures var (t, e) := Refreshed(cfg, s, vault, checkpoint, digest, now); var p := cfg.vault.policy;
      && (e.None? <==>
            && s.pending.None? && vault.policy.vaultId == p.vaultId && vault.policy.genesis == p.genesis
            && vault.policy.sequence == p.sequence && vault.policy.terminalHash == p.terminalHash
            && checkpoint.scope.principalId == cfg.principalId && Agree(vault, checkpoint)
            && digest == cfg.policyCheckpoint)
      && (e.None? ==> t == Session(Principal, s.catalog, s.metadata, None, s.active, now))
      && (e.Some? ==> e.value == CheckpointConflict && t.phase == StalePhase && Cleared(t))
  {
  }
}
