# Jury: a verified model

Jury is a vault whose items are opened by people, machines and a quorum of witnesses. This project models five parts of
it in Dafny and proves what they are for:

- **Threshold reconstruction** (`Gf256`, `Polynomials`, `Shamir`): the byte field of section 4.2 of FIPS 197 as the
  shift-and-reduce loops compute it, the field laws including the inverse as a 254th power, and Lagrange interpolation
  over any number of shares. Bytes are eight booleans; `ShrIsHalf` and `ShlIsDouble` tie them to integers 0..255.
- **The partial-unlock session** (`SessionModel`, `SessionSafety`, `SessionEffects`, `SessionObject`): the session object
  with its phases, deadlines, pending witness request and catalog, driven by a provider that may answer anything.
- **Mutation planning** (`Policy`, `PolicyEffects`, `PolicyJournal`, `Batch`, `Rekey`, `RekeyEffects`, `RekeyBatch`,
  `BatchReplay`, `BatchSlots`, `BatchDeclared`, `BatchTheorem`, `BatchConsequences`, `ItemList`): the operations and slots
  a rekey emits, the planner that merges many of them, and the replay that applies and checks them.
- **Protocol steps and local state** (`LocalState`, `LocalStateEffects`, `LocalStateStore`, `Checkpoints`,
  `OwnerChanges`, `SplitWrite`, `Retention`, `RetentionCounts`): audit and checkpoint recovery, checkpoint advance,
  ownership changes, two-store publication with crashes, and the endpoint-retention enumeration.
- **Canonical encodings** (`Canonical`, `Rollover`, `AuditPreimage`): framing, both rollover manifests, and the audit
  event preimage.

Cryptography is ideal: a MAC or a sealed document is a constructor of its inputs, digests are opaque values, and where a
result needs digests not to collide it says so (`CollisionFree`, `Chained`). `AuditPreimage.BodyInjective` is the
reason a MAC may be taken as a constructor of the event's body. Clocks, randomness, the network and the provider are
parameters.

An object the code updates in place is a class here (`PrincipalVaultSession`, `VerifiedLocalState`, `OperationBatch`,
`VaultItems`, `Output`), and each of its methods is proved equal to a function on values; the lemmas are about those
functions and about all runs of them. `SessionEffects`, `PolicyEffects`, `RekeyEffects`, `LocalStateEffects` and
`BatchDeclared` say field by field what each operation leaves and exactly when it is refused.

## Where the code does not do what one might expect

- A rekey batch does not always replay. `BatchTheorem.BatchReplays` gives the exact condition for preparing its revision,
  and `BatchTheorem.BatchAdopted` for the journal that ends with it to be replayed. Preparing does not look at the clock,
  so a batch older than the last revision is prepared and then refused (`LateBatchRefused`). An owner change has to cover
  every item that has direct slots (`OwnerChangeCoversDirectItems`), even one where the principal already holds a role. A
  batch may also make a reader an owner and leave them their role (`GrantMayKeepRole`), and every later batch over that
  item is then refused unless it revokes them (`OwnerWithRoleBlocks`).
- Appending a local audit event with a clock behind the checkpoint fails, but the event is already in the log and the
  tail count is left behind (`LocalState.FailedAppendHappens`). `FailedAppendEffect` shows that this is the only failure
  that changes anything. `AnyRunVerifies` and `AppendRestores` show that it does no lasting harm: the files still verify,
  and the next append that succeeds puts the state right.
- The rollover encodings are injective only for identifiers, digests and nonces of fixed width; `Rollover.WidthsAreNeeded`
  gives two manifests with one encoding otherwise.
- The share combiner accepts one-byte shares with equal indexes, because the missing inverse is met only per payload
  byte; it fails on an empty share. `Shamir.Combine` follows both.
- The retention enumeration finds authorizations by a prior state when the approver threshold is zero, a value the
  repository never uses; `RetentionCounts.TotalIs` counts them exactly.
- While a request is pending a session still hands out the names it has already decrypted, through a snapshot or its
  catalog. The pending results are about new plaintext: no further descriptor or body is released.
- The list-length test on revoking an owner refuses nothing by itself (`OwnerChanges.SoleOwnerTestImplied`).

## Model

| member | source | states |
|---|---|---|
| `Gf256.ShrIsHalf` | conformance/witness-v1/alternate_runner.py:36-46 | shifting the bit list right halves the integer, and bit 0 is the integer's parity |
| `Gf256.ShlIsDouble` | conformance/witness-v1/alternate_runner.py:36-46 | shifting left doubles modulo 256, and bit 7 says whether the integer is at least 0x80 |
| `Gf256.Constants` | conformance/witness-v1/alternate_runner.py:36-46 | zero, one and the reduction byte are the integers 0, 1 and 0x1B |
| `Gf256.MulCommutes` | conformance/witness-v1/alternate_runner.py:36-46 | the shift-and-reduce product is commutative |
| `Gf256.MulAssociates` | conformance/witness-v1/alternate_runner.py:36-46 | the product is associative |
| `Gf256.MulXorRight` | conformance/witness-v1/alternate_runner.py:36-46 | the product distributes over exclusive or |
| `Gf256.MulOne` | conformance/witness-v1/alternate_runner.py:36-46 | one is neutral for the product |
| `Gf256.SquareIsLinear` | conformance/witness-v1/alternate_runner.py:36-46 | squaring is the linear map given by the squares of the eight bits |
| `Gf256.IdempotentIsTrivial` | conformance/witness-v1/alternate_runner.py:36-46 | only zero and one are their own squares |
| `Gf256.FieldPower` | conformance/witness-v1/alternate_runner.py:49-56 | every byte is its own 256th power |
| `Gf256.InverseLaw` | conformance/witness-v1/alternate_runner.py:59-62 | the 254th power of a nonzero byte is its inverse |
| `Gf256.GfMul` | conformance/witness-v1/alternate_runner.py:36-46 | the multiply loop computes the field product |
| `Gf256.GfPow` | conformance/witness-v1/alternate_runner.py:49-56 | square-and-multiply equals repeated multiplication for every exponent |
| `Gf256.GfInv` | conformance/witness-v1/alternate_runner.py:59-62 | fails exactly on zero, otherwise returns a true inverse |
| `Polynomials.TooManyRoots` | conformance/witness-v1/alternate_runner.py:65-81 | a polynomial with as many distinct roots as coefficients is zero everywhere |
| `Polynomials.UniquePolynomial` | conformance/witness-v1/alternate_runner.py:65-81 | two polynomials of degree below k that agree at k points are equal |
| `Polynomials.InterpolationRecovers` | conformance/witness-v1/alternate_runner.py:65-81 | interpolating the values of a polynomial of degree below k at k distinct points gives back its value at any point |
| `Polynomials.InterpolationPasses` | conformance/witness-v1/alternate_runner.py:65-81 | the interpolating polynomial passes through every share |
| `Polynomials.ExactlyOnePolynomial` | conformance/witness-v1/alternate_runner.py:65-81 | through k points with distinct indexes goes exactly one polynomial of degree below k |
| `Shamir.LagrangeCoefficient` | conformance/witness-v1/alternate_runner.py:71-78 | the inner loop computes the Lagrange coefficient at zero, and fails exactly when another share has the same index |
| `Shamir.CombineByte` | conformance/witness-v1/alternate_runner.py:69-80 | one output byte is the interpolation at zero of that byte of every share |
| `Shamir.Combine` | conformance/witness-v1/alternate_runner.py:65-81 | the three loops compute the interpolated secret, or fail, exactly as specified byte by byte |
| `Shamir.CombineRecoversSecret` | conformance/witness-v1/alternate_runner.py:65-81 | from k shares of polynomials of degree below k, with distinct indexes, combining returns exactly the constant terms |
| `Shamir.BelowThresholdAnySecret` | conformance/witness-v1/alternate_runner.py:160-163 | with one share too few, every candidate secret byte is the constant term of exactly one polynomial through the shares |
| `Shamir.CombineIgnoresOrder` | conformance/witness-v1/alternate_runner.py:65-81 | every reordering of the shares combines to the same result or the same failure, even shares on no common polynomial |
| `SessionSafety.CompletesExactly` | crates/jury-core/src/session.rs:623-745 | an access completes if and only if the session is live, in both windows, uncancelled, the binding is the pending one, valid and due, and the reply claims the matching authority; and what the state is then |
| `SessionSafety.StepKeeps` | crates/jury-core/src/session.rs:390-621 | every operation, under any provider reply, keeps the session invariant and releases plaintext only inside every window |
| `SessionSafety.StepActivity` | crates/jury-core/src/session.rs:874-895 | recorded activity never moves back, and a release is recorded at its own time |
| `SessionSafety.RunKeeps` | crates/jury-core/src/session.rs:659-720 | in every run all releases lie inside the absolute window and their request's issue, not-before, expiry and lifetime bounds, carry the current token, and come in time order |
| `SessionSafety.StartEstablishes` | crates/jury-core/src/session.rs:286-334 | a started session has a known principal, the requested lifetime and the public state its checkpoint accepted last |
| `SessionSafety.ReachableInv` | crates/jury-core/src/session.rs:52-59 | in every reachable state a request is pending exactly in the pending phase, approved and unlocked phases hold an active revision, terminal phases hold nothing; any further release is inside the inactivity window too |
| `SessionSafety.TerminalRun` | crates/jury-core/src/session.rs:908-914 | after a terminal phase every run stays terminal, holds nothing and releases nothing |
| `SessionSafety.PendingIsPinned` | crates/jury-core/src/session.rs:659-705 | while a request is pending, an attempt that reaches the check with another binding or token ends the session as a replay, and with an expired one as expired |
| `SessionSafety.PendingStep` | crates/jury-core/src/session.rs:832-872 | from a pending state one step approves exactly that request for exactly that revision, keeps waiting on it, or ends the session |
| `SessionSafety.PendingUntilApproved` | crates/jury-core/src/session.rs:623-872 | from the moment a request is pending no run releases anything before an access with the identical binding and revision is approved |
| `SessionObject.PrincipalVaultSession.constructor` | crates/jury-core/src/session.rs:312-334 | a new session is in the principal phase and holds nothing |
| `SessionObject.PrincipalVaultSession.EnterTerminal` | crates/jury-core/src/session.rs:908-914 | clears catalog, metadata, pending request and active revision |
| `SessionObject.PrincipalVaultSession.CheckLiveAt` | crates/jury-core/src/session.rs:874-895 | clock regression and both deadlines, and the phase each one ends in |
| `SessionObject.PrincipalVaultSession.ApplyWitnessStatus` | crates/jury-core/src/session.rs:832-872 | the phase and outcome of each witness status |
| `SessionObject.PrincipalVaultSession.AccessRevision` | crates/jury-core/src/session.rs:623-745 | the guarded access is the specified transition, whatever the reply |
| `SessionObject.PrincipalVaultSession.ApplyReply` | crates/jury-core/src/session.rs:693-745 | what each provider reply does to the session |
| `SessionObject.PrincipalVaultSession.DiscoverDescriptor` | crates/jury-core/src/session.rs:390-451 | a completed descriptor is catalogued unless it conflicts, exceeds capacity or has no role |
| `SessionObject.PrincipalVaultSession.OpenItem` | crates/jury-core/src/session.rs:453-503 | only a catalogued name is opened, and its metadata recorded |
| `SessionObject.PrincipalVaultSession.PreflightItems` | crates/jury-core/src/session.rs:505-530 | the resolving loop computes the specified preflight |
| `SessionObject.PreflightExact` | crates/jury-core/src/session.rs:505-530 | preflight succeeds exactly when all names resolve to pairwise distinct items, and returns those in order |
| `SessionObject.PrincipalVaultSession.TakeSnapshot` | crates/jury-core/src/session.rs:532-575 | the snapshot reports the public state, phase, times, pending request, active revision and every catalogued item with its current epoch, revision and metadata, or fails; only the recorded activity changes |
| `SessionObject.PrincipalVaultSession.RefreshSame` | crates/jury-core/src/session.rs:580-609 | only identical public state with nothing pending refreshes; anything else ends the session as stale |
| `SessionEffects.ResolveExactly` | crates/jury-core/src/domain/catalog.rs:152-158 | in a catalog without repeated names a name resolves to an item exactly when an entry has that name and item |
| `SessionEffects.PreflightNames` | crates/jury-core/src/session.rs:505-530 | a successful preflight returns, for each name in order, the item catalogued under that very name |
| `SessionEffects.PreflightSteps` | crates/jury-core/src/session.rs:505-530 | preflight refuses no name and more than sixty-four, and records activity on success only |
| `SessionEffects.TokenExactly` | crates/jury-core/src/session.rs:182-233 | a token exists exactly for a known principal whose role permits the capability on an item with an envelope and a way in |
| `SessionEffects.TokenFields` | crates/jury-core/src/session.rs:182-233 | a token names the current revision and seal of the asked content, the current policy, the principal and its role |
| `SessionEffects.OpenReleases` | crates/jury-core/src/session.rs:453-503 | a body is released only for the item catalogued under the name, as body content, for the capability asked |
| `SessionEffects.DiscoverReleases` | crates/jury-core/src/session.rs:390-451 | a descriptor is released only for the item asked, for reading |
| `SessionEffects.OpenRemembers` | crates/jury-core/src/session.rs:897-906 | an opened body leaves its field count and latest change under its item and touches no other entry |
| `SessionEffects.DiscoverCatalogues` | crates/jury-core/src/session.rs:420-451 | a released descriptor is appended to the catalog under its name and the role of the principal |
| `SessionEffects.ListedAgain` | crates/jury-core/src/session.rs:390-410 | discovering a catalogued item releases nothing, and succeeds exactly in a live session |
| `SessionEffects.EndingsOf` | crates/jury-core/src/session.rs:832-872 | each way an answer ends an access has its own phase and outcome |
| `SessionEffects.WrongAuthority` | crates/jury-core/src/session.rs:693-745 | a reply that claims the authority not asked for ends the session as a replay |
| `SessionEffects.BeforeAsking` | crates/jury-core/src/session.rs:623-690 | what is answered without asking the provider, first reason first |
| `SessionEffects.RequestsWait` | crates/jury-core/src/session.rs:659-705 | when a witnessed request is refused, awaited until its start, or left pending, and the whole state it leaves |
| `SessionEffects.BindingExactly` | crates/jury-core/src/session.rs:747-830 | a binding is valid exactly when it is complete, for this revision, quorum and checkpoint, and inside every time bound |
| `SessionEffects.StartExactly` | crates/jury-core/src/session.rs:286-334 | a session starts exactly within its limits, for a known principal, on state its checkpoint agrees with |
| `SessionEffects.RefreshExactly` | crates/jury-core/src/session.rs:580-609 | a refresh succeeds exactly with nothing pending on the same revision; otherwise the session ends as stale |
| `SessionEffects.SnapshotSteps` | crates/jury-core/src/session.rs:532-575 | a snapshot succeeds exactly inside the windows with every catalogued item present, and changes only the activity time |
| `SessionEffects.EndsOnRequest` | crates/jury-core/src/session.rs:611-621 | locking and cancelling erase everything and are what every later call reports |
| `SessionEffects.AfterTheEnd` | crates/jury-core/src/session.rs:874-895 | a session that has ended answers each call with the reason it ended for |
| `Policy.ReplayKeepsValid` | crates/jury-core/src/policy/replay/core.rs:348-530 | whatever its operations, a revision replayed on a valid state gives a valid state: human owners, known grantees, key epochs no higher than the sequence, and on every item current direct slots that cover all owners and witnessed slots whose policy and members are present |
| `Policy.GenesisValid` | crates/jury-core/src/policy/replay/core.rs:221-276 | the state a journal starts from is valid exactly when its owner is human |
| `Policy.JournalKeepsValid` | crates/jury-core/src/policy/replay/core.rs:278-329 | every state along a journal of authentic revisions by current owners is valid, and its sequence counts the revisions |
| `Policy.JournalRemembers` | crates/jury-core/src/policy/replay/operations.rs:1-129 | along any journal no identifier or key is forgotten: what was replaced, removed or deleted never comes back, and tombstones stay |
| `PolicyEffects.MembersAdmitted` | crates/jury-core/src/policy/replay/operations.rs:1-64 | a principal is added, relabelled, removed or replaced exactly when new, labelled as said, known and not in use, or of one kind |
| `PolicyEffects.OwnersAdmitted` | crates/jury-core/src/policy/replay/core.rs:408-428 | ownership is granted exactly to known humans without it and revoked exactly from an owner who is not the last |
| `PolicyEffects.ItemsAdmitted` | crates/jury-core/src/policy/replay/operations.rs:66-170 | items are created, renamed, deleted and given roles exactly from what they are before |
| `PolicyEffects.MemberResult` | crates/jury-core/src/policy/replay/core.rs:378-408 | the one operation of an accepted revision that names a principal decides: the new descriptor and label, the next label, or absence |
| `PolicyEffects.ReplacementInherits` | crates/jury-core/src/policy/replay/operations.rs:172-227 | a replacing principal takes over the label |
| `PolicyEffects.ReplacementOwns` | crates/jury-core/src/policy/replay/operations.rs:172-227 | a replacing principal is an owner exactly if the replaced one was, who is one no longer |
| `PolicyEffects.ReplacementHolds` | crates/jury-core/src/policy/replay/operations.rs:172-227 | on an item nothing else names, the replacing principal has exactly the role of the replaced one and all others stay |
| `PolicyEffects.OthersUntouched` | crates/jury-core/src/policy/replay/core.rs:348-517 | a principal no operation names keeps descriptor, label and ownership |
| `PolicyEffects.OwnerResult` | crates/jury-core/src/policy/replay/core.rs:408-428 | an accepted grant or revocation leaves its principal in or out of the owners, where it was not before |
| `PolicyEffects.ItemResult` | crates/jury-core/src/policy/replay/core.rs:429-517 | the one operation of an accepted revision that names an item decides: the created item, the new descriptor, or absence with its tombstone |
| `PolicyEffects.GrantResult` | crates/jury-core/src/policy/replay/operations.rs:66-170 | a created item starts with the roles of its slots, and a role change moves one principal from the role it names to the next |
| `PolicyEffects.OtherItemsUntouched` | crates/jury-core/src/policy/replay/core.rs:348-517 | an item no operation names keeps everything but the name of a replaced grantee |
| `PolicyEffects.KeysExactly` | crates/jury-core/src/policy/replay/operations.rs:455-484 | a revision is held to one operation of each kind on each subject, and to no more |
| `PolicyEffects.ReadersAnnounced` | crates/jury-core/src/policy/replay/operations.rs:229-303 | an announced rotation names both epochs and both reader sets exactly, and its descriptor and hash become the item's |
| `PolicyEffects.Resealed` | crates/jury-core/src/policy/replay/operations.rs:229-303 | a resealed item is at the next epoch with the access the operation carries |
| `PolicyEffects.ResealedForCause` | crates/jury-core/src/policy/replay/operations.rs:229-303 | resealing changes the access or the readers |
| `PolicyEffects.NothingSilent` | crates/jury-core/src/policy/replay/operations.rs:229-303 | without an announcement an item that stays keeps its readers |
| `PolicyEffects.RemovalRefused` | crates/jury-core/src/policy/replay/operations.rs:44-64 | a removal is refused for a stranger, an owner and a holder of any role, unless an operation before it changed that |
| `PolicyEffects.RemovalExactly` | crates/jury-core/src/policy/replay/operations.rs:44-64 | on its own a removal goes through exactly for a known principal who holds and attests nothing, and takes out that one alone |
| `PolicyJournal.EndedForGood` | crates/jury-core/src/policy/replay/core.rs:278-329 | what a revision removes, replaces or deletes is absent from every later state of the journal, with its tombstone |
| `PolicyJournal.JournalAuthored` | crates/jury-core/src/policy/replay/core.rs:278-329 | every revision of a replayed journal is authentic, by a member owning the vault just before it, in time order |
| `PolicyJournal.PreparedIsFollowed` | crates/jury-core/src/policy/replay/core.rs:166-213 | an identity on record prepares exactly what a journal ending with its revision follows, and no other identity prepares anything |
| `PolicyJournal.GenesisExactly` | crates/jury-core/src/policy/replay/core.rs:221-276 | a journal starts from its one owner under the label "owner" |
| `PolicyJournal.EveryStateServes` | crates/jury-core/src/policy/replay/operations.rs:305-433 | in every state of every journal, owners, roles, direct slots and quorums fit together item by item |
| `Batch.PushedExact` | crates/jury-core/src/mutation.rs:617-666 | pushing succeeds exactly when the operation is compatible with what is there, and drops it exactly when it is a keyed repeat |
| `Batch.MergedExact` | crates/jury-core/src/mutation.rs:617-666 | merging a list succeeds exactly when all operations about one principal are identical, and appends exactly those not yet seen |
| `Batch.PlannedExact` | crates/jury-core/src/mutation.rs:339-410 | planning succeeds exactly on a non-empty batch whose components were all prepared for this author, time and next revision and whose operations about one principal are identical; the plan is the first occurrences in order with item-derived owner grants after all other item operations and before newly added ones, at most one operation per key |
| `Batch.PlannedOnce` | crates/jury-core/src/mutation.rs:339-410 | a plan exists exactly for a change whose components all name the next revision and do not disagree; it holds the given operations, each principal's once |
| `Batch.OperationBatch.Push` | crates/jury-core/src/mutation.rs:617-666 | the find loop pushes, drops or refuses as specified |
| `Batch.OperationBatch.PushAll` | crates/jury-core/src/mutation.rs:363-374 | pushing in turn is merging; a refusal leaves exactly what was merged before the refused operation |
| `Batch.OperationBatch.DeferOwnerGrants` | crates/jury-core/src/mutation.rs:398-407 | the retain pass keeps the order of both halves |
| `Batch.PlanBatch` | crates/jury-core/src/mutation.rs:339-410 | the header checks, the component loop, the deferral and the additional operations compute the specified plan |
| `Rekey.GrantMap` | crates/jury-core/src/item.rs:523-529 | the table holds exactly the requested principals, each with a requested role |
| `Rekey.RoleChangeOperations` | crates/jury-core/src/item.rs:517-555 | editing the prior table and walking both key sets in order emits exactly the differences |
| `Rekey.NextOwnerIds` | crates/jury-core/src/item.rs:568-594 | renaming, then granting or revoking, gives the declared next owners |
| `Rekey.ResolveDirect` | crates/jury-core/src/item/sealing.rs:236-293 | walking the recipients in order resolves each one's next role and key, refused exactly when one of them has neither |
| `Rekey.PrepareComponent` | crates/jury-core/src/item.rs:288-442 | the pushed operations and slots are the specified component, refused exactly when ancestry, counters, grants, recipients, quorum or the combination of changes is |
| `RekeyEffects.PreparedExactly` | crates/jury-core/src/item.rs:288-395 | a component is prepared exactly for a fitting change, current envelope, grants and slots, and is addressed to the next revision |
| `RekeyEffects.ComponentCarries` | crates/jury-core/src/item.rs:395-437 | a component holds the operation of its change and operations of its own item, and nothing else |
| `RekeyBatch.BatchShape` | crates/jury-core/src/mutation.rs:339-410 | components of one change always merge: its operation once in front, every item's operations in order, an owner grant last |
| `BatchReplay.RolesApply` | crates/jury-core/src/item.rs:517-555 | emitted role changes turn the prior grants into the wanted ones, exactly when no owner holds a role |
| `BatchReplay.WholeApplies` | crates/jury-core/src/policy/replay/core.rs:369-517 | applying the merged operations succeeds exactly when the change is acceptable and no remaining owner holds a role on a batch item |
| `BatchSlots.WillOwnExactly` | crates/jury-core/src/item/sealing.rs:268-276 | the recipient walk gives an owner's slots to exactly the declared next owners |
| `BatchSlots.PlanDirect` | crates/jury-core/src/policy/replay/operations.rs:333-361 | the direct slots a rekey builds pass every slot check in the resulting state: roles and keys are the next ones and every owner is covered |
| `BatchDeclared.RecipientIs` | crates/jury-core/src/item/sealing.rs:236-293 | an owner's direct slot says owner, anyone else's exactly the role granted |
| `BatchDeclared.GrantMapExactly` | crates/jury-core/src/item.rs:523-529 | without repeats the grant table holds exactly the grants listed |
| `BatchSlots.PlanAccess` | crates/jury-core/src/policy/replay/operations.rs:305-433 | a batch item's access is complete exactly when every witness and approver of its quorum will be present |
| `BatchSlots.DirectStaleUnderOwnerChange` | crates/jury-core/src/policy/replay/operations.rs:333-433 | on an item outside the batch, direct slots survive an owner change exactly when there are none |
| `BatchSlots.QuorumStays` | crates/jury-core/src/policy/witness.rs:593-672 | a complete quorum survives a change exactly when it does not name the replaced principal |
| `BatchSlots.OtherAccess` | crates/jury-core/src/policy/replay/operations.rs:305-433 | an outside item with unchanged readers stays complete exactly when an owner change finds no direct slots on it and a replacement no member of its quorum |
| `BatchTheorem.ReadersKeptExactly` | crates/jury-core/src/policy/replay/operations.rs:229-255 | an item outside the batch keeps its readers exactly when the replaced or changed principal makes no difference to it |
| `BatchTheorem.BatchRotations` | crates/jury-core/src/policy/replay/operations.rs:229-303 | the rotation checks pass exactly when all other items keep their readers; new slots always differ from old ones |
| `BatchTheorem.DeliveredComplete` | crates/jury-core/src/policy/replay/operations.rs:305-433 | the completeness checks on the result pass exactly when the outside slots are kept and the quorums present |
| `BatchTheorem.BatchReplays` | crates/jury-core/src/policy/replay/core.rs:166-213 | components of one change over any number of items always merge; their revision is accepted exactly when an owner authors it, revisions are left and the batch is acceptable; the result is valid and each field of it is the one declared: next epoch and descriptor revision, digests, exactly the asked grants, slots with exact roles and keys, owners, members, and all else unchanged |
| `BatchTheorem.BatchAdopted` | crates/jury-core/src/policy/replay/core.rs:278-329 | the journal ending with a prepared batch is followed exactly when the batch is not older than the revision before it, and leads to that same declared state |
| `BatchConsequences.OwnerOpOnce` | crates/jury-core/src/mutation.rs:386-410 | the merged batch holds its owner operation once and no other owner operation |
| `BatchConsequences.OwnerChangeCoversDirectItems` | crates/jury-core/src/mutation.rs:335-338 | an accepted owner change covers every item that has direct slots |
| `BatchConsequences.PriorRolesMatch` | crates/jury-core/src/item.rs:517-555 | every prior role the batch declares is the one held where it is applied: with that test removed from replay the batch applies in the same cases to the same state |
| `BatchConsequences.GrantBeforeRoleChangeFails` | crates/jury-core/src/mutation.rs:398-407 | without the deferral, a role change of a principal already granted ownership is always refused |
| `BatchConsequences.OwnerWithRoleBlocks` | crates/jury-core/src/policy/replay/operations.rs:131-150 | while an owner holds a role on an item, every batch over it that does not revoke them is refused |
| `BatchConsequences.GrantMayKeepRole` | crates/jury-core/src/item/sealing.rs:195-290 | a concrete accepted batch, slots included, that leads to such a state |
| `BatchConsequences.SharedItemReachable` | crates/jury-core/src/policy/replay/core.rs:221-329 | the state that batch starts from is what a journal of one revision after genesis replays to |
| `BatchConsequences.LateBatchRefused` | crates/jury-core/src/policy/replay/core.rs:283-291 | the same batch, older than the journal's last revision, is prepared and then refused by replay |
| `ItemList.Search` | crates/jury-core/src/mutation.rs:467-475 | binary search finds the identifier or the one place it belongs |
| `ItemList.VaultItems.Put` | crates/jury-core/src/mutation.rs:466-476 | inserting or replacing keeps the list sorted and changes exactly one table entry |
| `ItemList.VaultItems.Retain` | crates/jury-core/src/mutation.rs:463-465 | deletion keeps exactly the other envelopes in order |
| `ItemList.WithoutTable` | crates/jury-core/src/mutation.rs:463-465 | deletion keeps the list sorted and removes exactly the deleted entries |
| `ItemList.EditItems` | crates/jury-core/src/mutation.rs:451-476 | the edited list is strictly sorted and, as a table, the current items minus deletions overlaid by replacements; refused exactly on a repeated replacement |
| `LocalState.ParseLog` | crates/jury-core/src/local_state/audit.rs:169-212 | the parsing loop accepts exactly the valid logs |
| `LocalState.MacPinsPrefix` | crates/jury-core/src/local_state/audit.rs:169-212 | two valid logs that hold one MAC hold it at one place and agree up to there |
| `LocalState.MacIndexIsPosition` | crates/jury-core/src/local_state/audit.rs:300-302 | looking up a held MAC gives its position |
| `LocalState.FilesRoundTrip` | crates/jury-core/src/local_state.rs:292-320 | exactly the consistent states come back unchanged from their own files |
| `LocalState.InitialIsConsistent` | crates/jury-core/src/local_state.rs:261-285 | initialization succeeds exactly in scope with a nonzero clock, and is consistent |
| `LocalState.RunAdvances` | crates/jury-core/src/local_state.rs:322-431 | along any successful run of appends, tail and candidate acceptances and receipts the state stays consistent, the log only grows by its appends and the clock never falls |
| `LocalState.ReceiptEffect` | crates/jury-core/src/local_state.rs:383-431 | recording a receipt replaces the latest of its kind and reseals, or changes nothing |
| `LocalState.ReceiptsNeverOlder` | crates/jury-core/src/local_state/receipts.rs:218-260 | along any run no kind of receipt is lost or replaced by an older one |
| `LocalState.LaterAuditVerifies` | crates/jury-core/src/local_state_tests.rs:507-533 | a later log with an earlier checkpoint verifies beside any receipts of its own, its tail being the events appended between them |
| `LocalState.EarlierAuditRejected` | crates/jury-core/src/local_state_tests.rs:507-533 | an earlier log with a checkpoint from after a further event is refused as tampered |
| `LocalState.AcceptingTailRestoresAgreement` | crates/jury-core/src/local_state.rs:340-355 | accepting the tail adds no event and leaves files that agree; only the clock can refuse it |
| `LocalState.CheckpointPinsAudit` | crates/jury-core/src/local_state.rs:292-320 | any log that verifies repeats every event the checkpoint covers, and its tail count is the rest |
| `LocalState.FailedAppendEffect` | crates/jury-core/src/local_state.rs:322-336 | a failed append changes the state exactly when the draft is acceptable and its clock is behind; then the files describe one more tail event than the state |
| `LocalState.FailedAppendHappens` | crates/jury-core/src/local_state.rs:322-336 | a concrete state and draft for which it happens |
| `LocalState.AnyRunVerifies` | crates/jury-core/src/local_state.rs:292-431 | along any run, failures included, the log only grows and the three files verify with every event after the checkpoint as tail |
| `LocalState.AppendRestores` | crates/jury-core/src/local_state.rs:322-336 | after any run, failures included, an append that succeeds makes the state consistent again |
| `LocalState.AnyCheckpointPins` | crates/jury-core/src/local_state.rs:292-320 | after any run, failures included, a log that verifies repeats every event the checkpoint covers, and its tail count is the rest |
| `LocalState.AcceptedNeverLowers` | crates/jury-core/src/local_state.rs:359-381 | with chained hashes the accepted public history only grows by extension along any run |
| `LocalState.RollbackRefused` | crates/jury-core/src/local_state/checkpoint.rs:155-180 | public state that ends before the accepted one is refused and changes nothing |
| `LocalStateStore.PrincipalLocalState.VerifyFiles` | crates/jury-core/src/local_state.rs:292-320 | the three-file check returns the specified state or error |
| `LocalStateStore.PrincipalLocalState.RecordAudit` | crates/jury-core/src/local_state/checkpoint.rs:251-262 | moves the checkpoint to the last event, unless the clock is behind |
| `LocalStateStore.PrincipalLocalState.AppendEvent` | crates/jury-core/src/local_state.rs:322-336 | extends the log, then the checkpoint; what each failure leaves |
| `LocalStateStore.PrincipalLocalState.AcceptAuditTail` | crates/jury-core/src/local_state.rs:340-355 | accepts a tail only when there is one |
| `LocalStateStore.PrincipalLocalState.RecordReceipt` | crates/jury-core/src/local_state.rs:383-431 | checks the receipt against the checkpoint or the latest backup, then updates and reseals |
| `LocalStateStore.PrincipalLocalState.AcceptCandidate` | crates/jury-core/src/local_state.rs:359-381 | advances to a strict descendant, keeps an equal state, refuses the rest |
| `LocalStateEffects.ShapeExactly` | crates/jury-core/src/local_state/audit.rs:339-396 | a later event is well shaped exactly when its item and witness link fit its action |
| `LocalStateEffects.AppendRecords` | crates/jury-core/src/local_state/audit.rs:214-259 | appending succeeds exactly for a fitting draft and a clock not behind, and adds one event that records the draft field by field |
| `LocalStateEffects.RunRecords` | crates/jury-core/src/local_state.rs:322-431 | the events a successful run adds are its drafts in order, each chained to the one before |
| `LocalStateEffects.RelationExactly` | crates/jury-core/src/local_state/checkpoint.rs:155-180 | public state is equal, a strict descendant or divergent exactly as the accepted hash is last, earlier or absent in its history |
| `LocalStateEffects.CandidateExactly` | crates/jury-core/src/local_state.rs:359-381 | a strict descendant moves the accepted hash to its last one exactly when the clock is not behind; every other outcome changes nothing |
| `LocalStateEffects.AcceptanceMoves` | crates/jury-core/src/local_state.rs:359-381 | after any run that ends by accepting a strict descendant the accepted state is that candidate's |
| `LocalStateEffects.InitialFields` | crates/jury-core/src/local_state.rs:261-285 | a new state is one event naming the accepted public state, a checkpoint at it and no receipt |
| `LocalStateEffects.CaptureExactly` | crates/jury-core/src/local_state.rs:383-431 | transfers and backups are recorded exactly when they capture the accepted state, and fill their own slot only |
| `LocalStateEffects.BackupUseExactly` | crates/jury-core/src/local_state.rs:383-431 | verifications and drills are recorded exactly when they are about the latest backup, and fill their own slot only |
| `LocalStateEffects.ChainExactly` | crates/jury-core/src/local_state/audit.rs:169-212 | a log is valid exactly when it is one chain of this scope from the creation of the vault on |
| `LocalStateEffects.FilesRefused` | crates/jury-core/src/local_state.rs:292-320 | the first thing wrong with the three files decides the error, and files with nothing wrong are taken as they are |
| `Checkpoints.AscendingUnique` | conformance/witness-v1/src/cases.rs:231-238 | ascending lists are equal exactly when they hold the same digests |
| `Checkpoints.SortDedup` | conformance/witness-v1/src/cases.rs:234-235 | sorting and removing repeats gives the ascending list of the same digests |
| `Checkpoints.Judge` | conformance/witness-v1/src/cases.rs:223-291 | the decision by sorting equals the decision by comparing sets, for every operation and every malformed or wrongly sized digest |
| `Checkpoints.RegisterExactly` | conformance/witness-v1/src/cases.rs:240-246 | registration is accepted, denied or a fork exactly as the committed and member digests meet, do not, or the active ones are not the committed ones |
| `Checkpoints.RequestExactly` | conformance/witness-v1/src/cases.rs:247-263 | a request is accepted exactly for a slot of the selected policy that is both active and one of the member's |
| `Checkpoints.AdvanceExactly` | conformance/witness-v1/src/cases.rs:264-288 | an advance is accepted exactly when it repeats or follows the checkpoint, stale when it falls back, behind when it skips |
| `Checkpoints.OrderIrrelevant` | conformance/witness-v1/src/cases.rs:231-238 | order and repetition in the active and member lists do not matter |
| `Checkpoints.RunAdvances` | conformance/witness-v1/src/cases.rs:264-288 | in any run of accepted advances each step that changes the checkpoint raises the sequence by one and the time strictly, so the sequence counts them |
| `Checkpoints.SameDigestSameHistory` | conformance/witness-v1/alternate_runner.py:322-339 | with collision-free digests two runs from one start that end on one digest passed through the same checkpoints |
| `Checkpoints.NeverReturns` | conformance/witness-v1/src/cases.rs:275-279 | a run of accepted advances never comes back to a checkpoint it has left, and every later one answers an earlier one as stale |
| `OwnerChanges.StepKeeps` | conformance/witness-v1/src/cases.rs:293-331 | an accepted change moves exactly one human across, keeps its requester, and takes the next sequence number |
| `OwnerChanges.ResultExactly` | conformance/witness-v1/src/cases.rs:293-331 | an owner change is accepted exactly when an owner asks for the next sequence, the target is human, and carrying it out changes the owners and keeps the one who asked; the two other refusals exactly too |
| `OwnerChanges.RunKeeps` | conformance/witness-v1/src/cases.rs:293-331 | along any run, from any list of human owners, owners are never empty and all human, each step keeps its requester, and the sequence counts the steps without wrapping at 64 bits |
| `OwnerChanges.RunCounts` | conformance/witness-v1/src/cases.rs:293-331 | the number of owners is the start plus grants minus revokes |
| `OwnerChanges.SoleOwnerTestImplied` | conformance/witness-v1/src/cases.rs:323-328 | a requester who is an owner and not the target already makes two owners |
| `SplitWrite.ArriveKeeps` | conformance/witness-v1/src/lib.rs:405-417 | a compare-and-swap that still finds what it expects carries the one pending candidate, however late or often it arrives |
| `SplitWrite.NeverConflicts` | conformance/witness-v1/src/cases.rs:649-661 | no interleaving of commits, delayed swaps, crashes and recoveries reaches an anchor conflict; every output was anchored first as the exact candidate; nothing anchored or released is ever rewritten |
| `SplitWrite.RecoveryCompletes` | conformance/witness-v1/src/lib.rs:405-417 | following the table from any reachable state ends after one swap and one publication at most, in stable output of the committed candidate or in the base |
| `SplitWrite.RollbackDetected` | conformance/witness-v1/src/lib.rs:405-417 | a database from before the anchored generation is always an anchor conflict |
| `SplitWrite.TableExactly` | conformance/witness-v1/src/cases.rs:649-661 | the table names an action exactly for what some run reaches, four combinations, and a conflict for every other |
| `Retention.NoOpenWithoutQuorum` | conformance/witness-v1/src/lib.rs:605-606 | for all sizes, inside the declared boundary nothing opens without a current request, an accepted fresh quorum and honest contributions |
| `Retention.CountReplays` | conformance/witness-v1/src/lib.rs:442-500 | the four innermost loops add every combination of their choices once, to all eleven counters |
| `Retention.CountRetained` | conformance/witness-v1/src/lib.rs:439-500 | the three loops around them do the same |
| `Retention.Enumerate` | conformance/witness-v1/src/lib.rs:434-516 | the ten-deep enumeration ends with the sum over every combination |
| `RetentionCounts.TotalIs` | conformance/witness-v1/src/lib.rs:434-516 | for every size, closed forms of all eleven counters: the total is 144 times the squares of witnesses+1 and approvers+1, three classes partition it, counterexamples are zero, and prior-state authorizations are zero exactly when the approver threshold is positive |
| `RetentionCounts.ModelCounts` | conformance/witness-v1/src/lib.rs:434-516 | the ten nested loops end with these eleven values |
| `RetentionCounts.RecordedCounts` | conformance/witness-v1/vectors.json:2540-2552 | at the sizes enumerated there, the closed forms are the recorded counts |
| `Canonical.BigEndianInjective` | crates/jury-core/src/canonical.rs:19-33 | two lengths that fit encode alike only if equal |
| `Canonical.BigEndianSpells` | crates/jury-core/src/canonical.rs:19-33 | the bytes of a fitting number spell it, most significant first |
| `Canonical.FieldRead` | crates/jury-core/src/canonical.rs:19-24 | a field is read back from any following bytes |
| `Canonical.ListRead` | crates/jury-core/src/canonical.rs:26-33 | a list of fields is read back from any following bytes |
| `Canonical.FixedListRead` | crates/jury-core/src/canonical.rs:35-47 | a list of fixed-width parts is read back from any following bytes |
| `Canonical.DomainRead` | crates/jury-core/src/canonical.rs:12-17 | a domain without a zero byte is read back from in front of any body |
| `Canonical.FieldUnique` | crates/jury-core/src/canonical.rs:19-24 | a framed field is uniquely decodable from whatever follows it |
| `Canonical.ListBytesUnique` | crates/jury-core/src/canonical.rs:26-33 | a framed list of byte strings is uniquely decodable from whatever follows it |
| `Canonical.ListFixedUnique` | crates/jury-core/src/canonical.rs:35-47 | a list of fixed-width entries is uniquely decodable from whatever follows it |
| `Canonical.DomainSeparation` | crates/jury-core/src/canonical.rs:12-17 | preimages of two NUL-free domains are equal only if domains and bodies are |
| `Canonical.Output.BytesField` | crates/jury-core/src/canonical.rs:19-24 | appends the framed field, or nothing when the length does not fit |
| `Canonical.Output.ListOfBytes` | crates/jury-core/src/canonical.rs:26-33 | appends the framed list, or stops after the entries before the first that does not fit |
| `Canonical.Output.ListOfFixed` | crates/jury-core/src/canonical.rs:35-47 | appends the count and the entries, or nothing when the count does not fit |
| `Rollover.PrincipalRead` | conformance/rollover-v2/encoding.py:44-49 | a principal record is read back field by field |
| `Rollover.ItemRead` | conformance/rollover-v2/encoding.py:50-63 | an item record is read back with its grants, descriptors and optional witness part |
| `Rollover.RecordsRead` | conformance/rollover-v2/encoding.py:32-33 | the record lists of a well-formed manifest are read back |
| `Rollover.RoundTrip` | conformance/rollover-v2/encoding.py:43-70 | every well-formed manifest of either version is read back from its bytes |
| `Rollover.EncodeInjective` | conformance/rollover-v1/encoding.py:26-67 | two well-formed manifests encode alike only if they are equal and of the same version, for any number of principals, items, grants and policies |
| `Rollover.WidthsAreNeeded` | conformance/rollover-v1/encoding.py:41-67 | two different manifests with one encoding once widths are not fixed |
| `Rollover.EncodeManifest` | conformance/rollover-v2/encoding.py:43-70 | the appending loops produce the encoding, and fail exactly when a length or number does not fit |
| `AuditPreimage.TagsRead` | crates/jury-core/src/local_state/audit.rs:468-503 | an action and an outcome are named again by their tags |
| `AuditPreimage.PreimageRead` | crates/jury-core/src/local_state/audit.rs:426-466 | every field of an event is read back from its preimage |
| `AuditPreimage.PreimageInjective` | crates/jury-core/src/local_state/audit.rs:426-466 | two audit events with one MAC preimage have equal fields, optional item and name included |
| `AuditPreimage.BodyInjective` | crates/jury-core/src/local_state/audit.rs:398-412 | two event bodies with one MAC preimage are equal unless two of their identifiers, digests or MACs collide |

## Left out

- Policy.Replay: a recipient's descriptor and body slots are one entry, because the format demands both with one role; what is encrypted in slots is one opaque value; the kind of error of a refused revision is not kept.
- Policy.JournalKeepsValid: signatures, hashes and the revision chain are one flag per revision, as cryptography is ideal here.
- Rekey.PrepareComponent: sealing is an input: ciphertext digests, revision hashes and encrypted slot contents are given.
- BatchTheorem.BatchReplays: stated for batches without additional operations; `PlannedExact` covers those.
- BatchTheorem.BatchAdopted: after the replay a plan also compares envelopes with the policy, checks privacy covers and asks for an acknowledgement of a direct downgrade; these three are left out.
- ItemList.EditItems: the later comparison of the edited list with the replayed policy is left out with them.
- SplitWrite.NeverConflicts: marking published and releasing are one step, since the table has no row between them.
- Checkpoints.Judge: a byte string is its length and the number it spells; JSON shape errors are a field that does not decode.
- LocalState.ParseLog: byte-size limits, line framing and canonical JSON of the log file are not modelled; whether an appended event still fits is a parameter.
- LocalState.ReceiptEffect: the coverage record of a backup receipt is one flag.
- SessionModel: names are opaque values compared for equality; plaintext consumers and protected memory are not modelled.
- Rollover: identifier text, Unicode checks and the intent corpus that patches bytes under a cursor are left out.
- HPKE, Argon2, AEAD, Ed25519, key derivation and identity files: ideal or absent.
- JSON, serde strictness, filesystem, CLI, release scripts, timing and zeroization.
- Presentation and scope cases, backup, registration, transfer import and the vault rollover executor: mostly field comparison.
