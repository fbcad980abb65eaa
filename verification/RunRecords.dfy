/** Records of one Harness Run and the transitions their owners apply to them.
    Identifiers are abstract numbers, times are caller-supplied Unix milliseconds. */
module RunRecords {
  import opened Wrappers

  type Id = nat

  // ----- Effects -----

  datatype Phase = Prepared | Claimed | Dispatched | Settled

  datatype OperationResult = Success | Error | Cancelled

  datatype Certainty = ConfirmedCommitted | ConfirmedNoEffect | UnknownOrPartial

  datatype Probe = MatchesPreimage | MatchesPostimage | MatchesNeither

  datatype EffectError =
    | NotPrepared | AlreadyClaimed | NotClaimed | WrongClaimant
    | NotDispatched | InvalidCertainty | NotSettled | NotUnknown

  function ReconciledCertainty(probe: Probe): Certainty {
    match probe
    case MatchesPreimage => ConfirmedNoEffect
    case MatchesPostimage => ConfirmedCommitted
    case MatchesNeither => UnknownOrPartial
  }

  predicate Confirmed(certainty: Option<Certainty>) {
    certainty == Some(ConfirmedCommitted) || certainty == Some(ConfirmedNoEffect)
  }

  /** An error or a cancellation by itself never proves that nothing happened. */
  predicate Unproven(result: OperationResult, certainty: Certainty) {
    (result.Error? || result.Cancelled?) && certainty.ConfirmedNoEffect?
  }

  datatype EffectRecord = EffectRecord(
    id: Id,
    operationId: string,
    targetHash: string,
    grantId: Id,
    phase: Phase,
    claimant: Option<string>,
    operationResult: Option<OperationResult>,
    certainty: Option<Certainty>,
    preparedAt: int,
    claimedAt: Option<int>,
    dispatchedAt: Option<int>,
    settledAt: Option<int>)
  {
    function Claim(who: string, now: int): Result<EffectRecord, EffectError> {
      if phase != Prepared then Err(NotPrepared)
      else if claimant.Some? then Err(AlreadyClaimed)
      else Ok(this.(claimant := Some(who), phase := Claimed, claimedAt := Some(now)))
    }

    function MarkDispatched(who: string, now: int): Result<EffectRecord, EffectError> {
      if phase != Claimed then Err(NotClaimed)
      else if claimant != Some(who) then Err(WrongClaimant)
      else Ok(this.(phase := Dispatched, dispatchedAt := Some(now)))
    }

    function Settle(who: string, result: OperationResult, c: Certainty, now: int): Result<EffectRecord, EffectError> {
      if phase != Dispatched then Err(NotDispatched)
      else if claimant != Some(who) then Err(WrongClaimant)
      else if Unproven(result, c) then Err(InvalidCertainty)
      else Ok(this.(operationResult := Some(result), certainty := Some(c), phase := Settled, settledAt := Some(now)))
    }

    function Reconcile(probe: Probe, now: int): Result<EffectRecord, EffectError> {
      if phase != Settled then Err(NotSettled)
      else if certainty != Some(UnknownOrPartial) then Err(NotUnknown)
      else Ok(this.(certainty := Some(ReconciledCertainty(probe)), settledAt := Some(now)))
    }

    /** Which optional fields a record of each phase carries. */
    predicate WellShaped() {
      && (claimant.Some? <==> !phase.Prepared?)
      && (claimedAt.Some? <==> !phase.Prepared?)
      && (dispatchedAt.Some? <==> phase.Dispatched? || phase.Settled?)
      && (operationResult.Some? <==> phase.Settled?)
      && (certainty.Some? <==> phase.Settled?)
      && (settledAt.Some? <==> phase.Settled?)
    }

    /** Claimed, dispatched, or settled without knowing what happened. */
    predicate Unresolved() {
      phase.Claimed? || phase.Dispatched? || certainty == Some(UnknownOrPartial)
    }

    predicate Started() {
      phase.Dispatched? || phase.Settled?
    }

    /** Never handed to the operation, or settled with positive evidence. */
    predicate Quiet() {
      phase.Prepared? || (phase.Settled? && Confirmed(certainty))
    }
  }

  function PrepareEffect(id: Id, operationId: string, targetHash: string, grantId: Id, now: int): EffectRecord {
    EffectRecord(id, operationId, targetHash, grantId, Prepared, None, None, None, now, None, None, None)
  }

  // ----- Capability grants -----

  datatype Capability = ListRoot | LocalRead | CreateOrReplace | NativeInspection | ProviderDisclose

  datatype Resource =
    | RunRoot
    | RelativeTarget(path: string)
    | ContextManifestHash(hash: string)
    | ReplacementTarget(relativeTarget: string, preimageHash: string, postimageHash: string)

  datatype ActionScope = WholeRun | Node(kind: string) | Effect(effectId: Id) | Attempt(attemptId: Id)

  datatype PairBinding = PairBinding(planId: Id, graphId: Id)

  datatype GrantError = InvalidExpiry | ZeroBudget | AlreadyRevoked | BudgetExhausted

  const BOOTSTRAP_GRANT_TTL_MS: int := 5 * 60 * 1000
  const POST_APPROVAL_GRANT_TTL_MS: int := 15 * 60 * 1000
  const DEFAULT_DISPATCH_BUDGET: nat := 1

  const OP_LOCAL_READ: string := "local-read-v1"
  const OP_PROVIDER_DISCLOSE: string := "provider-disclose-v1"
  const OP_CREATE_OR_REPLACE: string := "create-or-replace-v1"
  const OP_NATIVE_INSPECT: string := "native-inspect-v1"

  function DefaultTtl(capability: Capability): int {
    match capability
    case LocalRead | ProviderDisclose | ListRoot => BOOTSTRAP_GRANT_TTL_MS
    case CreateOrReplace | NativeInspection => POST_APPROVAL_GRANT_TTL_MS
  }

  function RegisteredOperation(capability: Capability): string {
    match capability
    case ListRoot | LocalRead => OP_LOCAL_READ
    case ProviderDisclose => OP_PROVIDER_DISCLOSE
    case CreateOrReplace => OP_CREATE_OR_REPLACE
    case NativeInspection => OP_NATIVE_INSPECT
  }

  datatype CapabilityGrant = CapabilityGrant(
    id: Id,
    capability: Capability,
    resource: Resource,
    actionScope: ActionScope,
    pair: Option<PairBinding>,
    issuedAt: int,
    expiresAt: int,
    revokedAt: Option<int>,
    budget: nat,
    remaining: nat)
  {
    function Revoke(now: int): Result<CapabilityGrant, GrantError> {
      if revokedAt.Some? then Err(AlreadyRevoked) else Ok(this.(revokedAt := Some(now)))
    }

    function ConsumeDispatch(): Result<CapabilityGrant, GrantError> {
      if remaining == 0 then Err(BudgetExhausted) else Ok(this.(remaining := remaining - 1))
    }
  }

  function IssueGrant(id: Id, capability: Capability, resource: Resource, actionScope: ActionScope,
                      pair: Option<PairBinding>, issuedAt: int, expiresAt: int, budget: nat)
    : Result<CapabilityGrant, GrantError>
  {
    if expiresAt <= issuedAt then Err(InvalidExpiry)
    else if budget == 0 then Err(ZeroBudget)
    else Ok(CapabilityGrant(id, capability, resource, actionScope, pair, issuedAt, expiresAt, None, budget, budget))
  }

  // ----- Root lease -----

  const ROOT_LEASE_TTL_MS: int := 30000

  datatype LeaseError = PriorOwnerAlive | UnsettledEffects

  datatype RootLease = RootLease(id: Id, owner: string, acquiredAt: int, expiresAt: int)
  {
    predicate IsExpired(now: int) { now >= expiresAt }

    function AuthorizeTakeover(priorOwnerGone: bool, reconciled: bool): Option<LeaseError> {
      if !priorOwnerGone then Some(PriorOwnerAlive)
      else if !reconciled then Some(UnsettledEffects)
      else None
    }
  }

  function AcquireRootLease(id: Id, owner: string, now: int): RootLease {
    RootLease(id, owner, now, now + ROOT_LEASE_TTL_MS)
  }

  // ----- Run events -----

  datatype EventKind =
    | RunCreated
    | PairFrozen(planId: Id, graphId: Id, approvalHash: string)
    | Approved(approvalId: Id)
    | GrantIssued(grantId: Id)
    | GrantRevoked(grantId: Id)
    | Denied(denialId: Id)
    | EffectPrepared(effectId: Id)
    | EffectClaimed(effectId: Id, claimant: string)
    | EffectDispatched(effectId: Id)
    | EffectSettled(effectId: Id, certainty: Certainty)
    | Checkpointed(checkpointId: Id)
    | Validated(validationId: Id)
    | Completed
    | Paused
    | Cancelled
    | Abandoned
    | LeaseAcquired(leaseId: Id)
    | LeaseReleased(leaseId: Id)
    | LeaseTakeover(leaseId: Id)
    | Resumed
  {
    function CanonicalTag(): string {
      match this
      case RunCreated => "run_created"
      case PairFrozen(_, _, _) => "pair_frozen"
      case Approved(_) => "approved"
      case GrantIssued(_) => "grant_issued"
      case GrantRevoked(_) => "grant_revoked"
      case Denied(_) => "denied"
      case EffectPrepared(_) => "effect_prepared"
      case EffectClaimed(_, _) => "effect_claimed"
      case EffectDispatched(_) => "effect_dispatched"
      case EffectSettled(_, _) => "effect_settled"
      case Checkpointed(_) => "checkpointed"
      case Validated(_) => "validated"
      case Completed => "completed"
      case Paused => "paused"
      case Cancelled => "cancelled"
      case Abandoned => "abandoned"
      case LeaseAcquired(_) => "lease_acquired"
      case LeaseReleased(_) => "lease_released"
      case LeaseTakeover(_) => "lease_takeover"
      case Resumed => "resumed"
    }

    /** Whether the event belongs to the history of one effect. */
    predicate Concerns(effect: Id) {
      match this
      case EffectPrepared(e) => e == effect
      case EffectClaimed(e, _) => e == effect
      case EffectDispatched(e) => e == effect
      case EffectSettled(e, _) => e == effect
      case _ => false
    }
  }

  datatype RunEvent = RunEvent(id: Id, sequence: nat, kind: EventKind, recordedAt: int)

  /** One link of the chain a checkpoint hashes: what the canonical encoding covers of an event. */
  datatype ChainLink = ChainLink(sequence: nat, id: Id, tag: string)

  function Link(event: RunEvent): ChainLink {
    ChainLink(event.sequence, event.id, event.kind.CanonicalTag())
  }

  function ChainOf(events: seq<RunEvent>): seq<ChainLink> {
    seq(|events|, i requires 0 <= i < |events| => Link(events[i]))
  }

  /** `chain` stands for the input of the stored SHA-256 digest. */
  datatype Checkpoint = Checkpoint(id: Id, lastEventSequence: nat, chain: seq<ChainLink>, createdAt: int)
}
