/** The durable state of one run, what each use case computes from a snapshot of it, and what each
    repository operation does to it. */
module RunStore {
  import opened Wrappers
  import opened RunRecords
  import Lifecycle

  datatype RunState = RunState(
    events: seq<RunEvent>,
    effects: seq<EffectRecord>,
    grants: seq<CapabilityGrant>,
    checkpoints: seq<Checkpoint>,
    lease: Option<RootLease>)

  datatype StoreError =
    | NotFound
    | SequenceGap(expected: nat, actual: nat)
    | ClaimLost
    | NotPrepared
    | GrantDenied
    | NotQuiescent
    | LeaseConflict

  datatype UseCaseError =
    | RunBlocked
    | EffectNotFound
    | EffectRefused(effectError: EffectError)
    | GrantNotFound
    | GrantRefused(grantError: GrantError)
    | CheckpointNotQuiescent
    | UnsafeBoundary
    | LeaseHeld
    | LeaseRefused(leaseError: LeaseError)
    | Repository(storeError: StoreError)

  function NextSequence(events: seq<RunEvent>): nat {
    if events == [] then 1 else events[|events| - 1].sequence + 1
  }

  function LastSequence(events: seq<RunEvent>): nat {
    if events == [] then 0 else events[|events| - 1].sequence
  }

  /** First effect with the given id from position k on, as an iterator search finds it. */
  function FindEffectFrom(effects: seq<EffectRecord>, id: Id, k: nat): (found: Option<nat>)
    requires k <= |effects|
    ensures found.Some? ==> k <= found.value < |effects| && effects[found.value].id == id
    ensures found.Some? ==> forall i :: k <= i < found.value ==> effects[i].id != id
    ensures found.None? ==> forall i :: k <= i < |effects| ==> effects[i].id != id
    decreases |effects| - k
  {
    if k == |effects| then None
    else if effects[k].id == id then Some(k)
    else FindEffectFrom(effects, id, k + 1)
  }

  function FindEffect(effects: seq<EffectRecord>, id: Id): (found: Option<nat>)
    ensures found.Some? ==> found.value < |effects| && effects[found.value].id == id
    ensures found.Some? ==> forall i :: 0 <= i < found.value ==> effects[i].id != id
    ensures found.None? ==> forall i :: 0 <= i < |effects| ==> effects[i].id != id
  {
    FindEffectFrom(effects, id, 0)
  }

  /** First grant with the given id from position k on. */
  function FindGrantFrom(grants: seq<CapabilityGrant>, id: Id, k: nat): (found: Option<nat>)
    requires k <= |grants|
    ensures found.Some? ==> k <= found.value < |grants| && grants[found.value].id == id
    ensures found.Some? ==> forall i :: k <= i < found.value ==> grants[i].id != id
    ensures found.None? ==> forall i :: k <= i < |grants| ==> grants[i].id != id
    decreases |grants| - k
  {
    if k == |grants| then None
    else if grants[k].id == id then Some(k)
    else FindGrantFrom(grants, id, k + 1)
  }

  function FindGrant(grants: seq<CapabilityGrant>, id: Id): (found: Option<nat>)
    ensures found.Some? ==> found.value < |grants| && grants[found.value].id == id
    ensures found.Some? ==> forall i :: 0 <= i < found.value ==> grants[i].id != id
    ensures found.None? ==> forall i :: 0 <= i < |grants| ==> grants[i].id != id
  {
    FindGrantFrom(grants, id, 0)
  }

  // ----- Use cases, first half: from a snapshot to an intent -----

  datatype Request =
    | Prepare(operationId: string, targetHash: string, grantId: Id, now: int)
    | Claim(effectId: Id, claimant: string, now: int)
    | Dispatch(effectId: Id, grantId: Id, claimant: string, now: int)
    | Settle(effectId: Id, claimant: string, result: OperationResult, certainty: Certainty, now: int)
    | Reconcile(effectId: Id, probe: Probe, now: int)
    | Checkpoint(now: int)
    | Pause(now: int)
    | Cancel(now: int)
    | Issue(capability: Capability, resource: Resource, actionScope: ActionScope, pair: Option<PairBinding>,
            budget: nat, now: int)
    | Revoke(grantId: Id, now: int)
    | AcquireLease(owner: string, now: int)
    | ReleaseLease(leaseId: Id, now: int)
    | TakeOverLease(owner: string, priorOwnerGone: bool, now: int)
    | Note(kind: NoteKind, now: int)

  /** Events the remaining use cases append without looking at the journal: freeze, approve, deny,
      validate, complete, and what a caller of `append_event` may add by itself. */
  predicate IsNote(kind: EventKind) {
    kind.PairFrozen? || kind.Approved? || kind.Denied? || kind.Validated? || kind.Completed?
    || kind.Abandoned? || kind.Resumed?
  }

  type NoteKind = kind: EventKind | IsNote(kind) witness EventKind.Resumed

  datatype Intent =
    | AppendEvent(event: RunEvent)
    | InsertEffect(effect: EffectRecord, event: RunEvent)
    | ClaimEffect(effectId: Id, claimant: string, now: int, event: RunEvent)
    | ReplaceEffect(effect: EffectRecord, event: RunEvent)
    | InsertGrant(grant: CapabilityGrant, event: RunEvent)
    | ReplaceGrant(grant: CapabilityGrant, event: RunEvent)
    | InsertCheckpoint(checkpoint: RunRecords.Checkpoint, event: RunEvent)
    | TakeLease(lease: RootLease, event: RunEvent)
    | DropLease(event: RunEvent)
    | ReplaceLease(lease: RootLease, event: RunEvent)

  function Blocked(s: RunState): bool {
    Lifecycle.Derive(s.events, s.effects).BlockedReconciliationRequired?
  }

  /** Pause and cancel demand a boundary with nothing in flight. */
  predicate SafeBoundary(s: RunState) {
    && !Lifecycle.Derive(s.events, s.effects).IsTerminal()
    && !Blocked(s)
    && Lifecycle.IsQuiescent(s.effects)
  }

  function EffectIntent(moved: Result<EffectRecord, EffectError>, event: RunEvent): Result<Intent, UseCaseError> {
    match moved
    case Err(e) => Err(EffectRefused(e))
    case Ok(effect) => Ok(ReplaceEffect(effect, event))
  }

  /** `recordId` and `eventId` are the identifiers the call generates. */
  function Compute(s: RunState, q: Request, recordId: Id, eventId: Id): Result<Intent, UseCaseError> {
    var next := NextSequence(s.events);
    match q
    case Prepare(operationId, targetHash, grantId, now) =>
      if Blocked(s) then Err(RunBlocked)
      else Ok(InsertEffect(PrepareEffect(recordId, operationId, targetHash, grantId, now),
                           RunEvent(eventId, next, EffectPrepared(recordId), now)))
    case Claim(effectId, claimant, now) =>
      Ok(ClaimEffect(effectId, claimant, now, RunEvent(eventId, next, EffectClaimed(effectId, claimant), now)))
    case Dispatch(effectId, _, claimant, now) =>
      (match FindEffect(s.effects, effectId)
       case None => Err(EffectNotFound)
       case Some(k) => EffectIntent(s.effects[k].MarkDispatched(claimant, now),
                                    RunEvent(eventId, next, EffectDispatched(effectId), now)))
    case Settle(effectId, claimant, result, certainty, now) =>
      (match FindEffect(s.effects, effectId)
       case None => Err(EffectNotFound)
       case Some(k) => EffectIntent(s.effects[k].Settle(claimant, result, certainty, now),
                                    RunEvent(eventId, next, EffectSettled(effectId, certainty), now)))
    case Reconcile(effectId, probe, now) =>
      (match FindEffect(s.effects, effectId)
       case None => Err(EffectNotFound)
       case Some(k) => EffectIntent(s.effects[k].Reconcile(probe, now),
                                    RunEvent(eventId, next, EffectSettled(effectId, ReconciledCertainty(probe)), now)))
    case Checkpoint(now) =>
      if !Lifecycle.IsQuiescent(s.effects) then Err(CheckpointNotQuiescent)
      else if Blocked(s) then Err(RunBlocked)
      else Ok(InsertCheckpoint(RunRecords.Checkpoint(recordId, LastSequence(s.events), ChainOf(s.events), now),
                               RunEvent(eventId, next, Checkpointed(recordId), now)))
    case Pause(now) =>
      if SafeBoundary(s) then Ok(AppendEvent(RunEvent(eventId, next, EventKind.Paused, now)))
      else Err(UnsafeBoundary)
    case Cancel(now) =>
      if SafeBoundary(s) then Ok(AppendEvent(RunEvent(eventId, next, EventKind.Cancelled, now)))
      else Err(UnsafeBoundary)
    case Issue(capability, resource, actionScope, pair, budget, now) =>
      (match IssueGrant(recordId, capability, resource, actionScope, pair, now, now + DefaultTtl(capability), budget)
       case Err(e) => Err(GrantRefused(e))
       case Ok(grant) => Ok(InsertGrant(grant, RunEvent(eventId, next, GrantIssued(recordId), now))))
    case Revoke(grantId, now) =>
      (match FindGrant(s.grants, grantId)
       case None => Err(GrantNotFound)
       case Some(k) =>
         (match s.grants[k].Revoke(now)
          case Err(e) => Err(GrantRefused(e))
          case Ok(grant) => Ok(ReplaceGrant(grant, RunEvent(eventId, next, GrantRevoked(grantId), now)))))
    case AcquireLease(owner, now) =>
      if s.lease.Some? && !s.lease.value.IsExpired(now) then Err(LeaseHeld)
      else Ok(TakeLease(AcquireRootLease(recordId, owner, now), RunEvent(eventId, next, LeaseAcquired(recordId), now)))
    case ReleaseLease(leaseId, now) =>
      Ok(DropLease(RunEvent(eventId, next, LeaseReleased(leaseId), now)))
    case TakeOverLease(owner, priorOwnerGone, now) =>
      var refused :=
        if s.lease.Some? then s.lease.value.AuthorizeTakeover(priorOwnerGone, !Lifecycle.AnyUnresolved(s.effects))
        else if priorOwnerGone then None
        else Some(PriorOwnerAlive);
      if refused.Some? then Err(LeaseRefused(refused.value))
      else Ok(ReplaceLease(AcquireRootLease(recordId, owner, now),
                           RunEvent(eventId, next, LeaseTakeover(recordId), now)))
    case Note(kind, now) =>
      Ok(AppendEvent(RunEvent(eventId, next, kind, now)))
  }

  // ----- Use cases, second half: what the repository does with an intent -----

  datatype Outcome = Outcome(state: RunState, error: Option<StoreError>)

  function Append(s: RunState, event: RunEvent): RunState {
    s.(events := s.events + [event])
  }

  predicate IsNext(s: RunState, event: RunEvent) {
    event.sequence == NextSequence(s.events)
  }

  /** `wanted` if the event is exactly next, the given state with a gap error otherwise. */
  function Checked(s: RunState, event: RunEvent, wanted: RunState): Outcome {
    if IsNext(s, event) then Outcome(wanted, None)
    else Outcome(s, Some(SequenceGap(NextSequence(s.events), event.sequence)))
  }

  function WithEffect(s: RunState, effect: EffectRecord): RunState {
    match FindEffect(s.effects, effect.id)
    case None => s
    case Some(k) => s.(effects := s.effects[k := effect])
  }

  function WithGrant(s: RunState, grant: CapabilityGrant): RunState {
    match FindGrant(s.grants, grant.id)
    case None => s
    case Some(k) => s.(grants := s.grants[k := grant])
  }

  /** Marks the effect claimed before it looks at the sequence: a claim that loses on sequence stays. */
  function CommitClaim(s: RunState, effectId: Id, claimant: string, now: int, event: RunEvent): Outcome {
    match FindEffect(s.effects, effectId)
    case None => Outcome(s, Some(NotFound))
    case Some(k) =>
      if s.effects[k].phase != Prepared then Outcome(s, Some(StoreError.NotPrepared))
      else
        match s.effects[k].Claim(claimant, now)
        case Err(_) => Outcome(s, Some(ClaimLost))
        case Ok(claimed) =>
          var marked := s.(effects := s.effects[k := claimed]);
          Checked(marked, event, Append(marked, event))
  }

  function Commit(s: RunState, intent: Intent): Outcome {
    match intent
    case AppendEvent(event) => Checked(s, event, Append(s, event))
    case InsertEffect(effect, event) => Checked(s, event, Append(s, event).(effects := s.effects + [effect]))
    case ClaimEffect(effectId, claimant, now, event) => CommitClaim(s, effectId, claimant, now, event)
    case ReplaceEffect(effect, event) => Checked(s, event, WithEffect(Append(s, event), effect))
    case InsertGrant(grant, event) => Checked(s, event, Append(s, event).(grants := s.grants + [grant]))
    case ReplaceGrant(grant, event) => Checked(s, event, WithGrant(Append(s, event), grant))
    case InsertCheckpoint(checkpoint, event) =>
      if !Lifecycle.IsQuiescent(s.effects) then Outcome(s, Some(StoreError.NotQuiescent))
      else Checked(s, event, Append(s, event).(checkpoints := s.checkpoints + [checkpoint]))
    case TakeLease(lease, event) =>
      if s.lease.Some? && !s.lease.value.IsExpired(lease.acquiredAt) then Outcome(s, Some(LeaseConflict))
      else Checked(s, event, Append(s, event).(lease := Some(lease)))
    case DropLease(event) => Checked(s, event, Append(s, event).(lease := None))
    case ReplaceLease(lease, event) => Checked(s, event, Append(s, event).(lease := Some(lease)))
  }

  /** Takes one dispatch from a live grant; appends no event. */
  function CommitConsume(s: RunState, grantId: Id, now: int): Outcome {
    match FindGrant(s.grants, grantId)
    case None => Outcome(s, Some(NotFound))
    case Some(k) =>
      if s.grants[k].revokedAt.Some? || now >= s.grants[k].expiresAt then Outcome(s, Some(GrantDenied))
      else
        match s.grants[k].ConsumeDispatch()
        case Err(_) => Outcome(s, Some(GrantDenied))
        case Ok(grant) => Outcome(s.(grants := s.grants[k := grant]), None)
  }

  // ----- What a commit can do, whatever the intent -----

  /** `b` is `a` with one effect claimed. */
  predicate ClaimedFrom(a: EffectRecord, b: EffectRecord) {
    && a.phase.Prepared?
    && b.claimant.Some?
    && b.claimedAt.Some?
    && b == a.(phase := Claimed, claimant := b.claimant, claimedAt := b.claimedAt)
  }

  /** What may change while the log stands still: prepared effects become claimed (a claim that lost
      on sequence) and grants lose budget. */
  predicate Drift(a: RunState, b: RunState) {
    && b.events == a.events
    && b.checkpoints == a.checkpoints
    && b.lease == a.lease
    && |b.effects| == |a.effects|
    && (forall i :: 0 <= i < |a.effects| ==> b.effects[i] == a.effects[i] || ClaimedFrom(a.effects[i], b.effects[i]))
    && |b.grants| == |a.grants|
    && (forall i :: 0 <= i < |a.grants| ==>
          b.grants[i].remaining <= a.grants[i].remaining
          && b.grants[i] == a.grants[i].(remaining := b.grants[i].remaining))
  }

  lemma DriftTransitive(a: RunState, b: RunState, c: RunState)
    requires Drift(a, b) && Drift(b, c)
    ensures Drift(a, c)
  {
    forall i | 0 <= i < |a.effects|
      ensures c.effects[i] == a.effects[i] || ClaimedFrom(a.effects[i], c.effects[i])
    {
      assert b.effects[i] == a.effects[i] || ClaimedFrom(a.effects[i], b.effects[i]);
      assert c.effects[i] == b.effects[i] || ClaimedFrom(b.effects[i], c.effects[i]);
    }
  }

  /** The exact-next check is a compare-and-swap on the log: a commit either appends the one event
      the intent carries, or leaves the log alone and at most drifts. */
  lemma CommitAppendsOrDrifts(s: RunState, intent: Intent)
    ensures var r := Commit(s, intent);
            && (r.error.None? ==> r.state.events == s.events + [intent.event] && IsNext(s, intent.event))
            && (r.error.Some? ==> Drift(s, r.state) && r.state.grants == s.grants)
  {
  }

  lemma ConsumeDrifts(s: RunState, grantId: Id, now: int)
    ensures Drift(s, CommitConsume(s, grantId, now).state)
  {
  }
}
