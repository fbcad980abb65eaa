/** The in-memory repository of one run, updated in place, and the use cases that drive it. Each
    method is tied to the specification functions of RunStore. */
module RunRepository {
  import opened Wrappers
  import opened RunRecords
  import opened RunStore
  import Lifecycle

  class MemoryRunRepository {
    var events: seq<RunEvent>
    var effects: seq<EffectRecord>
    var grants: seq<CapabilityGrant>
    var checkpoints: seq<RunRecords.Checkpoint>
    var lease: Option<RootLease>

    function State(): RunState
      reads this
    {
      RunState(events, effects, grants, checkpoints, lease)
    }

    constructor CreateRun(eventId: Id, now: int)
      ensures State() == RunState([RunEvent(eventId, 1, RunCreated, now)], [], [], [], None)
    {
      events := [RunEvent(eventId, 1, RunCreated, now)];
      effects, grants, checkpoints, lease := [], [], [], None;
    }

    /** Scans the effects table for the first record with this id. */
    method LocateEffect(id: Id) returns (found: Option<nat>)
      ensures found == FindEffect(effects, id)
    {
      var i := 0;
      while i < |effects|
        invariant 0 <= i <= |effects|
        invariant forall j :: 0 <= j < i ==> effects[j].id != id
      {
        if effects[i].id == id {
          return Some(i);
        }
        i := i + 1;
      }
      return None;
    }

    method LocateGrant(id: Id) returns (found: Option<nat>)
      ensures found == FindGrant(grants, id)
    {
      var i := 0;
      while i < |grants|
        invariant 0 <= i <= |grants|
        invariant forall j :: 0 <= j < i ==> grants[j].id != id
      {
        if grants[i].id == id {
          return Some(i);
        }
        i := i + 1;
      }
      return None;
    }

    /** Pushes the event if it is exactly next. */
    method AppendChecked(event: RunEvent) returns (error: Option<StoreError>)
      modifies this`events
      ensures Outcome(State(), error) == Commit(old(State()), AppendEvent(event))
    {
      var expected := NextSequence(events);
      if event.sequence != expected {
        return Some(SequenceGap(expected, event.sequence));
      }
      events := events + [event];
      return None;
    }

    method PersistPreparedEffect(effect: EffectRecord, event: RunEvent) returns (error: Option<StoreError>)
      modifies this
      ensures Outcome(State(), error) == Commit(old(State()), InsertEffect(effect, event))
    {
      error := AppendChecked(event);
      if error.None? {
        effects := effects + [effect];
      }
    }

    /** Marks the effect first and checks the sequence afterwards. */
    method PersistClaim(effectId: Id, claimant: string, now: int, event: RunEvent) returns (error: Option<StoreError>)
      modifies this
      ensures Outcome(State(), error) == Commit(old(State()), ClaimEffect(effectId, claimant, now, event))
    {
      var found := LocateEffect(effectId);
      if found.None? {
        return Some(NotFound);
      }
      var k := found.value;
      if effects[k].phase != Prepared {
        return Some(StoreError.NotPrepared);
      }
      var claimed := effects[k].Claim(claimant, now);
      if claimed.Err? {
        return Some(ClaimLost);
      }
      effects := effects[k := claimed.value];
      error := AppendChecked(event);
    }

    /** Persists a dispatched or a settled effect. */
    method PersistEffect(effect: EffectRecord, event: RunEvent) returns (error: Option<StoreError>)
      modifies this
      ensures Outcome(State(), error) == Commit(old(State()), ReplaceEffect(effect, event))
    {
      error := AppendChecked(event);
      if error.None? {
        var found := LocateEffect(effect.id);
        if found.Some? {
          effects := effects[found.value := effect];
        }
      }
    }

    method ConsumeDispatchBudget(grantId: Id, now: int) returns (error: Option<StoreError>)
      modifies this`grants
      ensures Outcome(State(), error) == CommitConsume(old(State()), grantId, now)
    {
      var found := LocateGrant(grantId);
      if found.None? {
        return Some(NotFound);
      }
      var k := found.value;
      if grants[k].revokedAt.Some? || now >= grants[k].expiresAt {
        return Some(GrantDenied);
      }
      var consumed := grants[k].ConsumeDispatch();
      if consumed.Err? {
        return Some(GrantDenied);
      }
      grants := grants[k := consumed.value];
      return None;
    }

    method PersistGrant(grant: CapabilityGrant, event: RunEvent) returns (error: Option<StoreError>)
      modifies this
      ensures Outcome(State(), error) == Commit(old(State()), InsertGrant(grant, event))
    {
      error := AppendChecked(event);
      if error.None? {
        grants := grants + [grant];
      }
    }

    method PersistGrantRevocation(grant: CapabilityGrant, event: RunEvent) returns (error: Option<StoreError>)
      modifies this
      ensures Outcome(State(), error) == Commit(old(State()), ReplaceGrant(grant, event))
    {
      error := AppendChecked(event);
      if error.None? {
        var found := LocateGrant(grant.id);
        if found.Some? {
          grants := grants[found.value := grant];
        }
      }
    }

    method PersistQuiescentCheckpoint(checkpoint: RunRecords.Checkpoint, event: RunEvent) returns (error: Option<StoreError>)
      modifies this
      ensures Outcome(State(), error) == Commit(old(State()), InsertCheckpoint(checkpoint, event))
    {
      if !Lifecycle.IsQuiescent(effects) {
        return Some(StoreError.NotQuiescent);
      }
      error := AppendChecked(event);
      if error.None? {
        checkpoints := checkpoints + [checkpoint];
      }
    }

    method PersistLease(taken: RootLease, event: RunEvent) returns (error: Option<StoreError>)
      modifies this
      ensures Outcome(State(), error) == Commit(old(State()), TakeLease(taken, event))
    {
      if lease.Some? && !lease.value.IsExpired(taken.acquiredAt) {
        return Some(LeaseConflict);
      }
      error := AppendChecked(event);
      if error.None? {
        lease := Some(taken);
      }
    }

    method ReleaseLease(event: RunEvent) returns (error: Option<StoreError>)
      modifies this
      ensures Outcome(State(), error) == Commit(old(State()), DropLease(event))
    {
      error := AppendChecked(event);
      if error.None? {
        lease := None;
      }
    }

    method TakeoverLease(taken: RootLease, event: RunEvent) returns (error: Option<StoreError>)
      modifies this
      ensures Outcome(State(), error) == Commit(old(State()), ReplaceLease(taken, event))
    {
      error := AppendChecked(event);
      if error.None? {
        lease := Some(taken);
      }
    }
  }

  // ----- Use cases, each as one uninterrupted call -----

  datatype CallResult = CallResult(state: RunState, error: Option<UseCaseError>)

  function Wrap(error: Option<StoreError>): Option<UseCaseError> {
    match error
    case None => None
    case Some(e) => Some(Repository(e))
  }

  /** Read and commit with nothing in between. */
  function ReadAndCommit(s: RunState, request: Request, recordId: Id, eventId: Id): CallResult {
    match Compute(s, request, recordId, eventId)
    case Err(e) => CallResult(s, Some(e))
    case Ok(intent) =>
      var r := Commit(s, intent);
      CallResult(r.state, Wrap(r.error))
  }

  /** A whole use case; a dispatch takes its budget first and keeps it even if it then fails. */
  function Whole(s: RunState, request: Request, recordId: Id, eventId: Id): CallResult {
    if request.Dispatch? then
      var consumed := CommitConsume(s, request.grantId, request.now);
      if consumed.error.Some? then CallResult(s, Wrap(consumed.error))
      else ReadAndCommit(consumed.state, request, recordId, eventId)
    else ReadAndCommit(s, request, recordId, eventId)
  }

  method PrepareEffectCall(repo: MemoryRunRepository, operationId: string, targetHash: string, grantId: Id, now: int,
                           recordId: Id, eventId: Id)
    returns (error: Option<UseCaseError>)
    modifies repo
    ensures CallResult(repo.State(), error)
         == Whole(old(repo.State()), Prepare(operationId, targetHash, grantId, now), recordId, eventId)
  {
    var lifecycle := Lifecycle.DeriveLifecycle(repo.events, repo.effects);
    if lifecycle.BlockedReconciliationRequired? {
      return Some(RunBlocked);
    }
    var effect := PrepareEffect(recordId, operationId, targetHash, grantId, now);
    var event := RunEvent(eventId, NextSequence(repo.events), EffectPrepared(recordId), now);
    var e := repo.PersistPreparedEffect(effect, event);
    return Wrap(e);
  }

  method ClaimEffectCall(repo: MemoryRunRepository, effectId: Id, claimant: string, now: int, recordId: Id, eventId: Id)
    returns (error: Option<UseCaseError>)
    modifies repo
    ensures CallResult(repo.State(), error) == Whole(old(repo.State()), Claim(effectId, claimant, now), recordId, eventId)
  {
    var event := RunEvent(eventId, NextSequence(repo.events), EffectClaimed(effectId, claimant), now);
    var e := repo.PersistClaim(effectId, claimant, now, event);
    return Wrap(e);
  }

  method DispatchEffectCall(repo: MemoryRunRepository, effectId: Id, grantId: Id, claimant: string, now: int,
                            recordId: Id, eventId: Id)
    returns (error: Option<UseCaseError>)
    modifies repo
    ensures CallResult(repo.State(), error)
         == Whole(old(repo.State()), Dispatch(effectId, grantId, claimant, now), recordId, eventId)
  {
    var e := repo.ConsumeDispatchBudget(grantId, now);
    if e.Some? {
      return Wrap(e);
    }
    var found := repo.LocateEffect(effectId);
    if found.None? {
      return Some(EffectNotFound);
    }
    var moved := repo.effects[found.value].MarkDispatched(claimant, now);
    if moved.Err? {
      return Some(EffectRefused(moved.error));
    }
    var event := RunEvent(eventId, NextSequence(repo.events), EffectDispatched(effectId), now);
    e := repo.PersistEffect(moved.value, event);
    return Wrap(e);
  }

  method SettleEffectCall(repo: MemoryRunRepository, effectId: Id, claimant: string, result: OperationResult,
                          certainty: Certainty, now: int, recordId: Id, eventId: Id)
    returns (error: Option<UseCaseError>)
    modifies repo
    ensures CallResult(repo.State(), error)
         == Whole(old(repo.State()), Settle(effectId, claimant, result, certainty, now), recordId, eventId)
  {
    var found := repo.LocateEffect(effectId);
    if found.None? {
      return Some(EffectNotFound);
    }
    var moved := repo.effects[found.value].Settle(claimant, result, certainty, now);
    if moved.Err? {
      return Some(EffectRefused(moved.error));
    }
    var event := RunEvent(eventId, NextSequence(repo.events), EffectSettled(effectId, certainty), now);
    var e := repo.PersistEffect(moved.value, event);
    return Wrap(e);
  }

  method ReconcileEffectCall(repo: MemoryRunRepository, effectId: Id, probe: Probe, now: int, recordId: Id, eventId: Id)
    returns (error: Option<UseCaseError>)
    modifies repo
    ensures CallResult(repo.State(), error) == Whole(old(repo.State()), Reconcile(effectId, probe, now), recordId, eventId)
  {
    var found := repo.LocateEffect(effectId);
    if found.None? {
      return Some(EffectNotFound);
    }
    var moved := repo.effects[found.value].Reconcile(probe, now);
    if moved.Err? {
      return Some(EffectRefused(moved.error));
    }
    var event := RunEvent(eventId, NextSequence(repo.events), EffectSettled(effectId, ReconciledCertainty(probe)), now);
    var e := repo.PersistEffect(moved.value, event);
    return Wrap(e);
  }

  method CheckpointCall(repo: MemoryRunRepository, now: int, recordId: Id, eventId: Id)
    returns (error: Option<UseCaseError>)
    modifies repo
    ensures CallResult(repo.State(), error) == Whole(old(repo.State()), Request.Checkpoint(now), recordId, eventId)
  {
    if !Lifecycle.IsQuiescent(repo.effects) {
      return Some(CheckpointNotQuiescent);
    }
    var lifecycle := Lifecycle.DeriveLifecycle(repo.events, repo.effects);
    if lifecycle.BlockedReconciliationRequired? {
      return Some(RunBlocked);
    }
    var checkpoint := RunRecords.Checkpoint(recordId, LastSequence(repo.events), ChainOf(repo.events), now);
    var event := RunEvent(eventId, NextSequence(repo.events), Checkpointed(recordId), now);
    var e := repo.PersistQuiescentCheckpoint(checkpoint, event);
    return Wrap(e);
  }

  /** Pause and cancel share their guard and differ in the event they append. */
  method StopCall(repo: MemoryRunRepository, cancel: bool, now: int, recordId: Id, eventId: Id)
    returns (error: Option<UseCaseError>)
    modifies repo
    ensures CallResult(repo.State(), error)
         == Whole(old(repo.State()), if cancel then Cancel(now) else Pause(now), recordId, eventId)
  {
    var lifecycle := Lifecycle.DeriveLifecycle(repo.events, repo.effects);
    if lifecycle.IsTerminal() || lifecycle.BlockedReconciliationRequired? || !Lifecycle.IsQuiescent(repo.effects) {
      return Some(UnsafeBoundary);
    }
    var kind := if cancel then EventKind.Cancelled else EventKind.Paused;
    var e := repo.AppendChecked(RunEvent(eventId, NextSequence(repo.events), kind, now));
    return Wrap(e);
  }

  /** The source issues every grant with DEFAULT_DISPATCH_BUDGET. */
  method IssueGrantCall(repo: MemoryRunRepository, capability: Capability, resource: Resource, actionScope: ActionScope,
                        pair: Option<PairBinding>, now: int, recordId: Id, eventId: Id)
    returns (error: Option<UseCaseError>)
    modifies repo
    ensures CallResult(repo.State(), error)
         == Whole(old(repo.State()), Issue(capability, resource, actionScope, pair, DEFAULT_DISPATCH_BUDGET, now),
                  recordId, eventId)
  {
    var issued := IssueGrant(recordId, capability, resource, actionScope, pair, now, now + DefaultTtl(capability),
                             DEFAULT_DISPATCH_BUDGET);
    match issued {
      case Err(refused) =>
        error := Some(GrantRefused(refused));
      case Ok(grant) =>
        var event := RunEvent(eventId, NextSequence(repo.events), GrantIssued(recordId), now);
        var e := repo.PersistGrant(grant, event);
        error := Wrap(e);
    }
  }

  method RevokeGrantCall(repo: MemoryRunRepository, grantId: Id, now: int, recordId: Id, eventId: Id)
    returns (error: Option<UseCaseError>)
    modifies repo
    ensures CallResult(repo.State(), error) == Whole(old(repo.State()), Revoke(grantId, now), recordId, eventId)
  {
    var found := repo.LocateGrant(grantId);
    if found.None? {
      return Some(GrantNotFound);
    }
    var revoked := repo.grants[found.value].Revoke(now);
    if revoked.Err? {
      return Some(GrantRefused(revoked.error));
    }
    var event := RunEvent(eventId, NextSequence(repo.events), GrantRevoked(grantId), now);
    var e := repo.PersistGrantRevocation(revoked.value, event);
    return Wrap(e);
  }

  method AcquireLeaseCall(repo: MemoryRunRepository, owner: string, now: int, recordId: Id, eventId: Id)
    returns (error: Option<UseCaseError>)
    modifies repo
    ensures CallResult(repo.State(), error) == Whole(old(repo.State()), AcquireLease(owner, now), recordId, eventId)
  {
    if repo.lease.Some? && !repo.lease.value.IsExpired(now) {
      return Some(LeaseHeld);
    }
    var event := RunEvent(eventId, NextSequence(repo.events), LeaseAcquired(recordId), now);
    var e := repo.PersistLease(AcquireRootLease(recordId, owner, now), event);
    return Wrap(e);
  }

  method ReleaseLeaseCall(repo: MemoryRunRepository, leaseId: Id, now: int, recordId: Id, eventId: Id)
    returns (error: Option<UseCaseError>)
    modifies repo
    ensures CallResult(repo.State(), error) == Whole(old(repo.State()), Request.ReleaseLease(leaseId, now), recordId, eventId)
  {
    var e := repo.ReleaseLease(RunEvent(eventId, NextSequence(repo.events), LeaseReleased(leaseId), now));
    return Wrap(e);
  }

  method TakeoverLeaseCall(repo: MemoryRunRepository, owner: string, priorOwnerGone: bool, now: int,
                           recordId: Id, eventId: Id)
    returns (error: Option<UseCaseError>)
    modifies repo
    ensures CallResult(repo.State(), error)
         == Whole(old(repo.State()), TakeOverLease(owner, priorOwnerGone, now), recordId, eventId)
  {
    if repo.lease.Some? {
      var refused := repo.lease.value.AuthorizeTakeover(priorOwnerGone, !Lifecycle.AnyUnresolved(repo.effects));
      if refused.Some? {
        return Some(LeaseRefused(refused.value));
      }
    } else if !priorOwnerGone {
      return Some(LeaseRefused(PriorOwnerAlive));
    }
    var event := RunEvent(eventId, NextSequence(repo.events), LeaseTakeover(recordId), now);
    var e := repo.TakeoverLease(AcquireRootLease(recordId, owner, now), event);
    return Wrap(e);
  }
}
