/** What each use case, run without interruption on any reachable state, answers and leaves behind, said in
    terms of phases, claimants, counts and times alone. */
module CallOutcomes {
  import opened Wrappers
  import opened RunRecords
  import opened RunStore
  import opened Protocol
  import opened JournalInvariants
  import opened JournalCommits
  import opened JournalAudit
  import opened RunRepository
  import Lifecycle

  /** What the journal invariant says of the run itself. */
  ghost predicate Sound(run: RunState) {
    && GapFree(run.events)
    && UniqueEffects(run.effects)
    && (forall i :: 0 <= i < |run.effects| ==> run.effects[i].WellShaped())
    && (forall i, j :: 0 <= i < j < |run.grants| ==> run.grants[i].id != run.grants[j].id)
    && LogOk(run)
  }

  lemma ReachableIsSound(now: int, steps: seq<Step>)
    ensures Sound(Run(now, steps).run)
  {
    RunKeeps(now, steps);
  }

  /** Some effect is claimed, dispatched or unknown, and nobody cancelled or abandoned the run. */
  predicate Held(run: RunState) {
    Lifecycle.AnyUnresolved(run.effects) && !Lifecycle.Stopped(run.events)
  }

  lemma HeldIsBlocked(run: RunState)
    requires Sound(run)
    ensures Blocked(run) <==> Held(run)
    ensures !Lifecycle.AnyUnresolved(run.effects) ==> Lifecycle.Derive(run.events, run.effects) == Lifecycle.Fold(run.events)
    ensures Lifecycle.AnyUnresolved(run.effects) && Lifecycle.Stopped(run.events) ==>
              Lifecycle.Derive(run.events, run.effects).IsTerminal()
    ensures Lifecycle.AllQuiet(run.effects) <==> !Lifecycle.AnyUnresolved(run.effects)
  {
    SettlementsAgree(run);
    Lifecycle.BlockedExactly(run.events, run.effects);
    Lifecycle.TestsCoincide(run.effects);
  }

  /** The next event of a log. */
  function Logged(run: RunState, eventId: Id, kind: EventKind, now: int): seq<RunEvent> {
    run.events + [RunEvent(eventId, |run.events| + 1, kind, now)]
  }

  lemma NextIsLength(run: RunState)
    requires GapFree(run.events)
    ensures NextSequence(run.events) == |run.events| + 1 && LastSequence(run.events) == |run.events|
  {
  }

  // ----- Effects -----

  /** Preparing is refused exactly on a held run; otherwise the table gains this one record. */
  lemma PrepareOutcome(run: RunState, operationId: string, targetHash: string, grantId: Id, now: int, recordId: Id, eventId: Id)
    requires Sound(run)
    ensures Whole(run, Prepare(operationId, targetHash, grantId, now), recordId, eventId)
         == if Held(run) then CallResult(run, Some(RunBlocked))
            else CallResult(run.(events := Logged(run, eventId, EffectPrepared(recordId), now),
                                 effects := run.effects + [EffectRecord(recordId, operationId, targetHash, grantId, Prepared, None,
                                                                        None, None, now, None, None, None)]),
                            None)
  {
    HeldIsBlocked(run);
    NextIsLength(run);
  }

  /** A claim succeeds exactly on a prepared effect. */
  lemma ClaimOutcome(run: RunState, k: nat, who: string, now: int, recordId: Id, eventId: Id)
    requires Sound(run) && k < |run.effects|
    ensures var e := run.effects[k];
            Whole(run, Claim(e.id, who, now), recordId, eventId)
              == if e.phase.Prepared?
                 then CallResult(run.(events := Logged(run, eventId, EffectClaimed(e.id, who), now),
                                      effects := run.effects[k := e.(phase := Claimed, claimant := Some(who),
                                                                     claimedAt := Some(now))]),
                                 None)
                 else CallResult(run, Some(Repository(StoreError.NotPrepared)))
  {
    FindUnique(run.effects, k);
    NextIsLength(run);
  }

  /** A grant that still pays for a dispatch. */
  predicate Pays(g: CapabilityGrant, now: int) {
    g.revokedAt.None? && now < g.expiresAt && g.remaining > 0
  }

  function Paid(run: RunState, g: nat): RunState
    requires g < |run.grants| && run.grants[g].remaining > 0
  {
    run.(grants := run.grants[g := run.grants[g].(remaining := run.grants[g].remaining - 1)])
  }

  lemma ConsumeOutcome(run: RunState, g: nat, now: int)
    requires Sound(run) && g < |run.grants|
    ensures CommitConsume(run, run.grants[g].id, now)
         == if Pays(run.grants[g], now) then Outcome(Paid(run, g), None) else Outcome(run, Some(GrantDenied))
  {
    FindGrantUnique(run.grants, g);
  }

  /** Without a paying grant a dispatch does nothing at all. */
  lemma UnpaidDispatch(run: RunState, g: nat, effectId: Id, who: string, now: int, recordId: Id, eventId: Id)
    requires Sound(run) && g < |run.grants| && !Pays(run.grants[g], now)
    ensures Whole(run, Dispatch(effectId, run.grants[g].id, who, now), recordId, eventId)
         == CallResult(run, Some(Repository(GrantDenied)))
  {
    ConsumeOutcome(run, g, now);
  }

  lemma DispatchRead(run: RunState, k: nat, grantId: Id, who: string, now: int, recordId: Id, eventId: Id)
    requires GapFree(run.events) && UniqueEffects(run.effects) && k < |run.effects|
    ensures var e := run.effects[k];
            ReadAndCommit(run, Dispatch(e.id, grantId, who, now), recordId, eventId)
              == if !e.phase.Claimed? then CallResult(run, Some(EffectRefused(NotClaimed)))
                 else if e.claimant != Some(who) then CallResult(run, Some(EffectRefused(WrongClaimant)))
                 else CallResult(run.(events := Logged(run, eventId, EffectDispatched(e.id), now),
                                      effects := run.effects[k := e.(phase := Dispatched, dispatchedAt := Some(now))]),
                                 None)
  {
    FindUnique(run.effects, k);
    NextIsLength(run);
  }

  /** With a paying grant it succeeds exactly on an effect claimed by the very claimant it names; otherwise
      log and effects stay and the budget is gone. */
  lemma DispatchOutcome(run: RunState, k: nat, g: nat, who: string, now: int, recordId: Id, eventId: Id)
    requires Sound(run) && k < |run.effects| && g < |run.grants| && Pays(run.grants[g], now)
    ensures var e, paid := run.effects[k], Paid(run, g);
            Whole(run, Dispatch(e.id, run.grants[g].id, who, now), recordId, eventId)
              == if !e.phase.Claimed? then CallResult(paid, Some(EffectRefused(NotClaimed)))
                 else if e.claimant != Some(who) then CallResult(paid, Some(EffectRefused(WrongClaimant)))
                 else CallResult(paid.(events := Logged(run, eventId, EffectDispatched(e.id), now),
                                       effects := run.effects[k := e.(phase := Dispatched, dispatchedAt := Some(now))]),
                                 None)
  {
    ConsumeOutcome(run, g, now);
    DispatchRead(Paid(run, g), k, run.grants[g].id, who, now, recordId, eventId);
  }

  /** A settlement succeeds exactly on an effect dispatched under the claimant it names, unless it makes
      an error or a cancellation say that nothing happened. */
  lemma SettleOutcome(run: RunState, k: nat, who: string, result: OperationResult, certainty: Certainty, now: int,
                      recordId: Id, eventId: Id)
    requires Sound(run) && k < |run.effects|
    ensures var e := run.effects[k];
            Whole(run, Settle(e.id, who, result, certainty, now), recordId, eventId)
              == if !e.phase.Dispatched? then CallResult(run, Some(EffectRefused(NotDispatched)))
                 else if e.claimant != Some(who) then CallResult(run, Some(EffectRefused(WrongClaimant)))
                 else if !result.Success? && certainty.ConfirmedNoEffect? then CallResult(run, Some(EffectRefused(InvalidCertainty)))
                 else CallResult(run.(events := Logged(run, eventId, EffectSettled(e.id, certainty), now),
                                      effects := run.effects[k := e.(phase := Settled, operationResult := Some(result),
                                                                     certainty := Some(certainty), settledAt := Some(now))]),
                                 None)
  {
    FindUnique(run.effects, k);
    NextIsLength(run);
  }

  /** What the probe says of the file is what the reconciliation records. */
  predicate Says(probe: Probe, certainty: Certainty) {
    && (probe.MatchesPostimage? <==> certainty.ConfirmedCommitted?)
    && (probe.MatchesPreimage? <==> certainty.ConfirmedNoEffect?)
    && (probe.MatchesNeither? <==> certainty.UnknownOrPartial?)
  }

  /** A reconciliation succeeds exactly on a settled, unknown effect and records what the probe found. */
  lemma ReconcileOutcome(run: RunState, k: nat, probe: Probe, now: int, recordId: Id, eventId: Id) returns (certainty: Certainty)
    requires Sound(run) && k < |run.effects|
    ensures Says(probe, certainty)
    ensures var e := run.effects[k];
            Whole(run, Reconcile(e.id, probe, now), recordId, eventId)
              == if !e.phase.Settled? then CallResult(run, Some(EffectRefused(NotSettled)))
                 else if e.certainty != Some(UnknownOrPartial) then CallResult(run, Some(EffectRefused(NotUnknown)))
                 else CallResult(run.(events := Logged(run, eventId, EffectSettled(e.id, certainty), now),
                                      effects := run.effects[k := e.(certainty := Some(certainty), settledAt := Some(now))]),
                                 None)
  {
    certainty := match probe
                 case MatchesPreimage => ConfirmedNoEffect
                 case MatchesPostimage => ConfirmedCommitted
                 case MatchesNeither => UnknownOrPartial;
    FindUnique(run.effects, k);
    NextIsLength(run);
  }

  /** An identifier nobody has is refused by every one of them; only a paid dispatch leaves a trace. */
  lemma UnknownEffect(run: RunState, id: Id, who: string, result: OperationResult, certainty: Certainty, probe: Probe, now: int,
                      recordId: Id, eventId: Id)
    requires forall i :: 0 <= i < |run.effects| ==> run.effects[i].id != id
    ensures Whole(run, Claim(id, who, now), recordId, eventId) == CallResult(run, Some(Repository(NotFound)))
    ensures Whole(run, Settle(id, who, result, certainty, now), recordId, eventId) == CallResult(run, Some(EffectNotFound))
    ensures Whole(run, Reconcile(id, probe, now), recordId, eventId) == CallResult(run, Some(EffectNotFound))
  {
    assert FindEffect(run.effects, id) == None;
  }

  lemma UnknownDispatch(run: RunState, id: Id, g: nat, who: string, now: int, recordId: Id, eventId: Id)
    requires Sound(run) && g < |run.grants| && Pays(run.grants[g], now)
    requires forall i :: 0 <= i < |run.effects| ==> run.effects[i].id != id
    ensures Whole(run, Dispatch(id, run.grants[g].id, who, now), recordId, eventId) == CallResult(Paid(run, g), Some(EffectNotFound))
  {
    ConsumeOutcome(run, g, now);
    assert FindEffect(Paid(run, g).effects, id) == None;
  }

  // ----- Checkpoints and boundaries -----

  predicate InFlight(e: EffectRecord) {
    e.phase.Claimed? || e.phase.Dispatched?
  }

  /** A checkpoint is refused exactly over an effect in flight, or over an unknown one of a run that is not
      stopped; otherwise it covers the whole log. */
  lemma CheckpointOutcome(run: RunState, now: int, recordId: Id, eventId: Id)
    requires Sound(run)
    ensures Whole(run, Request.Checkpoint(now), recordId, eventId)
         == if exists i :: 0 <= i < |run.effects| && InFlight(run.effects[i]) then CallResult(run, Some(CheckpointNotQuiescent))
            else if Held(run) then CallResult(run, Some(RunBlocked))
            else CallResult(run.(events := Logged(run, eventId, Checkpointed(recordId), now),
                                 checkpoints := run.checkpoints
                                   + [RunRecords.Checkpoint(recordId, |run.events|, ChainOf(run.events), now)]),
                            None)
  {
    HeldIsBlocked(run);
    NextIsLength(run);
    QuiescentMeans(run.effects);
  }

  lemma QuiescentMeans(effects: seq<EffectRecord>)
    ensures Lifecycle.IsQuiescent(effects) <==> !exists i :: 0 <= i < |effects| && InFlight(effects[i])
  {
    if i :| 0 <= i < |effects| && InFlight(effects[i]) {
      assert effects[i].phase.Claimed? || effects[i].phase.Dispatched?;
    }
    if i :| 0 <= i < |effects| && (effects[i].phase.Claimed? || effects[i].phase.Dispatched?) {
      assert InFlight(effects[i]);
    }
  }

  /** Where a run may be paused or cancelled: every effect at rest, and the log not at an end. */
  predicate AtRest(run: RunState) {
    Lifecycle.AllQuiet(run.effects) && !Lifecycle.Fold(run.events).IsTerminal()
  }

  lemma SafeBoundaryExactly(run: RunState)
    requires Sound(run)
    ensures SafeBoundary(run) <==> AtRest(run)
  {
    HeldIsBlocked(run);
    forall i | 0 <= i < |run.effects| && run.effects[i].Quiet() ensures !InFlight(run.effects[i]) {
    }
    QuiescentMeans(run.effects);
    if Lifecycle.AnyUnresolved(run.effects) && !Lifecycle.Stopped(run.events) {
      assert Blocked(run);
    }
  }

  lemma FoldOfLogged(run: RunState, eventId: Id, kind: EventKind, now: int)
    ensures Lifecycle.Fold(Logged(run, eventId, kind, now)) == Lifecycle.NextState(Lifecycle.Fold(run.events), kind)
  {
    var event := RunEvent(eventId, |run.events| + 1, kind, now);
    assert (run.events + [event])[..|run.events|] == run.events;
  }

  lemma QuietLifecycle(events: seq<RunEvent>, effects: seq<EffectRecord>)
    requires Lifecycle.AllQuiet(effects) && forall i :: 0 <= i < |effects| ==> effects[i].WellShaped()
    ensures Lifecycle.Derive(events, effects) == Lifecycle.Fold(events)
  {
    Lifecycle.TestsCoincide(effects);
    forall i | 0 <= i < |effects| ensures effects[i].certainty != Some(UnknownOrPartial) {
      Lifecycle.QuietOrUnresolved(effects[i]);
    }
  }

  /** A pause succeeds exactly at rest, and the run is then paused. */
  lemma PauseOutcome(run: RunState, now: int, recordId: Id, eventId: Id)
    requires Sound(run)
    ensures var out := Whole(run, Pause(now), recordId, eventId);
            if AtRest(run) then
              && out == CallResult(run.(events := Logged(run, eventId, EventKind.Paused, now)), None)
              && Lifecycle.Derive(out.state.events, out.state.effects) == Lifecycle.State.Paused
            else out == CallResult(run, Some(UnsafeBoundary))
  {
    SafeBoundaryExactly(run);
    NextIsLength(run);
    FoldOfLogged(run, eventId, EventKind.Paused, now);
    if AtRest(run) {
      QuietLifecycle(Logged(run, eventId, EventKind.Paused, now), run.effects);
    }
  }

  /** A cancellation succeeds exactly at rest, and the run is then cancelled. */
  lemma CancelOutcome(run: RunState, now: int, recordId: Id, eventId: Id)
    requires Sound(run)
    ensures var out := Whole(run, Cancel(now), recordId, eventId);
            if AtRest(run) then
              && out == CallResult(run.(events := Logged(run, eventId, EventKind.Cancelled, now)), None)
              && Lifecycle.Derive(out.state.events, out.state.effects) == Lifecycle.State.Cancelled
            else out == CallResult(run, Some(UnsafeBoundary))
  {
    SafeBoundaryExactly(run);
    NextIsLength(run);
    FoldOfLogged(run, eventId, EventKind.Cancelled, now);
    if AtRest(run) {
      QuietLifecycle(Logged(run, eventId, EventKind.Cancelled, now), run.effects);
    }
  }

  // ----- Grants -----

  /** Five minutes before an approval, fifteen after it. */
  function Lifetime(capability: Capability): int {
    if capability.CreateOrReplace? || capability.NativeInspection? then 900000 else 300000
  }

  /** A grant is refused exactly without a budget; otherwise it is live, unspent, and ends with its lifetime. */
  lemma IssueOutcome(run: RunState, capability: Capability, resource: Resource, scope: ActionScope, pair: Option<PairBinding>,
                     budget: nat, now: int, recordId: Id, eventId: Id)
    requires Sound(run)
    ensures Whole(run, Issue(capability, resource, scope, pair, budget, now), recordId, eventId)
         == if budget == 0 then CallResult(run, Some(GrantRefused(ZeroBudget)))
            else CallResult(run.(events := Logged(run, eventId, GrantIssued(recordId), now),
                                 grants := run.grants
                                   + [CapabilityGrant(recordId, capability, resource, scope, pair, now, now + Lifetime(capability),
                                                      None, budget, budget)]),
                            None)
  {
    NextIsLength(run);
  }

  /** A revocation succeeds exactly on a grant not revoked yet. */
  lemma RevokeOutcome(run: RunState, g: nat, now: int, recordId: Id, eventId: Id)
    requires Sound(run) && g < |run.grants|
    ensures var grant := run.grants[g];
            Whole(run, Revoke(grant.id, now), recordId, eventId)
              == if grant.revokedAt.Some? then CallResult(run, Some(GrantRefused(AlreadyRevoked)))
                 else CallResult(run.(events := Logged(run, eventId, GrantRevoked(grant.id), now),
                                      grants := run.grants[g := grant.(revokedAt := Some(now))]),
                                 None)
  {
    FindGrantUnique(run.grants, g);
    NextIsLength(run);
  }

  lemma UnknownGrant(run: RunState, id: Id, effectId: Id, who: string, now: int, recordId: Id, eventId: Id)
    requires forall i :: 0 <= i < |run.grants| ==> run.grants[i].id != id
    ensures Whole(run, Revoke(id, now), recordId, eventId) == CallResult(run, Some(GrantNotFound))
    ensures Whole(run, Dispatch(effectId, id, who, now), recordId, eventId) == CallResult(run, Some(Repository(NotFound)))
  {
    assert FindGrant(run.grants, id) == None;
  }

  // ----- The root lease -----

  /** The lease is refused exactly while an earlier one runs; otherwise it runs for thirty seconds. */
  lemma AcquireOutcome(run: RunState, owner: string, now: int, recordId: Id, eventId: Id)
    requires Sound(run)
    ensures Whole(run, AcquireLease(owner, now), recordId, eventId)
         == if run.lease.Some? && now < run.lease.value.expiresAt then CallResult(run, Some(LeaseHeld))
            else CallResult(run.(events := Logged(run, eventId, LeaseAcquired(recordId), now),
                                 lease := Some(RootLease(recordId, owner, now, now + 30000))),
                            None)
  {
    NextIsLength(run);
  }

  /** Releasing always succeeds, whatever lease is named. */
  lemma ReleaseOutcome(run: RunState, leaseId: Id, now: int, recordId: Id, eventId: Id)
    requires Sound(run)
    ensures Whole(run, ReleaseLease(leaseId, now), recordId, eventId)
         == CallResult(run.(events := Logged(run, eventId, LeaseReleased(leaseId), now), lease := None), None)
  {
    NextIsLength(run);
  }

  /** A takeover is refused exactly while the owner may be alive, or over an unresolved effect of a held lease. */
  lemma TakeoverOutcome(run: RunState, owner: string, gone: bool, now: int, recordId: Id, eventId: Id)
    requires Sound(run)
    ensures Whole(run, TakeOverLease(owner, gone, now), recordId, eventId)
         == if !gone then CallResult(run, Some(LeaseRefused(PriorOwnerAlive)))
            else if run.lease.Some? && Lifecycle.AnyUnresolved(run.effects) then CallResult(run, Some(LeaseRefused(UnsettledEffects)))
            else CallResult(run.(events := Logged(run, eventId, LeaseTakeover(recordId), now),
                                 lease := Some(RootLease(recordId, owner, now, now + 30000))),
                            None)
  {
    NextIsLength(run);
  }

  /** The remaining use cases append their event. */
  lemma NoteOutcome(run: RunState, kind: NoteKind, now: int, recordId: Id, eventId: Id)
    requires Sound(run)
    ensures Whole(run, Note(kind, now), recordId, eventId) == CallResult(run.(events := Logged(run, eventId, kind, now)), None)
  {
    NextIsLength(run);
  }
}
