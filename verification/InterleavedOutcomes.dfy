/** What a commit means when any number of other calls went on beside its own, again in terms of phases,
    claimants and probes alone. */
module InterleavedOutcomes {
  import opened Wrappers
  import opened RunRecords
  import opened RunStore
  import opened Protocol
  import opened JournalInvariants
  import opened JournalPreservation
  import opened JournalCommits
  import opened CallOutcomes
  import Lifecycle

  // ----- Effects moved by a commit -----

  /** The run after effect k became e and one event was logged. */
  function Became(run: RunState, k: nat, e: EffectRecord, eventId: Id, kind: EventKind, now: int): RunState
    requires k < |run.effects|
  {
    run.(events := Logged(run, eventId, kind, now), effects := run.effects[k := e])
  }

  lemma CommittedEvent(s: Sys, c: Id)
    requires Inv(s) && Commits(s, Persist(c))
    ensures s.calls[c].intent.event
         == RunEvent(c + 2, |s.run.events| + 1, KindOf(s.calls[c].request, c + 1), s.calls[c].intent.event.recordedAt)
  {
    WinningKind(s, c);
    CommittedOnSnapshot(s, c);
    ComputedSequence(s.calls[c].snapshot, s.calls[c].request, c + 1, c + 2);
    NextIsLength(s.run);
  }

  lemma ComputedTime(snapshot: RunState, request: Request, recordId: Id, eventId: Id)
    requires Compute(snapshot, request, recordId, eventId).Ok?
    ensures Compute(snapshot, request, recordId, eventId).value.event.recordedAt == request.now
  {
  }

  lemma CommittedMove(s: Sys, c: Id) returns (k: nat)
    requires Inv(s) && Commits(s, Persist(c)) && MovesEffect(s.calls[c].request)
    ensures k < |s.run.effects| && s.run.effects[k].id == s.calls[c].request.effectId
    ensures MoveOf(s.calls[c].request, s.run.effects[k]).Ok?
    ensures Exec(s, Persist(c)).run
         == Became(s.run, k, MoveOf(s.calls[c].request, s.run.effects[k]).value, c + 2, KindOf(s.calls[c].request, c + 1),
                   s.calls[c].request.now)
  {
    k := PersistsFromCurrent(s, c);
    CommittedEvent(s, c);
    CommittedOnSnapshot(s, c);
    ComputedTime(s.calls[c].snapshot, s.calls[c].request, c + 1, c + 2);
  }

  /** A claim that commits found its effect prepared and makes the caller its claimant. */
  lemma CommittedClaim(s: Sys, c: Id) returns (k: nat)
    requires Inv(s) && Commits(s, Persist(c)) && s.calls[c].request.Claim?
    ensures k < |s.run.effects|
    ensures var q, e := s.calls[c].request, s.run.effects[k];
            && e.id == q.effectId && e.phase.Prepared?
            && Exec(s, Persist(c)).run
               == Became(s.run, k, e.(phase := Claimed, claimant := Some(q.claimant), claimedAt := Some(q.now)), c + 2,
                         EffectClaimed(e.id, q.claimant), q.now)
  {
    k := CommittedMove(s, c);
  }

  /** The claimant in the table is the one the effect's claim event names, if the claim left one. */
  predicate ClaimedInLogBy(run: RunState, id: Id, who: string) {
    var own := Own(run.events, id);
    |own| > 1 && own[1].EffectClaimed? ==> own[1].claimant == who
  }

  lemma TableClaimant(run: RunState, k: nat)
    requires LogOk(run) && k < |run.effects| && run.effects[k].claimant.Some?
    ensures ClaimedInLogBy(run, run.effects[k].id, run.effects[k].claimant.value)
  {
    assert Fits(Own(run.events, run.effects[k].id), run.effects[k]);
  }

  /** A dispatch that commits was requested under the claimant that the effect's claim recorded. */
  lemma CommittedDispatch(s: Sys, c: Id) returns (k: nat)
    requires Inv(s) && Commits(s, Persist(c)) && s.calls[c].request.Dispatch?
    ensures k < |s.run.effects|
    ensures var q, e := s.calls[c].request, s.run.effects[k];
            && e.id == q.effectId && e.phase.Claimed? && e.claimant == Some(q.claimant)
            && ClaimedInLogBy(s.run, e.id, q.claimant)
            && Exec(s, Persist(c)).run
               == Became(s.run, k, e.(phase := Dispatched, dispatchedAt := Some(q.now)), c + 2, EffectDispatched(e.id), q.now)
  {
    k := CommittedMove(s, c);
    TableClaimant(s.run, k);
  }

  /** So was a settlement, and it never makes an error or a cancellation say that nothing happened. */
  lemma CommittedSettlement(s: Sys, c: Id) returns (k: nat)
    requires Inv(s) && Commits(s, Persist(c)) && s.calls[c].request.Settle?
    ensures k < |s.run.effects|
    ensures var q, e := s.calls[c].request, s.run.effects[k];
            && e.id == q.effectId && e.phase.Dispatched? && e.claimant == Some(q.claimant)
            && ClaimedInLogBy(s.run, e.id, q.claimant)
            && (q.certainty.ConfirmedNoEffect? ==> q.result.Success?)
            && Exec(s, Persist(c)).run
               == Became(s.run, k, e.(phase := Settled, operationResult := Some(q.result), certainty := Some(q.certainty),
                                      settledAt := Some(q.now)),
                         c + 2, EffectSettled(e.id, q.certainty), q.now)
  {
    k := CommittedMove(s, c);
    TableClaimant(s.run, k);
  }

  // ----- Reconciliation -----

  lemma ReconciledSays(probe: Probe)
    ensures Says(probe, ReconciledCertainty(probe))
  {
  }

  /** A reconciliation that commits found its effect unknown and records exactly what the probe found:
      committed for the postimage, no effect for the preimage, unknown for neither. */
  lemma CommittedReconciliation(s: Sys, c: Id) returns (k: nat, certainty: Certainty)
    requires Inv(s) && Commits(s, Persist(c)) && s.calls[c].request.Reconcile?
    ensures k < |s.run.effects| && Says(s.calls[c].request.probe, certainty)
    ensures var q, e := s.calls[c].request, s.run.effects[k];
            && e.id == q.effectId && e.phase.Settled? && e.certainty == Some(UnknownOrPartial)
            && Exec(s, Persist(c)).run
               == Became(s.run, k, e.(certainty := Some(certainty), settledAt := Some(q.now)), c + 2,
                         EffectSettled(e.id, certainty), q.now)
  {
    k := CommittedMove(s, c);
    certainty := ReconciledCertainty(s.calls[c].request.probe);
    ReconciledSays(s.calls[c].request.probe);
  }

  predicate OnlyUnresolved(run: RunState, id: Id) {
    forall i :: 0 <= i < |run.effects| && run.effects[i].id != id ==> !run.effects[i].Unresolved()
  }

  lemma StoppedAfter(run: RunState, event: RunEvent)
    requires !event.kind.Cancelled? && !event.kind.Abandoned?
    ensures Lifecycle.Stopped(run.events + [event]) <==> Lifecycle.Stopped(run.events)
  {
    var events := run.events + [event];
    assert forall i :: 0 <= i < |run.events| ==> events[i] == run.events[i];
  }

  lemma ResolvedExactly(run: RunState, k: nat, e: EffectRecord)
    requires k < |run.effects| && e.id == run.effects[k].id && UniqueEffects(run.effects)
    requires OnlyUnresolved(run, e.id)
    ensures Lifecycle.AnyUnresolved(run.effects[k := e]) <==> e.Unresolved()
  {
    var effects' := run.effects[k := e];
    assert effects'[k] == e;
    forall i | 0 <= i < |effects'| && i != k ensures !effects'[i].Unresolved() {
      assert run.effects[i].id != e.id;
    }
  }

  lemma InvIsSound(s: Sys)
    requires Inv(s)
    ensures Sound(s.run)
  {
  }

  lemma HeldAfterReconciliation(run: RunState, k: nat, certainty: Certainty, eventId: Id, now: int)
    requires UniqueEffects(run.effects) && k < |run.effects| && run.effects[k].phase.Settled?
    requires OnlyUnresolved(run, run.effects[k].id) && !Lifecycle.Stopped(run.events)
    ensures var e := run.effects[k].(certainty := Some(certainty), settledAt := Some(now));
            Held(Became(run, k, e, eventId, EffectSettled(e.id, certainty), now)) <==> certainty.UnknownOrPartial?
  {
    var e := run.effects[k].(certainty := Some(certainty), settledAt := Some(now));
    ResolvedExactly(run, k, e);
    StoppedAfter(run, RunEvent(eventId, |run.events| + 1, EffectSettled(e.id, certainty), now));
  }

  lemma BlockedIsHeld(s: Sys)
    requires Inv(s)
    ensures Blocked(s.run) <==> Held(s.run)
  {
    InvIsSound(s);
    HeldIsBlocked(s.run);
  }

  lemma BlockedAfter(s: Sys, step: Step, run': RunState)
    requires Inv(s) && run' == Exec(s, step).run
    ensures Blocked(run') <==> Held(run')
  {
    StepKeeps(s, step);
    BlockedIsHeld(Exec(s, step));
  }

  lemma HeldByUnknown(run: RunState, k: nat)
    requires k < |run.effects| && run.effects[k].certainty == Some(UnknownOrPartial) && !Lifecycle.Stopped(run.events)
    ensures Held(run)
  {
    assert run.effects[k].Unresolved();
  }

  lemma HeldAfterCommit(s: Sys, c: Id, run': RunState)
    requires Inv(s) && Commits(s, Persist(c)) && s.calls[c].request.Reconcile? && run' == Exec(s, Persist(c)).run
    requires OnlyUnresolved(s.run, s.calls[c].request.effectId) && !Lifecycle.Stopped(s.run.events)
    ensures Held(s.run)
    ensures Held(run') <==> s.calls[c].request.probe.MatchesNeither?
  {
    var k, certainty := CommittedReconciliation(s, c);
    HeldByUnknown(s.run, k);
    HeldAfterReconciliation(s.run, k, certainty, c + 2, s.calls[c].request.now);
  }

  /** Reconciling the only unresolved effect of a run that is not stopped unblocks the run exactly when the
      probe matched one of the two hashes. */
  lemma UnblockedExactly(s: Sys, c: Id)
    requires Inv(s) && Commits(s, Persist(c)) && s.calls[c].request.Reconcile?
    requires OnlyUnresolved(s.run, s.calls[c].request.effectId) && !Lifecycle.Stopped(s.run.events)
    ensures Blocked(s.run)
    ensures !Blocked(Exec(s, Persist(c)).run)
       <==> s.calls[c].request.probe.MatchesPreimage? || s.calls[c].request.probe.MatchesPostimage?
  {
    HeldAfterCommit(s, c, Exec(s, Persist(c)).run);
    BlockedIsHeld(s);
    BlockedAfter(s, Persist(c), Exec(s, Persist(c)).run);
  }

  // ----- Preparations -----

  lemma PrepareComputes(run: RunState, request: Request, recordId: Id, eventId: Id)
    requires Sound(run) && request.Prepare?
    ensures Compute(run, request, recordId, eventId).Ok? <==> !Held(run)
  {
    HeldIsBlocked(run);
  }

  /** A preparation gets past its reading exactly when the run is not held. */
  lemma PrepareReadExactly(s: Sys, request: Request)
    requires Inv(s) && request.Prepare?
    ensures s.supply in Exec(s, Read(request)).calls <==> !Held(s.run)
    ensures Exec(s, Read(request)).run == s.run
  {
    InvIsSound(s);
    PrepareComputes(s.run, request, s.supply + 1, s.supply + 2);
    ReadShape(s, request, Compute(s.run, request, s.supply + 1, s.supply + 2));
  }

  /** Every waiting preparation read a run that was not held. */
  ghost predicate FreeSnapshots(s: Sys) {
    forall c :: c in s.calls && s.calls[c].Ready? && s.calls[c].request.Prepare? ==> !Held(s.calls[c].snapshot)
  }

  lemma ReadKeepsFree(s: Sys, request: Request)
    requires Inv(s) && FreeSnapshots(s)
    ensures FreeSnapshots(Exec(s, Read(request)))
  {
    if !request.Dispatch? {
      ReadShape(s, request, Compute(s.run, request, s.supply + 1, s.supply + 2));
      if request.Prepare? {
        InvIsSound(s);
        PrepareComputes(s.run, request, s.supply + 1, s.supply + 2);
      }
    }
  }

  lemma TicketKeepsFree(s: Sys, c: Id)
    requires FreeSnapshots(s)
    ensures FreeSnapshots(Exec(s, ReadTicket(c)))
  {
    if c in s.calls && s.calls[c].Ticket? {
      var t := s.calls[c];
      var request := Dispatch(t.effectId, t.grantId, t.claimant, t.now);
      ReadTicketShape(s, c, request, Compute(s.run, request, c + 1, c + 2));
    }
  }

  lemma OtherStepKeepsFree(s: Sys, step: Step)
    requires FreeSnapshots(s) && !step.Read? && !step.ReadTicket?
    ensures FreeSnapshots(Exec(s, step))
  {
  }

  lemma {:induction false} RunKeepsFree(now: int, steps: seq<Step>)
    ensures FreeSnapshots(Run(now, steps))
  {
    if steps != [] {
      var before, step := steps[..|steps| - 1], steps[|steps| - 1];
      RunKeepsFree(now, before);
      RunKeeps(now, before);
      StepKeepsFree(Run(now, before), step);
    }
  }

  lemma StepKeepsFree(s: Sys, step: Step)
    requires Inv(s) && FreeSnapshots(s)
    ensures FreeSnapshots(Exec(s, step))
  {
    match step
    case Read(request) => ReadKeepsFree(s, request);
    case ReadTicket(c) => TicketKeepsFree(s, c);
    case _ => OtherStepKeepsFree(s, step);
  }

  lemma DriftedHeldExactly(snapshot: RunState, run: RunState)
    requires Drift(snapshot, run) && !Held(snapshot)
    ensures Held(run) <==> run.effects != snapshot.effects && !Lifecycle.Stopped(run.events)
  {
    if !Lifecycle.Stopped(run.events) {
      if run.effects != snapshot.effects {
        var i :| 0 <= i < |run.effects| && run.effects[i] != snapshot.effects[i];
        assert ClaimedFrom(snapshot.effects[i], run.effects[i]);
        assert run.effects[i].Unresolved();
      }
    }
  }

  /** The snapshot of every preparation that commits had no unresolved effect or was stopped. At the commit
      itself the run is held exactly when it is not stopped and a claim that lost on sequence has marked an
      effect since. */
  lemma PreparationsSawFreeRuns(now: int, steps: seq<Step>, c: Id)
    requires Commits(Run(now, steps), Persist(c)) && Run(now, steps).calls[c].request.Prepare?
    ensures var s := Run(now, steps);
            var snapshot := s.calls[c].snapshot;
            && (!Lifecycle.AnyUnresolved(snapshot.effects) || Lifecycle.Stopped(snapshot.events))
            && (Held(s.run) <==> s.run.effects != snapshot.effects && !Lifecycle.Stopped(s.run.events))
  {
    RunKeeps(now, steps);
    RunKeepsFree(now, steps);
    CommittedOnSnapshot(Run(now, steps), c);
    DriftedHeldExactly(Run(now, steps).calls[c].snapshot, Run(now, steps).run);
  }
}
