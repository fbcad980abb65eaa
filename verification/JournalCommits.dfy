/** A commit that goes through keeps the journal invariant. */
module JournalCommits {
  import opened Wrappers
  import opened RunRecords
  import opened RunStore
  import opened Protocol
  import opened JournalInvariants
  import opened JournalPreservation

  /** The one event a request may add to the log. */
  function KindOf(request: Request, recordId: Id): EventKind {
    match request
    case Prepare(_, _, _, _) => EffectPrepared(recordId)
    case Claim(effectId, claimant, _) => EffectClaimed(effectId, claimant)
    case Dispatch(effectId, _, _, _) => EffectDispatched(effectId)
    case Settle(effectId, _, _, certainty, _) => EffectSettled(effectId, certainty)
    case Reconcile(effectId, probe, _) => EffectSettled(effectId, ReconciledCertainty(probe))
    case Checkpoint(_) => Checkpointed(recordId)
    case Pause(_) => EventKind.Paused
    case Cancel(_) => EventKind.Cancelled
    case Issue(_, _, _, _, _, _) => GrantIssued(recordId)
    case Revoke(grantId, _) => GrantRevoked(grantId)
    case AcquireLease(_, _) => LeaseAcquired(recordId)
    case ReleaseLease(leaseId, _) => LeaseReleased(leaseId)
    case TakeOverLease(_, _, _) => LeaseTakeover(recordId)
    case Note(kind, _) => kind
  }

  lemma ComputedKind(snapshot: RunState, request: Request, recordId: Id, eventId: Id)
    requires Compute(snapshot, request, recordId, eventId).Ok?
    ensures Compute(snapshot, request, recordId, eventId).value.event
         == RunEvent(eventId, NextSequence(snapshot.events), KindOf(request, recordId), request.now)
  {
  }

  predicate TouchesEffects(request: Request) {
    request.Prepare? || MovesEffect(request)
  }

  predicate TouchesGrants(request: Request) {
    request.Issue? || request.Revoke?
  }

  /** What a request leaves alone when it commits. */
  lemma CommitFrame(run: RunState, snapshot: RunState, request: Request, recordId: Id, eventId: Id, intent: Intent)
    requires Compute(snapshot, request, recordId, eventId) == Ok(intent)
    requires Commit(run, intent).error.None?
    ensures !TouchesEffects(request) ==> Commit(run, intent).state.effects == run.effects
    ensures !TouchesGrants(request) ==> Commit(run, intent).state.grants == run.grants
    ensures !request.Checkpoint? ==> Commit(run, intent).state.checkpoints == run.checkpoints
    ensures request.Prepare? ==>
              Commit(run, intent).state.effects
              == run.effects + [PrepareEffect(recordId, request.operationId, request.targetHash, request.grantId, request.now)]
    ensures request.Checkpoint? ==>
              Commit(run, intent).state.checkpoints
              == run.checkpoints + [RunRecords.Checkpoint(recordId, LastSequence(snapshot.events),
                                                          ChainOf(snapshot.events), request.now)]
    ensures request.Issue? ==>
              IssueGrant(recordId, request.capability, request.resource, request.actionScope, request.pair,
                         request.now, request.now + DefaultTtl(request.capability), request.budget).Ok?
    ensures request.Issue? ==>
              Commit(run, intent).state.grants
              == run.grants + [IssueGrant(recordId, request.capability, request.resource, request.actionScope,
                                          request.pair, request.now, request.now + DefaultTtl(request.capability),
                                          request.budget).value]
  {
  }

  // ----- Effects table -----

  lemma MoveKeepsShape(request: Request, e: EffectRecord)
    requires e.WellShaped() && MoveOf(request, e).Ok?
    ensures MoveOf(request, e).value.WellShaped()
    ensures MoveOf(request, e).value.id == e.id
  {
  }

  lemma MoveKeepsEffects(s: Sys, s': Sys, k: nat, request: Request)
    requires EffectsOk(s) && k < |s.run.effects| && MoveOf(request, s.run.effects[k]).Ok?
    requires s'.run.effects == s.run.effects[k := MoveOf(request, s.run.effects[k]).value]
    requires s'.calls.Keys <= s.calls.Keys && s'.supply == s.supply
    ensures EffectsOk(s')
  {
    MoveKeepsShape(request, s.run.effects[k]);
    forall i | 0 <= i < |s'.run.effects|
      ensures s'.run.effects[i].id == s.run.effects[i].id && s'.run.effects[i].WellShaped()
    {
      assert s.run.effects[i].WellShaped();
    }
  }

  lemma PreparedKeepsEffects(s: Sys, s': Sys, c: Id, e: EffectRecord)
    requires EffectsOk(s) && c in s.calls && c + 3 <= s.supply
    requires e.id == c + 1 && e.WellShaped()
    requires s'.run.effects == s.run.effects + [e]
    requires s'.calls == s.calls - {c} && s'.supply == s.supply
    ensures EffectsOk(s')
  {
  }

  // ----- Log against table -----

  /** One legal move of the record is one more event of its own. */
  lemma FitsMove(own: seq<EventKind>, request: Request, e: EffectRecord, recordId: Id)
    requires Fits(own, e) && e.WellShaped() && MovesEffect(request) && MoveOf(request, e).Ok?
    ensures Fits(own + [KindOf(request, recordId)], MoveOf(request, e).value)
  {
    var own' := own + [KindOf(request, recordId)];
    assert forall j :: 0 <= j < |own| ==> own'[j] == own[j];
    assert own'[|own|] == KindOf(request, recordId);
  }

  lemma MoveKeepsFits(run: RunState, k: nat, request: Request, event: RunEvent, recordId: Id)
    requires LogOk(run) && UniqueEffects(run.effects)
    requires k < |run.effects| && run.effects[k].WellShaped()
    requires MovesEffect(request) && request.effectId == run.effects[k].id && MoveOf(request, run.effects[k]).Ok?
    requires event.kind == KindOf(request, recordId)
    ensures var run' := Moved(run, event, k, MoveOf(request, run.effects[k]).value);
            forall i :: 0 <= i < |run'.effects| ==> Fits(Own(run'.events, run'.effects[i].id), run'.effects[i])
  {
    var run' := Moved(run, event, k, MoveOf(request, run.effects[k]).value);
    MoveKeepsShape(request, run.effects[k]);
    forall i | 0 <= i < |run'.effects|
      ensures Fits(Own(run'.events, run'.effects[i].id), run'.effects[i])
    {
      assert Fits(Own(run.events, run.effects[i].id), run.effects[i]);
      OwnOfAppend(run.events, event, run.effects[i].id);
      if i == k {
        FitsMove(Own(run.events, run.effects[k].id), request, run.effects[k], recordId);
      } else {
        assert run.effects[i].id != run.effects[k].id;
      }
    }
  }

  lemma MoveKeepsOwners(run: RunState, k: nat, e: EffectRecord, event: RunEvent)
    requires LogOk(run) && k < |run.effects| && e.id == run.effects[k].id
    requires forall id: Id :: event.kind.Concerns(id) ==> id == e.id
    ensures var run' := Moved(run, event, k, e);
            forall id: Id :: Own(run'.events, id) != [] ==> exists i :: 0 <= i < |run'.effects| && run'.effects[i].id == id
  {
    var run' := Moved(run, event, k, e);
    forall id: Id | Own(run'.events, id) != []
      ensures exists i :: 0 <= i < |run'.effects| && run'.effects[i].id == id
    {
      OwnOfAppend(run.events, event, id);
      if id == run.effects[k].id {
        assert run'.effects[k].id == id;
      } else {
        var i :| 0 <= i < |run.effects| && run.effects[i].id == id;
        assert run'.effects[i].id == id;
      }
    }
  }

  lemma MoveKeepsLog(run: RunState, k: nat, request: Request, event: RunEvent, recordId: Id)
    requires LogOk(run) && UniqueEffects(run.effects)
    requires k < |run.effects| && run.effects[k].WellShaped()
    requires MovesEffect(request) && request.effectId == run.effects[k].id && MoveOf(request, run.effects[k]).Ok?
    requires event.kind == KindOf(request, recordId)
    ensures LogOk(Moved(run, event, k, MoveOf(request, run.effects[k]).value))
  {
    MoveKeepsShape(request, run.effects[k]);
    MoveKeepsFits(run, k, request, event, recordId);
    MoveKeepsOwners(run, k, MoveOf(request, run.effects[k]).value, event);
  }

  lemma PreparedKeepsLog(run: RunState, run': RunState, e: EffectRecord, event: RunEvent)
    requires LogOk(run) && run'.events == run.events + [event] && run'.effects == run.effects + [e]
    requires event.kind == EffectPrepared(e.id) && e.phase.Prepared?
    requires forall i :: 0 <= i < |run.effects| ==> run.effects[i].id != e.id
    ensures LogOk(run')
  {
    forall i | 0 <= i < |run'.effects|
      ensures Fits(Own(run'.events, run'.effects[i].id), run'.effects[i])
    {
      OwnOfAppend(run.events, event, run'.effects[i].id);
      if i < |run.effects| {
        assert Fits(Own(run.events, run.effects[i].id), run.effects[i]);
      } else {
        assert Own(run.events, e.id) == [];
      }
    }
    forall id: Id | Own(run'.events, id) != []
      ensures exists i :: 0 <= i < |run'.effects| && run'.effects[i].id == id
    {
      OwnOfAppend(run.events, event, id);
      if id == e.id {
        assert run'.effects[|run.effects|].id == id;
      } else {
        var i :| 0 <= i < |run.effects| && run.effects[i].id == id;
        assert run'.effects[i].id == id;
      }
    }
  }

  lemma OtherKeepsLog(run: RunState, run': RunState, event: RunEvent)
    requires LogOk(run) && run'.events == run.events + [event] && run'.effects == run.effects
    requires forall id: Id :: !event.kind.Concerns(id)
    ensures LogOk(run')
  {
    forall id: Id ensures Own(run'.events, id) == Own(run.events, id) {
      OwnOfAppend(run.events, event, id);
    }
  }

  // ----- Grants -----

  lemma IssuedKeepsBudget(run: RunState, run': RunState, consumed: seq<Id>, g: CapabilityGrant)
    requires BudgetOk(run, consumed) && run'.grants == run.grants + [g]
    requires g.remaining == g.budget
    requires forall i :: 0 <= i < |run.grants| ==> run.grants[i].id != g.id
    ensures BudgetOk(run', consumed)
  {
    forall i | 0 <= i < |run'.grants|
      ensures Balanced(run'.grants[i], consumed)
      ensures run'.grants[i].remaining <= run'.grants[i].budget
      ensures Count(consumed, run'.grants[i].id) <= run'.grants[i].budget
    {
      if i < |run.grants| {
        assert Balanced(run.grants[i], consumed);
        assert run.grants[i].remaining <= run.grants[i].budget;
        assert Count(consumed, run.grants[i].id) <= run.grants[i].budget;
      } else {
        assert Count(consumed, g.id) == 0;
      }
    }
    forall id: Id | Count(consumed, id) > 0
      ensures exists i :: 0 <= i < |run'.grants| && run'.grants[i].id == id
    {
      var i :| 0 <= i < |run.grants| && run.grants[i].id == id;
      assert run'.grants[i].id == id;
    }
  }

  lemma RevokedKeepsBudget(run: RunState, run': RunState, consumed: seq<Id>, k: nat, g: CapabilityGrant)
    requires BudgetOk(run, consumed) && k < |run.grants| && run'.grants == run.grants[k := g]
    requires g.id == run.grants[k].id && g.budget == run.grants[k].budget && g.revokedAt.Some?
    requires g.remaining <= g.budget
    ensures BudgetOk(run', consumed)
  {
    forall i | 0 <= i < |run'.grants|
      ensures Balanced(run'.grants[i], consumed)
      ensures run'.grants[i].remaining <= run'.grants[i].budget
      ensures Count(consumed, run'.grants[i].id) <= run'.grants[i].budget
    {
      assert Balanced(run.grants[i], consumed);
      assert run.grants[i].remaining <= run.grants[i].budget;
      assert Count(consumed, run.grants[i].id) <= run.grants[i].budget;
    }
    forall id: Id | Count(consumed, id) > 0
      ensures exists i :: 0 <= i < |run'.grants| && run'.grants[i].id == id
    {
      var i :| 0 <= i < |run.grants| && run.grants[i].id == id;
      assert run'.grants[i].id == id;
    }
  }

  // ----- Tickets -----

  lemma DispatchKeepsTickets(s: Sys, s': Sys, c: Id, k: nat)
    requires TicketsOk(s) && UniqueEffects(s.run.effects)
    requires c in s.calls && s.calls[c].Ready? && s.calls[c].request.Dispatch?
    requires k < |s.run.effects| && s.run.effects[k].id == s.calls[c].request.effectId
    requires MoveOf(s.calls[c].request, s.run.effects[k]).Ok?
    requires s'.run.effects == s.run.effects[k := MoveOf(s.calls[c].request, s.run.effects[k]).value]
    requires s'.calls == s.calls - {c} && s'.consumed == s.consumed
    requires s'.startedUnder == s.startedUnder[s.run.effects[k].id := s.calls[c].request.grantId]
    ensures TicketsOk(s')
  {
    var e := s.run.effects[k];
    assert !e.Started() && e.id !in s.startedUnder;
    forall i | 0 <= i < |s'.run.effects|
      ensures s'.run.effects[i].Started() <==> s'.run.effects[i].id in s'.startedUnder
    {
      assert s.run.effects[i].Started() <==> s.run.effects[i].id in s.startedUnder;
      assert i != k ==> s.run.effects[i].id != e.id;
    }
    forall id | id in s'.startedUnder
      ensures exists i :: 0 <= i < |s'.run.effects| && s'.run.effects[i].id == id
    {
      if id == e.id {
        assert s'.run.effects[k].id == id;
      } else {
        var i :| 0 <= i < |s.run.effects| && s.run.effects[i].id == id;
        assert s'.run.effects[i].id == id;
      }
    }
    forall g: Id ensures |StartedWith(s'.startedUnder, g)| + |Holders(s'.calls, g)| <= Count(s'.consumed, g) {
      StartingSpendsTicket(s.startedUnder, e.id, s.calls, c, g);
    }
  }

  lemma OneMoreStarted(startedUnder: map<Id, Id>, e: Id, under: Id, g: Id)
    requires e !in startedUnder
    ensures |StartedWith(startedUnder[e := under], g)| == |StartedWith(startedUnder, g)| + if under == g then 1 else 0
  {
    assert StartedWith(startedUnder[e := under], g) == StartedWith(startedUnder, g) + if under == g then {e} else {};
  }

  lemma OneFewerHolder(calls: map<Id, Call>, c: Id, g: Id)
    requires c in calls
    ensures |Holders(calls, g)| == |Holders(calls - {c}, g)| + if HoldsTicket(calls[c], g) then 1 else 0
  {
    assert Holders(calls, g) == Holders(calls - {c}, g) + if HoldsTicket(calls[c], g) then {c} else {};
  }

  lemma StartingSpendsTicket(startedUnder: map<Id, Id>, e: Id, calls: map<Id, Call>, c: Id, g: Id)
    requires e !in startedUnder && c in calls && calls[c].Ready? && calls[c].request.Dispatch?
    ensures |StartedWith(startedUnder[e := calls[c].request.grantId], g)| + |Holders(calls - {c}, g)|
         == |StartedWith(startedUnder, g)| + |Holders(calls, g)|
  {
    OneMoreStarted(startedUnder, e, calls[c].request.grantId, g);
    OneFewerHolder(calls, c, g);
  }

  lemma OtherMoveKeepsTickets(s: Sys, s': Sys, c: Id, k: nat, request: Request)
    requires TicketsOk(s) && k < |s.run.effects| && MoveOf(request, s.run.effects[k]).Ok?
    requires MovesEffect(request) && !request.Dispatch?
    requires s'.run.effects == s.run.effects[k := MoveOf(request, s.run.effects[k]).value]
    requires s'.calls == s.calls - {c} && s'.consumed == s.consumed && s'.startedUnder == s.startedUnder
    ensures TicketsOk(s')
  {
    forall i | 0 <= i < |s'.run.effects|
      ensures s'.run.effects[i].Started() <==> s'.run.effects[i].id in s'.startedUnder
    {
      assert s.run.effects[i].Started() <==> s.run.effects[i].id in s.startedUnder;
    }
    forall id | id in s'.startedUnder
      ensures exists i :: 0 <= i < |s'.run.effects| && s'.run.effects[i].id == id
    {
      var i :| 0 <= i < |s.run.effects| && s.run.effects[i].id == id;
      assert s'.run.effects[i].id == id;
    }
    forall g: Id ensures |StartedWith(s'.startedUnder, g)| + |Holders(s'.calls, g)| <= Count(s'.consumed, g) {
      FewerHolders(s.calls, s'.calls, g);
    }
  }

  lemma TableGrowthKeepsTickets(s: Sys, s': Sys, c: Id)
    requires TicketsOk(s) && s.run.effects <= s'.run.effects
    requires forall i :: |s.run.effects| <= i < |s'.run.effects| ==>
               !s'.run.effects[i].Started()
               && forall j :: 0 <= j < |s.run.effects| ==> s.run.effects[j].id != s'.run.effects[i].id
    requires s'.calls == s.calls - {c} && s'.consumed == s.consumed && s'.startedUnder == s.startedUnder
    ensures TicketsOk(s')
  {
    forall i | 0 <= i < |s'.run.effects|
      ensures s'.run.effects[i].Started() <==> s'.run.effects[i].id in s'.startedUnder
    {
      if i < |s.run.effects| {
        assert s.run.effects[i].Started() <==> s.run.effects[i].id in s.startedUnder;
      }
    }
    forall id | id in s'.startedUnder
      ensures exists i :: 0 <= i < |s'.run.effects| && s'.run.effects[i].id == id
    {
      var i :| 0 <= i < |s.run.effects| && s.run.effects[i].id == id;
      assert s'.run.effects[i].id == id;
    }
    forall g: Id ensures |StartedWith(s'.startedUnder, g)| + |Holders(s'.calls, g)| <= Count(s'.consumed, g) {
      FewerHolders(s.calls, s'.calls, g);
    }
  }

  // ----- Checkpoints -----

  lemma CheckpointsKept(run: RunState, run': RunState, event: RunEvent)
    requires CheckpointsOk(run) && GapFree(run.events) && run'.events == run.events + [event]
    requires run'.checkpoints == run.checkpoints
      || (|run'.checkpoints| == |run.checkpoints| + 1 && run.checkpoints <= run'.checkpoints
          && run'.checkpoints[|run.checkpoints|].lastEventSequence == LastSequence(run.events)
          && run'.checkpoints[|run.checkpoints|].chain == ChainOf(run.events))
    ensures CheckpointsOk(run')
  {
    forall i | 0 <= i < |run'.checkpoints|
      ensures run'.checkpoints[i].lastEventSequence <= |run'.events|
      ensures run'.checkpoints[i].chain == ChainOf(run'.events[..run'.checkpoints[i].lastEventSequence])
    {
      var last := run'.checkpoints[i].lastEventSequence;
      if i < |run.checkpoints| {
        assert run'.events[..last] == run.events[..last];
      } else {
        assert run'.events[..last] == run.events;
      }
    }
  }

  // ----- The winning commit -----

  lemma WinningKind(s: Sys, c: Id)
    requires Inv(s) && Commits(s, Persist(c))
    ensures s.calls[c].intent.event.kind == KindOf(s.calls[c].request, c + 1)
    ensures Commit(s.run, s.calls[c].intent).state.events == s.run.events + [s.calls[c].intent.event]
    ensures IsNext(s.run, s.calls[c].intent.event)
  {
    var call := s.calls[c];
    CommittedOnSnapshot(s, c);
    CommitAppendsOrDrifts(s.run, call.intent);
    ComputedKind(call.snapshot, call.request, c + 1, c + 2);
  }

  /** Facts every winning commit starts from. */
  lemma WinningFacts(s: Sys, c: Id)
    requires Inv(s) && Commits(s, Persist(c))
    ensures var s' := Exec(s, Persist(c));
            var call := s.calls[c];
            && s'.run.events == s.run.events + [call.intent.event]
            && call.intent.event.kind == KindOf(call.request, c + 1)
            && GapFree(s'.run.events)
            && CallsOk(s')
            && CheckpointsOk(s'.run)
  {
    var s' := Exec(s, Persist(c));
    var call := s.calls[c];
    PersistedRun(s, c);
    WinningKind(s, c);
    CommittedOnSnapshot(s, c);
    CommitFrame(s.run, call.snapshot, call.request, c + 1, c + 2, call.intent);
    GrowthKeepsCalls(s, s'.run);
    CheckpointsKept(s.run, s'.run, call.intent.event);
  }

  lemma WinningFrame(s: Sys, c: Id)
    requires Inv(s) && Commits(s, Persist(c))
    ensures var s' := Exec(s, Persist(c));
            var request := s.calls[c].request;
            && s'.calls == s.calls - {c} && s'.supply == s.supply && s'.consumed == s.consumed
            && (!request.Dispatch? ==> s'.startedUnder == s.startedUnder)
            && (!TouchesEffects(request) ==> s'.run.effects == s.run.effects)
            && (!TouchesGrants(request) ==> s'.run.grants == s.run.grants)
  {
    var call := s.calls[c];
    PersistedRun(s, c);
    CommittedOnSnapshot(s, c);
    CommitFrame(s.run, call.snapshot, call.request, c + 1, c + 2, call.intent);
  }

  ghost predicate EffectSide(s: Sys) {
    EffectsOk(s) && LogOk(s.run) && TicketsOk(s)
  }

  ghost predicate GrantSide(s: Sys) {
    GrantsOk(s) && BudgetOk(s.run, s.consumed)
  }

  lemma OtherConcernsNothing(request: Request, recordId: Id)
    requires !TouchesEffects(request)
    ensures forall id: Id :: !KindOf(request, recordId).Concerns(id)
  {
  }

  lemma SameTableKeepsEffectSide(s: Sys, s': Sys, c: Id, event: RunEvent)
    requires EffectSide(s) && s'.run.effects == s.run.effects && s'.run.events == s.run.events + [event]
    requires forall id: Id :: !event.kind.Concerns(id)
    requires s'.calls == s.calls - {c} && s'.supply == s.supply
    requires s'.consumed == s.consumed && s'.startedUnder == s.startedUnder
    ensures EffectSide(s')
  {
    OtherKeepsLog(s.run, s'.run, event);
    TableGrowthKeepsTickets(s, s', c);
  }

  lemma OtherKeepsEffectSide(s: Sys, c: Id)
    requires Inv(s) && Commits(s, Persist(c)) && !TouchesEffects(s.calls[c].request)
    ensures EffectSide(Exec(s, Persist(c)))
  {
    WinningFacts(s, c);
    WinningFrame(s, c);
    OtherConcernsNothing(s.calls[c].request, c + 1);
    SameTableKeepsEffectSide(s, Exec(s, Persist(c)), c, s.calls[c].intent.event);
  }

  lemma MoveKeepsTickets(s: Sys, s': Sys, c: Id, k: nat)
    requires TicketsOk(s) && UniqueEffects(s.run.effects)
    requires c in s.calls && s.calls[c].Ready? && MovesEffect(s.calls[c].request)
    requires k < |s.run.effects| && s.run.effects[k].id == s.calls[c].request.effectId
    requires MoveOf(s.calls[c].request, s.run.effects[k]).Ok?
    requires s'.run.effects == s.run.effects[k := MoveOf(s.calls[c].request, s.run.effects[k]).value]
    requires s'.calls == s.calls - {c} && s'.consumed == s.consumed
    requires s'.startedUnder
          == if s.calls[c].request.Dispatch? then s.startedUnder[s.run.effects[k].id := s.calls[c].request.grantId]
             else s.startedUnder
    ensures TicketsOk(s')
  {
    if s.calls[c].request.Dispatch? {
      DispatchKeepsTickets(s, s', c, k);
    } else {
      OtherMoveKeepsTickets(s, s', c, k, s.calls[c].request);
    }
  }

  lemma MoveKeepsEffectSide(s: Sys, c: Id)
    requires Inv(s) && Commits(s, Persist(c)) && MovesEffect(s.calls[c].request)
    ensures EffectSide(Exec(s, Persist(c)))
  {
    var s' := Exec(s, Persist(c));
    var request := s.calls[c].request;
    WinningKind(s, c);
    PersistedRun(s, c);
    var k := PersistsFromCurrent(s, c);
    MoveKeepsEffects(s, s', k, request);
    MoveKeepsLog(s.run, k, request, s.calls[c].intent.event, c + 1);
    MoveKeepsTickets(s, s', c, k);
  }

  lemma PrepareKeepsEffectSide(s: Sys, c: Id)
    requires Inv(s) && Commits(s, Persist(c)) && s.calls[c].request.Prepare?
    ensures EffectSide(Exec(s, Persist(c)))
  {
    var s' := Exec(s, Persist(c));
    var call := s.calls[c];
    WinningFacts(s, c);
    WinningFrame(s, c);
    CommittedOnSnapshot(s, c);
    CommitFrame(s.run, call.snapshot, call.request, c + 1, c + 2, call.intent);
    var e := s'.run.effects[|s.run.effects|];
    PreparedKeepsEffects(s, s', c, e);
    PreparedKeepsLog(s.run, s'.run, e, call.intent.event);
    TableGrowthKeepsTickets(s, s', c);
  }

  lemma SameGrantsKeepGrantSide(s: Sys, s': Sys, c: Id)
    requires GrantSide(s) && s'.run.grants == s.run.grants
    requires s'.calls == s.calls - {c} && s'.supply == s.supply && s'.consumed == s.consumed
    ensures GrantSide(s')
  {
    ClaimDriftKeepsBudget(s.run, s'.run, s.consumed);
  }

  lemma OtherKeepsGrantSide(s: Sys, c: Id)
    requires Inv(s) && Commits(s, Persist(c)) && !TouchesGrants(s.calls[c].request)
    ensures GrantSide(Exec(s, Persist(c)))
  {
    WinningFrame(s, c);
    SameGrantsKeepGrantSide(s, Exec(s, Persist(c)), c);
  }

  lemma IssueKeepsGrantSide(s: Sys, c: Id)
    requires Inv(s) && Commits(s, Persist(c)) && s.calls[c].request.Issue?
    ensures GrantSide(Exec(s, Persist(c)))
  {
    var s' := Exec(s, Persist(c));
    var call := s.calls[c];
    WinningFrame(s, c);
    CommittedOnSnapshot(s, c);
    CommitFrame(s.run, call.snapshot, call.request, c + 1, c + 2, call.intent);
    var g := s'.run.grants[|s.run.grants|];
    IssuedKeepsBudget(s.run, s'.run, s.consumed, g);
    IssuedKeepsGrants(s, s', c, g);
  }

  lemma IssuedKeepsGrants(s: Sys, s': Sys, c: Id, g: CapabilityGrant)
    requires GrantsOk(s) && c in s.calls && c + 3 <= s.supply && g.id == c + 1
    requires s'.run.grants == s.run.grants + [g]
    requires s'.calls == s.calls - {c} && s'.supply == s.supply
    ensures GrantsOk(s')
  {
  }

  lemma RevokeKeepsGrantSide(s: Sys, c: Id)
    requires Inv(s) && Commits(s, Persist(c)) && s.calls[c].request.Revoke?
    ensures GrantSide(Exec(s, Persist(c)))
  {
    var s' := Exec(s, Persist(c));
    WinningFrame(s, c);
    var k := RevokesFromCurrent(s, c);
    RevokedKeepsBudget(s.run, s'.run, s.consumed, k, s'.run.grants[k]);
    RevokedKeepsGrants(s, s', k, s'.run.grants[k]);
  }

  lemma RevokedKeepsGrants(s: Sys, s': Sys, k: nat, g: CapabilityGrant)
    requires GrantsOk(s) && k < |s.run.grants| && g.id == s.run.grants[k].id
    requires s'.run.grants == s.run.grants[k := g]
    requires s'.calls.Keys <= s.calls.Keys && s'.supply == s.supply
    ensures GrantsOk(s')
  {
  }

  lemma WinningCommitKeeps(s: Sys, c: Id)
    requires Inv(s) && Commits(s, Persist(c))
    ensures Inv(Exec(s, Persist(c)))
  {
    var request := s.calls[c].request;
    assert EffectSide(Exec(s, Persist(c))) by {
      if MovesEffect(request) {
        MoveKeepsEffectSide(s, c);
      } else if request.Prepare? {
        PrepareKeepsEffectSide(s, c);
      } else {
        OtherKeepsEffectSide(s, c);
      }
    }
    assert GrantSide(Exec(s, Persist(c))) by {
      if request.Issue? {
        IssueKeepsGrantSide(s, c);
      } else if request.Revoke? {
        RevokeKeepsGrantSide(s, c);
      } else {
        OtherKeepsGrantSide(s, c);
      }
    }
    WinningFacts(s, c);
  }

  /** Every step of the protocol keeps the invariant. */
  lemma StepKeeps(s: Sys, step: Step)
    requires Inv(s)
    ensures Inv(Exec(s, step))
  {
    match step
    case Consume(effectId, grantId, claimant, now) => ConsumeKeeps(s, effectId, grantId, claimant, now);
    case ReadTicket(c) => ReadTicketKeeps(s, c);
    case Read(request) => ReadKeeps(s, request);
    case Lose(c) => LoseKeeps(s, c);
    case Persist(c) =>
      if c in s.calls && s.calls[c].Ready? {
        if Commit(s.run, s.calls[c].intent).error.Some? {
          LosingCommitKeeps(s, c);
        } else {
          WinningCommitKeeps(s, c);
        }
      }
  }

  /** Every state of every interleaving satisfies the invariant. */
  lemma {:induction false} RunKeeps(now: int, steps: seq<Step>)
    ensures Inv(Run(now, steps))
  {
    if steps == [] {
      InitKeeps(now);
    } else {
      RunKeeps(now, steps[..|steps| - 1]);
      StepKeeps(Run(now, steps[..|steps| - 1]), steps[|steps| - 1]);
    }
  }
}
