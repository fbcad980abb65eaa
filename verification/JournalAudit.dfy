/** What the log and the table of any interleaving say about each other: blocking, checkpoints,
    evidence for certainty, and the chain a resume compares. */
module JournalAudit {
  import opened Wrappers
  import opened RunRecords
  import opened RunStore
  import opened Protocol
  import opened JournalInvariants
  import opened JournalCommits
  import opened JournalTheorems
  import Lifecycle

  // ----- Blocking -----

  function SettledIn(own: seq<EventKind>): Option<Certainty> {
    if own == [] then None
    else if own[|own| - 1].EffectSettled? then Some(own[|own| - 1].certainty)
    else SettledIn(own[..|own| - 1])
  }

  lemma {:induction false} NothingSettledIn(own: seq<EventKind>)
    requires forall j :: 0 <= j < |own| ==> !own[j].EffectSettled?
    ensures SettledIn(own) == None
  {
    if own != [] {
      NothingSettledIn(own[..|own| - 1]);
    }
  }

  lemma {:induction false} SettlementOfOwn(events: seq<RunEvent>, id: Id)
    ensures Lifecycle.LastSettlement(events, id) == SettledIn(Own(events, id))
  {
    if events != [] {
      var before := events[..|events| - 1];
      var last := events[|events| - 1].kind;
      SettlementOfOwn(before, id);
      if last.Concerns(id) {
        assert Own(events, id)[..|Own(events, id)| - 1] == Own(before, id);
      } else {
        assert Own(events, id) == Own(before, id);
      }
    }
  }

  lemma SettledFits(own: seq<EventKind>, e: EffectRecord)
    requires Fits(own, e) && e.WellShaped()
    ensures SettledIn(own) == e.certainty
  {
    if !e.phase.Settled? {
      NothingSettledIn(own);
    }
  }

  /** The certainty in the table is that of the last settlement in the log. */
  lemma SettlementsAgree(run: RunState)
    requires LogOk(run)
    requires forall i :: 0 <= i < |run.effects| ==> run.effects[i].WellShaped()
    ensures Lifecycle.Settlements(run.events, run.effects)
  {
    forall i | 0 <= i < |run.effects|
      ensures Lifecycle.LastSettlement(run.events, run.effects[i].id) == run.effects[i].certainty
    {
      SettlementOfOwn(run.events, run.effects[i].id);
      SettledFits(Own(run.events, run.effects[i].id), run.effects[i]);
    }
    forall id: Id | Lifecycle.LastSettlement(run.events, id).Some?
      ensures exists i :: 0 <= i < |run.effects| && run.effects[i].id == id
    {
      SettlementOfOwn(run.events, id);
      assert Own(run.events, id) != [];
    }
  }

  /** On every reachable run the lifecycle is Blocked exactly when some effect is claimed, dispatched
      or unknown and the run was not cancelled or abandoned; otherwise it is the fold of the log. */
  lemma BlockedExactlyWhenUnresolved(now: int, steps: seq<Step>)
    ensures var run := Run(now, steps).run;
            && (Blocked(run) <==> Lifecycle.AnyUnresolved(run.effects) && !Lifecycle.Stopped(run.events))
            && (!Lifecycle.AnyUnresolved(run.effects) ==>
                  Lifecycle.Derive(run.events, run.effects) == Lifecycle.Fold(run.events))
            && (Lifecycle.OuterTest(run.effects) <==> Lifecycle.InnerTest(run.effects))
  {
    RunKeeps(now, steps);
    var run := Run(now, steps).run;
    SettlementsAgree(run);
    Lifecycle.BlockedExactly(run.events, run.effects);
    Lifecycle.TestsCoincide(run.effects);
  }

  // ----- Checkpoints are taken at quiet moments -----

  lemma UnknownBlocks(run: RunState, i: nat)
    requires i < |run.effects| && run.effects[i].certainty == Some(UnknownOrPartial)
    requires !Lifecycle.Stopped(run.events)
    ensures Blocked(run)
  {
    assert Lifecycle.OuterTest(run.effects);
    assert Lifecycle.InnerTest(run.effects);
  }

  lemma CheckpointComputed(snapshot: RunState, request: Request, recordId: Id, eventId: Id)
    requires request.Checkpoint? && Compute(snapshot, request, recordId, eventId).Ok?
    ensures !Blocked(snapshot) && Compute(snapshot, request, recordId, eventId).value.InsertCheckpoint?
  {
  }

  lemma CheckpointStored(run: RunState, intent: Intent)
    requires intent.InsertCheckpoint? && Commit(run, intent).error.None?
    ensures Commit(run, intent).state.effects == run.effects && Lifecycle.IsQuiescent(run.effects)
  {
  }

  lemma CheckpointCommitFacts(s: Sys, c: Id)
    requires Inv(s) && Commits(s, Persist(c)) && s.calls[c].request.Checkpoint?
    ensures Exec(s, Persist(c)).run.effects == s.run.effects
    ensures Lifecycle.IsQuiescent(s.run.effects)
    ensures !Blocked(s.calls[c].snapshot)
    ensures s.calls[c].snapshot.events == s.run.events && Drift(s.calls[c].snapshot, s.run)
  {
    PersistedRun(s, c);
    CommittedOnSnapshot(s, c);
    CheckpointComputed(s.calls[c].snapshot, s.calls[c].request, c + 1, c + 2);
    CheckpointStored(s.run, s.calls[c].intent);
  }

  /** A checkpoint that goes through finds every effect prepared or settled with positive evidence,
      unless the run was stopped; and it finds an unknown effect only if the run was stopped. */
  lemma CheckpointIsQuietExactly(s: Sys, c: Id)
    requires Inv(s) && Commits(s, Persist(c)) && s.calls[c].request.Checkpoint?
    ensures Lifecycle.AllQuiet(Exec(s, Persist(c)).run.effects) <==> !Lifecycle.AnyUnknown(s.run.effects)
    ensures Lifecycle.AnyUnknown(s.run.effects) ==> Lifecycle.Stopped(s.run.events)
  {
    CheckpointCommitFacts(s, c);
    var effects := s.run.effects;
    var snapshot := s.calls[c].snapshot;
    forall i | 0 <= i < |effects|
      ensures effects[i].Quiet() <==> effects[i].certainty != Some(UnknownOrPartial)
      ensures effects[i].certainty == Some(UnknownOrPartial) ==> Lifecycle.Stopped(s.run.events)
    {
      Lifecycle.QuietOrUnresolved(effects[i]);
      assert effects[i].WellShaped();
      assert effects[i] == snapshot.effects[i] || ClaimedFrom(snapshot.effects[i], effects[i]);
      if effects[i].certainty == Some(UnknownOrPartial) && !Lifecycle.Stopped(s.run.events) {
        UnknownBlocks(snapshot, i);
      }
    }
  }

  /** An effect as the log alone shows it at rest. */
  predicate RestsInLog(own: seq<EventKind>) {
    |own| <= 1 || (own[|own| - 1].EffectSettled? && !own[|own| - 1].certainty.UnknownOrPartial?)
  }

  ghost predicate CheckpointsRest(events: seq<RunEvent>) {
    forall i :: 0 <= i < |events| && events[i].kind.Checkpointed? && !Lifecycle.Stopped(events[..i]) ==>
      forall id: Id :: RestsInLog(Own(events[..i], id))
  }

  lemma QuietRests(run: RunState, id: Id)
    requires LogOk(run) && Lifecycle.AllQuiet(run.effects)
    ensures RestsInLog(Own(run.events, id))
  {
    if Own(run.events, id) != [] {
      var i :| 0 <= i < |run.effects| && run.effects[i].id == id;
      assert Fits(Own(run.events, id), run.effects[i]) && run.effects[i].Quiet();
    }
  }

  lemma AppendKeepsRest(events: seq<RunEvent>, event: RunEvent)
    requires CheckpointsRest(events)
    requires event.kind.Checkpointed? && !Lifecycle.Stopped(events) ==> forall id: Id :: RestsInLog(Own(events, id))
    ensures CheckpointsRest(events + [event])
  {
    var events' := events + [event];
    assert events'[..|events|] == events;
    forall i | 0 <= i < |events'| && events'[i].kind.Checkpointed? && !Lifecycle.Stopped(events'[..i])
      ensures forall id: Id :: RestsInLog(Own(events'[..i], id))
    {
      if i < |events| {
        assert events'[..i] == events[..i];
      }
    }
  }

  lemma CheckpointEventIsCheckpoint(request: Request, recordId: Id)
    ensures KindOf(request, recordId).Checkpointed? <==> request.Checkpoint?
  {
  }

  /** In the log of every interleaving: wherever a checkpoint stands in a run not yet stopped, each
      effect the log knew by then was merely prepared or had been settled with positive evidence. */
  lemma {:induction false} CheckpointsStandAtRest(now: int, steps: seq<Step>)
    ensures CheckpointsRest(Run(now, steps).run.events)
  {
    if steps != [] {
      var s := Run(now, steps[..|steps| - 1]);
      var step := steps[|steps| - 1];
      CheckpointsStandAtRest(now, steps[..|steps| - 1]);
      RunKeeps(now, steps[..|steps| - 1]);
      if Commits(s, step) {
        var event := s.calls[step.call].intent.event;
        WinningFacts(s, step.call);
        CheckpointEventIsCheckpoint(s.calls[step.call].request, step.call + 1);
        if event.kind.Checkpointed? && !Lifecycle.Stopped(s.run.events) {
          CheckpointIsQuietExactly(s, step.call);
          CheckpointCommitFacts(s, step.call);
          forall id: Id ensures RestsInLog(Own(s.run.events, id)) {
            QuietRests(s.run, id);
          }
        }
        AppendKeepsRest(s.run.events, event);
      } else {
        DriftingStep(s, step);
      }
    }
  }

  // ----- Evidence -----

  /** A record that says nothing happened although its operation failed or was cancelled. */
  predicate ClaimsNoEffect(e: EffectRecord) {
    e.operationResult.Some? && e.certainty.Some? && Unproven(e.operationResult.value, e.certainty.value)
  }

  ghost predicate ReconcilesPreimage(s: Sys, step: Step, id: Id) {
    && Commits(s, step)
    && s.calls[step.call].request.Reconcile?
    && s.calls[step.call].request.effectId == id
    && s.calls[step.call].request.probe.MatchesPreimage?
  }

  /** The i-th effect came to claim no effect between two tables. */
  predicate ComesToClaim(a: RunState, b: RunState, i: nat) {
    && i < |b.effects|
    && ClaimsNoEffect(b.effects[i])
    && (i < |a.effects| ==> !ClaimsNoEffect(a.effects[i]))
  }

  lemma MoveEvidence(request: Request, e: EffectRecord)
    requires e.WellShaped() && MoveOf(request, e).Ok? && ClaimsNoEffect(MoveOf(request, e).value)
    ensures request.Reconcile? && request.probe.MatchesPreimage?
  {
  }

  lemma MovingCommitEvidence(s: Sys, c: Id, i: nat)
    requires Inv(s) && Commits(s, Persist(c)) && MovesEffect(s.calls[c].request)
    ensures ComesToClaim(s.run, Exec(s, Persist(c)).run, i) ==>
              i < |s.run.effects| && ReconcilesPreimage(s, Persist(c), s.run.effects[i].id)
              && Exec(s, Persist(c)).run.effects[i].id == s.run.effects[i].id
  {
    var request := s.calls[c].request;
    var k := PersistsFromCurrent(s, c);
    if ClaimsNoEffect(MoveOf(request, s.run.effects[k]).value) {
      MoveEvidence(request, s.run.effects[k]);
    }
  }

  lemma OtherCommitEvidence(s: Sys, c: Id, i: nat)
    requires Inv(s) && Commits(s, Persist(c)) && !MovesEffect(s.calls[c].request)
    ensures !ComesToClaim(s.run, Exec(s, Persist(c)).run, i)
  {
    var call := s.calls[c];
    CommittedOnSnapshot(s, c);
    CommitFrame(s.run, call.snapshot, call.request, c + 1, c + 2, call.intent);
  }

  lemma DriftEvidence(a: RunState, b: RunState, i: nat)
    requires Drift(a, b)
    requires forall j :: 0 <= j < |a.effects| ==> a.effects[j].WellShaped()
    ensures !ComesToClaim(a, b, i)
  {
    if i < |a.effects| {
      assert a.effects[i].WellShaped();
      assert b.effects[i] == a.effects[i] || ClaimedFrom(a.effects[i], b.effects[i]);
    }
  }

  lemma StepEvidence(s: Sys, step: Step, i: nat)
    requires Inv(s)
    ensures ComesToClaim(s.run, Exec(s, step).run, i) ==>
              i < |s.run.effects| && ReconcilesPreimage(s, step, s.run.effects[i].id)
              && Exec(s, step).run.effects[i].id == s.run.effects[i].id
  {
    if Commits(s, step) {
      if MovesEffect(s.calls[step.call].request) {
        MovingCommitEvidence(s, step.call, i);
      } else {
        OtherCommitEvidence(s, step.call, i);
      }
    } else {
      DriftingStep(s, step);
      DriftEvidence(s.run, Exec(s, step).run, i);
    }
  }

  /** A claim of no effect was there before the step, or the step is a reconciliation that found the
      preimage. */
  lemma ClaimHasOrigin(s: Sys, step: Step, i: nat)
    requires Inv(s) && i < |Exec(s, step).run.effects| && ClaimsNoEffect(Exec(s, step).run.effects[i])
    ensures i < |s.run.effects| && Exec(s, step).run.effects[i].id == s.run.effects[i].id
    ensures ClaimsNoEffect(s.run.effects[i]) || ReconcilesPreimage(s, step, s.run.effects[i].id)
  {
    StepEvidence(s, step, i);
    if i < |s.run.effects| {
      StepAdvances(s, step);
      assert Advances(s.run.effects[i], Exec(s, step).run.effects[i]);
    }
  }

  /** "No effect" after an error or a cancellation always rests on a reconciliation that found the
      preimage bytes in place. */
  lemma {:induction false} NoEffectIsEvidenced(now: int, steps: seq<Step>, i: nat) returns (n: nat)
    requires i < |Run(now, steps).run.effects| && ClaimsNoEffect(Run(now, steps).run.effects[i])
    ensures n < |steps| && ReconcilesPreimage(Run(now, steps[..n]), steps[n], Run(now, steps).run.effects[i].id)
  {
    assert steps != [];
    n := |steps| - 1;
    RunKeeps(now, steps[..n]);
    ClaimHasOrigin(Run(now, steps[..n]), steps[n], i);
    if ClaimsNoEffect(Run(now, steps[..n]).run.effects[i]) {
      var before := steps[..n];
      n := NoEffectIsEvidenced(now, before, i);
      assert before[..n] == steps[..n];
    }
  }

  // ----- Checkpoints never go stale -----

  /** What a resume keeps of the log: the events up to a checkpoint's last sequence. */
  function UpTo(events: seq<RunEvent>, last: nat): seq<RunEvent> {
    if events == [] then []
    else if events[0].sequence <= last then [events[0]] + UpTo(events[1..], last)
    else UpTo(events[1..], last)
  }

  lemma {:induction false} UpToIsPrefix(events: seq<RunEvent>, first: nat, last: nat)
    requires forall i :: 0 <= i < |events| ==> events[i].sequence == first + i
    ensures UpTo(events, last)
         == if last < first then [] else if last - first + 1 >= |events| then events else events[..last - first + 1]
  {
    if events != [] {
      UpToIsPrefix(events[1..], first + 1, last);
    }
  }

  /** Every checkpoint of a run, however old: the events a resume selects by sequence number are the
      prefix that was hashed, and their chain is the stored one. */
  lemma CheckpointsNeverStale(now: int, steps: seq<Step>, i: nat)
    requires i < |Run(now, steps).run.checkpoints|
    ensures var run := Run(now, steps).run;
            var checkpoint := run.checkpoints[i];
            && checkpoint.lastEventSequence <= |run.events|
            && UpTo(run.events, checkpoint.lastEventSequence) == run.events[..checkpoint.lastEventSequence]
            && ChainOf(UpTo(run.events, checkpoint.lastEventSequence)) == checkpoint.chain
  {
    RunKeeps(now, steps);
    var run := Run(now, steps).run;
    UpToIsPrefix(run.events, 1, run.checkpoints[i].lastEventSequence);
    assert run.events[..|run.events|] == run.events;
  }
}
