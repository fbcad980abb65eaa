/** Exactly when the promises of a serial run survive interleaving: each race that RaceWitnesses shows
    has here the condition under which it strikes, for every state the invariant allows. */
module RaceConditions {
  import opened Wrappers
  import opened RunRecords
  import opened RunStore
  import opened Protocol
  import opened JournalInvariants
  import opened JournalCommits
  import opened JournalTheorems
  import opened SerialRuns
  import Lifecycle

  /** The states a schedule passes through. */
  lemma RunHistory(now: int, steps: seq<Step>) returns (states: seq<Sys>)
    ensures |states| == |steps| + 1
    ensures forall n :: 0 <= n <= |steps| ==> states[n] == Run(now, steps[..n])
    ensures states[0] == Init(now) && states[|steps|] == Run(now, steps)
  {
    states := seq(|steps| + 1, n requires 0 <= n <= |steps| => Run(now, steps[..n]));
    assert steps[..|steps|] == steps;
  }

  // ----- Claims without an event -----

  /** The log has moved on since the call read it, and the effect it is to claim is still unclaimed. */
  predicate OvertakenClaim(s: Sys, step: Step) {
    && step.Persist? && step.call in s.calls && s.calls[step.call].Ready?
    && var call := s.calls[step.call];
       && call.request.Claim?
       && |call.snapshot.events| < |s.run.events|
       && FindEffect(s.run.effects, call.request.effectId).Some?
       && s.run.effects[FindEffect(s.run.effects, call.request.effectId).value].phase.Prepared?
  }

  lemma ClaimIntent(snapshot: RunState, request: Request, recordId: Id, eventId: Id)
    requires request.Claim?
    ensures Compute(snapshot, request, recordId, eventId)
         == Ok(ClaimEffect(request.effectId, request.claimant, request.now,
                           RunEvent(eventId, NextSequence(snapshot.events),
                                    EffectClaimed(request.effectId, request.claimant), request.now)))
  {
  }

  /** Under the gap-free log, an event computed on a prefix is next exactly when nothing was logged since. */
  lemma NextExactly(run: RunState, snapshot: RunState, event: RunEvent)
    requires GapFree(run.events) && snapshot.events <= run.events && GapFree(snapshot.events)
    requires event.sequence == NextSequence(snapshot.events)
    ensures IsNext(run, event) <==> |snapshot.events| == |run.events|
  {
  }

  lemma ClaimOutcome(run: RunState, request: Request, event: RunEvent)
    requires request.Claim? && forall i :: 0 <= i < |run.effects| ==> run.effects[i].WellShaped()
    ensures var r := Commit(run, ClaimEffect(request.effectId, request.claimant, request.now, event));
            var k := FindEffect(run.effects, request.effectId);
            var claims := k.Some? && run.effects[k.value].phase.Prepared?;
            && (r.state.effects != run.effects <==> claims)
            && (r.state.events == run.events <==> !(claims && IsNext(run, event)))
  {
    var k := FindEffect(run.effects, request.effectId);
    if k.Some? {
      assert run.effects[k.value].WellShaped();
      assert |run.events + [event]| != |run.events|;
    }
  }

  lemma PersistTakesCommit(s: Sys, c: Id)
    requires c in s.calls && s.calls[c].Ready?
    ensures Exec(s, Persist(c)).run == Commit(s.run, s.calls[c].intent).state
  {
  }

  /** A claim changes the table and leaves no event exactly when it was overtaken. */
  lemma OrphanExactly(s: Sys, c: Id)
    requires Inv(s) && c in s.calls && s.calls[c].Ready? && s.calls[c].request.Claim?
    ensures var run' := Exec(s, Persist(c)).run;
            run'.effects != s.run.effects && run'.events == s.run.events <==> OvertakenClaim(s, Persist(c))
  {
    var call := s.calls[c];
    assert ReadyOk(s.run, s.consumed, c, call);
    PersistTakesCommit(s, c);
    ClaimIntent(call.snapshot, call.request, c + 1, c + 2);
    NextExactly(s.run, call.snapshot, call.intent.event);
    ClaimOutcome(s.run, call.request, call.intent.event);
  }

  // ----- Claims without an event, over whole runs -----

  /** This claim is in the table and not in the log. */
  predicate Orphan(run: RunState, i: nat)
    requires i < |run.effects|
  {
    run.effects[i].claimant.Some? && AfterClaim(Own(run.events, run.effects[i].id)) != 2
  }

  lemma NoOrphanMeans(run: RunState)
    requires LogOk(run) && forall i :: 0 <= i < |run.effects| ==> run.effects[i].WellShaped()
    ensures NoOrphans(run) <==> forall i :: 0 <= i < |run.effects| ==> !Orphan(run, i)
  {
    forall i | 0 <= i < |run.effects|
      ensures (run.effects[i].claimant.Some? <==> AfterClaim(Own(run.events, run.effects[i].id)) == 2) <==> !Orphan(run, i)
    {
      assert Fits(Own(run.events, run.effects[i].id), run.effects[i]);
    }
  }

  /** A commit logs its event; a claim it logs is the claim it makes. */
  lemma LoggedCommitKeepsNoOrphans(s: Sys, c: Id)
    requires Inv(s) && Commits(s, Persist(c)) && NoOrphans(s.run)
    ensures NoOrphans(Exec(s, Persist(c)).run)
  {
    var call := s.calls[c];
    WinningFacts(s, c);
    if MovesEffect(call.request) {
      var k := PersistsFromCurrent(s, c);
      MoveKeepsNoOrphans(s.run, k, call.request, call.intent.event, c + 1);
    } else if call.request.Prepare? {
      PreparedCommitKeepsNoOrphans(s, c);
    } else {
      WinningFrame(s, c);
      OtherConcernsNothing(call.request, c + 1);
      OtherKeepsNoOrphans(s.run, Exec(s, Persist(c)).run, call.intent.event);
    }
  }

  lemma PreparedCommitKeepsNoOrphans(s: Sys, c: Id)
    requires Inv(s) && Commits(s, Persist(c)) && NoOrphans(s.run) && s.calls[c].request.Prepare?
    ensures NoOrphans(Exec(s, Persist(c)).run)
  {
    var call := s.calls[c];
    PersistedRun(s, c);
    WinningKind(s, c);
    CommittedOnSnapshot(s, c);
    CommitFrame(s.run, call.snapshot, call.request, c + 1, c + 2, call.intent);
    var e := PrepareEffect(c + 1, call.request.operationId, call.request.targetHash, call.request.grantId, call.request.now);
    forall i | 0 <= i < |s.run.effects| ensures s.run.effects[i].id != e.id {
      assert s.run.effects[i].id - 1 !in s.calls;
    }
    PreparedKeepsNoOrphans(s.run, Exec(s, Persist(c)).run, e, call.intent.event);
  }

  /** A step that logs nothing and is no overtaken claim leaves the effects alone. */
  lemma QuietStepKeepsEffects(s: Sys, step: Step)
    requires Inv(s) && !Commits(s, step) && !OvertakenClaim(s, step)
    ensures Exec(s, step).run.effects == s.run.effects && Exec(s, step).run.events == s.run.events
  {
    DriftingStep(s, step);
    if step.Persist? && step.call in s.calls && s.calls[step.call].Ready? {
      LosingPersist(s, step.call);
    }
  }

  lemma LosingPersist(s: Sys, c: Id)
    requires Inv(s) && c in s.calls && s.calls[c].Ready? && !Commits(s, Persist(c)) && !OvertakenClaim(s, Persist(c))
    ensures Exec(s, Persist(c)).run.effects == s.run.effects
  {
    PersistTakesCommit(s, c);
    if s.calls[c].request.Claim? {
      OrphanExactly(s, c);
      CommitAppendsOrDrifts(s.run, s.calls[c].intent);
    } else {
      assert ReadyOk(s.run, s.consumed, c, s.calls[c]);
      ClaimsComeFromClaims(s.calls[c].snapshot, s.calls[c].request, c + 1, c + 2);
      OnlyClaimsDrift(s.run, s.calls[c].intent);
    }
  }

  lemma ClaimsComeFromClaims(snapshot: RunState, request: Request, recordId: Id, eventId: Id)
    requires !request.Claim? && Compute(snapshot, request, recordId, eventId).Ok?
    ensures !Compute(snapshot, request, recordId, eventId).value.ClaimEffect?
  {
  }

  lemma OnlyClaimsDrift(run: RunState, intent: Intent)
    requires !intent.ClaimEffect? && Commit(run, intent).error.Some?
    ensures Commit(run, intent).state == run
  {
  }

  /** An overtaken claim leaves an orphan behind. */
  lemma OvertakenMakesOrphan(s: Sys, step: Step)
    requires Inv(s) && OvertakenClaim(s, step)
    ensures !NoOrphans(Exec(s, step).run)
  {
    var request := s.calls[step.call].request;
    var k := FindEffect(s.run.effects, request.effectId).value;
    var run' := Exec(s, step).run;
    OvertakenShape(s, step.call, k);
    assert Fits(Own(s.run.events, s.run.effects[k].id), s.run.effects[k]);
    assert Orphan(run', k);
    assert run'.effects[k].claimant.Some?;
  }

  lemma OvertakenShape(s: Sys, c: Id, k: nat)
    requires Inv(s) && OvertakenClaim(s, Persist(c))
    requires FindEffect(s.run.effects, s.calls[c].request.effectId) == Some(k)
    ensures var run' := Exec(s, Persist(c)).run;
            && run'.events == s.run.events
            && |run'.effects| == |s.run.effects|
            && run'.effects[k].id == s.run.effects[k].id
            && run'.effects[k].claimant.Some?
  {
    var call := s.calls[c];
    assert ReadyOk(s.run, s.consumed, c, call);
    PersistTakesCommit(s, c);
    ClaimIntent(call.snapshot, call.request, c + 1, c + 2);
    NextExactly(s.run, call.snapshot, call.intent.event);
    assert s.run.effects[k].WellShaped();
  }

  /** What an effect's own log begins with does not change any more once it is past its claim. */
  lemma OrphanStays(s: Sys, step: Step, i: nat)
    requires Inv(s) && i < |s.run.effects| && Orphan(s.run, i)
    ensures i < |Exec(s, step).run.effects| && Orphan(Exec(s, step).run, i)
  {
    StepAdvances(s, step);
    assert Advances(s.run.effects[i], Exec(s, step).run.effects[i]);
    assert Fits(Own(s.run.events, s.run.effects[i].id), s.run.effects[i]);
    assert s.run.effects[i].WellShaped();
    if Commits(s, step) {
      LoggedStepKeepsOrphan(s, step.call, i);
    } else {
      DriftingStep(s, step);
    }
  }

  lemma LoggedStepKeepsOrphan(s: Sys, c: Id, i: nat)
    requires Inv(s) && Commits(s, Persist(c)) && i < |s.run.effects| && Orphan(s.run, i)
    ensures AfterClaim(Own(Exec(s, Persist(c)).run.events, s.run.effects[i].id)) != 2
  {
    var id, event := s.run.effects[i].id, s.calls[c].intent.event;
    WinningFacts(s, c);
    OwnOfAppend(s.run.events, event, id);
    assert Fits(Own(s.run.events, id), s.run.effects[i]);
    assert s.run.effects[i].WellShaped();
    if event.kind.EffectClaimed? && event.kind.effectId == id {
      ClaimKindIsClaim(s.calls[c].request, c + 1);
      var k := PersistsFromCurrent(s, c);
      FindUnique(s.run.effects, i);
      FindUnique(s.run.effects, k);
    }
  }

  lemma ClaimKindIsClaim(request: Request, recordId: Id)
    requires KindOf(request, recordId).EffectClaimed?
    ensures request.Claim? && KindOf(request, recordId).effectId == request.effectId
  {
  }

  /** One step: every claim still has its event exactly when it had before and the step is no overtaken claim. */
  lemma StepOrphansExactly(s: Sys, step: Step)
    requires Inv(s)
    ensures NoOrphans(Exec(s, step).run) <==> NoOrphans(s.run) && !OvertakenClaim(s, step)
  {
    if !NoOrphans(s.run) {
      NoOrphanMeans(s.run);
      var i :| 0 <= i < |s.run.effects| && Orphan(s.run, i);
      OrphanStays(s, step, i);
    } else if OvertakenClaim(s, step) {
      OvertakenMakesOrphan(s, step);
    } else if Commits(s, step) {
      LoggedCommitKeepsNoOrphans(s, step.call);
    } else {
      QuietStepKeepsEffects(s, step);
    }
  }

  lemma OrphansAfter(now: int, steps: seq<Step>, n: nat)
    requires n < |steps|
    ensures NoOrphans(Run(now, steps[..n + 1]).run)
       <==> NoOrphans(Run(now, steps[..n]).run) && !OvertakenClaim(Run(now, steps[..n]), steps[n])
  {
    RunKeeps(now, steps[..n]);
    RunStep(now, steps, n);
    StepOrphansExactly(Run(now, steps[..n]), steps[n]);
  }

  lemma {:induction false} OrphansAlong(steps: seq<Step>, states: seq<Sys>, n: nat)
    requires |states| == |steps| + 1 && n <= |steps| && NoOrphans(states[0].run)
    requires forall m :: 0 <= m < |steps| ==>
               (NoOrphans(states[m + 1].run) <==> NoOrphans(states[m].run) && !OvertakenClaim(states[m], steps[m]))
    ensures NoOrphans(states[n].run) <==> forall m :: 0 <= m < n ==> !OvertakenClaim(states[m], steps[m])
  {
    if n > 0 {
      OrphansAlong(steps, states, n - 1);
      assert NoOrphans(states[n - 1 + 1].run) <==> NoOrphans(states[n - 1].run) && !OvertakenClaim(states[n - 1], steps[n - 1]);
    }
  }

  /** Over whole runs: every claim in the table has its event in the log if and only if no claim was ever
      persisted after being overtaken. */
  lemma ClaimsLoggedExactly(now: int, steps: seq<Step>)
    ensures NoOrphans(Run(now, steps).run)
       <==> forall n :: 0 <= n < |steps| ==> !OvertakenClaim(Run(now, steps[..n]), steps[n])
  {
    var states := RunHistory(now, steps);
    forall n | 0 <= n < |steps|
      ensures NoOrphans(states[n + 1].run) <==> NoOrphans(states[n].run) && !OvertakenClaim(states[n], steps[n])
    {
      OrphansAfter(now, steps, n);
    }
    OrphansAlong(steps, states, |steps|);
    assert forall n :: 0 <= n < |steps| ==> states[n] == Run(now, steps[..n]);
  }

  // ----- Stopping over a claim -----

  lemma StopComputed(snapshot: RunState, request: Request, recordId: Id, eventId: Id)
    requires (request.Pause? || request.Cancel?) && Compute(snapshot, request, recordId, eventId).Ok?
    ensures Lifecycle.IsQuiescent(snapshot.effects)
    ensures Compute(snapshot, request, recordId, eventId).value.AppendEvent?
  {
  }

  lemma DriftedQuietExactly(snapshot: RunState, run: RunState)
    requires Drift(snapshot, run) && Lifecycle.IsQuiescent(snapshot.effects)
    ensures Lifecycle.IsQuiescent(run.effects) <==> run.effects == snapshot.effects
  {
    if Lifecycle.IsQuiescent(run.effects) {
      forall i | 0 <= i < |run.effects| ensures run.effects[i] == snapshot.effects[i] {
        assert run.effects[i] == snapshot.effects[i] || ClaimedFrom(snapshot.effects[i], run.effects[i]);
      }
    }
  }

  /** A pause or a cancellation commits over a quiescent table exactly when no claim, having lost on
      sequence, has marked an effect since the call read the table. */
  lemma StopQuietExactly(s: Sys, c: Id)
    requires Inv(s) && Commits(s, Persist(c)) && (s.calls[c].request.Pause? || s.calls[c].request.Cancel?)
    ensures Lifecycle.IsQuiescent(Exec(s, Persist(c)).run.effects) <==> s.run.effects == s.calls[c].snapshot.effects
  {
    var call := s.calls[c];
    WinningFrame(s, c);
    CommittedOnSnapshot(s, c);
    StopComputed(call.snapshot, call.request, c + 1, c + 2);
    DriftedQuietExactly(call.snapshot, s.run);
  }

  // ----- Revocations that write back a stale count -----

  /** A revocation commits although dispatches were taken from the grant since it was read. */
  ghost predicate StaleRevocation(s: Sys, step: Step) {
    && Commits(s, step)
    && s.calls[step.call].request.Revoke?
    && s.calls[step.call].seen <= |s.consumed|
    && Count(s.consumed[s.calls[step.call].seen..], s.calls[step.call].request.grantId) > 0
  }

  lemma RevokedBalance(grants: seq<CapabilityGrant>, grants': seq<CapabilityGrant>, k: nat, consumed: seq<Id>, seen: nat)
    requires k < |grants| == |grants'| && seen <= |consumed|
    requires grants' == grants[k := grants'[k]] && grants'[k].id == grants[k].id && grants'[k].budget == grants[k].budget
    requires grants'[k].remaining + Count(consumed[..seen], grants[k].id) == grants[k].budget
    requires forall i :: 0 <= i < |grants| ==> grants[i].remaining + Count(consumed, grants[i].id) == grants[i].budget
    ensures (forall i :: 0 <= i < |grants'| ==> grants'[i].remaining + Count(consumed, grants'[i].id) == grants'[i].budget)
       <==> Count(consumed[seen..], grants[k].id) == 0
  {
    CountSplits(consumed, seen, grants[k].id);
    assert grants'[k].remaining + Count(consumed, grants'[k].id)
        == grants'[k].budget + Count(consumed[seen..], grants[k].id);
  }

  lemma RevocationBalance(s: Sys, c: Id)
    requires Inv(s) && Commits(s, Persist(c)) && s.calls[c].request.Revoke? && AllBalanced(s.run, s.consumed)
    ensures AllBalanced(Exec(s, Persist(c)).run, s.consumed) <==> !StaleRevocation(s, Persist(c))
  {
    var call := s.calls[c];
    assert ReadyOk(s.run, s.consumed, c, call);
    var k := RevokesFromCurrent(s, c);
    RevokedBalance(s.run.grants, Exec(s, Persist(c)).run.grants, k, s.consumed, call.seen);
  }

  lemma IssueBalance(s: Sys, c: Id)
    requires Inv(s) && Commits(s, Persist(c)) && s.calls[c].request.Issue? && AllBalanced(s.run, s.consumed)
    ensures AllBalanced(Exec(s, Persist(c)).run, s.consumed)
  {
    var call := s.calls[c];
    PersistedRun(s, c);
    CommittedOnSnapshot(s, c);
    CommitFrame(s.run, call.snapshot, call.request, c + 1, c + 2, call.intent);
    forall i | 0 <= i < |s.run.grants| ensures s.run.grants[i].id != c + 1 {
      assert s.run.grants[i].id - 1 !in s.calls;
    }
    IssueKeepsBalance(s.run, Exec(s, Persist(c)).run, s.consumed, Exec(s, Persist(c)).run.grants[|s.run.grants|]);
  }

  lemma ConsumeBalance(s: Sys, grantId: Id, now: int)
    requires GrantsOk(s) && CommitConsume(s.run, grantId, now).error.None?
    ensures AllBalanced(CommitConsume(s.run, grantId, now).state, s.consumed + [grantId]) <==> AllBalanced(s.run, s.consumed)
  {
    var r := CommitConsume(s.run, grantId, now);
    var k := FindGrant(s.run.grants, grantId).value;
    forall i | 0 <= i < |s.run.grants|
      ensures r.state.grants[i].remaining + Count(s.consumed + [grantId], r.state.grants[i].id)
           == s.run.grants[i].remaining + Count(s.consumed, s.run.grants[i].id)
      ensures r.state.grants[i].budget == s.run.grants[i].budget
    {
      CountOfAppend(s.consumed, grantId, s.run.grants[i].id);
      assert i != k ==> s.run.grants[i].id != s.run.grants[k].id;
    }
    assert |r.state.grants| == |s.run.grants|;
  }

  /** A grant whose record does not add up is revoked, and stays as it is. */
  lemma UnbalancedStays(s: Sys, step: Step, i: nat)
    requires Inv(s) && i < |s.run.grants|
    requires s.run.grants[i].remaining + Count(s.consumed, s.run.grants[i].id) != s.run.grants[i].budget
    ensures var s' := Exec(s, step);
            && i < |s'.run.grants|
            && s'.run.grants[i] == s.run.grants[i]
            && Count(s'.consumed, s.run.grants[i].id) == Count(s.consumed, s.run.grants[i].id)
  {
    assert Balanced(s.run.grants[i], s.consumed);
    if Commits(s, step) {
      CommitKeepsRevoked(s, step.call, i);
    } else if step.Consume? {
      ConsumeKeepsRevoked(s, step.grantId, step.now, i);
    } else {
      OtherStepKeepsGrants(s, step);
    }
  }

  lemma CommitKeepsRevoked(s: Sys, c: Id, i: nat)
    requires Inv(s) && Commits(s, Persist(c)) && i < |s.run.grants| && s.run.grants[i].revokedAt.Some?
    ensures var s' := Exec(s, Persist(c));
            i < |s'.run.grants| && s'.run.grants[i] == s.run.grants[i] && s'.consumed == s.consumed
  {
    PersistedRun(s, c);
    if s.calls[c].request.Revoke? {
      var k := RevokesFromCurrent(s, c);
    } else if s.calls[c].request.Issue? {
      IssuedTable(s, c);
    } else {
      WinningFrame(s, c);
    }
  }

  lemma ConsumeKeepsRevoked(s: Sys, grantId: Id, now: int, i: nat)
    requires GrantsOk(s) && i < |s.run.grants| && s.run.grants[i].revokedAt.Some?
    ensures var r := CommitConsume(s.run, grantId, now);
            && i < |r.state.grants| && r.state.grants[i] == s.run.grants[i]
            && (r.error.None? ==> Count(s.consumed + [grantId], s.run.grants[i].id) == Count(s.consumed, s.run.grants[i].id))
  {
    CountOfAppend(s.consumed, grantId, s.run.grants[i].id);
    FindGrantUnique(s.run.grants, i);
  }

  lemma OtherStepKeepsGrants(s: Sys, step: Step)
    requires !Commits(s, step) && !step.Consume?
    ensures Exec(s, step).run.grants == s.run.grants && Exec(s, step).consumed == s.consumed
  {
    if step.Persist? && step.call in s.calls && s.calls[step.call].Ready? {
      CommitAppendsOrDrifts(s.run, s.calls[step.call].intent);
    }
  }

  lemma BalancedStep(s: Sys, step: Step)
    requires Inv(s) && AllBalanced(s.run, s.consumed)
    ensures AllBalanced(Exec(s, step).run, Exec(s, step).consumed) <==> !StaleRevocation(s, step)
  {
    if Commits(s, step) {
      PersistedRun(s, step.call);
      if s.calls[step.call].request.Revoke? {
        RevocationBalance(s, step.call);
      } else if s.calls[step.call].request.Issue? {
        IssueBalance(s, step.call);
      } else {
        WinningFrame(s, step.call);
      }
    } else if step.Consume? {
      if CommitConsume(s.run, step.grantId, step.now).error.None? {
        ConsumeBalance(s, step.grantId, step.now);
      }
    } else {
      OtherStepKeepsGrants(s, step);
    }
  }

  lemma StepBalanceExactly(s: Sys, step: Step)
    requires Inv(s)
    ensures AllBalanced(Exec(s, step).run, Exec(s, step).consumed)
       <==> AllBalanced(s.run, s.consumed) && !StaleRevocation(s, step)
  {
    if AllBalanced(s.run, s.consumed) {
      BalancedStep(s, step);
    } else {
      var i :| 0 <= i < |s.run.grants|
        && s.run.grants[i].remaining + Count(s.consumed, s.run.grants[i].id) != s.run.grants[i].budget;
      UnbalancedStays(s, step, i);
    }
  }

  lemma BalanceAfter(now: int, steps: seq<Step>, n: nat)
    requires n < |steps|
    ensures AllBalanced(Run(now, steps[..n + 1]).run, Run(now, steps[..n + 1]).consumed)
       <==> AllBalanced(Run(now, steps[..n]).run, Run(now, steps[..n]).consumed)
            && !StaleRevocation(Run(now, steps[..n]), steps[n])
  {
    RunKeeps(now, steps[..n]);
    RunStep(now, steps, n);
    StepBalanceExactly(Run(now, steps[..n]), steps[n]);
  }

  ghost predicate SysBalanced(s: Sys) {
    AllBalanced(s.run, s.consumed)
  }

  lemma {:induction false} BalanceAlong(steps: seq<Step>, states: seq<Sys>, n: nat)
    requires |states| == |steps| + 1 && n <= |steps| && SysBalanced(states[0])
    requires forall m :: 0 <= m < |steps| ==>
               (SysBalanced(states[m + 1]) <==> SysBalanced(states[m]) && !StaleRevocation(states[m], steps[m]))
    ensures SysBalanced(states[n]) <==> forall m :: 0 <= m < n ==> !StaleRevocation(states[m], steps[m])
  {
    if n > 0 {
      BalanceAlong(steps, states, n - 1);
      assert SysBalanced(states[n - 1 + 1]) <==> SysBalanced(states[n - 1]) && !StaleRevocation(states[n - 1], steps[n - 1]);
    }
  }

  /** Over whole runs: what every grant has left and what was taken from it add up to its budget if and
      only if no revocation was committed over a dispatch taken since it read the grant. */
  lemma BudgetAddsUpExactly(now: int, steps: seq<Step>)
    ensures AllBalanced(Run(now, steps).run, Run(now, steps).consumed)
       <==> forall n :: 0 <= n < |steps| ==> !StaleRevocation(Run(now, steps[..n]), steps[n])
  {
    var states := RunHistory(now, steps);
    forall n | 0 <= n < |steps|
      ensures SysBalanced(states[n + 1]) <==> SysBalanced(states[n]) && !StaleRevocation(states[n], steps[n])
    {
      BalanceAfter(now, steps, n);
    }
    BalanceAlong(steps, states, |steps|);
    assert forall n :: 0 <= n < |steps| ==> states[n] == Run(now, steps[..n]);
  }

}
