/** What holds over every interleaving of any number of calls. */
module JournalTheorems {
  import opened RunRecords
  import opened RunStore
  import opened Protocol
  import opened JournalInvariants
  import opened JournalCommits

  // ----- Histories of single records -----

  function Rank(phase: Phase): nat {
    match phase
    case Prepared => 0
    case Claimed => 1
    case Dispatched => 2
    case Settled => 3
  }

  /** What never changes, and what never changes again once it is there. */
  predicate Evolves(a: EffectRecord, b: EffectRecord) {
    && b.id == a.id && b.operationId == a.operationId && b.targetHash == a.targetHash
    && b.grantId == a.grantId && b.preparedAt == a.preparedAt
    && Rank(a.phase) <= Rank(b.phase)
    && (a.claimant.Some? ==> b.claimant == a.claimant)
    && (a.claimedAt.Some? ==> b.claimedAt == a.claimedAt)
    && (a.dispatchedAt.Some? ==> b.dispatchedAt == a.dispatchedAt)
    && (a.operationResult.Some? ==> b.operationResult == a.operationResult)
    && (Confirmed(a.certainty) ==> b == a)
  }

  /** At most one phase in one step. */
  predicate Advances(a: EffectRecord, b: EffectRecord) {
    Evolves(a, b) && Rank(b.phase) <= Rank(a.phase) + 1
  }

  predicate GrantEvolves(a: CapabilityGrant, b: CapabilityGrant) {
    && b == a.(remaining := b.remaining, revokedAt := b.revokedAt)
    && (a.revokedAt.Some? ==> b.revokedAt == a.revokedAt)
  }

  ghost predicate RunEvolves(a: RunState, b: RunState) {
    && a.events <= b.events
    && a.checkpoints <= b.checkpoints
    && |a.effects| <= |b.effects|
    && (forall i :: 0 <= i < |a.effects| ==> Evolves(a.effects[i], b.effects[i]))
    && |a.grants| <= |b.grants|
    && (forall i :: 0 <= i < |a.grants| ==> GrantEvolves(a.grants[i], b.grants[i]))
  }

  lemma MoveAdvances(request: Request, e: EffectRecord)
    requires e.WellShaped() && MoveOf(request, e).Ok?
    ensures Advances(e, MoveOf(request, e).value)
  {
  }

  lemma DriftAdvances(a: RunState, b: RunState)
    requires Drift(a, b)
    ensures forall i :: 0 <= i < |a.effects| ==> a.effects[i].WellShaped() ==> Advances(a.effects[i], b.effects[i])
    ensures forall i :: 0 <= i < |a.grants| ==> GrantEvolves(a.grants[i], b.grants[i])
  {
    forall i | 0 <= i < |a.effects| && a.effects[i].WellShaped()
      ensures Advances(a.effects[i], b.effects[i])
    {
      assert b.effects[i] == a.effects[i] || ClaimedFrom(a.effects[i], b.effects[i]);
    }
  }

  predicate EffectsAdvance(a: RunState, b: RunState) {
    && |a.effects| <= |b.effects|
    && (forall i :: 0 <= i < |a.effects| ==> Advances(a.effects[i], b.effects[i]))
  }

  predicate GrantsEvolve(a: RunState, b: RunState) {
    && |a.grants| <= |b.grants|
    && (forall i :: 0 <= i < |a.grants| ==> GrantEvolves(a.grants[i], b.grants[i]))
  }

  lemma MovedAdvances(run: RunState, event: RunEvent, k: nat, request: Request)
    requires k < |run.effects| && run.effects[k].WellShaped() && MoveOf(request, run.effects[k]).Ok?
    ensures EffectsAdvance(run, Moved(run, event, k, MoveOf(request, run.effects[k]).value))
  {
    MoveAdvances(request, run.effects[k]);
  }

  lemma CommitAdvancesEffects(s: Sys, c: Id)
    requires Inv(s) && Commits(s, Persist(c))
    ensures EffectsAdvance(s.run, Exec(s, Persist(c)).run)
  {
    var request := s.calls[c].request;
    if MovesEffect(request) {
      var k := PersistsFromCurrent(s, c);
      MovedAdvances(s.run, s.calls[c].intent.event, k, request);
    } else if request.Prepare? {
      PreparedTable(s, c);
    } else {
      WinningFrame(s, c);
    }
  }

  lemma PreparedTable(s: Sys, c: Id)
    requires Inv(s) && Commits(s, Persist(c)) && s.calls[c].request.Prepare?
    ensures s.run.effects <= Exec(s, Persist(c)).run.effects
  {
    PersistedRun(s, c);
    CommittedOnSnapshot(s, c);
    CommitFrame(s.run, s.calls[c].snapshot, s.calls[c].request, c + 1, c + 2, s.calls[c].intent);
  }

  lemma IssuedTable(s: Sys, c: Id)
    requires Inv(s) && Commits(s, Persist(c)) && s.calls[c].request.Issue?
    ensures s.run.grants <= Exec(s, Persist(c)).run.grants
  {
    PersistedRun(s, c);
    CommittedOnSnapshot(s, c);
    CommitFrame(s.run, s.calls[c].snapshot, s.calls[c].request, c + 1, c + 2, s.calls[c].intent);
  }

  lemma CommitEvolvesGrants(s: Sys, c: Id)
    requires Inv(s) && Commits(s, Persist(c))
    ensures GrantsEvolve(s.run, Exec(s, Persist(c)).run)
  {
    var request := s.calls[c].request;
    if request.Revoke? {
      var k := RevokesFromCurrent(s, c);
    } else if request.Issue? {
      IssuedTable(s, c);
    } else {
      WinningFrame(s, c);
    }
  }

  lemma CommitGrowsCheckpoints(s: Sys, c: Id)
    requires Inv(s) && Commits(s, Persist(c))
    ensures s.run.checkpoints <= Exec(s, Persist(c)).run.checkpoints
  {
    PersistedRun(s, c);
    CommittedOnSnapshot(s, c);
    CommitFrame(s.run, s.calls[c].snapshot, s.calls[c].request, c + 1, c + 2, s.calls[c].intent);
  }

  lemma LosingPersistDrifts(s: Sys, c: Id)
    requires !Commits(s, Persist(c))
    ensures Drift(s.run, Exec(s, Persist(c)).run)
  {
    if c in s.calls && s.calls[c].Ready? {
      CommitAppendsOrDrifts(s.run, s.calls[c].intent);
    }
  }

  lemma DriftingStep(s: Sys, step: Step)
    requires !Commits(s, step)
    ensures Drift(s.run, Exec(s, step).run)
  {
    match step
    case ReadTicket(_) =>
    case Read(request) =>
    case Lose(_) =>
    case Consume(_, grantId, _, now) => ConsumeDrifts(s.run, grantId, now);
    case Persist(c) => LosingPersistDrifts(s, c);
  }

  /** One step of one call: the log and the checkpoints only grow, every effect advances by at most
      one phase, a confirmed record and a claimant are final, a revocation is final. */
  lemma StepAdvances(s: Sys, step: Step)
    requires Inv(s)
    ensures RunEvolves(s.run, Exec(s, step).run)
    ensures forall i :: 0 <= i < |s.run.effects| ==> Advances(s.run.effects[i], Exec(s, step).run.effects[i])
  {
    var s' := Exec(s, step);
    if Commits(s, step) {
      WinningFacts(s, step.call);
      CommitAdvancesEffects(s, step.call);
      CommitEvolvesGrants(s, step.call);
      CommitGrowsCheckpoints(s, step.call);
    } else {
      DriftingStep(s, step);
      DriftAdvances(s.run, s'.run);
    }
    assert EffectsAdvance(s.run, s'.run) && GrantsEvolve(s.run, s'.run);
  }

  lemma RunEvolvesTransitive(a: RunState, b: RunState, c: RunState)
    requires RunEvolves(a, b) && RunEvolves(b, c)
    ensures RunEvolves(a, c)
  {
    forall i | 0 <= i < |a.effects| ensures Evolves(a.effects[i], c.effects[i]) {
      assert Evolves(a.effects[i], b.effects[i]) && Evolves(b.effects[i], c.effects[i]);
    }
    forall i | 0 <= i < |a.grants| ensures GrantEvolves(a.grants[i], c.grants[i]) {
      assert GrantEvolves(a.grants[i], b.grants[i]) && GrantEvolves(b.grants[i], c.grants[i]);
    }
  }

  lemma RunStep(now: int, steps: seq<Step>, n: nat)
    requires n < |steps|
    ensures Run(now, steps[..n + 1]) == Exec(Run(now, steps[..n]), steps[n])
  {
    assert steps[..n + 1][..n] == steps[..n];
  }

  lemma OneStepEvolves(now: int, steps: seq<Step>, n: nat)
    requires n < |steps|
    ensures RunEvolves(Run(now, steps[..n]).run, Run(now, steps[..n + 1]).run)
  {
    RunKeeps(now, steps[..n]);
    RunStep(now, steps, n);
    StepAdvances(Run(now, steps[..n]), steps[n]);
  }

  lemma {:induction false} HistoryEvolves(states: seq<RunState>, early: nat, late: nat)
    requires early <= late < |states|
    requires forall n :: 0 <= n < |states| - 1 ==> RunEvolves(states[n], states[n + 1])
    ensures RunEvolves(states[early], states[late])
  {
    if early < late {
      HistoryEvolves(states, early, late - 1);
      assert RunEvolves(states[late - 1], states[late - 1 + 1]);
      RunEvolvesTransitive(states[early], states[late - 1], states[late]);
    }
  }

  /** No lost update over whole runs: whatever the interleaving, between any two moments of a run no
      effect falls back, no claimant, result or confirmed certainty is overwritten, no revocation is
      undone, and neither log nor checkpoints lose an entry. */
  lemma NothingIsLost(now: int, steps: seq<Step>, early: nat, late: nat)
    requires early <= late <= |steps|
    ensures RunEvolves(Run(now, steps[..early]).run, Run(now, steps[..late]).run)
  {
    var states := seq(|steps| + 1, n requires 0 <= n <= |steps| => Run(now, steps[..n]).run);
    forall n | 0 <= n < |states| - 1 ensures RunEvolves(states[n], states[n + 1]) {
      OneStepEvolves(now, steps, n);
    }
    HistoryEvolves(states, early, late);
  }

  // ----- Budget -----

  /** In every interleaving a grant is consumed at most `budget` times, and every effect started
      under it used up a consumption of its own. */
  lemma BudgetHolds(now: int, steps: seq<Step>, i: nat)
    requires i < |Run(now, steps).run.grants|
    ensures var s := Run(now, steps);
            var g := s.run.grants[i];
            && Count(s.consumed, g.id) <= g.budget
            && |StartedWith(s.startedUnder, g.id)| <= Count(s.consumed, g.id)
            && (g.revokedAt.None? ==> g.remaining == g.budget - Count(s.consumed, g.id))
  {
    RunKeeps(now, steps);
    var s := Run(now, steps);
    assert Balanced(s.run.grants[i], s.consumed);
    assert Count(s.consumed, s.run.grants[i].id) <= s.run.grants[i].budget;
  }

  /** The effects counted there are exactly those the table shows dispatched or settled. */
  lemma StartedIsCounted(now: int, steps: seq<Step>, id: Id)
    ensures var s := Run(now, steps);
            id in s.startedUnder <==> exists i :: 0 <= i < |s.run.effects| && s.run.effects[i].id == id && s.run.effects[i].Started()
  {
    RunKeeps(now, steps);
    var s := Run(now, steps);
    if id in s.startedUnder {
      var i :| 0 <= i < |s.run.effects| && s.run.effects[i].id == id;
      assert s.run.effects[i].Started();
    }
  }

  lemma CountSplits(xs: seq<Id>, n: nat, x: Id)
    requires n <= |xs|
    ensures Count(xs, x) == Count(xs[..n], x) + Count(xs[n..], x)
  {
    if n < |xs| {
      assert xs[..|xs| - 1][..n] == xs[..n];
      assert xs[n..][..|xs| - 1 - n] == xs[..|xs| - 1][n..];
      CountSplits(xs[..|xs| - 1], n, x);
    } else {
      assert xs[..n] == xs;
    }
  }

  /** A revocation writes back the remaining budget it read. What the revoked record then claims to
      have left is off by exactly the dispatches taken between its read and its commit. */
  lemma RevocationOverstates(s: Sys, c: Id) returns (k: nat)
    requires Inv(s) && Commits(s, Persist(c)) && s.calls[c].request.Revoke?
    ensures var s' := Exec(s, Persist(c));
            && k < |s'.run.grants| && s'.run.grants[k].id == s.calls[c].request.grantId
            && s'.run.grants[k].revokedAt.Some?
            && s.calls[c].seen <= |s.consumed|
            && s'.run.grants[k].remaining + Count(s'.consumed, s'.run.grants[k].id)
               == s'.run.grants[k].budget + Count(s.consumed[s.calls[c].seen..], s'.run.grants[k].id)
  {
    assert ReadyOk(s.run, s.consumed, c, s.calls[c]);
    k := RevokesFromCurrent(s, c);
    CountSplits(s.consumed, s.calls[c].seen, s.run.grants[k].id);
  }
}
