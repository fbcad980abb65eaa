/** What every step of every interleaving keeps. */
module JournalInvariants {
  import opened Wrappers
  import opened RunRecords
  import opened RunStore
  import opened Protocol

  // ----- The invariant, part by part -----

  ghost predicate GapFree(events: seq<RunEvent>) {
    |events| > 0 && forall i :: 0 <= i < |events| ==> events[i].sequence == i + 1
  }

  ghost predicate EffectsOk(s: Sys) {
    && UniqueEffects(s.run.effects)
    && (forall i :: 0 <= i < |s.run.effects| ==> s.run.effects[i].WellShaped())
    && (forall i :: 0 <= i < |s.run.effects| ==>
          0 < s.run.effects[i].id < s.supply && s.run.effects[i].id - 1 !in s.calls)
  }

  ghost predicate GrantsOk(s: Sys) {
    && (forall i, j :: 0 <= i < j < |s.run.grants| ==> s.run.grants[i].id != s.run.grants[j].id)
    && (forall i :: 0 <= i < |s.run.grants| ==>
          0 < s.run.grants[i].id < s.supply && s.run.grants[i].id - 1 !in s.calls)
  }

  /** A live grant accounts for every dispatch taken from it. */
  ghost predicate Balanced(g: CapabilityGrant, consumed: seq<Id>) {
    g.revokedAt.None? ==> g.remaining + Count(consumed, g.id) == g.budget
  }

  ghost predicate BudgetOk(run: RunState, consumed: seq<Id>) {
    && (forall i :: 0 <= i < |run.grants| ==>
          && Balanced(run.grants[i], consumed)
          && run.grants[i].remaining <= run.grants[i].budget
          && Count(consumed, run.grants[i].id) <= run.grants[i].budget)
    && (forall id: Id :: Count(consumed, id) > 0 ==> exists i :: 0 <= i < |run.grants| && run.grants[i].id == id)
  }

  ghost predicate LogOk(run: RunState) {
    && (forall i :: 0 <= i < |run.effects| ==> Fits(Own(run.events, run.effects[i].id), run.effects[i]))
    && (forall id: Id :: Own(run.events, id) != [] ==> exists i :: 0 <= i < |run.effects| && run.effects[i].id == id)
  }

  /** A waiting call saw a prefix of the log, and if the log has not grown since, nothing its intent
      was computed from has changed. */
  ghost predicate ReadyOk(run: RunState, consumed: seq<Id>, c: Id, call: Call)
    requires call.Ready?
  {
    && call.snapshot.events <= run.events
    && (|call.snapshot.events| == |run.events| ==> Drift(call.snapshot, run))
    && Compute(call.snapshot, call.request, c + 1, c + 2) == Ok(call.intent)
    && GapFree(call.snapshot.events)
    && call.seen <= |consumed|
    && (forall i :: 0 <= i < |call.snapshot.grants| ==>
          Balanced(call.snapshot.grants[i], consumed[..call.seen]))
  }

  ghost predicate CallsOk(s: Sys) {
    forall c :: c in s.calls ==>
      && c + 3 <= s.supply
      && (s.calls[c].Ready? ==> ReadyOk(s.run, s.consumed, c, s.calls[c]))
  }

  predicate HoldsTicket(call: Call, grantId: Id) {
    match call
    case Ticket(_, g, _, _) => g == grantId
    case Ready(request, _, _, _) => request.Dispatch? && request.grantId == grantId
  }

  function Holders(calls: map<Id, Call>, grantId: Id): set<Id> {
    set c | c in calls && HoldsTicket(calls[c], grantId)
  }

  function StartedWith(startedUnder: map<Id, Id>, grantId: Id): set<Id> {
    set e | e in startedUnder && startedUnder[e] == grantId
  }

  /** Every started effect used up a consumption of its own. */
  ghost predicate TicketsOk(s: Sys) {
    && (forall i :: 0 <= i < |s.run.effects| ==>
          (s.run.effects[i].Started() <==> s.run.effects[i].id in s.startedUnder))
    && (forall id :: id in s.startedUnder ==> exists i :: 0 <= i < |s.run.effects| && s.run.effects[i].id == id)
    && (forall g: Id :: |StartedWith(s.startedUnder, g)| + |Holders(s.calls, g)| <= Count(s.consumed, g))
  }

  ghost predicate CheckpointsOk(run: RunState) {
    forall i :: 0 <= i < |run.checkpoints| ==>
      && run.checkpoints[i].lastEventSequence <= |run.events|
      && run.checkpoints[i].chain == ChainOf(run.events[..run.checkpoints[i].lastEventSequence])
  }

  ghost predicate Inv(s: Sys) {
    && GapFree(s.run.events)
    && EffectsOk(s)
    && GrantsOk(s)
    && BudgetOk(s.run, s.consumed)
    && LogOk(s.run)
    && CallsOk(s)
    && TicketsOk(s)
    && CheckpointsOk(s.run)
  }

  // ----- Drift keeps everything that only looks at the run -----

  lemma DriftKeepsCalls(s: Sys, run': RunState, consumed': seq<Id>)
    requires CallsOk(s) && Drift(s.run, run') && s.consumed <= consumed'
    ensures forall c :: c in s.calls && s.calls[c].Ready? ==> ReadyOk(run', consumed', c, s.calls[c])
  {
    forall c | c in s.calls && s.calls[c].Ready?
      ensures ReadyOk(run', consumed', c, s.calls[c])
    {
      var call := s.calls[c];
      assert ReadyOk(s.run, s.consumed, c, call);
      assert consumed'[..call.seen] == s.consumed[..call.seen];
      if |call.snapshot.events| == |run'.events| {
        DriftTransitive(call.snapshot, s.run, run');
      }
    }
  }

  lemma GrowthKeepsCalls(s: Sys, run': RunState)
    requires CallsOk(s) && s.run.events <= run'.events && |s.run.events| < |run'.events|
    ensures forall c :: c in s.calls && s.calls[c].Ready? ==> ReadyOk(run', s.consumed, c, s.calls[c])
  {
    forall c | c in s.calls && s.calls[c].Ready?
      ensures ReadyOk(run', s.consumed, c, s.calls[c])
    {
      assert ReadyOk(s.run, s.consumed, c, s.calls[c]);
    }
  }

  lemma DriftKeepsLog(a: RunState, b: RunState)
    requires LogOk(a) && Drift(a, b)
    ensures LogOk(b)
  {
    forall i | 0 <= i < |b.effects|
      ensures Fits(Own(b.events, b.effects[i].id), b.effects[i])
    {
      assert Fits(Own(a.events, a.effects[i].id), a.effects[i]);
    }
    forall id: Id | Own(b.events, id) != []
      ensures exists i :: 0 <= i < |b.effects| && b.effects[i].id == id
    {
      var i :| 0 <= i < |a.effects| && a.effects[i].id == id;
      assert b.effects[i].id == id;
    }
  }

  /** The grants of the source never change without a log entry except through a consumption; a
      drift by a claim leaves them equal. */
  lemma ClaimDriftKeepsBudget(a: RunState, b: RunState, consumed: seq<Id>)
    requires BudgetOk(a, consumed) && b.grants == a.grants
    ensures BudgetOk(b, consumed)
  {
  }

  lemma DriftKeepsTickets(s: Sys, s': Sys)
    requires TicketsOk(s) && Drift(s.run, s'.run) && s'.startedUnder == s.startedUnder
    ensures forall i :: 0 <= i < |s'.run.effects| ==>
              (s'.run.effects[i].Started() <==> s'.run.effects[i].id in s'.startedUnder)
    ensures forall id :: id in s'.startedUnder ==> exists i :: 0 <= i < |s'.run.effects| && s'.run.effects[i].id == id
  {
    forall i | 0 <= i < |s'.run.effects|
      ensures s'.run.effects[i].Started() <==> s'.run.effects[i].id in s'.startedUnder
    {
      assert s.run.effects[i].Started() <==> s.run.effects[i].id in s.startedUnder;
    }
    forall id | id in s'.startedUnder
      ensures exists i :: 0 <= i < |s'.run.effects| && s'.run.effects[i].id == id
    {
      var i :| 0 <= i < |s.run.effects| && s.run.effects[i].id == id;
      assert s'.run.effects[i].id == id;
    }
  }

  // ----- Compare-and-swap -----

  /** What the source's record methods make of a request for one effect. */
  function MoveOf(request: Request, e: EffectRecord): Result<EffectRecord, EffectError> {
    match request
    case Claim(_, claimant, now) => e.Claim(claimant, now)
    case Dispatch(_, _, claimant, now) => e.MarkDispatched(claimant, now)
    case Settle(_, claimant, result, certainty, now) => e.Settle(claimant, result, certainty, now)
    case Reconcile(_, probe, now) => e.Reconcile(probe, now)
    case _ => Err(EffectError.NotPrepared)
  }

  predicate MovesEffect(request: Request) {
    request.Claim? || request.Dispatch? || request.Settle? || request.Reconcile?
  }

  lemma FindUnique(effects: seq<EffectRecord>, k: nat)
    requires k < |effects|
    requires forall i, j :: 0 <= i < j < |effects| ==> effects[i].id != effects[j].id
    ensures FindEffect(effects, effects[k].id) == Some(k)
  {
  }

  lemma FindGrantUnique(grants: seq<CapabilityGrant>, k: nat)
    requires k < |grants|
    requires forall i, j :: 0 <= i < j < |grants| ==> grants[i].id != grants[j].id
    ensures FindGrant(grants, grants[k].id) == Some(k)
  {
  }

  predicate UniqueEffects(effects: seq<EffectRecord>) {
    forall i, j :: 0 <= i < j < |effects| ==> effects[i].id != effects[j].id
  }

  function Moved(run: RunState, event: RunEvent, k: nat, e: EffectRecord): RunState
    requires k < |run.effects|
  {
    run.(events := run.events + [event], effects := run.effects[k := e])
  }

  lemma ComputedMove(snapshot: RunState, request: Request, recordId: Id, eventId: Id, intent: Intent) returns (k: nat)
    requires Compute(snapshot, request, recordId, eventId) == Ok(intent)
    requires MovesEffect(request) && !request.Claim?
    ensures k < |snapshot.effects| && snapshot.effects[k].id == request.effectId
    ensures MoveOf(request, snapshot.effects[k]).Ok?
    ensures intent == ReplaceEffect(MoveOf(request, snapshot.effects[k]).value, intent.event)
  {
    k := FindEffect(snapshot.effects, request.effectId).value;
  }

  lemma ReplaceLands(run: RunState, snapshot: RunState, request: Request, intent: Intent, k: nat)
    requires UniqueEffects(run.effects) && Drift(snapshot, run)
    requires MovesEffect(request) && !request.Claim?
    requires k < |snapshot.effects| && snapshot.effects[k].id == request.effectId && MoveOf(request, snapshot.effects[k]).Ok?
    requires intent == ReplaceEffect(MoveOf(request, snapshot.effects[k]).value, intent.event)
    requires Commit(run, intent).error.None?
    ensures run.effects[k] == snapshot.effects[k]
    ensures Commit(run, intent).state == Moved(run, intent.event, k, MoveOf(request, run.effects[k]).value)
  {
    assert run.effects[k] == snapshot.effects[k];
    FindUnique(run.effects, k);
  }

  lemma ClaimLands(run: RunState, request: Request, intent: Intent) returns (k: nat)
    requires request.Claim?
    requires intent == ClaimEffect(request.effectId, request.claimant, request.now, intent.event)
    requires Commit(run, intent).error.None?
    ensures k < |run.effects| && run.effects[k].id == request.effectId
    ensures MoveOf(request, run.effects[k]).Ok?
    ensures Commit(run, intent).state == Moved(run, intent.event, k, MoveOf(request, run.effects[k]).value)
  {
    k := FindEffect(run.effects, request.effectId).value;
  }

  /** What the invariant says of a call whose commit goes through: nothing was logged since it read. */
  lemma CommittedOnSnapshot(s: Sys, c: Id)
    requires GapFree(s.run.events) && CallsOk(s) && Commits(s, Persist(c))
    ensures ReadyOk(s.run, s.consumed, c, s.calls[c])
    ensures s.calls[c].snapshot.events == s.run.events
    ensures Drift(s.calls[c].snapshot, s.run)
  {
    var call := s.calls[c];
    assert ReadyOk(s.run, s.consumed, c, call);
    CommitAppendsOrDrifts(s.run, call.intent);
    ComputedSequence(call.snapshot, call.request, c + 1, c + 2);
  }

  lemma ComputedSequence(snapshot: RunState, request: Request, recordId: Id, eventId: Id)
    requires Compute(snapshot, request, recordId, eventId).Ok?
    ensures Compute(snapshot, request, recordId, eventId).value.event.sequence == NextSequence(snapshot.events)
    ensures Compute(snapshot, request, recordId, eventId).value.event.id == eventId
  {
  }

  lemma LandsOnCurrent(s: Sys, c: Id) returns (k: nat)
    requires GapFree(s.run.events) && CallsOk(s) && UniqueEffects(s.run.effects)
    requires Commits(s, Persist(c)) && MovesEffect(s.calls[c].request)
    ensures k < |s.run.effects| && s.run.effects[k].id == s.calls[c].request.effectId
    ensures MoveOf(s.calls[c].request, s.run.effects[k]).Ok?
    ensures Commit(s.run, s.calls[c].intent).state
         == Moved(s.run, s.calls[c].intent.event, k, MoveOf(s.calls[c].request, s.run.effects[k]).value)
  {
    var call := s.calls[c];
    CommittedOnSnapshot(s, c);
    if call.request.Claim? {
      k := ClaimLands(s.run, call.request, call.intent);
    } else {
      k := ComputedMove(call.snapshot, call.request, c + 1, c + 2, call.intent);
      ReplaceLands(s.run, call.snapshot, call.request, call.intent, k);
    }
  }

  lemma PersistedRun(s: Sys, c: Id)
    requires Commits(s, Persist(c))
    ensures Exec(s, Persist(c)).run == Commit(s.run, s.calls[c].intent).state
    ensures Exec(s, Persist(c)).calls == s.calls - {c}
    ensures Exec(s, Persist(c)).supply == s.supply && Exec(s, Persist(c)).consumed == s.consumed
    ensures Exec(s, Persist(c)).startedUnder
         == if s.calls[c].request.Dispatch? then s.startedUnder[s.calls[c].request.effectId := s.calls[c].request.grantId]
            else s.startedUnder
  {
  }

  /** No lost update: a claim, dispatch, settlement or reconciliation that persists applied the
      record's own transition to the record as it stands at that moment, and changed nothing else. */
  lemma PersistsFromCurrent(s: Sys, c: Id) returns (k: nat)
    requires Inv(s) && Commits(s, Persist(c)) && MovesEffect(s.calls[c].request)
    ensures k < |s.run.effects| && s.run.effects[k].id == s.calls[c].request.effectId
    ensures MoveOf(s.calls[c].request, s.run.effects[k]).Ok?
    ensures Exec(s, Persist(c)).run
         == Moved(s.run, s.calls[c].intent.event, k, MoveOf(s.calls[c].request, s.run.effects[k]).value)
  {
    PersistedRun(s, c);
    k := LandsOnCurrent(s, c);
  }

  /** The same for a revocation: it replaces the grant that is in the table now, except that the
      remaining budget it writes is the one it read. */
  lemma RevokesFromCurrent(s: Sys, c: Id) returns (k: nat)
    requires Inv(s) && Commits(s, Persist(c)) && s.calls[c].request.Revoke?
    ensures k < |s.run.grants| && k < |s.calls[c].snapshot.grants|
    ensures s.run.grants[k].id == s.calls[c].request.grantId
    ensures s.run.grants[k].revokedAt.None?
    ensures Exec(s, Persist(c)).run
         == s.run.(events := s.run.events + [s.calls[c].intent.event],
                   grants := s.run.grants[k := s.run.grants[k].(revokedAt := Some(s.calls[c].request.now),
                                                                remaining := s.calls[c].snapshot.grants[k].remaining)])
    ensures s.calls[c].snapshot.grants[k].remaining + Count(s.consumed[..s.calls[c].seen], s.run.grants[k].id)
         == s.run.grants[k].budget
  {
    var call := s.calls[c];
    CommittedOnSnapshot(s, c);
    k := FindGrant(call.snapshot.grants, call.request.grantId).value;
    assert s.run.grants[k] == call.snapshot.grants[k].(remaining := s.run.grants[k].remaining);
    FindGrantUnique(s.run.grants, k);
    assert Balanced(call.snapshot.grants[k], s.consumed[..call.seen]);
  }
}
