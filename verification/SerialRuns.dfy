/** Runs whose use cases never overlap: the special case in which the log determines the table. */
module SerialRuns {
  import opened Wrappers
  import opened RunRecords
  import opened RunStore
  import opened Protocol
  import opened JournalInvariants
  import opened JournalPreservation
  import opened JournalCommits
  import RunRepository
  import LeaseHistory
  import Lifecycle

  /** One whole use case as steps of the interleaved protocol. */
  function StepsOf(request: Request, call: Id): seq<Step> {
    if request.Dispatch? then
      [Consume(request.effectId, request.grantId, request.claimant, request.now), ReadTicket(call), Persist(call)]
    else [Read(request), Persist(call)]
  }

  /** The state a serial dispatch reads and commits in: its budget is already taken. */
  function AfterConsume(s: Sys, request: Request): Sys {
    if request.Dispatch? then
      Exec(s, Consume(request.effectId, request.grantId, request.claimant, request.now))
    else s
  }

  /** The call of a serial use case just before it commits. */
  function Pending(s: Sys, request: Request): Sys {
    if request.Dispatch? then Exec(AfterConsume(s, request), ReadTicket(s.supply)) else Exec(s, Read(request))
  }

  function Serial(s: Sys, request: Request): Sys {
    Exec(Pending(s, request), Persist(s.supply))
  }

  function SerialRun(now: int, requests: seq<Request>): Sys {
    if requests == [] then Init(now)
    else Serial(SerialRun(now, requests[..|requests| - 1]), requests[|requests| - 1])
  }

  function Schedule(now: int, requests: seq<Request>): seq<Step> {
    if requests == [] then []
    else
      var before := requests[..|requests| - 1];
      Schedule(now, before) + StepsOf(requests[|requests| - 1], SerialRun(now, before).supply)
  }

  lemma RunOfAppend(now: int, steps: seq<Step>, step: Step)
    ensures Run(now, steps + [step]) == Exec(Run(now, steps), step)
  {
    assert (steps + [step])[..|steps|] == steps;
  }

  lemma RunOfTwo(now: int, steps: seq<Step>, a: Step, b: Step)
    ensures Run(now, steps + [a, b]) == Exec(Exec(Run(now, steps), a), b)
  {
    RunOfAppend(now, steps, a);
    RunOfAppend(now, steps + [a], b);
    assert steps + [a] + [b] == steps + [a, b];
  }

  lemma RunOfThree(now: int, steps: seq<Step>, a: Step, b: Step, c: Step)
    ensures Run(now, steps + [a, b, c]) == Exec(Exec(Exec(Run(now, steps), a), b), c)
  {
    RunOfTwo(now, steps, a, b);
    RunOfAppend(now, steps + [a, b], c);
    assert steps + [a, b] + [c] == steps + [a, b, c];
  }

  /** The steps of one use case, run after any schedule. */
  lemma RunOfStepsOf(now: int, steps: seq<Step>, request: Request)
    ensures Run(now, steps + StepsOf(request, Run(now, steps).supply)) == Serial(Run(now, steps), request)
  {
    var c := Run(now, steps).supply;
    if request.Dispatch? {
      RunOfThree(now, steps, Consume(request.effectId, request.grantId, request.claimant, request.now), ReadTicket(c), Persist(c));
    } else {
      RunOfTwo(now, steps, Read(request), Persist(c));
    }
  }

  /** Serial runs are interleaved runs, so everything proved of those holds of these. */
  lemma {:induction false} SerialIsInterleaved(now: int, requests: seq<Request>)
    ensures Run(now, Schedule(now, requests)) == SerialRun(now, requests)
  {
    if requests != [] {
      var before := requests[..|requests| - 1];
      SerialIsInterleaved(now, before);
      RunOfStepsOf(now, Schedule(now, before), requests[|requests| - 1]);
    }
  }

  // ----- One serial use case -----

  /** Nothing is in progress between two serial use cases. */
  ghost predicate Idle(s: Sys) {
    Inv(s) && s.calls == map[]
  }

  /** Just before the commit: either the use case was refused and left no call, or its snapshot is
      the present state. */
  ghost predicate OnSnapshot(p: Sys, c: Id) {
    && Inv(p)
    && p.calls.Keys <= {c}
    && (c in p.calls && p.calls[c].Ready? ==>
          p.calls[c].snapshot == p.run && p.calls[c].seen == |p.consumed|
          && Compute(p.run, p.calls[c].request, c + 1, c + 2) == Ok(p.calls[c].intent))
  }

  predicate HasRead(p: Sys, c: Id, request: Request) {
    c in p.calls ==> p.calls[c].Ready? && p.calls[c].request == request
  }

  lemma ReadIsOnSnapshot(s: Sys, request: Request)
    requires Idle(s) && !request.Dispatch?
    ensures OnSnapshot(Pending(s, request), s.supply)
    ensures Pending(s, request).run == s.run && Pending(s, request).consumed == s.consumed
    ensures HasRead(Pending(s, request), s.supply, request)
  {
    ReadKeeps(s, request);
    ReadShape(s, request, Compute(s.run, request, s.supply + 1, s.supply + 2));
  }

  lemma ConsumeShape(s: Sys, request: Request)
    requires Idle(s) && request.Dispatch?
    ensures var t := AfterConsume(s, request);
            && Inv(t)
            && t.calls.Keys <= {s.supply}
            && (s.supply in t.calls ==>
                  t.calls[s.supply] == Ticket(request.effectId, request.grantId, request.claimant, request.now))
  {
    ConsumeKeeps(s, request.effectId, request.grantId, request.claimant, request.now);
  }

  lemma TicketReadOnSnapshot(t: Sys, c: Id, request: Request)
    requires Inv(t) && t.calls.Keys <= {c} && request.Dispatch?
    requires c in t.calls ==> t.calls[c] == Ticket(request.effectId, request.grantId, request.claimant, request.now)
    ensures var p := Exec(t, ReadTicket(c));
            OnSnapshot(p, c) && HasRead(p, c, request) && p.run == t.run && p.consumed == t.consumed
  {
    ReadTicketKeeps(t, c);
    if c in t.calls {
      ReadTicketShape(t, c, request, Compute(t.run, request, c + 1, c + 2));
    }
  }

  lemma PendingIsOnSnapshot(s: Sys, request: Request)
    requires Idle(s)
    ensures OnSnapshot(Pending(s, request), s.supply)
    ensures HasRead(Pending(s, request), s.supply, request)
    ensures Pending(s, request).run == AfterConsume(s, request).run
    ensures Pending(s, request).consumed == AfterConsume(s, request).consumed
  {
    if request.Dispatch? {
      ConsumeShape(s, request);
      TicketReadOnSnapshot(AfterConsume(s, request), s.supply, request);
    } else {
      ReadIsOnSnapshot(s, request);
    }
  }

  /** A commit on its own snapshot never loses on sequence. */
  lemma NoGapOnSnapshot(run: RunState, request: Request, recordId: Id, eventId: Id, intent: Intent)
    requires Compute(run, request, recordId, eventId) == Ok(intent)
    ensures IsNext(run, intent.event)
    ensures Commit(run, intent).error.None? || !Commit(run, intent).error.value.SequenceGap?
    ensures Commit(run, intent).error.Some? ==> Commit(run, intent).state == run
  {
    ComputedKind(run, request, recordId, eventId);
  }

  lemma SerialIdle(s: Sys, request: Request)
    requires Idle(s)
    ensures Idle(Serial(s, request))
  {
    PendingIsOnSnapshot(s, request);
    var p := Pending(s, request);
    StepKeeps(p, Persist(s.supply));
    assert p.calls - {s.supply} == map[];
    if s.supply !in p.calls {
      assert p.calls == map[];
    }
  }

  // ----- The log determines the table -----

  /** Every claim in the table has its event in the log. */
  ghost predicate NoOrphans(run: RunState) {
    forall i :: 0 <= i < |run.effects| ==>
      (run.effects[i].claimant.Some? <==> AfterClaim(Own(run.events, run.effects[i].id)) == 2)
  }

  /** Every grant, revoked or not, accounts for its consumptions to the last one. */
  ghost predicate AllBalanced(run: RunState, consumed: seq<Id>) {
    forall i :: 0 <= i < |run.grants| ==>
      run.grants[i].remaining + Count(consumed, run.grants[i].id) == run.grants[i].budget
  }

  lemma MoveKeepsNoOrphans(run: RunState, k: nat, request: Request, event: RunEvent, recordId: Id)
    requires LogOk(run) && UniqueEffects(run.effects) && NoOrphans(run)
    requires k < |run.effects| && run.effects[k].WellShaped()
    requires MovesEffect(request) && request.effectId == run.effects[k].id && MoveOf(request, run.effects[k]).Ok?
    requires event.kind == KindOf(request, recordId)
    ensures NoOrphans(Moved(run, event, k, MoveOf(request, run.effects[k]).value))
  {
    var run' := Moved(run, event, k, MoveOf(request, run.effects[k]).value);
    MoveKeepsShape(request, run.effects[k]);
    forall i | 0 <= i < |run'.effects|
      ensures run'.effects[i].claimant.Some? <==> AfterClaim(Own(run'.events, run'.effects[i].id)) == 2
    {
      assert Fits(Own(run.events, run.effects[i].id), run.effects[i]);
      assert run.effects[i].claimant.Some? <==> AfterClaim(Own(run.events, run.effects[i].id)) == 2;
      OwnOfAppend(run.events, event, run.effects[i].id);
      assert i != k ==> run.effects[i].id != run.effects[k].id;
    }
  }

  lemma PreparedKeepsNoOrphans(run: RunState, run': RunState, e: EffectRecord, event: RunEvent)
    requires LogOk(run) && NoOrphans(run)
    requires run'.events == run.events + [event] && run'.effects == run.effects + [e]
    requires event.kind == EffectPrepared(e.id) && e.phase.Prepared? && e.claimant.None?
    requires forall i :: 0 <= i < |run.effects| ==> run.effects[i].id != e.id
    ensures NoOrphans(run')
  {
    forall i | 0 <= i < |run'.effects|
      ensures run'.effects[i].claimant.Some? <==> AfterClaim(Own(run'.events, run'.effects[i].id)) == 2
    {
      OwnOfAppend(run.events, event, run'.effects[i].id);
      if i < |run.effects| {
        assert run.effects[i].claimant.Some? <==> AfterClaim(Own(run.events, run.effects[i].id)) == 2;
      } else {
        assert Own(run.events, e.id) == [];
      }
    }
  }

  lemma OtherKeepsNoOrphans(run: RunState, run': RunState, event: RunEvent)
    requires NoOrphans(run) && run'.events == run.events + [event] && run'.effects == run.effects
    requires forall id: Id :: !event.kind.Concerns(id)
    ensures NoOrphans(run')
  {
    forall i | 0 <= i < |run'.effects|
      ensures run'.effects[i].claimant.Some? <==> AfterClaim(Own(run'.events, run'.effects[i].id)) == 2
    {
      OwnOfAppend(run.events, event, run'.effects[i].id);
    }
  }

  lemma CommitOnSnapshotKeepsNoOrphans(p: Sys, c: Id)
    requires OnSnapshot(p, c) && c in p.calls && p.calls[c].Ready? && NoOrphans(p.run)
    ensures NoOrphans(Exec(p, Persist(c)).run)
  {
    var call := p.calls[c];
    NoGapOnSnapshot(p.run, call.request, c + 1, c + 2, call.intent);
    if Commits(p, Persist(c)) {
      WinningFacts(p, c);
      WinningFrame(p, c);
      if MovesEffect(call.request) {
        var k := PersistsFromCurrent(p, c);
        MoveKeepsNoOrphans(p.run, k, call.request, call.intent.event, c + 1);
      } else if call.request.Prepare? {
        CommitFrame(p.run, p.run, call.request, c + 1, c + 2, call.intent);
        PreparedKeepsNoOrphans(p.run, Exec(p, Persist(c)).run, Exec(p, Persist(c)).run.effects[|p.run.effects|],
                               call.intent.event);
      } else {
        OtherConcernsNothing(call.request, c + 1);
        OtherKeepsNoOrphans(p.run, Exec(p, Persist(c)).run, call.intent.event);
      }
    }
  }

  lemma RevokeOnSnapshotKeepsBalance(p: Sys, c: Id)
    requires Inv(p) && Commits(p, Persist(c)) && p.calls[c].request.Revoke?
    requires p.calls[c].snapshot == p.run && AllBalanced(p.run, p.consumed)
    ensures AllBalanced(Exec(p, Persist(c)).run, p.consumed)
  {
    var k := RevokesFromCurrent(p, c);
  }

  lemma IssueKeepsBalance(run: RunState, run': RunState, consumed: seq<Id>, g: CapabilityGrant)
    requires BudgetOk(run, consumed) && AllBalanced(run, consumed) && run'.grants == run.grants + [g]
    requires g.remaining == g.budget
    requires forall i :: 0 <= i < |run.grants| ==> run.grants[i].id != g.id
    ensures AllBalanced(run', consumed)
  {
    assert Count(consumed, g.id) == 0;
  }

  lemma CommitOnSnapshotKeepsBalance(p: Sys, c: Id)
    requires OnSnapshot(p, c) && c in p.calls && p.calls[c].Ready? && AllBalanced(p.run, p.consumed)
    ensures AllBalanced(Exec(p, Persist(c)).run, Exec(p, Persist(c)).consumed)
  {
    var call := p.calls[c];
    var s' := Exec(p, Persist(c));
    if Commits(p, Persist(c)) {
      if call.request.Revoke? {
        RevokeOnSnapshotKeepsBalance(p, c);
      } else if call.request.Issue? {
        CommitFrame(p.run, p.run, call.request, c + 1, c + 2, call.intent);
        IssueKeepsBalance(p.run, s'.run, p.consumed, s'.run.grants[|p.run.grants|]);
      } else {
        WinningFrame(p, c);
      }
    } else {
      CommitAppendsOrDrifts(p.run, call.intent);
    }
  }

  lemma ConsumeKeepsSerial(s: Sys, request: Request)
    requires Idle(s) && request.Dispatch? && NoOrphans(s.run) && AllBalanced(s.run, s.consumed)
    ensures NoOrphans(AfterConsume(s, request).run)
    ensures AllBalanced(AfterConsume(s, request).run, AfterConsume(s, request).consumed)
  {
    var r := CommitConsume(s.run, request.grantId, request.now);
    if r.error.None? {
      var k := FindGrant(s.run.grants, request.grantId).value;
      forall i | 0 <= i < |r.state.grants|
        ensures r.state.grants[i].remaining + Count(s.consumed + [request.grantId], r.state.grants[i].id)
             == r.state.grants[i].budget
      {
        CountOfAppend(s.consumed, request.grantId, s.run.grants[i].id);
        assert i != k ==> s.run.grants[i].id != s.run.grants[k].id;
      }
    }
  }

  ghost predicate SerialOk(s: Sys) {
    Idle(s) && NoOrphans(s.run) && AllBalanced(s.run, s.consumed)
  }

  lemma PendingKeepsSerial(s: Sys, request: Request)
    requires SerialOk(s)
    ensures NoOrphans(Pending(s, request).run)
    ensures AllBalanced(Pending(s, request).run, Pending(s, request).consumed)
  {
    PendingIsOnSnapshot(s, request);
    if request.Dispatch? {
      ConsumeKeepsSerial(s, request);
    }
  }

  lemma SerialKeeps(s: Sys, request: Request)
    requires SerialOk(s)
    ensures SerialOk(Serial(s, request))
  {
    SerialIdle(s, request);
    PendingIsOnSnapshot(s, request);
    PendingKeepsSerial(s, request);
    var p := Pending(s, request);
    if s.supply in p.calls {
      CommitOnSnapshotKeepsNoOrphans(p, s.supply);
      CommitOnSnapshotKeepsBalance(p, s.supply);
    }
  }

  lemma {:induction false} SerialInvariant(now: int, requests: seq<Request>)
    ensures SerialOk(SerialRun(now, requests))
  {
    if requests == [] {
      InitKeeps(now);
    } else {
      SerialInvariant(now, requests[..|requests| - 1]);
      SerialKeeps(SerialRun(now, requests[..|requests| - 1]), requests[|requests| - 1]);
    }
  }

  // ----- What serial runs promise -----

  /** The record the log alone gives of an effect. */
  datatype Replayed = Replayed(phase: Phase, claimant: Option<string>, certainty: Option<Certainty>)

  function Replay(own: seq<EventKind>): Replayed {
    if own == [] then Replayed(Prepared, None, None)
    else
      var before := Replay(own[..|own| - 1]);
      match own[|own| - 1]
      case EffectClaimed(_, claimant) => Replayed(Claimed, Some(claimant), None)
      case EffectDispatched(_) => Replayed(Dispatched, before.claimant, None)
      case EffectSettled(_, certainty) => Replayed(Settled, before.claimant, Some(certainty))
      case _ => before
  }

  lemma {:induction false} ReplaySettled(own: seq<EventKind>, d: nat)
    requires d + 1 < |own|
    requires forall j :: d < j < |own| ==> own[j].EffectSettled?
    ensures Replay(own) == Replayed(Settled, Replay(own[..d + 1]).claimant, Some(own[|own| - 1].certainty))
  {
    var before := own[..|own| - 1];
    if d + 1 < |before| {
      ReplaySettled(before, d);
      assert before[..d + 1] == own[..d + 1];
    } else {
      assert before == own[..d + 1];
    }
  }

  lemma ReplayFits(own: seq<EventKind>, e: EffectRecord)
    requires Fits(own, e) && e.WellShaped()
    requires e.claimant.Some? <==> AfterClaim(own) == 2
    ensures Replay(own) == Replayed(e.phase, e.claimant, e.certainty)
  {
    assert own[..1] == [own[0]] && own[..1][..0] == [];
    assert Replay(own[..1]) == Replayed(Prepared, None, None);
    if |own| > 1 {
      assert own[..2][..1] == own[..1];
      assert Replay(own[..2]).claimant == e.claimant;
    }
    if |own| > 2 {
      assert own[..3][..2] == own[..2];
      assert Replay(own[..3]).claimant == e.claimant;
    }
    if e.phase.Settled? {
      ReplaySettled(own, 2);
    } else {
      assert own[..|own|] == own;
    }
  }

  /** Write-ahead log: in a serial run, replaying an effect's own events gives back exactly the phase,
      the claimant and the certainty the table holds for it. */
  lemma LogDeterminesTable(now: int, requests: seq<Request>, i: nat)
    requires i < |SerialRun(now, requests).run.effects|
    ensures var run := SerialRun(now, requests).run;
            var e := run.effects[i];
            Replay(Own(run.events, e.id)) == Replayed(e.phase, e.claimant, e.certainty)
  {
    SerialInvariant(now, requests);
    var run := SerialRun(now, requests).run;
    ReplayFits(Own(run.events, run.effects[i].id), run.effects[i]);
  }

  /** Conservation: in a serial run, what a grant has left and what was taken from it add up to its
      budget, before and after a revocation. */
  lemma BudgetIsConserved(now: int, requests: seq<Request>, i: nat)
    requires i < |SerialRun(now, requests).run.grants|
    ensures var s := SerialRun(now, requests);
            s.run.grants[i].remaining + Count(s.consumed, s.run.grants[i].id) == s.run.grants[i].budget
  {
    SerialInvariant(now, requests);
  }

  lemma LosingOnSnapshot(p: Sys, c: Id)
    requires OnSnapshot(p, c) && c in p.calls && p.calls[c].Ready? && !Commits(p, Persist(c))
    ensures Exec(p, Persist(c)).run == p.run
    ensures !Commit(p.run, p.calls[c].intent).error.value.SequenceGap?
  {
    NoGapOnSnapshot(p.run, p.calls[c].request, c + 1, c + 2, p.calls[c].intent);
  }

  /** A serial use case fails for what it finds, never for a sequence gap, and a failing claim
      leaves nothing behind. */
  lemma SerialNeverLoses(s: Sys, request: Request)
    requires Idle(s)
    requires s.supply in Pending(s, request).calls && !Commits(Pending(s, request), Persist(s.supply))
    ensures Pending(s, request).calls[s.supply].Ready?
    ensures Serial(s, request).run == AfterConsume(s, request).run
    ensures !Commit(Pending(s, request).run, Pending(s, request).calls[s.supply].intent).error.value.SequenceGap?
  {
    PendingIsOnSnapshot(s, request);
    LosingOnSnapshot(Pending(s, request), s.supply);
  }

  lemma CommittingCall(p: Sys, c: Id, run: RunState, request: Request, r: Result<Intent, UseCaseError>)
    requires p.run == run && r == Compute(run, request, c + 1, c + 2)
    requires if r.Err? then c !in p.calls
             else c in p.calls && p.calls[c].Ready? && p.calls[c].intent == r.value
    ensures Exec(p, Persist(c)).run == RunRepository.ReadAndCommit(run, request, c + 1, c + 2).state
  {
  }

  lemma WholeReadIsSerial(s: Sys, request: Request)
    requires !request.Dispatch?
    ensures Serial(s, request).run == RunRepository.ReadAndCommit(s.run, request, s.supply + 1, s.supply + 2).state
  {
    var r := Compute(s.run, request, s.supply + 1, s.supply + 2);
    ReadShape(s, request, r);
    CommittingCall(Pending(s, request), s.supply, s.run, request, r);
  }

  lemma WholeTicketIsSerial(t: Sys, c: Id, request: Request)
    requires request.Dispatch? && c in t.calls
    requires t.calls[c] == Ticket(request.effectId, request.grantId, request.claimant, request.now)
    ensures Exec(Exec(t, ReadTicket(c)), Persist(c)).run
         == RunRepository.ReadAndCommit(t.run, request, c + 1, c + 2).state
  {
    var r := Compute(t.run, request, c + 1, c + 2);
    ReadTicketShape(t, c, request, r);
    CommittingCall(Exec(t, ReadTicket(c)), c, t.run, request, r);
  }

  lemma WholeDispatchIsSerial(s: Sys, request: Request)
    requires s.supply !in s.calls && request.Dispatch?
    ensures var consumed := CommitConsume(s.run, request.grantId, request.now);
            Serial(s, request).run
            == if consumed.error.Some? then s.run
               else RunRepository.ReadAndCommit(consumed.state, request, s.supply + 1, s.supply + 2).state
  {
    if CommitConsume(s.run, request.grantId, request.now).error.None? {
      WholeTicketIsSerial(AfterConsume(s, request), s.supply, request);
    }
  }

  /** The imperative use cases of RunRepository take exactly the serial steps. */
  lemma WholeIsSerial(s: Sys, request: Request)
    requires Idle(s)
    ensures Serial(s, request).run == RunRepository.Whole(s.run, request, s.supply + 1, s.supply + 2).state
  {
    if request.Dispatch? {
      WholeDispatchIsSerial(s, request);
    } else {
      WholeReadIsSerial(s, request);
    }
  }

  /** A serial use case uses up three identifiers, unless its budget is refused. */
  lemma SerialSupply(s: Sys, request: Request)
    ensures Serial(s, request).supply
         == if request.Dispatch? && CommitConsume(s.run, request.grantId, request.now).error.Some? then s.supply
            else s.supply + 3
  {
    if !request.Dispatch? {
      ReadShape(s, request, Compute(s.run, request, s.supply + 1, s.supply + 2));
    }
  }

  /** Takeover in a serial run: a held lease changes hands only with its owner gone and every effect at rest. */
  lemma SerialTakeoverIsSafe(s: Sys, request: Request)
    requires SerialOk(s) && request.TakeOverLease? && s.run.lease.Some?
    requires Serial(s, request).run.lease != s.run.lease
    ensures request.priorOwnerGone && Lifecycle.AllQuiet(s.run.effects)
  {
    PendingIsOnSnapshot(s, request);
    var p := Pending(s, request);
    NoGapOnSnapshot(p.run, request, s.supply + 1, s.supply + 2, p.calls[s.supply].intent);
    LeaseHistory.TakeoverIsSafe(p, s.supply);
  }
}
