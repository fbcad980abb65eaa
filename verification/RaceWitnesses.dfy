/** Concrete runs in which a promise one might expect fails. The exact conditions are proved in
    JournalTheorems, JournalAudit and SerialRuns. */
module RaceWitnesses {
  import opened Wrappers
  import opened RunRecords
  import opened RunStore
  import opened Protocol
  import RunRepository
  import SerialRuns
  import Lifecycle

  lemma Extend(now: int, steps: seq<Step>, step: Step)
    ensures Run(now, steps + [step]) == Exec(Run(now, steps), step)
  {
    assert (steps + [step])[..|steps|] == steps;
  }

  const created: RunEvent := RunEvent(0, 1, RunCreated, 0)

  lemma CreatedFold()
    ensures Lifecycle.Fold([created]) == Lifecycle.State.Created
  {
    assert [created][..0] == [];
  }

  lemma FoldOfAppend(events: seq<RunEvent>, event: RunEvent)
    ensures Lifecycle.Fold(events + [event]) == Lifecycle.NextState(Lifecycle.Fold(events), event.kind)
  {
    assert (events + [event])[..|events|] == events;
  }

  // ----- A claim that loses on sequence, and the pause it slips under -----

  const prepared: EffectRecord := PrepareEffect(2, "op", "target", 0, 0)
  const orphan: EffectRecord := prepared.(claimant := Some("a"), phase := Claimed, claimedAt := Some(0))

  const prepareRequest: Request := Prepare("op", "target", 0, 0)
  const preparation: RunEvent := RunEvent(3, 2, EffectPrepared(2), 0)
  const resumed: RunEvent := RunEvent(9, 3, EventKind.Resumed, 0)
  const paused: RunEvent := RunEvent(12, 4, EventKind.Paused, 0)
  const claimIntent: Intent := ClaimEffect(2, "a", 0, RunEvent(6, 3, EffectClaimed(2, "a"), 0))

  const r0: RunState := RunState([created], [], [], [], None)
  const r1: RunState := RunState([created, preparation], [prepared], [], [], None)
  const r2: RunState := RunState([created, preparation, resumed], [prepared], [], [], None)
  const r3: RunState := r2.(effects := [orphan])
  const r4: RunState := RunState([created, preparation, resumed, paused], [orphan], [], [], None)

  const opening: seq<Step> := [Read(prepareRequest), Persist(1)]

  lemma Opening()
    ensures Run(0, opening) == Sys(r1, map[], 4, [], map[])
  {
    var s0 := Init(0);
    CreatedFold();
    assert !Lifecycle.OuterTest(r0.effects) && !Lifecycle.AnyUnknown(r0.effects);
    var intent := InsertEffect(prepared, preparation);
    assert Compute(r0, prepareRequest, 2, 3) == Ok(intent);
    var s1 := Exec(s0, Read(prepareRequest));
    assert s1 == Sys(r0, map[1 := Ready(prepareRequest, r0, 0, intent)], 4, [], map[]);
    assert Commit(r0, intent) == Outcome(r1, None);
    assert Exec(s1, Persist(1)).calls == map[];
    Extend(0, [], Read(prepareRequest));
    Extend(0, [] + [Read(prepareRequest)], Persist(1));
    assert [] + [Read(prepareRequest)] + [Persist(1)] == opening;
  }

  const racing: seq<Step> :=
    [Read(Claim(2, "a", 0)), Read(Note(EventKind.Resumed, 0)), Persist(7), Read(Pause(0)), Persist(4), Persist(10)]

  lemma PauseIsAccepted()
    ensures Compute(r2, Pause(0), 11, 12) == Ok(AppendEvent(paused))
  {
    CreatedFold();
    FoldOfAppend([created], preparation);
    FoldOfAppend([created] + [preparation], resumed);
    assert [created] + [preparation] + [resumed] == r2.events;
    assert !Lifecycle.OuterTest(r2.effects) && !Lifecycle.AnyUnknown(r2.effects);
  }

  lemma RacingCalls(s: Sys)
    requires s == Sys(r1, map[], 4, [], map[])
    ensures Exec(Exec(Exec(s, racing[0]), racing[1]), racing[2])
         == Sys(r2, map[4 := Ready(Claim(2, "a", 0), r1, 0, claimIntent)], 10, [], map[])
  {
    var s1 := Exec(s, racing[0]);
    assert s1 == Sys(r1, map[4 := Ready(Claim(2, "a", 0), r1, 0, claimIntent)], 7, [], map[]);
    var s2 := Exec(s1, racing[1]);
    assert s2 == Sys(r1, s1.calls[7 := Ready(Note(EventKind.Resumed, 0), r1, 0, AppendEvent(resumed))], 10, [], map[]);
    assert Commit(r1, AppendEvent(resumed)) == Outcome(r2, None);
    assert s2.calls - {7} == s1.calls;
  }

  lemma RacingCommits(s: Sys)
    requires s == Sys(r2, map[4 := Ready(Claim(2, "a", 0), r1, 0, claimIntent)], 10, [], map[])
    ensures Exec(Exec(Exec(s, racing[3]), racing[4]), racing[5]) == Sys(r4, map[], 13, [], map[])
  {
    PauseIsAccepted();
    var s1 := Exec(s, racing[3]);
    assert s1 == Sys(r2, s.calls[10 := Ready(Pause(0), r2, 0, AppendEvent(paused))], 13, [], map[]);
    assert Commit(r2, claimIntent).state == r3 && Commit(r2, claimIntent).error.Some?;
    var s2 := Exec(s1, racing[4]);
    assert s2.calls == map[10 := Ready(Pause(0), r2, 0, AppendEvent(paused))];
    assert Commit(r3, AppendEvent(paused)) == Outcome(r4, None);
    assert Exec(s2, racing[5]).calls == map[];
  }

  /** A claim that loses the race for the next sequence stays claimed without an event, and a pause
      computed before it commits over it: the run is paused with an effect in flight. */
  lemma PauseOverOrphanedClaim()
    ensures Run(0, opening + racing).run == r4
    ensures r4.effects[0].phase.Claimed?
    ensures forall i :: 0 <= i < |r4.events| ==> !r4.events[i].kind.EffectClaimed?
    ensures r4.events[3].kind.Paused? && !Lifecycle.IsQuiescent(r4.effects)
  {
    RacedRun();
  }

  lemma RacedHalf()
    ensures Run(0, opening + [racing[0], racing[1], racing[2]])
         == Sys(r2, map[4 := Ready(Claim(2, "a", 0), r1, 0, claimIntent)], 10, [], map[])
  {
    Opening();
    RacingCalls(Sys(r1, map[], 4, [], map[]));
    SerialRuns.RunOfThree(0, opening, racing[0], racing[1], racing[2]);
  }

  lemma RacedRun()
    ensures Run(0, opening + racing) == Sys(r4, map[], 13, [], map[])
  {
    RacedHalf();
    RacingCommits(Sys(r2, map[4 := Ready(Claim(2, "a", 0), r1, 0, claimIntent)], 10, [], map[]));
    SerialRuns.RunOfThree(0, opening + [racing[0], racing[1], racing[2]], racing[3], racing[4], racing[5]);
    assert opening + [racing[0], racing[1], racing[2]] + [racing[3], racing[4], racing[5]] == opening + racing;
  }

  // ----- A stale revocation -----

  const grant: CapabilityGrant := CapabilityGrant(2, LocalRead, RunRoot, WholeRun, None, 0, BOOTSTRAP_GRANT_TTL_MS, None, 1, 1)
  const issueRequest: Request := Issue(LocalRead, RunRoot, WholeRun, None, DEFAULT_DISPATCH_BUDGET, 0)
  const issued: RunEvent := RunEvent(3, 2, GrantIssued(2), 0)
  const revoked: RunEvent := RunEvent(6, 3, GrantRevoked(2), 0)
  const revokeIntent: Intent := ReplaceGrant(grant.(revokedAt := Some(0)), revoked)

  const g1: RunState := RunState([created, issued], [], [grant], [], None)
  const g2: RunState := g1.(grants := [grant.(remaining := 0)])
  const g3: RunState := RunState([created, issued, revoked], [], [grant.(revokedAt := Some(0))], [], None)

  const revoking: seq<Step> :=
    [Read(issueRequest), Persist(1), Read(Revoke(2, 0)), Consume(9, 2, "a", 0), Persist(4)]

  lemma Issuing()
    ensures Exec(Exec(Init(0), revoking[0]), revoking[1]) == Sys(g1, map[], 4, [], map[])
  {
    var intent := InsertGrant(grant, issued);
    assert Compute(r0, issueRequest, 2, 3) == Ok(intent);
    var s1 := Exec(Init(0), revoking[0]);
    assert s1 == Sys(r0, map[1 := Ready(issueRequest, r0, 0, intent)], 4, [], map[]);
    assert Commit(r0, intent) == Outcome(g1, None);
    assert Exec(s1, Persist(1)).calls == map[];
  }

  lemma RevokingLate(s: Sys)
    requires s == Sys(g1, map[], 4, [], map[])
    ensures Exec(Exec(Exec(s, revoking[2]), revoking[3]), revoking[4]).run == g3
    ensures Exec(Exec(Exec(s, revoking[2]), revoking[3]), revoking[4]).consumed == [2]
  {
    var s1 := Exec(s, revoking[2]);
    assert Compute(g1, Revoke(2, 0), 5, 6) == Ok(revokeIntent);
    assert s1 == Sys(g1, map[4 := Ready(Revoke(2, 0), g1, 0, revokeIntent)], 7, [], map[]);
    var s2 := Exec(s1, revoking[3]);
    assert CommitConsume(g1, 2, 0) == Outcome(g2, None);
    assert s2.run == g2 && s2.consumed == [2] && s2.calls[4] == s1.calls[4];
    assert Commit(g2, revokeIntent) == Outcome(g3, None);
  }

  /** A dispatch taken while a revocation is under way is given back on paper: the revoked grant
      shows its full budget although one dispatch was consumed. */
  lemma StaleRevocation()
    ensures Run(0, revoking).run == g3 && Run(0, revoking).consumed == [2]
    ensures g3.grants[0].remaining + Count([2], 2) == g3.grants[0].budget + 1
  {
    Issuing();
    RevokingLate(Exec(Exec(Init(0), revoking[0]), revoking[1]));
    Extend(0, [], revoking[0]);
    Extend(0, [] + [revoking[0]], revoking[1]);
    Extend(0, [] + [revoking[0]] + [revoking[1]], revoking[2]);
    Extend(0, [] + [revoking[0]] + [revoking[1]] + [revoking[2]], revoking[3]);
    Extend(0, [] + [revoking[0]] + [revoking[1]] + [revoking[2]] + [revoking[3]], revoking[4]);
    assert [] + [revoking[0]] + [revoking[1]] + [revoking[2]] + [revoking[3]] + [revoking[4]] == revoking;
    assert [2][..0] == [];
  }

  // ----- A checkpoint over an unknown effect -----

  const claimed: EffectRecord := EffectRecord(5, "op", "t", 2, Claimed, Some("a"), None, None, 0, Some(0), None, None)
  const dispatched: EffectRecord := claimed.(phase := Dispatched, dispatchedAt := Some(0))
  const unknown: EffectRecord :=
    dispatched.(phase := Settled, operationResult := Some(OperationResult.Error), certainty := Some(UnknownOrPartial),
                settledAt := Some(0))

  const c2: RunState := g1.(events := g1.events + [RunEvent(6, 3, EffectPrepared(5), 0)],
                            effects := [PrepareEffect(5, "op", "t", 2, 0)])
  const c3: RunState := c2.(events := c2.events + [RunEvent(9, 4, EventKind.Cancelled, 0)])
  const c4: RunState := c3.(events := c3.events + [RunEvent(12, 5, EffectClaimed(5, "a"), 0)], effects := [claimed])
  const c5: RunState := c4.(events := c4.events + [RunEvent(15, 6, EffectDispatched(5), 0)], effects := [dispatched],
                            grants := [grant.(remaining := 0)])
  const c6: RunState := c5.(events := c5.events + [RunEvent(18, 7, EffectSettled(5, UnknownOrPartial), 0)], effects := [unknown])

  const stopped: seq<Request> :=
    [issueRequest, Prepare("op", "t", 2, 0), Cancel(0), Claim(5, "a", 0), Dispatch(5, 2, "a", 0),
     Settle(5, "a", OperationResult.Error, UnknownOrPartial, 0), Request.Checkpoint(0)]

  /** One serial use case on a known state, with the identifiers it generates. */
  lemma SerialStep(s: Sys, request: Request, s': Sys, recordId: Id, run: RunState, run': RunState)
    requires SerialRuns.Idle(s) && s' == SerialRuns.Serial(s, request)
    requires s.run == run && recordId == s.supply + 1
    requires RunRepository.Whole(run, request, recordId, recordId + 1).state == run'
    requires request.Dispatch? ==> CommitConsume(run, request.grantId, request.now).error.None?
    ensures s'.run == run' && s'.supply == s.supply + 3
  {
    SerialRuns.WholeIsSerial(s, request);
    SerialRuns.SerialSupply(s, request);
  }

  lemma SerialIdle(done: seq<Request>)
    ensures SerialRuns.Idle(SerialRuns.SerialRun(0, done))
  {
    SerialRuns.SerialInvariant(0, done);
  }

  lemma SerialOf(done: seq<Request>, request: Request, more: seq<Request>)
    requires more == done + [request]
    ensures SerialRuns.SerialRun(0, more) == SerialRuns.Serial(SerialRuns.SerialRun(0, done), request)
  {
    assert more[..|more| - 1] == done;
  }

  lemma PrepareAndCancel()
    ensures RunRepository.Whole(g1, stopped[1], 5, 6).state == c2
    ensures RunRepository.Whole(c2, stopped[2], 8, 9).state == c3
  {
    CreatedFold();
    FoldOfAppend([created], issued);
    assert [created] + [issued] == g1.events;
    FoldOfAppend(g1.events, RunEvent(6, 3, EffectPrepared(5), 0));
    assert !Lifecycle.OuterTest(g1.effects) && !Lifecycle.AnyUnknown(g1.effects);
    assert !Lifecycle.OuterTest(c2.effects) && !Lifecycle.AnyUnknown(c2.effects);
  }

  lemma ClaimAndDispatch()
    ensures RunRepository.Whole(c3, stopped[3], 11, 12).state == c4
    ensures CommitConsume(c4, 2, 0) == Outcome(c4.(grants := [grant.(remaining := 0)]), None)
    ensures RunRepository.Whole(c4, stopped[4], 14, 15).state == c5
  {
  }

  lemma SettleUnknown()
    ensures RunRepository.Whole(c5, stopped[5], 17, 18).state == c6
  {
  }

  const afterCheckpoint: RunState :=
    Append(c6, RunEvent(21, 8, Checkpointed(20), 0)).(checkpoints := [RunRecords.Checkpoint(20, 7, ChainOf(c6.events), 0)])

  lemma CheckpointStopped()
    ensures RunRepository.Whole(c6, stopped[6], 20, 21).state == afterCheckpoint
  {
    assert c6.events[3].kind.Cancelled?;
    assert Lifecycle.HasCancelled(c6.events);
    assert Lifecycle.IsQuiescent(c6.effects);
    assert c6.effects[0].certainty == Some(UnknownOrPartial);
    assert Lifecycle.OuterTest(c6.effects) && Lifecycle.InnerTest(c6.effects);
  }

  predicate Reaches(done: seq<Request>, run: RunState) {
    SerialRuns.SerialRun(0, done).run == run && SerialRuns.SerialRun(0, done).supply == 1 + 3 * |done|
  }

  /** One more use case on a known state. */
  lemma Reach(done: seq<Request>, request: Request, more: seq<Request>, recordId: Id, run: RunState, run': RunState)
    requires more == done + [request] && Reaches(done, run) && recordId == 3 * |done| + 2
    requires RunRepository.Whole(run, request, recordId, recordId + 1).state == run'
    requires request.Dispatch? ==> CommitConsume(run, request.grantId, request.now).error.None?
    ensures Reaches(more, run')
  {
    SerialIdle(done);
    SerialOf(done, request, more);
    SerialStep(SerialRuns.SerialRun(0, done), request, SerialRuns.SerialRun(0, more), recordId, run, run');
  }

  lemma ToStart()
    ensures Reaches(stopped[..0], r0)
  {
    assert stopped[..0] == [];
  }

  lemma ToIssued()
    ensures Reaches(stopped[..1], g1)
  {
    ToStart();
    IssuingAlone();
    Reach(stopped[..0], stopped[0], stopped[..1], 2, r0, g1);
  }

  lemma IssuingAlone()
    ensures RunRepository.Whole(r0, stopped[0], 2, 3).state == g1
  {
  }

  lemma ToPrepared()
    ensures Reaches(stopped[..2], c2)
  {
    ToIssued();
    PrepareAndCancel();
    Reach(stopped[..1], stopped[1], stopped[..2], 5, g1, c2);
  }

  lemma ToCancelled()
    ensures Reaches(stopped[..3], c3)
  {
    ToPrepared();
    PrepareAndCancel();
    Reach(stopped[..2], stopped[2], stopped[..3], 8, c2, c3);
  }

  lemma ToDispatched()
    ensures Reaches(stopped[..5], c5)
  {
    ToCancelled();
    ClaimAndDispatch();
    Reach(stopped[..3], stopped[3], stopped[..4], 11, c3, c4);
    Reach(stopped[..4], stopped[4], stopped[..5], 14, c4, c5);
  }

  lemma ToUnknown()
    ensures Reaches(stopped[..6], c6)
  {
    ToDispatched();
    SettleUnknown();
    Reach(stopped[..5], stopped[5], stopped[..6], 17, c5, c6);
  }

  lemma ToCheckpoint()
    ensures Reaches(stopped[..7], afterCheckpoint)
  {
    ToUnknown();
    CheckpointStopped();
    Reach(stopped[..6], stopped[6], stopped[..7], 20, c6, afterCheckpoint);
  }

  /** After a cancellation an effect may still be dispatched and end unknown, and the run is then
      checkpointed over it, even without any overlap of calls. */
  lemma CheckpointOverUnknown()
    ensures SerialRuns.SerialRun(0, stopped).run == afterCheckpoint
    ensures |afterCheckpoint.checkpoints| == 1 && afterCheckpoint.effects[0].certainty == Some(UnknownOrPartial)
  {
    ToCheckpoint();
    assert stopped[..7] == stopped;
  }

  // ----- A committed replacement without a checkpoint -----

  const replaceGrant: CapabilityGrant :=
    CapabilityGrant(2, CreateOrReplace, ReplacementTarget("index.html", "before", "after"),
                    Node("replace-existing-file-v1"), Some(PairBinding(0, 0)), 0, POST_APPROVAL_GRANT_TTL_MS, None, 1, 1)

  const toReplace: EffectRecord := PrepareEffect(5, OP_CREATE_OR_REPLACE, "after", 2, 0)
  const replaceClaimed: EffectRecord := toReplace.(phase := Claimed, claimant := Some("b"), claimedAt := Some(0))
  const replaceDispatched: EffectRecord := replaceClaimed.(phase := Dispatched, dispatchedAt := Some(0))
  const replaced: EffectRecord :=
    replaceDispatched.(phase := Settled, operationResult := Some(OperationResult.Success),
                       certainty := Some(ConfirmedCommitted), settledAt := Some(0))

  const w1: RunState := RunState([created, issued], [], [replaceGrant], [], None)
  const w2: RunState := w1.(events := w1.events + [RunEvent(6, 3, EffectPrepared(5), 0)], effects := [toReplace])
  const w3: RunState := w2.(events := w2.events + [RunEvent(9, 4, EffectClaimed(5, "b"), 0)], effects := [replaceClaimed])
  const w4: RunState := w3.(events := w3.events + [RunEvent(12, 5, EffectDispatched(5), 0)], effects := [replaceDispatched],
                            grants := [replaceGrant.(remaining := 0)])
  const w5: RunState := w4.(events := w4.events + [RunEvent(15, 6, EffectSettled(5, ConfirmedCommitted), 0)],
                            effects := [replaced])

  const replacing: seq<Request> :=
    [Issue(CreateOrReplace, ReplacementTarget("index.html", "before", "after"), Node("replace-existing-file-v1"),
           Some(PairBinding(0, 0)), DEFAULT_DISPATCH_BUDGET, 0),
     Prepare(OP_CREATE_OR_REPLACE, "after", 2, 0), Claim(5, "b", 0), Dispatch(5, 2, "b", 0),
     Settle(5, "b", OperationResult.Success, ConfirmedCommitted, 0)]

  lemma IssuePrepare()
    ensures RunRepository.Whole(r0, replacing[0], 2, 3).state == w1
    ensures RunRepository.Whole(w1, replacing[1], 5, 6).state == w2
  {
    CreatedFold();
    FoldOfAppend([created], issued);
    assert [created] + [issued] == w1.events;
    assert !Lifecycle.OuterTest(w1.effects) && !Lifecycle.AnyUnknown(w1.effects);
  }

  lemma ClaimDispatchSettle()
    ensures RunRepository.Whole(w2, replacing[2], 8, 9).state == w3
    ensures CommitConsume(w3, 2, 0) == Outcome(w3.(grants := [replaceGrant.(remaining := 0)]), None)
    ensures RunRepository.Whole(w3, replacing[3], 11, 12).state == w4
    ensures RunRepository.Whole(w4, replacing[4], 14, 15).state == w5
  {
  }

  lemma ToReplacePrepared()
    ensures Reaches(replacing[..2], w2)
  {
    IssuePrepare();
    assert replacing[..0] == [];
    assert Reaches(replacing[..0], r0);
    Reach(replacing[..0], replacing[0], replacing[..1], 2, r0, w1);
    Reach(replacing[..1], replacing[1], replacing[..2], 5, w1, w2);
  }

  lemma ToReplaceDispatched()
    ensures Reaches(replacing[..4], w4)
  {
    ToReplacePrepared();
    ClaimDispatchSettle();
    Reach(replacing[..2], replacing[2], replacing[..3], 8, w2, w3);
    Reach(replacing[..3], replacing[3], replacing[..4], 11, w3, w4);
  }

  /** Issue, prepare, claim, dispatch, settle: a run that holds a committed replacement and no checkpoint. */
  lemma CommittedWithoutCheckpoint()
    ensures Run(0, SerialRuns.Schedule(0, replacing)).run == w5
    ensures w5.effects[0] == replaced && w5.checkpoints == []
  {
    ToReplaceDispatched();
    ClaimDispatchSettle();
    Reach(replacing[..4], replacing[4], replacing[..5], 14, w4, w5);
    assert replacing[..5] == replacing;
    SerialRuns.SerialIsInterleaved(0, replacing);
  }
}
