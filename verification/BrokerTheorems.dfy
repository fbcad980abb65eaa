/** The broker's promises over every sequence of moves. */
module BrokerTheorems {
  import opened Wrappers
  import opened RunRecords
  import opened RunStore
  import opened Protocol
  import opened JournalInvariants
  import opened JournalPreservation
  import opened JournalCommits
  import opened JournalTheorems
  import opened JournalAudit
  import opened Broker
  import opened BrokerSafety
  import opened InterleavedOutcomes
  import Lifecycle

  // ----- Each move keeps the world safe -----

  /** What remains of Safe after a protocol step once the brokers are dealt with. */
  lemma StepKeepsRest(w: World, step: Step, brokers': map<Id, BrokerCall>)
    requires Safe(w) && KeepsSettlers(w.brokers, brokers', step)
    requires step.Read? && step.request.Settle? && w.sys.supply in Exec(w.sys, step).calls ==>
               IsReplacement(w.sys.run, step.request.effectId) ==> OwnedSettlement(brokers', w.sys.supply)
    requires ResultBacked(w.sys, step, w.attempted, w.succeeded)
    ensures Inv(Exec(w.sys, step))
    ensures SettlesOwned(Exec(w.sys, step), brokers')
    ensures WritesOk(Exec(w.sys, step), w.attempted)
    ensures ResultsOk(Exec(w.sys, step).run, w.attempted, w.succeeded)
  {
    StepKeeps(w.sys, step);
    SettlementsStay(w.sys, step, w.brokers, brokers');
    WritesStay(w.sys, step, w.attempted);
    ResultsStay(w.sys, step, w.attempted, w.succeeded);
  }

  /** A settlement about to commit on a replacement belongs to some broker, which backs its result. */
  lemma SettlementIsBacked(w: World, step: Step)
    requires Safe(w) && Commits(w.sys, step) && w.sys.calls[step.call].request.Settle?
    requires IsReplacement(w.sys.run, w.sys.calls[step.call].request.effectId)
    ensures exists id :: id in w.brokers && w.brokers[id].stage.Settling? && w.brokers[id].stage.call == step.call
    ensures ResultBacked(w.sys, step, w.attempted, w.succeeded)
  {
    assert SettlementOk(w.sys.run, w.brokers, step.call, w.sys.calls[step.call].request.effectId);
    var id :| id in w.brokers && w.brokers[id].stage.Settling? && w.brokers[id].stage.call == step.call;
    assert StageOk(w.sys, w.attempted, w.succeeded, w.brokers[id]);
  }

  lemma StepIsBacked(w: World, step: Step)
    requires Safe(w)
    ensures ResultBacked(w.sys, step, w.attempted, w.succeeded)
  {
    if Commits(w.sys, step) && w.sys.calls[step.call].request.Settle?
       && IsReplacement(w.sys.run, w.sys.calls[step.call].request.effectId) {
      SettlementIsBacked(w, step);
    }
  }

  /** No permitted step of another caller settles a broker's effect. */
  lemma OtherSettlesNothingOwned(w: World, step: Step, id: Id)
    requires Safe(w) && Permitted(w, step) && id in w.brokers
    ensures !SettlesEffect(w.sys, step, w.brokers[id].effectId)
  {
    var b := w.brokers[id];
    assert StageOk(w.sys, w.attempted, w.succeeded, b);
    if Commits(w.sys, step) && w.sys.calls[step.call].request.Settle? {
      var effectId := w.sys.calls[step.call].request.effectId;
      if IsReplacement(w.sys.run, effectId) {
        SettlementIsBacked(w, step);
      } else if b.stage.Preparing? {
        PreparingIsFresh(w.sys, b.stage.call);
        assert SettlementOk(w.sys.run, w.brokers, step.call, effectId);
      }
    }
  }

  lemma PermittedSettlesNoReplacement(w: World, step: Step)
    requires Permitted(w, step)
    ensures step.Read? && step.request.Settle? ==> !IsReplacement(w.sys.run, step.request.effectId)
  {
  }

  lemma OtherKeeps(w: World, step: Step)
    requires Safe(w) && Permitted(w, step)
    ensures Safe(w.(sys := Exec(w.sys, step)))
  {
    StepIsBacked(w, step);
    PermittedSettlesNoReplacement(w, step);
    StepKeepsRest(w, step, w.brokers);
    forall id | id in w.brokers
      ensures StageOk(Exec(w.sys, step), w.attempted, w.succeeded, w.brokers[id])
    {
      OtherSettlesNothingOwned(w, step, id);
      StageStays(w.sys, step, w.attempted, w.succeeded, w.brokers[id]);
    }
  }

  lemma OwnSettlesOnlyItself(w: World, id: Id, step: Step)
    requires Safe(w) && id in w.brokers && NextStep(w.sys, w.brokers[id]) == Some(step)
    ensures Commits(w.sys, step) ==> w.sys.calls[step.call].request.Settle? ==>
              w.sys.calls[step.call].request.effectId == w.brokers[id].effectId
    ensures step.Read? && step.request.Settle? ==>
              w.sys.supply in Exec(w.sys, step).calls ==>
                NextStage(w.sys, Exec(w.sys, step), w.brokers[id], step).Some?
                && NextStage(w.sys, Exec(w.sys, step), w.brokers[id], step).value.Settling?
                && NextStage(w.sys, Exec(w.sys, step), w.brokers[id], step).value.call == w.sys.supply
  {
    assert StageOk(w.sys, w.attempted, w.succeeded, w.brokers[id]);
  }

  lemma ProceedKeepsSettlers(w: World, id: Id, step: Step)
    requires id in w.brokers && NextStep(w.sys, w.brokers[id]) == Some(step)
    ensures KeepsSettlers(w.brokers, Proceed(w, id).brokers, step)
  {
    var b := w.brokers[id];
    forall a | a in w.brokers && w.brokers[a].stage.Settling? && !Ends(step, w.brokers[a].stage.call)
      ensures a in Proceed(w, id).brokers && Proceed(w, id).brokers[a].stage == w.brokers[a].stage
    {
      assert a != id;
    }
  }

  lemma ProceedShape(w: World, id: Id, step: Step)
    requires id in w.brokers && NextStep(w.sys, w.brokers[id]) == Some(step)
    ensures Proceed(w, id).sys == Exec(w.sys, step)
    ensures var next := NextStage(w.sys, Exec(w.sys, step), w.brokers[id], step);
            Proceed(w, id).brokers
              == if next.None? then w.brokers - {id} else w.brokers[id := w.brokers[id].(stage := next.value)]
  {
  }

  /** A settlement the broker has just computed waits for that broker. */
  lemma ProceedOwnsSettlement(w: World, id: Id, step: Step)
    requires Safe(w) && id in w.brokers && NextStep(w.sys, w.brokers[id]) == Some(step)
    ensures step.Read? && step.request.Settle? && w.sys.supply in Exec(w.sys, step).calls ==>
              OwnedSettlement(Proceed(w, id).brokers, w.sys.supply)
  {
    OwnSettlesOnlyItself(w, id, step);
    ProceedShape(w, id, step);
    if step.Read? && step.request.Settle? && w.sys.supply in Exec(w.sys, step).calls {
      var brokers' := Proceed(w, id).brokers;
      assert id in brokers' && brokers'[id].stage.Settling? && brokers'[id].stage.call == w.sys.supply;
    }
  }

  lemma ProceedKeepsRest(w: World, id: Id, step: Step)
    requires Safe(w) && id in w.brokers && NextStep(w.sys, w.brokers[id]) == Some(step)
    ensures var w' := Proceed(w, id);
            && Inv(w'.sys)
            && SettlesOwned(w'.sys, w'.brokers)
            && WritesOk(w'.sys, w.attempted)
            && ResultsOk(w'.sys.run, w.attempted, w.succeeded)
  {
    StepIsBacked(w, step);
    ProceedKeepsSettlers(w, id, step);
    ProceedOwnsSettlement(w, id, step);
    ProceedShape(w, id, step);
    StepKeepsRest(w, step, Proceed(w, id).brokers);
  }

  lemma MovedBrokers(w: World, w': World, id: Id, b': BrokerCall)
    requires BrokersOk(w) && id in w.brokers && b'.effectId == w.brokers[id].effectId
    requires w'.nextBroker == w.nextBroker && w'.attempted == w.attempted && w'.succeeded == w.succeeded
    requires w'.brokers == w.brokers - {id}
             || (w'.brokers == w.brokers[id := b'] && StageOk(w'.sys, w'.attempted, w'.succeeded, b'))
    requires forall a :: a in w.brokers && a != id ==> StageOk(w'.sys, w'.attempted, w'.succeeded, w.brokers[a])
    ensures BrokersOk(w')
  {
  }

  lemma ProceedKeepsBrokers(w: World, id: Id, step: Step)
    requires Safe(w) && id in w.brokers && NextStep(w.sys, w.brokers[id]) == Some(step)
    ensures BrokersOk(Proceed(w, id))
  {
    OthersStay(w, id, step);
    OwnStage(w, id, step);
    var next := NextStage(w.sys, Exec(w.sys, step), w.brokers[id], step);
    MovedBrokers(w, Proceed(w, id), id, if next.Some? then w.brokers[id].(stage := next.value) else w.brokers[id]);
  }

  lemma ProceedKeeps(w: World, id: Id)
    requires Safe(w) && id in w.brokers
    ensures Safe(Proceed(w, id))
  {
    var next := NextStep(w.sys, w.brokers[id]);
    if next.Some? {
      ProceedKeepsRest(w, id, next.value);
      ProceedKeepsBrokers(w, id, next.value);
    }
  }

  lemma BrokerEffectIsOld(w: World, id: Id)
    requires Safe(w) && id in w.brokers
    ensures w.brokers[id].effectId < w.sys.supply
  {
    var b := w.brokers[id];
    assert StageOk(w.sys, w.attempted, w.succeeded, b);
    if !b.stage.Preparing? {
      var k := FindEffect(w.sys.run.effects, b.effectId).value;
      assert w.sys.run.effects[k].id < w.sys.supply;
    }
  }

  lemma WrittenEffectIsOld(w: World)
    requires Safe(w)
    ensures forall id :: id in w.attempted ==> id < w.sys.supply
  {
    forall id | id in w.attempted ensures id < w.sys.supply {
      var k := FindEffect(w.sys.run.effects, id).value;
      assert w.sys.run.effects[k].id < w.sys.supply;
    }
  }

  lemma BeginKeepsOthers(w: World, request: Request)
    requires Safe(w) && !request.Settle?
    ensures Safe(w.(sys := Exec(w.sys, Read(request))))
  {
    OtherKeeps(w, Read(request));
  }

  lemma NewCall(s: Sys, request: Request)
    requires CallsOk(s) && !request.Dispatch? && s.supply in Exec(s, Read(request)).calls
    ensures Waits(Exec(s, Read(request)), s.supply, request)
  {
    SupplyIsFresh(s);
    ReadShape(s, request, Compute(s.run, request, s.supply + 1, s.supply + 2));
  }

  lemma NewStage(w: World, b: BrokerCall)
    requires Safe(w)
    requires b.stage == Preparing(w.sys.supply) && b.effectId == w.sys.supply + 1
    requires Waits(Exec(w.sys, Read(PrepareRequest(b.grantId, b.order))), w.sys.supply, PrepareRequest(b.grantId, b.order))
    ensures StageOk(Exec(w.sys, Read(PrepareRequest(b.grantId, b.order))), w.attempted, w.succeeded, b)
  {
    WrittenEffectIsOld(w);
  }

  lemma NewEffectIsNew(w: World)
    requires Safe(w)
    ensures forall a :: a in w.brokers ==> w.brokers[a].effectId != w.sys.supply + 1
  {
    forall a | a in w.brokers ensures w.brokers[a].effectId != w.sys.supply + 1 {
      BrokerEffectIsOld(w, a);
    }
  }

  lemma StartKeeps(w: World, w1: World, b: BrokerCall)
    requires Safe(w) && w1 == w.(sys := Exec(w.sys, Read(PrepareRequest(b.grantId, b.order))))
    requires w.sys.supply in w1.sys.calls
    requires b.stage == Preparing(w.sys.supply) && b.effectId == w.sys.supply + 1
    ensures Safe(Join(w1, b))
  {
    NewCall(w.sys, PrepareRequest(b.grantId, b.order));
    NewStage(w, b);
    NewEffectIsNew(w);
    BeginKeepsOthers(w, PrepareRequest(b.grantId, b.order));
    NewBrokerKeeps(w1, b, w.sys.supply);
  }

  lemma StartedShape(w: World, grant: CapabilityGrant, order: Order)
    ensures var w1 := w.(sys := Exec(w.sys, Read(PrepareRequest(grant.id, order))));
            var b := BrokerCall(Preparing(w.sys.supply), w.sys.supply + 1, grant.id, order, grant);
            Started(w, grant, order) == if w.sys.supply in w1.sys.calls then Join(w1, b) else w1
  {
  }

  lemma BeginKeeps(w: World, grant: CapabilityGrant, order: Order)
    requires Safe(w)
    ensures Safe(Begin(w, grant, order))
  {
    var w1 := w.(sys := Exec(w.sys, Read(PrepareRequest(grant.id, order))));
    StartedShape(w, grant, order);
    if w.sys.supply in w1.sys.calls {
      StartKeeps(w, w1, BrokerCall(Preparing(w.sys.supply), w.sys.supply + 1, grant.id, order, grant));
    } else {
      BeginKeepsOthers(w, PrepareRequest(grant.id, order));
    }
  }

  lemma NewBrokerKeeps(w: World, b: BrokerCall, c: Id)
    requires Safe(w) && b.stage == Preparing(c) && StageOk(w.sys, w.attempted, w.succeeded, b)
    requires forall a :: a in w.brokers ==> w.brokers[a].effectId != b.effectId
    ensures Safe(Join(w, b))
  {
    var brokers' := w.brokers[w.nextBroker := b];
    assert w.nextBroker !in w.brokers;
    MoreBrokersKeepSettlements(w.sys, w.brokers, brokers');
  }

  lemma MoreBrokersKeepSettlements(s: Sys, brokers: map<Id, BrokerCall>, brokers': map<Id, BrokerCall>)
    requires SettlesOwned(s, brokers)
    requires forall id :: id in brokers && brokers[id].stage.Settling? ==>
               id in brokers' && brokers'[id].stage == brokers[id].stage
    ensures SettlesOwned(s, brokers')
  {
    forall c | c in s.calls && s.calls[c].Ready? && s.calls[c].request.Settle?
      ensures SettlementOk(s.run, brokers', c, s.calls[c].request.effectId)
    {
      assert SettlementOk(s.run, brokers, c, s.calls[c].request.effectId);
      if OwnedSettlement(brokers, c) {
        var id :| id in brokers && brokers[id].stage.Settling? && brokers[id].stage.call == c;
        assert brokers'[id].stage.call == c;
      }
    }
  }

  lemma WriteKeepsWrites(s: Sys, attempted: seq<Id>, b: BrokerCall)
    requires WritesOk(s, attempted) && InHand(s, b) && b.effectId !in attempted
    ensures WritesOk(s, attempted + [b.effectId])
  {
  }

  lemma WriteKeepsStage(s: Sys, attempted: seq<Id>, succeeded: set<Id>, succeeded': set<Id>, id: Id, b: BrokerCall)
    requires StageOk(s, attempted, succeeded, b) && b.effectId != id
    requires succeeded' == succeeded || succeeded' == succeeded + {id}
    ensures StageOk(s, attempted + [id], succeeded', b)
  {
  }

  lemma WriteKeepsBrokers(w: World, id: Id, ok: bool, left: Content)
    requires BrokersOk(w) && id in w.brokers && w.brokers[id].stage.HaveDispatched?
    requires w.brokers[id].effectId !in w.succeeded
    ensures BrokersOk(WriteFile(w, id, ok, left))
  {
    var b := w.brokers[id];
    var w' := WriteFile(w, id, ok, left);
    forall a | a in w'.brokers
      ensures StageOk(w'.sys, w'.attempted, w'.succeeded, w'.brokers[a])
    {
      assert StageOk(w.sys, w.attempted, w.succeeded, w.brokers[a]);
      if a != id {
        WriteKeepsStage(w.sys, w.attempted, w.succeeded, w'.succeeded, b.effectId, w.brokers[a]);
      }
    }
  }

  lemma MoreWritesKeepResults(run: RunState, attempted: seq<Id>, succeeded: set<Id>, id: Id, succeeded': set<Id>)
    requires ResultsOk(run, attempted, succeeded)
    requires succeeded' == succeeded || succeeded' == succeeded + {id}
    requires IsReplacement(run, id) ==> EffectOf(run, id).value.operationResult.None?
    ensures ResultsOk(run, attempted + [id], succeeded')
  {
    forall other: Id | IsReplacement(run, other) ensures ResultOk(EffectOf(run, other).value, attempted + [id], succeeded') {
      assert ResultOk(EffectOf(run, other).value, attempted, succeeded);
      assert EffectOf(run, other).value.id == other;
    }
  }

  /** A dispatched effect has no result yet. */
  lemma NoResultYet(s: Sys, b: BrokerCall)
    requires Inv(s) && InHand(s, b)
    ensures EffectOf(s.run, b.effectId).value.operationResult.None?
  {
    var k := FindEffect(s.run.effects, b.effectId).value;
    assert s.run.effects[k].WellShaped();
  }

  lemma WriteKeeps(w: World, id: Id, ok: bool, left: Content)
    requires Safe(w) && id in w.brokers && w.brokers[id].stage.HaveDispatched?
    ensures Safe(WriteFile(w, id, ok, left))
  {
    var b := w.brokers[id];
    var w' := WriteFile(w, id, ok, left);
    assert StageOk(w.sys, w.attempted, w.succeeded, b);
    WriteKeepsWrites(w.sys, w.attempted, b);
    NoResultYet(w.sys, b);
    MoreBrokersKeepSettlements(w.sys, w.brokers, w'.brokers);
    MoreWritesKeepResults(w.sys.run, w.attempted, w.succeeded, b.effectId, w'.succeeded);
    WriteKeepsBrokers(w, id, ok, left);
  }

  lemma OthersOutlive(w: World, id: Id, c: Id)
    requires Safe(w) && id in w.brokers && CallOf(w.brokers[id].stage) == Some(c)
    ensures forall a :: a in w.brokers - {id} ==> StageOk(Exec(w.sys, Lose(c)), w.attempted, w.succeeded, w.brokers[a])
  {
    forall a | a in w.brokers - {id}
      ensures StageOk(Exec(w.sys, Lose(c)), w.attempted, w.succeeded, w.brokers[a])
    {
      assert StageOk(w.sys, w.attempted, w.succeeded, w.brokers[a]);
      assert StageOk(w.sys, w.attempted, w.succeeded, w.brokers[id]);
      DistinctCalls(w.sys, w.attempted, w.succeeded, w.brokers[id], w.brokers[a]);
      StageStays(w.sys, Lose(c), w.attempted, w.succeeded, w.brokers[a]);
    }
  }

  lemma LosingSettlers(w: World, id: Id, c: Id)
    requires id in w.brokers && CallOf(w.brokers[id].stage) == Some(c)
    ensures KeepsSettlers(w.brokers, w.brokers - {id}, Lose(c))
  {
  }

  lemma GiveUpKeeps(w: World, id: Id)
    requires Safe(w) && id in w.brokers
    ensures Safe(GiveUp(w, id))
  {
    var call := CallOf(w.brokers[id].stage);
    if call.Some? {
      LosingSettlers(w, id, call.value);
      StepKeepsRest(w, Lose(call.value), w.brokers - {id});
      OthersOutlive(w, id, call.value);
    } else {
      MoreBrokersKeepSettlements(w.sys, w.brokers, w.brokers - {id});
    }
  }

  lemma AllCallsLost(s: Sys)
    requires Inv(s)
    ensures Inv(s.(calls := map[]))
  {
    var s' := s.(calls := map[]);
    DriftKeepsEffects(s, s');
    DriftKeepsGrants(s, s');
    forall g: Id ensures |StartedWith(s'.startedUnder, g)| + |Holders(s'.calls, g)| <= Count(s'.consumed, g) {
      FewerHolders(s.calls, s'.calls, g);
    }
  }

  lemma WritesNeedNoCalls(s: Sys, attempted: seq<Id>)
    requires WritesOk(s, attempted)
    ensures WritesOk(s.(calls := map[]), attempted)
  {
  }

  lemma CrashKeeps(w: World)
    requires Safe(w)
    ensures Safe(Do(w, Crash))
  {
    AllCallsLost(w.sys);
    WritesNeedNoCalls(w.sys, w.attempted);
  }

  lemma AdvanceKeeps(w: World, id: Id)
    requires Safe(w)
    ensures Safe(Do(w, Advance(id)))
  {
    if id in w.brokers {
      ProceedKeeps(w, id);
    }
  }

  lemma WritingKeeps(w: World, id: Id, ok: bool, left: Content)
    requires Safe(w)
    ensures Safe(Do(w, Write(id, ok, left)))
  {
    if id in w.brokers && w.brokers[id].stage.HaveDispatched? {
      WriteKeeps(w, id, ok, left);
    }
  }

  lemma ReturnKeeps(w: World, id: Id)
    requires Safe(w)
    ensures Safe(Do(w, Return(id)))
  {
    if id in w.brokers {
      GiveUpKeeps(w, id);
    }
  }

  lemma OtherMoveShape(w: World, step: Step)
    ensures Do(w, Other(step)) == if Permitted(w, step) then w.(sys := Exec(w.sys, step)) else w
  {
  }

  lemma OtherMoveKeeps(w: World, step: Step)
    requires Safe(w)
    ensures Safe(Do(w, Other(step)))
  {
    OtherMoveShape(w, step);
    if Permitted(w, step) {
      OtherKeeps(w, step);
    }
  }

  lemma MoveKeeps(w: World, move: Move)
    requires Safe(w)
    ensures Safe(Do(w, move))
  {
    match move
    case Start(grant, order) => BeginKeeps(w, grant, order);
    case Advance(id) => AdvanceKeeps(w, id);
    case Write(id, ok, left) => WritingKeeps(w, id, ok, left);
    case Return(id) => ReturnKeeps(w, id);
    case Crash => CrashKeeps(w);
    case Other(step) => OtherMoveKeeps(w, step);
  }

  lemma {:induction false} PlayKeeps(now: int, file: Content, moves: seq<Move>)
    ensures Safe(Play(now, file, moves))
  {
    if moves == [] {
      InitKeeps(now);
      assert Init(now).run.effects == [];
    } else {
      PlayKeeps(now, file, moves[..|moves| - 1]);
      MoveKeeps(Play(now, file, moves[..|moves| - 1]), moves[|moves| - 1]);
    }
  }

  // ----- The promises -----

  /** Write-ahead and at most once: a write is attempted only for an effect the journal already shows
      dispatched, so a prepared or claimed effect never had one, and no effect is written twice. */
  lemma WriteAheadAndOnce(now: int, file: Content, moves: seq<Move>, i: nat)
    requires i < |Play(now, file, moves).sys.run.effects|
    ensures var w := Play(now, file, moves);
            var e := w.sys.run.effects[i];
            && (e.phase.Prepared? || e.phase.Claimed? ==> e.id !in w.attempted)
            && (forall m, n :: 0 <= m < n < |w.attempted| ==> w.attempted[m] != w.attempted[n])
  {
    PlayKeeps(now, file, moves);
    EffectAt(Play(now, file, moves).sys.run, i);
  }

  /** A replacement is settled only after its write was attempted, and as a success exactly when that write
      returned success. */
  lemma SettledAfterWriting(now: int, file: Content, moves: seq<Move>, i: nat)
    requires i < |Play(now, file, moves).sys.run.effects|
    requires Play(now, file, moves).sys.run.effects[i].operationId == OP_CREATE_OR_REPLACE
    ensures var w := Play(now, file, moves);
            var e := w.sys.run.effects[i];
            e.phase.Settled? ==>
              e.id in w.attempted && (e.operationResult == Some(OperationResult.Success) <==> e.id in w.succeeded)
  {
    PlayKeeps(now, file, moves);
    var w := Play(now, file, moves);
    EffectAt(w.sys.run, i);
    assert w.sys.run.effects[i].WellShaped();
    assert IsReplacement(w.sys.run, w.sys.run.effects[i].id);
    assert ResultOk(w.sys.run.effects[i], w.attempted, w.succeeded);
  }

  /** A broker's settlement that commits records what its write returned: committed after a success, unknown
      after a failure. */
  lemma BrokerSettlesExactly(w: World, id: Id, c: Id, ok: bool) returns (k: nat)
    requires Safe(w) && id in w.brokers && w.brokers[id].stage == Settling(c, ok) && Commits(w.sys, Persist(c))
    ensures NextStep(w.sys, w.brokers[id]) == Some(Persist(c))
    ensures k < |w.sys.run.effects| && w.sys.run.effects[k].id == w.brokers[id].effectId
    ensures var written, e := w.brokers[id].effectId in w.succeeded, w.sys.run.effects[k];
            Exec(w.sys, Persist(c)).run
              == Became(w.sys.run, k,
                        e.(phase := Settled, settledAt := Some(w.brokers[id].order.now),
                           operationResult := Some(if written then OperationResult.Success else OperationResult.Error),
                           certainty := Some(if written then ConfirmedCommitted else UnknownOrPartial)),
                        c + 2, EffectSettled(e.id, if written then ConfirmedCommitted else UnknownOrPartial),
                        w.brokers[id].order.now)
  {
    assert StageOk(w.sys, w.attempted, w.succeeded, w.brokers[id]);
    k := InterleavedOutcomes.CommittedSettlement(w.sys, c);
  }

  // ----- Committed means a successful write, or a reconciliation that found the postimage -----

  predicate Committed(e: EffectRecord) {
    e.operationId == OP_CREATE_OR_REPLACE && e.certainty == Some(ConfirmedCommitted)
  }

  predicate ComesToCommitted(a: RunState, b: RunState, i: nat) {
    && i < |b.effects|
    && Committed(b.effects[i])
    && (i < |a.effects| ==> !Committed(a.effects[i]))
  }

  ghost predicate ReconcilesPostimage(s: Sys, step: Step, id: Id) {
    && Commits(s, step)
    && s.calls[step.call].request.Reconcile?
    && s.calls[step.call].request.effectId == id
    && s.calls[step.call].request.probe.MatchesPostimage?
  }

  lemma MoveCommits(request: Request, e: EffectRecord)
    requires e.WellShaped() && !Committed(e) && MoveOf(request, e).Ok? && Committed(MoveOf(request, e).value)
    ensures e.operationId == OP_CREATE_OR_REPLACE
    ensures (request.Settle? && request.certainty.ConfirmedCommitted?)
            || (request.Reconcile? && request.probe.MatchesPostimage?)
  {
  }

  lemma MovedToCommitted(s: Sys, c: Id, i: nat)
    requires Inv(s) && Commits(s, Persist(c)) && MovesEffect(s.calls[c].request)
    requires ComesToCommitted(s.run, Exec(s, Persist(c)).run, i)
    ensures i < |s.run.effects| && s.run.effects[i].operationId == OP_CREATE_OR_REPLACE
    ensures Exec(s, Persist(c)).run.effects[i].id == s.run.effects[i].id == s.calls[c].request.effectId
    ensures var request := s.calls[c].request;
            (request.Settle? && request.certainty.ConfirmedCommitted?)
            || (request.Reconcile? && request.probe.MatchesPostimage?)
  {
    var k := PersistsFromCurrent(s, c);
    MoveCommits(s.calls[c].request, s.run.effects[k]);
  }

  lemma MovingCommitSucceeded(w: World, c: Id, i: nat)
    requires Safe(w) && Commits(w.sys, Persist(c)) && MovesEffect(w.sys.calls[c].request)
    requires ComesToCommitted(w.sys.run, Exec(w.sys, Persist(c)).run, i)
    ensures i < |w.sys.run.effects|
    ensures Exec(w.sys, Persist(c)).run.effects[i].id == w.sys.run.effects[i].id
    ensures w.sys.run.effects[i].id in w.succeeded
            || ReconcilesPostimage(w.sys, Persist(c), w.sys.run.effects[i].id)
  {
    MovedToCommitted(w.sys, c, i);
    if w.sys.calls[c].request.Settle? {
      EffectAt(w.sys.run, i);
      CommittedSettlement(w, c);
    }
  }

  /** A broker settles as committed only what it wrote with success. */
  lemma CommittedSettlement(w: World, c: Id)
    requires Safe(w) && Commits(w.sys, Persist(c)) && w.sys.calls[c].request.Settle?
    requires IsReplacement(w.sys.run, w.sys.calls[c].request.effectId)
    ensures w.sys.calls[c].request.certainty.ConfirmedCommitted? ==> w.sys.calls[c].request.effectId in w.succeeded
  {
    SettlementIsBacked(w, Persist(c));
    var id :| id in w.brokers && w.brokers[id].stage.Settling? && w.brokers[id].stage.call == c;
    assert StageOk(w.sys, w.attempted, w.succeeded, w.brokers[id]);
  }

  lemma OtherCommitCommitsNothing(s: Sys, c: Id, i: nat)
    requires Inv(s) && Commits(s, Persist(c)) && !MovesEffect(s.calls[c].request)
    ensures !ComesToCommitted(s.run, Exec(s, Persist(c)).run, i)
  {
    var call := s.calls[c];
    CommittedOnSnapshot(s, c);
    CommitFrame(s.run, call.snapshot, call.request, c + 1, c + 2, call.intent);
  }

  lemma DriftCommitsNothing(a: RunState, b: RunState, i: nat)
    requires Drift(a, b)
    ensures !ComesToCommitted(a, b, i)
  {
    if i < |a.effects| {
      assert b.effects[i] == a.effects[i] || ClaimedFrom(a.effects[i], b.effects[i]);
    }
  }

  lemma StepCommitsWithEvidence(w: World, step: Step, i: nat)
    requires Safe(w)
    ensures ComesToCommitted(w.sys.run, Exec(w.sys, step).run, i) ==>
              && i < |w.sys.run.effects|
              && Exec(w.sys, step).run.effects[i].id == w.sys.run.effects[i].id
              && (w.sys.run.effects[i].id in w.succeeded
                  || ReconcilesPostimage(w.sys, step, w.sys.run.effects[i].id))
  {
    if Commits(w.sys, step) {
      if !MovesEffect(w.sys.calls[step.call].request) {
        OtherCommitCommitsNothing(w.sys, step.call, i);
      } else if ComesToCommitted(w.sys.run, Exec(w.sys, step).run, i) {
        MovingCommitSucceeded(w, step.call, i);
      }
    } else {
      DriftingStep(w.sys, step);
      DriftCommitsNothing(w.sys.run, Exec(w.sys, step).run, i);
    }
  }

  /** The protocol step a move takes, if it takes one. */
  function StepOf(w: World, move: Move): Option<Step> {
    match move
    case Start(grant, order) =>
      if GrantedOrder(grant, order).Some? then None else Some(Read(PrepareRequest(grant.id, order)))
    case Advance(id) => if id in w.brokers then NextStep(w.sys, w.brokers[id]) else None
    case Return(id) =>
      if id in w.brokers && CallOf(w.brokers[id].stage).Some? then Some(Lose(CallOf(w.brokers[id].stage).value)) else None
    case Other(step) => if Permitted(w, step) then Some(step) else None
    case _ => None
  }

  lemma MoveShape(w: World, move: Move)
    ensures w.succeeded <= Do(w, move).succeeded
    ensures Do(w, move).sys.run == match StepOf(w, move) case None => w.sys.run case Some(step) => Exec(w.sys, step).run
  {
  }

  ghost predicate ReconciledPostimage(w: World, move: Move, id: Id) {
    StepOf(w, move).Some? && ReconcilesPostimage(w.sys, StepOf(w, move).value, id)
  }

  lemma MoveCommitsWithEvidence(w: World, move: Move, i: nat)
    requires Safe(w) && ComesToCommitted(w.sys.run, Do(w, move).sys.run, i)
    ensures Do(w, move).sys.run.effects[i].id in Do(w, move).succeeded
            || ReconciledPostimage(w, move, Do(w, move).sys.run.effects[i].id)
  {
    MoveShape(w, move);
    if StepOf(w, move).Some? {
      StepCommitsWithEvidence(w, StepOf(w, move).value, i);
    }
  }

  lemma MoveKeepsIds(w: World, move: Move, i: nat)
    requires Safe(w) && i < |w.sys.run.effects|
    ensures i < |Do(w, move).sys.run.effects|
    ensures Do(w, move).sys.run.effects[i].id == w.sys.run.effects[i].id
  {
    MoveShape(w, move);
    if StepOf(w, move).Some? {
      StepAdvances(w.sys, StepOf(w, move).value);
      assert Advances(w.sys.run.effects[i], Exec(w.sys, StepOf(w, move).value).run.effects[i]);
    }
  }

  /** A committed replacement was one before the move, or the move has the evidence. */
  lemma CommittedHasOrigin(w: World, move: Move, i: nat)
    requires Safe(w) && i < |Do(w, move).sys.run.effects| && Committed(Do(w, move).sys.run.effects[i])
    ensures var id := Do(w, move).sys.run.effects[i].id;
            || (i < |w.sys.run.effects| && Committed(w.sys.run.effects[i]) && w.sys.run.effects[i].id == id)
            || id in Do(w, move).succeeded
            || ReconciledPostimage(w, move, id)
  {
    if i < |w.sys.run.effects| && Committed(w.sys.run.effects[i]) {
      MoveKeepsIds(w, move, i);
    } else {
      MoveCommitsWithEvidence(w, move, i);
    }
  }

  /** The effect was written with success, or some move reconciled it with the postimage. */
  ghost predicate CommitEvidence(now: int, file: Content, moves: seq<Move>, id: Id) {
    || id in Play(now, file, moves).succeeded
    || exists n :: 0 <= n < |moves| && ReconciledPostimage(Play(now, file, moves[..n]), moves[n], id)
  }

  lemma EvidenceStays(now: int, file: Content, before: seq<Move>, last: Move, id: Id)
    requires CommitEvidence(now, file, before, id)
    ensures CommitEvidence(now, file, before + [last], id)
  {
    var moves := before + [last];
    assert moves[..|before|] == before;
    MoveShape(Play(now, file, before), last);
    if id !in Play(now, file, before).succeeded {
      var n :| 0 <= n < |before| && ReconciledPostimage(Play(now, file, before[..n]), before[n], id);
      assert moves[..n] == before[..n] && moves[n] == before[n];
    }
  }

  lemma EvidenceNow(now: int, file: Content, before: seq<Move>, last: Move, id: Id)
    requires id in Do(Play(now, file, before), last).succeeded || ReconciledPostimage(Play(now, file, before), last, id)
    ensures CommitEvidence(now, file, before + [last], id)
  {
    var moves := before + [last];
    assert moves[..|before|] == before && moves[|before|] == last;
  }

  /** A replacement recorded as committed was written with success, or a reconciliation found the
      postimage in place; nothing else ever records it so. */
  lemma {:induction false} CommittedIsEvidenced(now: int, file: Content, moves: seq<Move>, i: nat)
    requires i < |Play(now, file, moves).sys.run.effects| && Committed(Play(now, file, moves).sys.run.effects[i])
    ensures CommitEvidence(now, file, moves, Play(now, file, moves).sys.run.effects[i].id)
  {
    assert moves != [];
    var before, last := moves[..|moves| - 1], moves[|moves| - 1];
    var w, id := Play(now, file, before), Play(now, file, moves).sys.run.effects[i].id;
    assert moves == before + [last];
    PlayKeeps(now, file, before);
    CommittedHasOrigin(w, last, i);
    if i < |w.sys.run.effects| && Committed(w.sys.run.effects[i]) && w.sys.run.effects[i].id == id {
      CommittedIsEvidenced(now, file, before, i);
      EvidenceStays(now, file, before, last, id);
    } else {
      EvidenceNow(now, file, before, last, id);
    }
  }

  /** The writes attempted for effects prepared under one grant. */
  function WritesUnder(run: RunState, attempted: seq<Id>, grantId: Id): set<Id> {
    set id | id in attempted && EffectOf(run, id).Some? && EffectOf(run, id).value.grantId == grantId
  }

  /** However often the broker is called, crashes and is called again, the writes made under one
      stored grant never exceed its dispatch budget. */
  lemma WritesWithinBudget(now: int, file: Content, moves: seq<Move>, i: nat)
    requires i < |Play(now, file, moves).sys.run.grants|
    ensures var w := Play(now, file, moves);
            |WritesUnder(w.sys.run, w.attempted, w.sys.run.grants[i].id)| <= w.sys.run.grants[i].budget
  {
    PlayKeeps(now, file, moves);
    var w := Play(now, file, moves);
    var g := w.sys.run.grants[i];
    assert WritesUnder(w.sys.run, w.attempted, g.id) <= StartedWith(w.sys.startedUnder, g.id);
    SubsetSize(WritesUnder(w.sys.run, w.attempted, g.id), StartedWith(w.sys.startedUnder, g.id));
    assert |StartedWith(w.sys.startedUnder, g.id)| + |Holders(w.sys.calls, g.id)| <= Count(w.sys.consumed, g.id);
    assert Count(w.sys.consumed, g.id) <= g.budget;
  }

  /** Never silently uncertain: as soon as a write was attempted, either its effect is settled with
      positive evidence or the whole run is blocked, unless somebody stopped the run. This holds at
      every moment, so also right after a crash. */
  lemma UncertainWriteBlocks(now: int, file: Content, moves: seq<Move>, id: Id)
    requires id in Play(now, file, moves).attempted
    ensures var run := Play(now, file, moves).sys.run;
            && EffectOf(run, id).Some?
            && (Confirmed(EffectOf(run, id).value.certainty) || Blocked(run) || Lifecycle.Stopped(run.events))
  {
    PlayKeeps(now, file, moves);
    var run := Play(now, file, moves).sys.run;
    var k := FindEffect(run.effects, id).value;
    SettlementsAgree(run);
    Lifecycle.BlockedExactly(run.events, run.effects);
    Lifecycle.QuietOrUnresolved(run.effects[k]);
    assert run.effects[k].Started();
  }

  // ----- What the file holds -----

  /** The move is a write that takes place. */
  predicate Writes(w: World, move: Move) {
    move.Write? && move.broker in w.brokers && w.brokers[move.broker].stage.HaveDispatched?
  }

  /** What such a write leaves: the postimage of the order it carries out, or anything when it fails. */
  function Left(w: World, move: Move): Content
    requires Writes(w, move)
  {
    if move.ok then w.brokers[move.broker].order.postimage else move.left
  }

  lemma OnlyWritesChangeFile(w: World, move: Move)
    ensures Do(w, move).file == if Writes(w, move) then Left(w, move) else w.file
    ensures Do(w, move).attempted
         == if Writes(w, move) then w.attempted + [w.brokers[move.broker].effectId] else w.attempted
  {
  }

  /** The worlds a sequence of moves passes through, as far as the file is concerned. */
  predicate FileHistory(worlds: seq<World>, moves: seq<Move>) {
    && |worlds| == |moves| + 1
    && (forall m :: 0 <= m < |moves| ==>
          worlds[m + 1].file == if Writes(worlds[m], moves[m]) then Left(worlds[m], moves[m]) else worlds[m].file)
  }

  lemma {:induction false} LastWriteStays(worlds: seq<World>, moves: seq<Move>, n: nat, end: nat)
    requires FileHistory(worlds, moves) && n < end <= |moves| && Writes(worlds[n], moves[n])
    requires forall m :: n < m < end ==> !Writes(worlds[m], moves[m])
    ensures worlds[end].file == Left(worlds[n], moves[n])
  {
    if n + 1 < end {
      LastWriteStays(worlds, moves, n, end - 1);
      assert worlds[end - 1 + 1].file == worlds[end - 1].file;
    }
  }

  lemma PlayHistory(now: int, file: Content, moves: seq<Move>) returns (worlds: seq<World>)
    ensures FileHistory(worlds, moves)
    ensures forall m :: 0 <= m <= |moves| ==> worlds[m] == Play(now, file, moves[..m])
    ensures worlds[|moves|] == Play(now, file, moves)
  {
    worlds := seq(|moves| + 1, m requires 0 <= m <= |moves| => Play(now, file, moves[..m]));
    forall m | 0 <= m < |moves|
      ensures worlds[m + 1].file == if Writes(worlds[m], moves[m]) then Left(worlds[m], moves[m]) else worlds[m].file
    {
      assert moves[..m + 1][..m] == moves[..m];
      OnlyWritesChangeFile(worlds[m], moves[m]);
    }
    assert moves[..|moves|] == moves;
  }

  /** After the last write, the file is what that write left: if it succeeded, its order's postimage. */
  lemma FileIsLastWrite(now: int, file: Content, moves: seq<Move>, n: nat)
    requires n < |moves| && Writes(Play(now, file, moves[..n]), moves[n])
    requires forall m :: n < m < |moves| ==> !Writes(Play(now, file, moves[..m]), moves[m])
    ensures Play(now, file, moves).file == Left(Play(now, file, moves[..n]), moves[n])
  {
    var worlds := PlayHistory(now, file, moves);
    assert worlds[n] == Play(now, file, moves[..n]);
    assert forall m :: n < m < |moves| ==> worlds[m] == Play(now, file, moves[..m]);
    LastWriteStays(worlds, moves, n, |moves|);
  }

  lemma {:induction false} NoWriteNoChange(now: int, file: Content, moves: seq<Move>)
    ensures Play(now, file, moves).attempted == [] ==> Play(now, file, moves).file == file
  {
    if moves != [] {
      var before := moves[..|moves| - 1];
      NoWriteNoChange(now, file, before);
      OnlyWritesChangeFile(Play(now, file, before), moves[|moves| - 1]);
    }
  }

  /** The file is as it was found, or some replacement that the journal shows dispatched had its write
      attempted. */
  lemma FileUntouchedUntilDispatched(now: int, file: Content, moves: seq<Move>)
    ensures var w := Play(now, file, moves);
            || w.file == file
            || exists id :: id in w.attempted && IsReplacement(w.sys.run, id) && EffectOf(w.sys.run, id).value.Started()
  {
    NoWriteNoChange(now, file, moves);
    PlayKeeps(now, file, moves);
    var w := Play(now, file, moves);
    if w.attempted != [] {
      assert w.attempted[0] in w.attempted;
    }
  }
}
