/** Write-ahead, at most once, within budget, and never silently uncertain: what the broker keeps
    through every interleaving, early return and crash. */
module BrokerSafety {
  import opened Wrappers
  import opened RunRecords
  import opened RunStore
  import opened Protocol
  import opened JournalInvariants
  import opened JournalPreservation
  import opened JournalCommits
  import opened JournalTheorems
  import opened Broker

  // ----- The invariant -----

  predicate OwnRecord(run: RunState, b: BrokerCall) {
    && EffectOf(run, b.effectId).Some?
    && EffectOf(run, b.effectId).value.operationId == OP_CREATE_OR_REPLACE
    && EffectOf(run, b.effectId).value.grantId == b.grantId
    && EffectOf(run, b.effectId).value.targetHash == b.order.postimageHash
  }

  predicate Waits(s: Sys, c: Id, request: Request) {
    c in s.calls && s.calls[c].Ready? && s.calls[c].request == request
  }

  /** Dispatched by this call and not settled yet. */
  predicate InHand(s: Sys, b: BrokerCall) {
    && OwnRecord(s.run, b)
    && EffectOf(s.run, b.effectId).value.phase.Dispatched?
    && b.effectId in s.startedUnder && s.startedUnder[b.effectId] == b.grantId
  }

  predicate StageOk(s: Sys, attempted: seq<Id>, succeeded: set<Id>, b: BrokerCall) {
    match b.stage
    case Preparing(c) =>
      b.effectId == c + 1 && b.effectId !in attempted && Waits(s, c, PrepareRequest(b.grantId, b.order))
    case HavePrepared => OwnRecord(s.run, b) && b.effectId !in attempted
    case Claiming(c) =>
      OwnRecord(s.run, b) && b.effectId !in attempted && Waits(s, c, Claim(b.effectId, CLAIMANT, b.order.now))
    case HaveClaimed => OwnRecord(s.run, b) && b.effectId !in attempted
    case Dispatching(c) =>
      && OwnRecord(s.run, b) && b.effectId !in attempted
      && c in s.calls
      && (s.calls[c] == Ticket(b.effectId, b.grantId, CLAIMANT, b.order.now) || Waits(s, c, DispatchRequest(b)))
    case HaveDispatched => InHand(s, b) && b.effectId !in attempted
    case Written(ok) => InHand(s, b) && b.effectId in attempted && (ok <==> b.effectId in succeeded)
    case Settling(c, ok) =>
      InHand(s, b) && b.effectId in attempted && (ok <==> b.effectId in succeeded) && Waits(s, c, SettleRequest(b, ok))
  }

  ghost predicate BrokersOk(w: World) {
    && (forall id :: id in w.brokers ==> id < w.nextBroker)
    && (forall id :: id in w.brokers ==> StageOk(w.sys, w.attempted, w.succeeded, w.brokers[id]))
    && (forall a, b :: a in w.brokers && b in w.brokers && a != b ==> w.brokers[a].effectId != w.brokers[b].effectId)
  }

  predicate IsReplacement(run: RunState, id: Id) {
    EffectOf(run, id).Some? && EffectOf(run, id).value.operationId == OP_CREATE_OR_REPLACE
  }

  ghost predicate OwnedSettlement(brokers: map<Id, BrokerCall>, c: Id) {
    exists id :: id in brokers && brokers[id].stage.Settling? && brokers[id].stage.call == c
  }

  /** A waiting settlement knows its effect, and if that is a replacement it is a broker's own. */
  ghost predicate SettlementOk(run: RunState, brokers: map<Id, BrokerCall>, c: Id, effectId: Id) {
    EffectOf(run, effectId).Some? && (IsReplacement(run, effectId) ==> OwnedSettlement(brokers, c))
  }

  ghost predicate SettlesOwned(s: Sys, brokers: map<Id, BrokerCall>) {
    forall c :: c in s.calls && s.calls[c].Ready? && s.calls[c].request.Settle? ==>
      SettlementOk(s.run, brokers, c, s.calls[c].request.effectId)
  }

  /** Nothing is written before it is journaled as dispatched, and nothing twice. */
  ghost predicate WritesOk(s: Sys, attempted: seq<Id>) {
    && (forall i, j :: 0 <= i < j < |attempted| ==> attempted[i] != attempted[j])
    && (forall id :: id in attempted ==>
          IsReplacement(s.run, id) && EffectOf(s.run, id).value.Started()
          && id in s.startedUnder && s.startedUnder[id] == EffectOf(s.run, id).value.grantId)
  }

  /** A result comes from a write, and is a success exactly when the write was. */
  predicate ResultOk(e: EffectRecord, attempted: seq<Id>, succeeded: set<Id>) {
    e.operationResult.Some? ==> e.id in attempted && (e.operationResult.value.Success? <==> e.id in succeeded)
  }

  /** Results of replacements come from writes. */
  ghost predicate ResultsOk(run: RunState, attempted: seq<Id>, succeeded: set<Id>) {
    && (forall id :: id in succeeded ==> id in attempted)
    && (forall id: Id :: IsReplacement(run, id) ==> ResultOk(EffectOf(run, id).value, attempted, succeeded))
  }

  ghost predicate Safe(w: World) {
    && Inv(w.sys)
    && BrokersOk(w)
    && SettlesOwned(w.sys, w.brokers)
    && WritesOk(w.sys, w.attempted)
    && ResultsOk(w.sys.run, w.attempted, w.succeeded)
  }

  // ----- One protocol step, seen from the broker -----

  /** The call a step works on, if it works on an existing one. */
  function Touched(step: Step): Option<Id> {
    match step
    case Persist(c) => Some(c)
    case ReadTicket(c) => Some(c)
    case Lose(c) => Some(c)
    case _ => None
  }

  lemma UntouchedCall(s: Sys, step: Step, c: Id)
    requires CallsOk(s) && c in s.calls && Touched(step) != Some(c)
    ensures c in Exec(s, step).calls && Exec(s, step).calls[c] == s.calls[c]
  {
    SupplyIsFresh(s);
    if step.Read? && !step.request.Dispatch? {
      ReadShape(s, step.request, Compute(s.run, step.request, s.supply + 1, s.supply + 2));
    } else if step.ReadTicket? && step.call in s.calls && s.calls[step.call].Ticket? {
      var t := s.calls[step.call];
      var request := Dispatch(t.effectId, t.grantId, t.claimant, t.now);
      ReadTicketShape(s, step.call, request, Compute(s.run, request, step.call + 1, step.call + 2));
    }
  }

  /** A dispatch starts an effect that was not started before. */
  lemma DispatchIsFirst(s: Sys, c: Id)
    requires Inv(s) && Commits(s, Persist(c)) && s.calls[c].request.Dispatch?
    ensures s.calls[c].request.effectId !in s.startedUnder
  {
    var k := PersistsFromCurrent(s, c);
    assert s.run.effects[k].Started() <==> s.run.effects[k].id in s.startedUnder;
  }

  lemma StartedAfter(s: Sys, step: Step)
    ensures Exec(s, step).startedUnder
         == if Commits(s, step) && s.calls[step.call].request.Dispatch?
            then s.startedUnder[s.calls[step.call].request.effectId := s.calls[step.call].request.grantId]
            else s.startedUnder
  {
  }

  lemma StartedStays(s: Sys, step: Step, id: Id)
    requires Inv(s) && id in s.startedUnder
    ensures id in Exec(s, step).startedUnder && Exec(s, step).startedUnder[id] == s.startedUnder[id]
  {
    StartedAfter(s, step);
    if Commits(s, step) && s.calls[step.call].request.Dispatch? {
      DispatchIsFirst(s, step.call);
    }
  }

  lemma OwnRecordStays(s: Sys, step: Step, b: BrokerCall)
    requires Inv(s) && OwnRecord(s.run, b)
    ensures OwnRecord(Exec(s, step).run, b)
  {
    EffectPersists(s, step, b.effectId);
  }

  /** A broker call whose own step it is not keeps its footing. */
  lemma StageStays(s: Sys, step: Step, attempted: seq<Id>, succeeded: set<Id>, b: BrokerCall)
    requires Inv(s) && StageOk(s, attempted, succeeded, b)
    requires CallOf(b.stage).Some? ==> Touched(step) != CallOf(b.stage)
    requires !SettlesEffect(s, step, b.effectId)
    ensures StageOk(Exec(s, step), attempted, succeeded, b)
  {
    if CallOf(b.stage).Some? {
      UntouchedCall(s, step, CallOf(b.stage).value);
    }
    if !b.stage.Preparing? {
      OwnRecordStays(s, step, b);
      EffectPersists(s, step, b.effectId);
    }
    if b.stage.HaveDispatched? || b.stage.Written? || b.stage.Settling? {
      StartedStays(s, step, b.effectId);
    }
  }

  lemma WritesStay(s: Sys, step: Step, attempted: seq<Id>)
    requires Inv(s) && WritesOk(s, attempted)
    ensures WritesOk(Exec(s, step), attempted)
  {
    forall id | id in attempted
      ensures IsReplacement(Exec(s, step).run, id) && EffectOf(Exec(s, step).run, id).value.Started()
      ensures id in Exec(s, step).startedUnder
              && Exec(s, step).startedUnder[id] == EffectOf(Exec(s, step).run, id).value.grantId
    {
      EffectPersists(s, step, id);
      StartedStays(s, step, id);
    }
  }

  /** The step finds its result in a broker's write, or settles no replacement. */
  predicate ResultBacked(s: Sys, step: Step, attempted: seq<Id>, succeeded: set<Id>) {
    Commits(s, step) && s.calls[step.call].request.Settle?
    && IsReplacement(s.run, s.calls[step.call].request.effectId) ==>
      s.calls[step.call].request.effectId in attempted
      && (s.calls[step.call].request.result.Success? <==> s.calls[step.call].request.effectId in succeeded)
  }

  lemma CommittedNewEffect(s: Sys, c: Id, k: nat)
    requires Inv(s) && Commits(s, Persist(c)) && |s.run.effects| <= k < |Exec(s, Persist(c)).run.effects|
    ensures Exec(s, Persist(c)).run.effects[k].operationResult.None?
  {
    var call := s.calls[c];
    if MovesEffect(call.request) {
      var j := PersistsFromCurrent(s, c);
    } else {
      PersistedRun(s, c);
      CommittedOnSnapshot(s, c);
      CommitFrame(s.run, call.snapshot, call.request, c + 1, c + 2, call.intent);
    }
  }

  lemma NewEffectHasNoResult(s: Sys, step: Step, k: nat)
    requires Inv(s) && |s.run.effects| <= k < |Exec(s, step).run.effects|
    ensures Exec(s, step).run.effects[k].operationResult.None?
  {
    if Commits(s, step) {
      CommittedNewEffect(s, step.call, k);
    } else {
      DriftingStep(s, step);
    }
  }

  lemma SameResult(s: Sys, step: Step, k: nat)
    requires Inv(s) && k < |s.run.effects|
    requires !SettlesEffect(s, step, s.run.effects[k].id)
    ensures k < |Exec(s, step).run.effects|
    ensures Exec(s, step).run.effects[k].operationResult == s.run.effects[k].operationResult
  {
    EffectFate(s, step, k);
  }

  lemma SettledResult(s: Sys, step: Step, k: nat)
    requires Inv(s) && k < |s.run.effects| && SettlesEffect(s, step, s.run.effects[k].id)
    ensures k < |Exec(s, step).run.effects|
    ensures Exec(s, step).run.effects[k].operationResult == Some(s.calls[step.call].request.result)
  {
    var j := PersistsFromCurrent(s, step.call);
    assert j == k;
  }

  lemma ResultsStay(s: Sys, step: Step, attempted: seq<Id>, succeeded: set<Id>)
    requires Inv(s) && ResultsOk(s.run, attempted, succeeded) && ResultBacked(s, step, attempted, succeeded)
    ensures ResultsOk(Exec(s, step).run, attempted, succeeded)
  {
    var s' := Exec(s, step);
    StepKeeps(s, step);
    StepAdvances(s, step);
    forall id: Id | IsReplacement(s'.run, id)
      ensures ResultOk(EffectOf(s'.run, id).value, attempted, succeeded)
    {
      var k := FindEffect(s'.run.effects, id).value;
      if k < |s.run.effects| {
        assert Advances(s.run.effects[k], s'.run.effects[k]);
        EffectAt(s.run, k);
        assert IsReplacement(s.run, id);
        if SettlesEffect(s, step, id) {
          SettledResult(s, step, k);
        } else {
          SameResult(s, step, k);
        }
      } else {
        NewEffectHasNoResult(s, step, k);
      }
    }
  }

  // ----- Own steps -----

  lemma DistinctCalls(s: Sys, attempted: seq<Id>, succeeded: set<Id>, a: BrokerCall, b: BrokerCall)
    requires StageOk(s, attempted, succeeded, a) && StageOk(s, attempted, succeeded, b)
    requires a.effectId != b.effectId && CallOf(a.stage).Some?
    ensures CallOf(a.stage) != CallOf(b.stage)
  {
  }

  /** An effect still to be prepared is nobody's yet. */
  lemma PreparingIsFresh(s: Sys, c: Id)
    requires Inv(s) && c in s.calls
    ensures EffectOf(s.run, c + 1).None?
  {
    forall k | 0 <= k < |s.run.effects| ensures s.run.effects[k].id != c + 1 {
      assert s.run.effects[k].id - 1 !in s.calls;
    }
  }

  lemma PreparedStage(s: Sys, attempted: seq<Id>, succeeded: set<Id>, b: BrokerCall, c: Id)
    requires Inv(s) && b.stage == Preparing(c) && StageOk(s, attempted, succeeded, b) && Commits(s, Persist(c))
    ensures StageOk(Exec(s, Persist(c)), attempted, succeeded, b.(stage := HavePrepared))
  {
    var s' := Exec(s, Persist(c));
    var call := s.calls[c];
    CommittedOnSnapshot(s, c);
    CommitFrame(s.run, call.snapshot, call.request, c + 1, c + 2, call.intent);
    StepKeeps(s, Persist(c));
    EffectAt(s'.run, |s.run.effects|);
  }

  lemma ReadStage(s: Sys, attempted: seq<Id>, succeeded: set<Id>, b: BrokerCall, request: Request, stage: Stage)
    requires Inv(s) && StageOk(s, attempted, succeeded, b)
    requires s.supply in Exec(s, Read(request)).calls
    requires (b.stage.HavePrepared? && request == Claim(b.effectId, CLAIMANT, b.order.now) && stage == Claiming(s.supply))
      || (b.stage.Written? && request == SettleRequest(b, b.stage.ok) && stage == Settling(s.supply, b.stage.ok))
    ensures StageOk(Exec(s, Read(request)), attempted, succeeded, b.(stage := stage))
  {
    ReadShape(s, request, Compute(s.run, request, s.supply + 1, s.supply + 2));
  }

  lemma ClaimedStage(s: Sys, attempted: seq<Id>, succeeded: set<Id>, b: BrokerCall, c: Id)
    requires Inv(s) && b.stage == Claiming(c) && StageOk(s, attempted, succeeded, b)
    ensures StageOk(Exec(s, Persist(c)), attempted, succeeded, b.(stage := HaveClaimed))
  {
    OwnRecordStays(s, Persist(c), b);
  }

  lemma ConsumedStage(s: Sys, attempted: seq<Id>, succeeded: set<Id>, b: BrokerCall)
    requires Inv(s) && b.stage == HaveClaimed && StageOk(s, attempted, succeeded, b)
    requires s.supply in Exec(s, Consume(b.effectId, b.grantId, CLAIMANT, b.order.now)).calls
    ensures StageOk(Exec(s, Consume(b.effectId, b.grantId, CLAIMANT, b.order.now)), attempted, succeeded,
                    b.(stage := Dispatching(s.supply)))
  {
    SupplyIsFresh(s);
    OwnRecordStays(s, Consume(b.effectId, b.grantId, CLAIMANT, b.order.now), b);
  }

  lemma TicketStage(s: Sys, attempted: seq<Id>, succeeded: set<Id>, b: BrokerCall, c: Id)
    requires Inv(s) && b.stage == Dispatching(c) && StageOk(s, attempted, succeeded, b) && s.calls[c].Ticket?
    requires c in Exec(s, ReadTicket(c)).calls
    ensures StageOk(Exec(s, ReadTicket(c)), attempted, succeeded, b)
  {
    ReadTicketShape(s, c, DispatchRequest(b), Compute(s.run, DispatchRequest(b), c + 1, c + 2));
  }

  lemma MovedEffectOf(run: RunState, event: RunEvent, k: nat, e: EffectRecord)
    requires UniqueEffects(run.effects) && k < |run.effects| && e.id == run.effects[k].id
    ensures EffectOf(Moved(run, event, k, e), e.id) == Some(e)
  {
    EffectAt(Moved(run, event, k, e), k);
  }

  lemma DispatchedRecord(s: Sys, c: Id, id: Id)
    requires Inv(s) && Commits(s, Persist(c)) && s.calls[c].request.Dispatch? && s.calls[c].request.effectId == id
    ensures EffectOf(Exec(s, Persist(c)).run, id).Some?
    ensures EffectOf(Exec(s, Persist(c)).run, id).value.phase.Dispatched?
  {
    var k := PersistsFromCurrent(s, c);
    MovedEffectOf(s.run, s.calls[c].intent.event, k, MoveOf(s.calls[c].request, s.run.effects[k]).value);
  }

  lemma DispatchedStage(s: Sys, attempted: seq<Id>, succeeded: set<Id>, b: BrokerCall, c: Id)
    requires Inv(s) && b.stage == Dispatching(c) && StageOk(s, attempted, succeeded, b) && Commits(s, Persist(c))
    ensures StageOk(Exec(s, Persist(c)), attempted, succeeded, b.(stage := HaveDispatched))
  {
    DispatchedRecord(s, c, b.effectId);
    OwnRecordStays(s, Persist(c), b);
    StartedAfter(s, Persist(c));
  }

  // ----- Worlds -----

  /** A broker's step works on the broker's own call, if it works on one. */
  lemma OwnStepTouches(s: Sys, b: BrokerCall, step: Step)
    requires NextStep(s, b) == Some(step)
    ensures Touched(step) == CallOf(b.stage)
  {
  }

  /** A settlement a broker takes part in is the one of its own effect. */
  lemma OwnSettlement(s: Sys, attempted: seq<Id>, succeeded: set<Id>, b: BrokerCall, step: Step, other: Id)
    requires StageOk(s, attempted, succeeded, b) && NextStep(s, b) == Some(step) && other != b.effectId
    ensures !SettlesEffect(s, step, other)
  {
  }

  lemma OtherStays(s: Sys, attempted: seq<Id>, succeeded: set<Id>, b: BrokerCall, step: Step, other: BrokerCall)
    requires Inv(s) && StageOk(s, attempted, succeeded, b) && StageOk(s, attempted, succeeded, other)
    requires NextStep(s, b) == Some(step) && other.effectId != b.effectId
    ensures StageOk(Exec(s, step), attempted, succeeded, other)
  {
    OwnStepTouches(s, b, step);
    OwnSettlement(s, attempted, succeeded, b, step, other.effectId);
    if CallOf(other.stage).Some? {
      DistinctCalls(s, attempted, succeeded, other, b);
    }
    StageStays(s, step, attempted, succeeded, other);
  }

  /** The other brokers while broker `id` takes its step. */
  lemma OthersStay(w: World, id: Id, step: Step)
    requires Safe(w) && id in w.brokers && NextStep(w.sys, w.brokers[id]) == Some(step)
    ensures forall a :: a in w.brokers && a != id ==>
              StageOk(Exec(w.sys, step), w.attempted, w.succeeded, w.brokers[a])
  {
    forall a | a in w.brokers && a != id
      ensures StageOk(Exec(w.sys, step), w.attempted, w.succeeded, w.brokers[a])
    {
      OtherStays(w.sys, w.attempted, w.succeeded, w.brokers[id], step, w.brokers[a]);
    }
  }

  lemma OwnStage(w: World, id: Id, step: Step)
    requires Safe(w) && id in w.brokers && NextStep(w.sys, w.brokers[id]) == Some(step)
    ensures var next := NextStage(w.sys, Exec(w.sys, step), w.brokers[id], step);
            next.Some? ==> StageOk(Exec(w.sys, step), w.attempted, w.succeeded, w.brokers[id].(stage := next.value))
  {
    var b := w.brokers[id];
    assert StageOk(w.sys, w.attempted, w.succeeded, b);
    var next := NextStage(w.sys, Exec(w.sys, step), b, step);
    if next.Some? {
      match b.stage
      case Preparing(c) => PreparedStage(w.sys, w.attempted, w.succeeded, b, c);
      case HavePrepared => ReadStage(w.sys, w.attempted, w.succeeded, b, step.request, next.value);
      case Claiming(c) => ClaimedStage(w.sys, w.attempted, w.succeeded, b, c);
      case HaveClaimed => ConsumedStage(w.sys, w.attempted, w.succeeded, b);
      case Dispatching(c) =>
        if step.ReadTicket? {
          TicketStage(w.sys, w.attempted, w.succeeded, b, c);
        } else {
          DispatchedStage(w.sys, w.attempted, w.succeeded, b, c);
        }
      case Written(_) => ReadStage(w.sys, w.attempted, w.succeeded, b, step.request, next.value);
    }
  }

  // ----- Waiting settlements -----

  /** The call a step ends, if it ends one. */
  predicate Ends(step: Step, c: Id) {
    (step.Persist? || step.Lose?) && step.call == c
  }

  /** Where the calls of the next state come from. */
  lemma CallOrigin(s: Sys, step: Step, c: Id)
    requires CallsOk(s) && c in Exec(s, step).calls
    ensures var call := Exec(s, step).calls[c];
            || (c in s.calls && call == s.calls[c] && !Ends(step, c))
            || call.Ticket?
            || call.request.Dispatch?
            || (c == s.supply && step.Read? && call.request == step.request
                && Compute(s.run, step.request, c + 1, c + 2).Ok?)
  {
    SupplyIsFresh(s);
    if step.Read? && !step.request.Dispatch? {
      ReadShape(s, step.request, Compute(s.run, step.request, s.supply + 1, s.supply + 2));
    } else if step.ReadTicket? && step.call in s.calls && s.calls[step.call].Ticket? {
      var t := s.calls[step.call];
      var request := Dispatch(t.effectId, t.grantId, t.claimant, t.now);
      ReadTicketShape(s, step.call, request, Compute(s.run, request, step.call + 1, step.call + 2));
    }
  }

  /** Brokers that wait for a settlement the step does not touch still wait for it. */
  ghost predicate KeepsSettlers(brokers: map<Id, BrokerCall>, brokers': map<Id, BrokerCall>, step: Step) {
    forall id :: id in brokers && brokers[id].stage.Settling? && !Ends(step, brokers[id].stage.call) ==>
      id in brokers' && brokers'[id].stage == brokers[id].stage
  }

  lemma OldSettlementStays(s: Sys, step: Step, brokers: map<Id, BrokerCall>, brokers': map<Id, BrokerCall>, c: Id, effectId: Id)
    requires Inv(s) && SettlementOk(s.run, brokers, c, effectId) && KeepsSettlers(brokers, brokers', step)
    requires !Ends(step, c)
    ensures SettlementOk(Exec(s, step).run, brokers', c, effectId)
  {
    EffectPersists(s, step, effectId);
    if IsReplacement(s.run, effectId) {
      var id :| id in brokers && brokers[id].stage.Settling? && brokers[id].stage.call == c;
      assert brokers'[id].stage.call == c;
    }
  }

  lemma ReadSettlement(run: RunState, request: Request, recordId: Id, eventId: Id)
    requires request.Settle? && Compute(run, request, recordId, eventId).Ok?
    ensures EffectOf(run, request.effectId).Some?
  {
  }

  lemma SettlementsStay(s: Sys, step: Step, brokers: map<Id, BrokerCall>, brokers': map<Id, BrokerCall>)
    requires Inv(s) && SettlesOwned(s, brokers) && KeepsSettlers(brokers, brokers', step)
    requires step.Read? && step.request.Settle? && s.supply in Exec(s, step).calls ==>
               IsReplacement(s.run, step.request.effectId) ==> OwnedSettlement(brokers', s.supply)
    ensures SettlesOwned(Exec(s, step), brokers')
  {
    var s' := Exec(s, step);
    forall c | c in s'.calls && s'.calls[c].Ready? && s'.calls[c].request.Settle?
      ensures SettlementOk(s'.run, brokers', c, s'.calls[c].request.effectId)
    {
      CallOrigin(s, step, c);
      var effectId := s'.calls[c].request.effectId;
      if c in s.calls && s'.calls[c] == s.calls[c] {
        assert SettlementOk(s.run, brokers, c, effectId);
        OldSettlementStays(s, step, brokers, brokers', c, effectId);
      } else {
        ReadSettlement(s.run, step.request, c + 1, c + 2);
        assert s'.run == s.run;
      }
    }
  }
}
