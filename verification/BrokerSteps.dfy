/** When a broker call goes on and when it ends: one stage at a time, in terms of the run alone. */
module BrokerSteps {
  import opened Wrappers
  import opened RunRecords
  import opened RunStore
  import opened Protocol
  import opened JournalInvariants
  import opened JournalPreservation
  import opened JournalCommits
  import opened JournalTheorems
  import opened CallOutcomes
  import opened InterleavedOutcomes
  import opened Broker
  import opened BrokerSafety
  import opened BrokerTheorems

  // ----- Steps that persist -----

  /** The event a persisting step of the call logs, if it goes through. */
  function Announced(b: BrokerCall): EventKind
    requires CallOf(b.stage).Some?
  {
    match b.stage
    case Preparing(_) => EffectPrepared(b.effectId)
    case Claiming(_) => EffectClaimed(b.effectId, "operation-broker")
    case Dispatching(_) => EffectDispatched(b.effectId)
    case Settling(_, ok) => EffectSettled(b.effectId, if ok then ConfirmedCommitted else UnknownOrPartial)
  }

  /** The brokers after a call reached its next stage, or came to its end when there is none. */
  function Onward(brokers: map<Id, BrokerCall>, id: Id): map<Id, BrokerCall>
    requires id in brokers
  {
    match brokers[id].stage
    case Preparing(_) => brokers[id := brokers[id].(stage := HavePrepared)]
    case Claiming(_) => brokers[id := brokers[id].(stage := HaveClaimed)]
    case Dispatching(_) => brokers[id := brokers[id].(stage := HaveDispatched)]
    case _ => brokers - {id}
  }

  lemma WaitingRequest(s: Sys, attempted: seq<Id>, succeeded: set<Id>, b: BrokerCall, c: Id)
    requires StageOk(s, attempted, succeeded, b) && NextStep(s, b) == Some(Persist(c))
    ensures c in s.calls && s.calls[c].Ready? && CallOf(b.stage) == Some(c)
    ensures KindOf(s.calls[c].request, c + 1) == Announced(b)
  {
  }

  lemma NextPersists(sys: Sys, sys': Sys, b: BrokerCall, c: Id)
    requires NextStep(sys, b) == Some(Persist(c))
    ensures NextStage(sys, sys', b, Persist(c))
         == if !Commits(sys, Persist(c)) then None
            else match b.stage
                 case Preparing(_) => Some(HavePrepared)
                 case Claiming(_) => Some(HaveClaimed)
                 case Dispatching(_) => Some(HaveDispatched)
                 case _ => None
  {
  }

  lemma LogsOrNot(s: Sys, c: Id)
    requires Inv(s)
    ensures Commits(s, Persist(c)) ==>
              var events := Exec(s, Persist(c)).run.events;
              |events| == |s.run.events| + 1 && events[..|s.run.events|] == s.run.events
              && events[|s.run.events|].kind == KindOf(s.calls[c].request, c + 1)
    ensures !Commits(s, Persist(c)) ==> Exec(s, Persist(c)).run.events == s.run.events
  {
    if Commits(s, Persist(c)) {
      WinningKind(s, c);
      PersistedRun(s, c);
    } else {
      DriftingStep(s, Persist(c));
    }
  }

  lemma PersistedBrokers(w: World, id: Id, c: Id)
    requires id in w.brokers && NextStep(w.sys, w.brokers[id]) == Some(Persist(c))
    ensures Proceed(w, id).sys == Exec(w.sys, Persist(c))
    ensures Proceed(w, id).brokers == if Commits(w.sys, Persist(c)) then Onward(w.brokers, id) else w.brokers - {id}
  {
    ProceedShape(w, id, Persist(c));
    NextPersists(w.sys, Exec(w.sys, Persist(c)), w.brokers[id], c);
  }

  /** A call that persists goes on to its next stage exactly when its own event was logged, and otherwise ends with
      the log as it was. */
  lemma PersistsOnward(w: World, id: Id, c: Id)
    requires Safe(w) && id in w.brokers && NextStep(w.sys, w.brokers[id]) == Some(Persist(c))
    ensures CallOf(w.brokers[id].stage).Some?
    ensures var w', n := Proceed(w, id), |w.sys.run.events|;
            if w'.sys.run.events == w.sys.run.events then w'.brokers == w.brokers - {id}
            else
              && w'.brokers == Onward(w.brokers, id)
              && |w'.sys.run.events| == n + 1 && w'.sys.run.events[..n] == w.sys.run.events
              && w'.sys.run.events[n].kind == Announced(w.brokers[id])
  {
    WaitingRequest(w.sys, w.attempted, w.succeeded, w.brokers[id], c);
    LogsOrNot(w.sys, c);
    PersistedBrokers(w, id, c);
  }

  // ----- Steps that read or pay -----

  lemma ReadIsTaken(s: Sys, request: Request)
    requires Inv(s) && !request.Dispatch?
    ensures s.supply in Exec(s, Read(request)).calls <==> Compute(s.run, request, s.supply + 1, s.supply + 2).Ok?
    ensures Exec(s, Read(request)).run == s.run
  {
    SupplyIsFresh(s);
    ReadShape(s, request, Compute(s.run, request, s.supply + 1, s.supply + 2));
  }

  /** A prepared effect is always claimed next; whether the claim wins shows when it persists. */
  lemma ClaimsOnward(w: World, id: Id)
    requires Safe(w) && id in w.brokers && w.brokers[id].stage.HavePrepared?
    ensures Proceed(w, id).brokers == w.brokers[id := w.brokers[id].(stage := Claiming(w.sys.supply))]
    ensures Proceed(w, id).sys.run == w.sys.run
  {
    var b := w.brokers[id];
    var request := Claim(b.effectId, CLAIMANT, b.order.now);
    ReadIsTaken(w.sys, request);
    ProceedShape(w, id, Read(request));
  }

  lemma ConsumeIsTaken(s: Sys, effectId: Id, g: nat, claimant: string, now: int)
    requires Inv(s) && g < |s.run.grants|
    ensures var step := Consume(effectId, s.run.grants[g].id, claimant, now);
            && (s.supply in Exec(s, step).calls <==> Pays(s.run.grants[g], now))
            && Exec(s, step).run == if Pays(s.run.grants[g], now) then Paid(s.run, g) else s.run
  {
    SupplyIsFresh(s);
    ConsumeOutcome(s.run, g, now);
  }

  /** A claimed effect goes on exactly when its grant still pays at the order's time, and then one dispatch is
      taken from it. */
  lemma PaysOnward(w: World, id: Id, g: nat)
    requires Safe(w) && id in w.brokers && w.brokers[id].stage.HaveClaimed?
    requires g < |w.sys.run.grants| && w.sys.run.grants[g].id == w.brokers[id].grantId
    ensures var w', b := Proceed(w, id), w.brokers[id];
            if Pays(w.sys.run.grants[g], b.order.now) then
              w'.brokers == w.brokers[id := b.(stage := Dispatching(w.sys.supply))] && w'.sys.run == Paid(w.sys.run, g)
            else w'.brokers == w.brokers - {id} && w'.sys.run == w.sys.run
  {
    var b := w.brokers[id];
    ConsumeIsTaken(w.sys, b.effectId, g, CLAIMANT, b.order.now);
    ProceedShape(w, id, Consume(b.effectId, b.grantId, CLAIMANT, b.order.now));
  }

  /** The effect is the broker's to dispatch. */
  predicate ClaimedByBroker(run: RunState, effectId: Id) {
    exists k :: 0 <= k < |run.effects| && run.effects[k].id == effectId && run.effects[k].phase.Claimed?
                && run.effects[k].claimant == Some("operation-broker")
  }

  lemma TicketIsTaken(s: Sys, c: Id)
    requires Inv(s) && c in s.calls && s.calls[c].Ticket? && s.calls[c].claimant == CLAIMANT
    ensures c in Exec(s, ReadTicket(c)).calls <==> ClaimedByBroker(s.run, s.calls[c].effectId)
    ensures Exec(s, ReadTicket(c)).run == s.run
  {
    var t := s.calls[c];
    var request := Dispatch(t.effectId, t.grantId, t.claimant, t.now);
    ReadTicketShape(s, c, request, Compute(s.run, request, c + 1, c + 2));
    DispatchComputed(s.run, request, c + 1, c + 2);
  }

  lemma DispatchComputed(run: RunState, request: Request, recordId: Id, eventId: Id)
    requires UniqueEffects(run.effects) && request.Dispatch? && request.claimant == CLAIMANT
    ensures Compute(run, request, recordId, eventId).Ok? <==> ClaimedByBroker(run, request.effectId)
  {
    if k :| 0 <= k < |run.effects| && run.effects[k].id == request.effectId {
      FindUnique(run.effects, k);
    }
  }

  /** After paying, the call goes on exactly when the effect is claimed by the broker. */
  lemma DispatchesOnward(w: World, id: Id, c: Id)
    requires Safe(w) && id in w.brokers && w.brokers[id].stage == Dispatching(c) && c in w.sys.calls && w.sys.calls[c].Ticket?
    ensures Proceed(w, id).brokers
         == if ClaimedByBroker(w.sys.run, w.brokers[id].effectId) then w.brokers else w.brokers - {id}
    ensures Proceed(w, id).sys.run == w.sys.run
  {
    assert StageOk(w.sys, w.attempted, w.succeeded, w.brokers[id]);
    TicketIsTaken(w.sys, c);
    ProceedShape(w, id, ReadTicket(c));
    assert w.brokers[id := w.brokers[id].(stage := Dispatching(c))] == w.brokers;
  }

  /** Nothing but a write follows a dispatch: the call itself takes no step. */
  lemma WaitsForWrite(w: World, id: Id)
    requires id in w.brokers && w.brokers[id].stage.HaveDispatched?
    ensures Proceed(w, id) == w
  {
  }

  lemma SettleComputed(run: RunState, e: EffectRecord, b: BrokerCall, ok: bool, recordId: Id, eventId: Id)
    requires EffectOf(run, b.effectId) == Some(e) && e.phase.Dispatched?
    ensures Compute(run, SettleRequest(b, ok), recordId, eventId).Ok? <==> e.claimant == Some("operation-broker")
  {
  }

  lemma WrittenIsDispatched(s: Sys, attempted: seq<Id>, succeeded: set<Id>, b: BrokerCall)
    requires StageOk(s, attempted, succeeded, b) && b.stage.Written?
    ensures EffectOf(s.run, b.effectId).Some? && EffectOf(s.run, b.effectId).value.phase.Dispatched?
  {
  }

  lemma SettlementIsTaken(s: Sys, attempted: seq<Id>, succeeded: set<Id>, b: BrokerCall, ok: bool)
    requires Inv(s) && StageOk(s, attempted, succeeded, b) && b.stage == Written(ok)
    ensures EffectOf(s.run, b.effectId).Some?
    ensures s.supply in Exec(s, Read(SettleRequest(b, ok))).calls
       <==> EffectOf(s.run, b.effectId).value.claimant == Some("operation-broker")
    ensures Exec(s, Read(SettleRequest(b, ok))).run == s.run
  {
    WrittenIsDispatched(s, attempted, succeeded, b);
    ReadIsTaken(s, SettleRequest(b, ok));
    SettleComputed(s.run, EffectOf(s.run, b.effectId).value, b, ok, s.supply + 1, s.supply + 2);
  }

  lemma SettlingBrokers(w: World, id: Id, ok: bool)
    requires id in w.brokers && w.brokers[id].stage == Written(ok)
    ensures var b := w.brokers[id];
            var sys' := Exec(w.sys, Read(SettleRequest(b, ok)));
            && Proceed(w, id).sys == sys'
            && Proceed(w, id).brokers == if w.sys.supply in sys'.calls then w.brokers[id := b.(stage := Settling(w.sys.supply, ok))]
                                         else w.brokers - {id}
  {
    ProceedShape(w, id, Read(SettleRequest(w.brokers[id], ok)));
  }

  /** A written file is settled next, exactly when the dispatched effect still carries the broker's claim. */
  lemma SettlesOnward(w: World, id: Id, ok: bool)
    requires Safe(w) && id in w.brokers && w.brokers[id].stage == Written(ok)
    ensures var b := w.brokers[id];
            && EffectOf(w.sys.run, b.effectId).Some?
            && Proceed(w, id).brokers
               == (if EffectOf(w.sys.run, b.effectId).value.claimant == Some("operation-broker")
                   then w.brokers[id := b.(stage := Settling(w.sys.supply, ok))] else w.brokers - {id})
            && Proceed(w, id).sys.run == w.sys.run
  {
    SettlementIsTaken(w.sys, w.attempted, w.succeeded, w.brokers[id], ok);
    SettlingBrokers(w, id, ok);
  }
}
