/** The operation broker's create-or-replace, with a crash or an early return possible after every
    single step. Each broker call prepares, claims and dispatches an effect through the interleaved
    protocol, writes the file, and settles; other calls of any kind go on beside it. */
module Broker {
  import opened Wrappers
  import opened RunRecords
  import opened RunStore
  import opened Protocol
  import opened JournalInvariants
  import opened JournalCommits
  import opened JournalTheorems

  const CLAIMANT: string := "operation-broker"
  const REPLACE_NODE: string := "replace-existing-file-v1"

  type Content = string

  // ----- Grant evaluation -----

  datatype Denial =
    | WrongCapability | WrongOperation | WrongScope | WrongActionScope | WrongPairBinding
    | Revoked | Expired | OutOfBudget

  /** Default deny: the first requirement the grant misses. */
  function Evaluate(grant: CapabilityGrant, capability: Capability, operationId: string, resource: Resource,
                    actionScope: ActionScope, pair: Option<PairBinding>, now: int): Option<Denial>
  {
    if grant.capability != capability then Some(WrongCapability)
    else if RegisteredOperation(grant.capability) != operationId then Some(WrongOperation)
    else if grant.resource != resource then Some(WrongScope)
    else if grant.actionScope != actionScope then Some(WrongActionScope)
    else if grant.pair != pair then Some(WrongPairBinding)
    else if grant.revokedAt.Some? then Some(Revoked)
    else if now >= grant.expiresAt then Some(Expired)
    else if grant.remaining == 0 then Some(OutOfBudget)
    else None
  }

  // ----- Broker calls -----

  datatype Order = Order(relativeTarget: string, preimageHash: string, postimageHash: string, postimage: Content,
                         pair: PairBinding, now: int)

  datatype Stage =
    | Preparing(call: Id)
    | HavePrepared
    | Claiming(call: Id)
    | HaveClaimed
    | Dispatching(call: Id)
    | HaveDispatched
    | Written(ok: bool)
    | Settling(call: Id, ok: bool)

  datatype BrokerCall = BrokerCall(stage: Stage, effectId: Id, grantId: Id, order: Order, grant: CapabilityGrant)

  /** What a write was made on: the order, and the grant it was checked against. */
  datatype Authority = Authority(grant: CapabilityGrant, order: Order)

  /** `attempted` lists the effects whose write was attempted, in order; `succeeded` those whose write
      returned success; `authorities` tells what each write was made on. All three are history. */
  datatype World = World(sys: Sys, brokers: map<Id, BrokerCall>, nextBroker: nat, file: Content,
                         attempted: seq<Id>, succeeded: set<Id>, authorities: map<Id, Authority>)

  datatype Move =
    | Start(grant: CapabilityGrant, order: Order)
    | Advance(broker: Id)
    | Write(broker: Id, ok: bool, left: Content)
    | Return(broker: Id)
    | Crash
    | Other(step: Step)

  function PrepareRequest(grantId: Id, order: Order): Request {
    Prepare(OP_CREATE_OR_REPLACE, order.postimageHash, grantId, order.now)
  }

  function DispatchRequest(b: BrokerCall): Request {
    Dispatch(b.effectId, b.grantId, CLAIMANT, b.order.now)
  }

  /** Success is settled as committed, anything else as unknown. */
  function SettleRequest(b: BrokerCall, ok: bool): Request {
    Settle(b.effectId, CLAIMANT, if ok then OperationResult.Success else OperationResult.Error,
           if ok then ConfirmedCommitted else UnknownOrPartial, b.order.now)
  }

  function GrantedOrder(grant: CapabilityGrant, order: Order): Option<Denial> {
    Evaluate(grant, CreateOrReplace, OP_CREATE_OR_REPLACE,
             ReplacementTarget(order.relativeTarget, order.preimageHash, order.postimageHash),
             Node(REPLACE_NODE), Some(order.pair), order.now)
  }

  /** The protocol step a broker call takes next; a write is not one. */
  function NextStep(sys: Sys, b: BrokerCall): Option<Step> {
    match b.stage
    case Preparing(c) => Some(Persist(c))
    case HavePrepared => Some(Read(Claim(b.effectId, CLAIMANT, b.order.now)))
    case Claiming(c) => Some(Persist(c))
    case HaveClaimed => Some(Consume(b.effectId, b.grantId, CLAIMANT, b.order.now))
    case Dispatching(c) => if c in sys.calls && sys.calls[c].Ticket? then Some(ReadTicket(c)) else Some(Persist(c))
    case HaveDispatched => None
    case Written(ok) => Some(Read(SettleRequest(b, ok)))
    case Settling(c, _) => Some(Persist(c))
  }

  /** Where the call stands after that step; None when the step failed or was the last one. */
  function NextStage(sys: Sys, sys': Sys, b: BrokerCall, step: Step): Option<Stage> {
    match b.stage
    case Preparing(_) => if Commits(sys, step) then Some(HavePrepared) else None
    case HavePrepared => if sys.supply in sys'.calls then Some(Claiming(sys.supply)) else None
    case Claiming(_) => if Commits(sys, step) then Some(HaveClaimed) else None
    case HaveClaimed => if sys.supply in sys'.calls then Some(Dispatching(sys.supply)) else None
    case Dispatching(c) =>
      if step.ReadTicket? then if c in sys'.calls then Some(b.stage) else None
      else if Commits(sys, step) then Some(HaveDispatched) else None
    case HaveDispatched => Some(HaveDispatched)
    case Written(ok) => if sys.supply in sys'.calls then Some(Settling(sys.supply, ok)) else None
    case Settling(_, _) => None
  }

  function CallOf(stage: Stage): Option<Id> {
    match stage
    case Preparing(c) => Some(c)
    case Claiming(c) => Some(c)
    case Dispatching(c) => Some(c)
    case Settling(c, _) => Some(c)
    case _ => None
  }

  /** Steps of other callers: they leave broker calls alone, and they settle no create-or-replace
      effect, since only the broker does. */
  predicate Permitted(w: World, step: Step) {
    match step
    case Persist(c) => forall b :: b in w.brokers ==> CallOf(w.brokers[b].stage) != Some(c)
    case ReadTicket(c) => forall b :: b in w.brokers ==> CallOf(w.brokers[b].stage) != Some(c)
    case Lose(c) => forall b :: b in w.brokers ==> CallOf(w.brokers[b].stage) != Some(c)
    case Read(request) =>
      request.Settle? ==>
        forall i :: 0 <= i < |w.sys.run.effects| && w.sys.run.effects[i].id == request.effectId ==>
          w.sys.run.effects[i].operationId != OP_CREATE_OR_REPLACE
    case Consume(_, _, _, _) => true
  }

  function Join(w: World, b: BrokerCall): World {
    w.(nextBroker := w.nextBroker + 1, brokers := w.brokers[w.nextBroker := b])
  }

  function Started(w: World, grant: CapabilityGrant, order: Order): World {
    var w1 := w.(sys := Exec(w.sys, Read(PrepareRequest(grant.id, order))));
    if w.sys.supply !in w1.sys.calls then w1
    else Join(w1, BrokerCall(Preparing(w.sys.supply), w.sys.supply + 1, grant.id, order, grant))
  }

  /** A refused order changes nothing here; the denial it records is a note like any other caller's. */
  function Begin(w: World, grant: CapabilityGrant, order: Order): World {
    if GrantedOrder(grant, order).Some? then w else Started(w, grant, order)
  }

  function Proceed(w: World, id: Id): World
    requires id in w.brokers
  {
    var b := w.brokers[id];
    match NextStep(w.sys, b)
    case None => w
    case Some(step) =>
      var sys' := Exec(w.sys, step);
      match NextStage(w.sys, sys', b, step)
      case None => w.(sys := sys', brokers := w.brokers - {id})
      case Some(stage) => w.(sys := sys', brokers := w.brokers[id := b.(stage := stage)])
  }

  /** The external write: success leaves the postimage, failure leaves anything. */
  function WriteFile(w: World, id: Id, ok: bool, left: Content): World
    requires id in w.brokers
  {
    var b := w.brokers[id];
    w.(attempted := w.attempted + [b.effectId],
       succeeded := if ok then w.succeeded + {b.effectId} else w.succeeded,
       file := if ok then b.order.postimage else left,
       authorities := w.authorities[b.effectId := Authority(b.grant, b.order)],
       brokers := w.brokers[id := b.(stage := Written(ok))])
  }

  /** An early return, at a fault point or on an error: the call it was in is lost with it. */
  function GiveUp(w: World, id: Id): World
    requires id in w.brokers
  {
    var call := CallOf(w.brokers[id].stage);
    w.(brokers := w.brokers - {id}, sys := if call.Some? then Exec(w.sys, Lose(call.value)) else w.sys)
  }

  function Do(w: World, move: Move): World {
    match move
    case Start(grant, order) => Begin(w, grant, order)
    case Advance(id) => if id in w.brokers then Proceed(w, id) else w
    case Write(id, ok, left) =>
      if id in w.brokers && w.brokers[id].stage.HaveDispatched? then WriteFile(w, id, ok, left) else w
    case Return(id) => if id in w.brokers then GiveUp(w, id) else w
    case Crash => w.(brokers := map[], sys := w.sys.(calls := map[]))
    case Other(step) => if Permitted(w, step) then w.(sys := Exec(w.sys, step)) else w
  }

  function InitWorld(now: int, file: Content): World {
    World(Init(now), map[], 0, file, [], {}, map[])
  }

  function Play(now: int, file: Content, moves: seq<Move>): World {
    if moves == [] then InitWorld(now, file)
    else Do(Play(now, file, moves[..|moves| - 1]), moves[|moves| - 1])
  }

  // ----- Looking effects up by id -----

  function EffectOf(run: RunState, id: Id): Option<EffectRecord> {
    match FindEffect(run.effects, id)
    case None => None
    case Some(k) => Some(run.effects[k])
  }

  lemma EffectAt(run: RunState, i: nat)
    requires UniqueEffects(run.effects) && i < |run.effects|
    ensures EffectOf(run, run.effects[i].id) == Some(run.effects[i])
  {
    FindUnique(run.effects, i);
  }

  /** The step settles this very effect. */
  ghost predicate SettlesEffect(s: Sys, step: Step, id: Id) {
    Commits(s, step) && s.calls[step.call].request.Settle? && s.calls[step.call].request.effectId == id
  }

  /** The step moves this very effect. */
  ghost predicate MovesThis(s: Sys, step: Step, e: EffectRecord) {
    && Commits(s, step)
    && MovesEffect(s.calls[step.call].request)
    && s.calls[step.call].request.effectId == e.id
    && MoveOf(s.calls[step.call].request, e).Ok?
  }

  /** All that can happen to an effect in one step: nothing, a claim that lost on sequence, or the
      record's own transition by a request for it. */
  lemma EffectFate(s: Sys, step: Step, k: nat)
    requires Inv(s) && k < |s.run.effects|
    ensures k < |Exec(s, step).run.effects|
    ensures var e, e' := s.run.effects[k], Exec(s, step).run.effects[k];
            || e' == e
            || ClaimedFrom(e, e')
            || (MovesThis(s, step, e) && e' == MoveOf(s.calls[step.call].request, e).value)
  {
    if Commits(s, step) {
      CommittedFate(s, step.call, k);
    } else {
      DriftingStep(s, step);
    }
  }

  lemma CommittedFate(s: Sys, c: Id, k: nat)
    requires Inv(s) && Commits(s, Persist(c)) && k < |s.run.effects|
    ensures k < |Exec(s, Persist(c)).run.effects|
    ensures var e, e' := s.run.effects[k], Exec(s, Persist(c)).run.effects[k];
            || e' == e
            || (MovesThis(s, Persist(c), e) && e' == MoveOf(s.calls[c].request, e).value)
  {
    if MovesEffect(s.calls[c].request) {
      var j := PersistsFromCurrent(s, c);
    } else if s.calls[c].request.Prepare? {
      PreparedTable(s, c);
    } else {
      WinningFrame(s, c);
    }
  }

  /** Effects stay in the table; one that is dispatched stays exactly as it is until it is settled. */
  lemma EffectPersists(s: Sys, step: Step, id: Id)
    requires Inv(s) && EffectOf(s.run, id).Some?
    ensures EffectOf(Exec(s, step).run, id).Some?
    ensures Advances(EffectOf(s.run, id).value, EffectOf(Exec(s, step).run, id).value)
    ensures EffectOf(s.run, id).value.phase.Dispatched? && !SettlesEffect(s, step, id) ==>
              EffectOf(Exec(s, step).run, id) == EffectOf(s.run, id)
  {
    var k := FindEffect(s.run.effects, id).value;
    StepKeeps(s, step);
    StepAdvances(s, step);
    EffectAt(Exec(s, step).run, k);
    DispatchedStays(s, step, k);
  }

  lemma DispatchedStays(s: Sys, step: Step, k: nat)
    requires Inv(s) && k < |s.run.effects|
    ensures k < |Exec(s, step).run.effects|
    ensures s.run.effects[k].phase.Dispatched? && !SettlesEffect(s, step, s.run.effects[k].id) ==>
              Exec(s, step).run.effects[k] == s.run.effects[k]
  {
    EffectFate(s, step, k);
  }
}
