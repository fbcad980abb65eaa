/** What a grant must say for the broker to act on it, and that nothing is ever written on less. */
module BrokerAuthority {
  import opened Wrappers
  import opened RunRecords
  import opened RunStore
  import opened Protocol
  import opened CallOutcomes
  import opened InterleavedOutcomes
  import opened Broker
  import opened BrokerSafety
  import opened BrokerTheorems

  // ----- Evaluating a grant -----

  /** The operation a capability is registered for. */
  predicate RegisteredFor(capability: Capability, operationId: string) {
    match capability
    case ListRoot => operationId == "local-read-v1"
    case LocalRead => operationId == "local-read-v1"
    case ProviderDisclose => operationId == "provider-disclose-v1"
    case CreateOrReplace => operationId == "create-or-replace-v1"
    case NativeInspection => operationId == "native-inspect-v1"
  }

  /** The grant covers this use: same capability, its own operation, same resource, scope and pair. */
  predicate Covers(grant: CapabilityGrant, capability: Capability, operationId: string, resource: Resource,
                   scope: ActionScope, pair: Option<PairBinding>)
  {
    && grant.capability == capability && RegisteredFor(capability, operationId)
    && grant.resource == resource && grant.actionScope == scope && grant.pair == pair
  }

  /** A grant allows a use exactly when it covers it and still pays for it. */
  lemma AllowsExactly(grant: CapabilityGrant, capability: Capability, operationId: string, resource: Resource,
                      scope: ActionScope, pair: Option<PairBinding>, now: int)
    ensures Evaluate(grant, capability, operationId, resource, scope, pair, now).None?
       <==> Covers(grant, capability, operationId, resource, scope, pair) && Pays(grant, now)
  {
  }

  /** A denial names something the grant lacks; revocation, expiry and budget are named only of a grant that
      covers the use. */
  lemma DenialIsTrue(grant: CapabilityGrant, capability: Capability, operationId: string, resource: Resource,
                     scope: ActionScope, pair: Option<PairBinding>, now: int)
    requires Evaluate(grant, capability, operationId, resource, scope, pair, now).Some?
    ensures var covers := Covers(grant, capability, operationId, resource, scope, pair);
            match Evaluate(grant, capability, operationId, resource, scope, pair, now).value
            case WrongCapability => grant.capability != capability
            case WrongOperation => grant.capability == capability && !RegisteredFor(capability, operationId)
            case WrongScope => grant.resource != resource
            case WrongActionScope => grant.actionScope != scope
            case WrongPairBinding => grant.pair != pair
            case Revoked => covers && grant.revokedAt.Some?
            case Expired => covers && grant.revokedAt.None? && now >= grant.expiresAt
            case OutOfBudget => covers && grant.revokedAt.None? && now < grant.expiresAt && grant.remaining == 0
  {
  }

  // ----- Orders -----

  /** The grant is for exactly this replacement, live and with budget at the order's time. */
  predicate Agrees(grant: CapabilityGrant, order: Order) {
    && grant.capability.CreateOrReplace?
    && grant.resource.ReplacementTarget?
    && grant.resource.relativeTarget == order.relativeTarget
    && grant.resource.preimageHash == order.preimageHash
    && grant.resource.postimageHash == order.postimageHash
    && grant.actionScope == Node("replace-existing-file-v1")
    && grant.pair == Some(order.pair)
    && grant.revokedAt.None? && order.now < grant.expiresAt && grant.remaining > 0
  }

  lemma GrantedExactly(grant: CapabilityGrant, order: Order)
    ensures GrantedOrder(grant, order).None? <==> Agrees(grant, order)
  {
    AllowsExactly(grant, CreateOrReplace, OP_CREATE_OR_REPLACE,
                  ReplacementTarget(order.relativeTarget, order.preimageHash, order.postimageHash),
                  Node(REPLACE_NODE), Some(order.pair), order.now);
  }

  /** The state after an order was taken up. */
  function TakenUp(w: World, grant: CapabilityGrant, order: Order): Sys {
    Exec(w.sys, Read(Prepare("create-or-replace-v1", order.postimageHash, grant.id, order.now)))
  }

  /** An order that differs from its grant in anything starts no call and leaves the world unchanged. One
      that agrees in everything is taken up; it becomes a call exactly when the run is not held. */
  lemma StartExactly(w: World, grant: CapabilityGrant, order: Order)
    requires Safe(w)
    ensures var w' := Do(w, Start(grant, order));
            if !Agrees(grant, order) then w' == w
            else
              && w'.sys == TakenUp(w, grant, order) && w'.sys.run == w.sys.run
              && w'.file == w.file && w'.attempted == w.attempted && w'.succeeded == w.succeeded
              && w'.brokers
                 == if Held(w.sys.run) then w.brokers
                    else w.brokers[w.nextBroker := BrokerCall(Preparing(w.sys.supply), w.sys.supply + 1, grant.id, order, grant)]
  {
    GrantedExactly(grant, order);
    if Agrees(grant, order) {
      StartedShape(w, grant, order);
      PrepareReadExactly(w.sys, PrepareRequest(grant.id, order));
    }
  }

  // ----- Over every sequence of moves -----

  /** Every call in progress was started on a grant that agrees with its order. */
  predicate CallsAuthorised(w: World) {
    forall id :: id in w.brokers ==>
      Agrees(w.brokers[id].grant, w.brokers[id].order) && w.brokers[id].grantId == w.brokers[id].grant.id
  }

  /** The write was made on an order its grant agrees with, for the effect prepared on that very grant and
      postimage. */
  predicate AuthorisedWrite(w: World, id: Id) {
    && id in w.authorities
    && Agrees(w.authorities[id].grant, w.authorities[id].order)
    && EffectOf(w.sys.run, id).Some?
    && EffectOf(w.sys.run, id).value.grantId == w.authorities[id].grant.id
    && EffectOf(w.sys.run, id).value.targetHash == w.authorities[id].order.postimageHash
  }

  predicate WritesAuthorised(w: World) {
    forall id :: id in w.attempted ==> AuthorisedWrite(w, id)
  }

  lemma CallsStayAuthorised(w: World, move: Move)
    requires CallsAuthorised(w)
    ensures CallsAuthorised(Do(w, move))
  {
    match move
    case Start(grant, order) => StartStaysAuthorised(w, grant, order);
    case Advance(id) => AdvanceStaysAuthorised(w, id);
    case _ =>
  }

  lemma StartStaysAuthorised(w: World, grant: CapabilityGrant, order: Order)
    requires CallsAuthorised(w)
    ensures CallsAuthorised(Do(w, Start(grant, order)))
  {
    GrantedExactly(grant, order);
    StartedShape(w, grant, order);
  }

  lemma AdvanceStaysAuthorised(w: World, id: Id)
    requires CallsAuthorised(w)
    ensures CallsAuthorised(Do(w, Advance(id)))
  {
    if id in w.brokers && NextStep(w.sys, w.brokers[id]).Some? {
      ProceedShape(w, id, NextStep(w.sys, w.brokers[id]).value);
    }
  }

  /** What a move does to the writes made so far. */
  lemma WritesAfter(w: World, move: Move)
    ensures var w' := Do(w, move);
            if Writes(w, move) then
              var b := w.brokers[move.broker];
              && w'.sys == w.sys
              && w'.attempted == w.attempted + [b.effectId]
              && w'.authorities == w.authorities[b.effectId := Authority(b.grant, b.order)]
            else w'.attempted == w.attempted && w'.authorities == w.authorities
  {
  }

  lemma EffectKept(w: World, move: Move, id: Id)
    requires Safe(w) && EffectOf(w.sys.run, id).Some?
    ensures EffectOf(Do(w, move).sys.run, id).Some?
    ensures EffectOf(Do(w, move).sys.run, id).value.grantId == EffectOf(w.sys.run, id).value.grantId
    ensures EffectOf(Do(w, move).sys.run, id).value.targetHash == EffectOf(w.sys.run, id).value.targetHash
  {
    MoveShape(w, move);
    if StepOf(w, move).Some? {
      EffectPersists(w.sys, StepOf(w, move).value, id);
    }
  }

  lemma OldWritesStayAuthorised(w: World, move: Move, id: Id)
    requires Safe(w) && id in w.attempted && AuthorisedWrite(w, id)
    requires Do(w, move).authorities == w.authorities
    ensures AuthorisedWrite(Do(w, move), id)
  {
    EffectKept(w, move, id);
  }

  lemma NewWriteAuthorised(w: World, move: Move)
    requires Safe(w) && CallsAuthorised(w) && WritesAuthorised(w) && Writes(w, move)
    ensures WritesAuthorised(Do(w, move))
  {
    WritesAfter(w, move);
    var b := w.brokers[move.broker];
    assert StageOk(w.sys, w.attempted, w.succeeded, b);
    forall id | id in Do(w, move).attempted ensures AuthorisedWrite(Do(w, move), id) {
      assert id != b.effectId ==> AuthorisedWrite(w, id);
    }
  }

  lemma WritesStayAuthorised(w: World, move: Move)
    requires Safe(w) && CallsAuthorised(w) && WritesAuthorised(w)
    ensures WritesAuthorised(Do(w, move))
  {
    if Writes(w, move) {
      NewWriteAuthorised(w, move);
    } else {
      WritesAfter(w, move);
      forall id | id in Do(w, move).attempted ensures AuthorisedWrite(Do(w, move), id) {
        OldWritesStayAuthorised(w, move, id);
      }
    }
  }

  lemma {:induction false} PlayAuthorised(now: int, file: Content, moves: seq<Move>)
    ensures CallsAuthorised(Play(now, file, moves)) && WritesAuthorised(Play(now, file, moves))
  {
    if moves != [] {
      var before, last := moves[..|moves| - 1], moves[|moves| - 1];
      PlayAuthorised(now, file, before);
      PlayKeeps(now, file, before);
      CallsStayAuthorised(Play(now, file, before), last);
      WritesStayAuthorised(Play(now, file, before), last);
    }
  }

  /** Over every sequence of moves, each attempted write belongs to an order that was started under a grant
      for exactly its relative target, both hashes, the replacement node and its pair, unrevoked, unexpired
      and with budget at the order's time; its effect was prepared under that grant for that postimage. */
  lemma WritesAreAuthorised(now: int, file: Content, moves: seq<Move>, id: Id)
    requires id in Play(now, file, moves).attempted
    ensures AuthorisedWrite(Play(now, file, moves), id)
  {
    PlayAuthorised(now, file, moves);
  }

  /** And what a successful write put into the file is the postimage of that order. */
  lemma WritesItsOrder(w: World, move: Move)
    requires Writes(w, move) && move.ok
    ensures var id := w.brokers[move.broker].effectId;
            id in Do(w, move).authorities && Do(w, move).file == Do(w, move).authorities[id].order.postimage
  {
    OnlyWritesChangeFile(w, move);
    WritesAfter(w, move);
  }
}
