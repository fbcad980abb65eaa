/** Recovery in one unit does what interrupting the turns one at a time would do. */
module AgentRecovery {
  import opened Wrappers
  import opened AgentRecords
  import opened AgentStore
  import opened AgentInvariants
  import opened AgentTheorems

  /** The turn's own recovery: interrupt it and persist it like any other finished turn. */
  function InterruptTurn(s: Store, turnId: Id, eventId: Id, now: int): After<Turn> {
    match FindTurn(s.turns, turnId)
    case None => After(s, Err(TurnNotFound))
    case Some(i) => Finish(s, s.turns[i].Interrupt(now), eventId, now)
  }

  /** The first k turns in flight, each found, interrupted and persisted before the next. */
  function OneByOne(s: Store, inflight: seq<Turn>, k: nat, supply: Id, now: int): After<seq<Turn>>
    requires k <= |inflight|
  {
    if k == 0 then After(s, Ok([]))
    else OneMore(OneByOne(s, inflight, k - 1, supply, now), inflight[k - 1].id, supply + k - 1, now)
  }

  function OneMore(before: After<seq<Turn>>, turnId: Id, eventId: Id, now: int): After<seq<Turn>> {
    if before.result.Err? then before
    else
      var one := InterruptTurn(before.store, turnId, eventId, now);
      match one.result
      case Err(error) => After(one.store, Err(error))
      case Ok(turn) => After(one.store, Ok(before.result.value + [turn]))
  }

  // ----- The turns in flight -----

  /** Positions of the turns in flight. */
  function Positions(turns: seq<Turn>): seq<nat> {
    if turns == [] then []
    else Positions(turns[..|turns| - 1]) + if turns[|turns| - 1].state.InFlight() then [|turns| - 1] else []
  }

  lemma {:induction false} PositionsOfInFlight(turns: seq<Turn>)
    ensures |Positions(turns)| == |InFlight(turns)|
    ensures forall k :: 0 <= k < |Positions(turns)| ==>
              Positions(turns)[k] < |turns| && InFlight(turns)[k] == turns[Positions(turns)[k]]
              && InFlight(turns)[k].state.InFlight()
    ensures forall j, k :: 0 <= j < k < |Positions(turns)| ==> Positions(turns)[j] < Positions(turns)[k]
  {
    if turns != [] {
      PositionsOfInFlight(turns[..|turns| - 1]);
    }
  }

  lemma {:induction false} EveryInFlightHasPosition(turns: seq<Turn>, i: nat)
    requires i < |turns| && turns[i].state.InFlight()
    ensures i in Positions(turns)
  {
    if i < |turns| - 1 {
      EveryInFlightHasPosition(turns[..|turns| - 1], i);
    }
  }

  // ----- The two recoveries, turn by turn -----

  /** The cache holds the next sequence number of every session it knows; the others are as stored. */
  ghost predicate CacheOk(s: Store, t: Store, next: map<Id, nat>) {
    forall id: Id :: NextSequence(t.events, id) == if id in next then next[id] else NextSequence(s.events, id)
  }

  predicate SessionsAlike(s: Store, t: Store) {
    |t.sessions| == |s.sessions| && forall i :: 0 <= i < |s.sessions| ==> SameButTime(s.sessions[i], t.sessions[i])
  }

  /** The turns at the given positions are finished, the others untouched. */
  predicate FinishedAt(s: Store, t: Store, done: seq<nat>) {
    && |t.turns| == |s.turns|
    && (forall i :: 0 <= i < |s.turns| ==>
          t.turns[i].id == s.turns[i].id
          && (if i in done then t.turns[i].state.Terminal() else t.turns[i] == s.turns[i]))
  }

  /** After k turns, the store reached one by one is the one the planned updates give. */
  ghost predicate Agree(s: Store, k: nat, t: Store, plan: Plan)
    requires k <= |Positions(s.turns)|
  {
    && t == ApplyUpdates(s, plan.updates)
    && CacheOk(s, t, plan.next)
    && SessionsAlike(s, t)
    && FinishedAt(s, t, Positions(s.turns)[..k])
  }

  predicate SameButTime(x: Session, y: Session) {
    y == x.(updatedAt := y.updatedAt)
  }

  /** The turn is found unchanged in the new store. */
  predicate TurnAt(s: Store, t: Store, turn: Turn) {
    var i := FindTurn(t.turns, turn.id);
    i.Some? && t.turns[i.value] == turn
  }

  lemma SessionFoundAlike(xs: seq<Session>, ys: seq<Session>, id: Id)
    requires |xs| == |ys| && forall i :: 0 <= i < |xs| ==> SameButTime(xs[i], ys[i])
    ensures FindSession(ys, id) == FindSession(xs, id)
  {
    var x, y := FindSession(xs, id), FindSession(ys, id);
    assert x.Some? ==> SameButTime(xs[x.value], ys[x.value]);
    assert y.Some? ==> SameButTime(xs[y.value], ys[y.value]);
  }

  /** One turn: planning it with the cache and persisting it on the store reached so far come to the same. */
  lemma PlanIsPersist(s: Store, t: Store, plan: Plan, turn: Turn, eventId: Id, now: int)
    requires |t.sessions| == |s.sessions| && forall i :: 0 <= i < |s.sessions| ==> SameButTime(s.sessions[i], t.sessions[i])
    requires NextSequence(t.events, turn.sessionId)
          == if turn.sessionId in plan.next then plan.next[turn.sessionId] else NextSequence(s.events, turn.sessionId)
    requires TurnAt(s, t, turn)
    ensures var one := InterruptTurn(t, turn.id, eventId, now);
            var planned := PlanOne(s, plan, turn, eventId, now);
            && (planned.Err? <==> one.result.Err?)
            && (planned.Ok? ==>
                  |planned.value.updates| == |plan.updates| + 1
                  && planned.value.updates[..|plan.updates|] == plan.updates
                  && var u := planned.value.updates[|plan.updates|];
                     GoodUpdate(t, turn, u, now)
                     && one.store == PutAll(t, u.session, u.turn, u.event) && one.result.value == u.turn
                     && planned.value.next == plan.next[turn.sessionId := u.event.sequence + 1])
  {
    SessionFoundAlike(s.sessions, t.sessions, turn.sessionId);
    var k := FindSession(s.sessions, turn.sessionId);
    assert k.Some? ==> SameButTime(s.sessions[k.value], t.sessions[k.value]);
  }

  lemma PutKeepsAlike(s: Store, t: Store, session: Session, k: nat, now: int)
    requires SessionsAlike(s, t) && FindSession(t.sessions, session.id) == Some(k)
    requires session == t.sessions[k].(updatedAt := now)
    ensures PutSession(t.sessions, session) == t.sessions[k := session]
    ensures SessionsAlike(s, t.(sessions := t.sessions[k := session]))
  {
    assert SameButTime(s.sessions[k], t.sessions[k]);
  }

  /** The turn at the next position is still as stored, and finishing it finishes that position. */
  lemma NextTurnIsAt(s: Store, t: Store, k: nat)
    requires UniqueTurns(s.turns) && k < |Positions(s.turns)| && FinishedAt(s, t, Positions(s.turns)[..k])
    ensures |InFlight(s.turns)| == |Positions(s.turns)|
    ensures TurnAt(s, t, InFlight(s.turns)[k])
    ensures Positions(s.turns)[k] < |t.turns|
    ensures FindTurn(t.turns, InFlight(s.turns)[k].id) == Some(Positions(s.turns)[k])
  {
    PositionsOfInFlight(s.turns);
    var p := Positions(s.turns)[k];
    assert p !in Positions(s.turns)[..k];
    FindUniqueTurn(t.turns, p);
  }

  lemma PutFinishes(s: Store, t: Store, k: nat, x: Turn)
    requires UniqueTurns(s.turns) && k < |Positions(s.turns)| && FinishedAt(s, t, Positions(s.turns)[..k])
    requires |InFlight(s.turns)| == |Positions(s.turns)|
    requires x.id == InFlight(s.turns)[k].id && x.state.Terminal()
    ensures FinishedAt(s, t.(turns := PutTurn(t.turns, x)), Positions(s.turns)[..k + 1])
  {
    NextTurnIsAt(s, t, k);
    assert Positions(s.turns)[..k + 1] == Positions(s.turns)[..k] + [Positions(s.turns)[k]];
  }

  lemma UpdatesApplied(s: Store, updates: seq<Update>, more: seq<Update>)
    requires |more| == |updates| + 1 && more[..|updates|] == updates
    ensures var u := more[|updates|];
            ApplyUpdates(s, more) == PutAll(ApplyUpdates(s, updates), u.session, u.turn, u.event)
  {
  }

  lemma CacheMovesOn(s: Store, t: Store, next: map<Id, nat>, e: Event, next': map<Id, nat>, t': Store)
    requires CacheOk(s, t, next) && e.sequence == NextSequence(t.events, e.sessionId)
    requires next' == next[e.sessionId := e.sequence + 1] && t'.events == t.events + [e]
    ensures CacheOk(s, t', next')
  {
    forall id: Id
      ensures NextSequence(t'.events, id) == if id in next' then next'[id] else NextSequence(s.events, id)
    {
      NextAfterAppend(t.events, e, id);
    }
  }

  /** What one update must be for the stores to go on agreeing. */
  predicate GoodUpdate(t: Store, turn: Turn, u: Update, now: int) {
    && u.event.sessionId == turn.sessionId && u.event.sequence == NextSequence(t.events, turn.sessionId)
    && FindSession(t.sessions, turn.sessionId).Some?
    && u.session == t.sessions[FindSession(t.sessions, turn.sessionId).value].(updatedAt := now)
    && u.turn.id == turn.id && u.turn.state.Terminal()
  }

  lemma UpdateAgrees(s: Store, k: nat, t: Store, plan: Plan, u: Update, plan': Plan, now: int)
    requires UniqueTurns(s.turns) && k < |Positions(s.turns)| == |InFlight(s.turns)| && Agree(s, k, t, plan)
    requires GoodUpdate(t, InFlight(s.turns)[k], u, now)
    requires plan'.updates == plan.updates + [u] && plan'.next == plan.next[u.event.sessionId := u.event.sequence + 1]
    ensures Agree(s, k + 1, PutAll(t, u.session, u.turn, u.event), plan')
  {
    var t' := PutAll(t, u.session, u.turn, u.event);
    UpdatesApplied(s, plan.updates, plan'.updates);
    PutKeepsAlike(s, t, u.session, FindSession(t.sessions, u.session.id).value, now);
    PutFinishes(s, t, k, u.turn);
    CacheMovesOn(s, t, plan.next, u.event, plan'.next, t');
  }

  /** The two recoveries so far. */
  ghost predicate Matching(s: Store, k: nat, plan: Result<Plan, AgentError>, one: After<seq<Turn>>)
    requires k <= |Positions(s.turns)|
  {
    && (plan.Err? <==> one.result.Err?)
    && (plan.Ok? ==> Agree(s, k, one.store, plan.value) && one.result.value == TurnsOf(plan.value.updates))
  }

  lemma UpdateMatches(s: Store, k: nat, plan: Plan, t: Store, turns: seq<Turn>, u: Update, plan': Plan, now: int)
    requires UniqueTurns(s.turns) && k < |Positions(s.turns)| == |InFlight(s.turns)|
    requires Agree(s, k, t, plan) && turns == TurnsOf(plan.updates) && GoodUpdate(t, InFlight(s.turns)[k], u, now)
    requires plan'.updates == plan.updates + [u] && plan'.next == plan.next[u.event.sessionId := u.event.sequence + 1]
    ensures Matching(s, k + 1, Ok(plan'), After(PutAll(t, u.session, u.turn, u.event), Ok(turns + [u.turn])))
  {
    UpdateAgrees(s, k, t, plan, u, plan', now);
    assert TurnsOf(plan'.updates) == turns + [u.turn];
  }

  lemma StepMatches(s: Store, k: nat, plan: Plan, t: Store, turns: seq<Turn>, turn: Turn, eventId: Id, now: int)
    requires UniqueTurns(s.turns) && k < |Positions(s.turns)| == |InFlight(s.turns)| && turn == InFlight(s.turns)[k]
    requires Agree(s, k, t, plan) && turns == TurnsOf(plan.updates)
    ensures Matching(s, k + 1, PlanOne(s, plan, turn, eventId, now), OneMore(After(t, Ok(turns)), turn.id, eventId, now))
  {
    NextTurnIsAt(s, t, k);
    PlanIsPersist(s, t, plan, turn, eventId, now);
    var planned, one := PlanOne(s, plan, turn, eventId, now), OneMore(After(t, Ok(turns)), turn.id, eventId, now);
    if planned.Ok? {
      var u := planned.value.updates[|plan.updates|];
      assert planned.value.updates == plan.updates + [u];
      UpdateMatches(s, k, plan, t, turns, u, planned.value, now);
      assert one == After(PutAll(t, u.session, u.turn, u.event), Ok(turns + [u.turn]));
    }
  }

  lemma BothUnfold(s: Store, inflight: seq<Turn>, k: nat, supply: Id, now: int)
    requires 0 < k <= |inflight|
    ensures PlanUpTo(s, inflight, k, supply, now)
         == PlanNext(s, PlanUpTo(s, inflight, k - 1, supply, now), inflight[k - 1], supply + k - 1, now)
    ensures OneByOne(s, inflight, k, supply, now)
         == OneMore(OneByOne(s, inflight, k - 1, supply, now), inflight[k - 1].id, supply + k - 1, now)
  {
  }

  lemma MatchesOnward(s: Store, k: nat, plan: Result<Plan, AgentError>, one: After<seq<Turn>>, turn: Turn, eventId: Id, now: int,
                      plan': Result<Plan, AgentError>, one': After<seq<Turn>>)
    requires UniqueTurns(s.turns) && k < |Positions(s.turns)| == |InFlight(s.turns)| && turn == InFlight(s.turns)[k]
    requires Matching(s, k, plan, one)
    requires plan' == PlanNext(s, plan, turn, eventId, now) && one' == OneMore(one, turn.id, eventId, now)
    ensures Matching(s, k + 1, plan', one')
  {
    if plan.Ok? {
      StepMatches(s, k, plan.value, one.store, one.result.value, turn, eventId, now);
    }
  }

  lemma NothingPlanned(s: Store)
    ensures Matching(s, 0, Ok(Plan([], map[])), After(s, Ok([])))
  {
    assert TurnsOf([]) == [];
  }

  /** The two recoveries as histories: entry k is what stands after k turns. */
  ghost predicate Histories(s: Store, inflight: seq<Turn>, plans: seq<Result<Plan, AgentError>>, ones: seq<After<seq<Turn>>>,
                            supply: Id, now: int)
  {
    && |plans| == |ones| == |inflight| + 1
    && plans[0] == Ok(Plan([], map[])) && ones[0] == After(s, Ok([]))
    && (forall k :: 0 <= k < |inflight| ==> plans[k + 1] == PlanNext(s, plans[k], inflight[k], supply + k, now))
    && (forall k :: 0 <= k < |inflight| ==> ones[k + 1] == OneMore(ones[k], inflight[k].id, supply + k, now))
  }

  lemma {:induction false} HistoriesMatch(s: Store, inflight: seq<Turn>, plans: seq<Result<Plan, AgentError>>,
                                          ones: seq<After<seq<Turn>>>, k: nat, supply: Id, now: int)
    requires UniqueTurns(s.turns) && inflight == InFlight(s.turns) && k <= |inflight| == |Positions(s.turns)|
    requires Histories(s, inflight, plans, ones, supply, now)
    ensures Matching(s, k, plans[k], ones[k])
  {
    if k > 0 {
      HistoriesMatch(s, inflight, plans, ones, k - 1, supply, now);
      MatchesOnward(s, k - 1, plans[k - 1], ones[k - 1], inflight[k - 1], supply + k - 1, now, plans[k], ones[k]);
    } else {
      NothingPlanned(s);
    }
  }

  lemma RecoveryHistories(s: Store, inflight: seq<Turn>, supply: Id, now: int)
    returns (plans: seq<Result<Plan, AgentError>>, ones: seq<After<seq<Turn>>>)
    ensures Histories(s, inflight, plans, ones, supply, now)
    ensures plans[|inflight|] == PlanUpTo(s, inflight, |inflight|, supply, now)
    ensures ones[|inflight|] == OneByOne(s, inflight, |inflight|, supply, now)
  {
    plans := seq(|inflight| + 1, k requires 0 <= k <= |inflight| => PlanUpTo(s, inflight, k, supply, now));
    ones := seq(|inflight| + 1, k requires 0 <= k <= |inflight| => OneByOne(s, inflight, k, supply, now));
    forall k | 0 <= k < |inflight|
      ensures plans[k + 1] == PlanNext(s, plans[k], inflight[k], supply + k, now)
      ensures ones[k + 1] == OneMore(ones[k], inflight[k].id, supply + k, now)
    {
      BothUnfold(s, inflight, k + 1, supply, now);
    }
  }

  lemma RecoveriesMatch(s: Store, inflight: seq<Turn>, supply: Id, now: int)
    requires UniqueTurns(s.turns) && inflight == InFlight(s.turns) && |inflight| == |Positions(s.turns)|
    ensures Matching(s, |inflight|, PlanUpTo(s, inflight, |inflight|, supply, now), OneByOne(s, inflight, |inflight|, supply, now))
  {
    var plans, ones := RecoveryHistories(s, inflight, supply, now);
    HistoriesMatch(s, inflight, plans, ones, |inflight|, supply, now);
  }

  // ----- The theorems -----

  /** Recovering in one unit gives the store and the turns that recovering one at a time gives, event
      numbers included; it fails exactly when that fails, and then changes nothing. */
  lemma BatchIsOneByOne(s: Store, supply: Id, now: int)
    requires UniqueTurns(s.turns)
    ensures var all := InterruptAll(s, supply, now);
            var one := OneByOne(s, InFlight(s.turns), |InFlight(s.turns)|, supply, now);
            && (all.result.Err? <==> one.result.Err?)
            && (all.result.Ok? ==> all == one)
            && (all.result.Err? ==> all.store == s)
  {
    PositionsOfInFlight(s.turns);
    RecoveriesMatch(s, InFlight(s.turns), supply, now);
  }

  /** Afterwards nothing is in flight, and recovering again changes nothing. */
  lemma RecoverOnce(s: Store, supply: Id, now: int, supply': Id, now': int)
    requires UniqueTurns(s.turns) && InterruptAll(s, supply, now).result.Ok?
    ensures var s' := InterruptAll(s, supply, now).store;
            && InFlight(s'.turns) == []
            && InterruptAll(s', supply', now') == After(s', Ok([]))
  {
    var n := |InFlight(s.turns)|;
    var s' := InterruptAll(s, supply, now).store;
    PositionsOfInFlight(s.turns);
    RecoveriesMatch(s, InFlight(s.turns), supply, now);
    assert Positions(s.turns)[..n] == Positions(s.turns);
    forall i | 0 <= i < |s'.turns| ensures s'.turns[i].state.Terminal() {
      if s.turns[i].state.InFlight() {
        EveryInFlightHasPosition(s.turns, i);
      }
    }
    InFlightEmpty(s'.turns);
    RecoverIdle(s', supply', now');
  }

  /** It succeeds whenever every turn has its session, as it does in every store the use cases reach. */
  lemma {:induction false} PlanSucceeds(s: Store, k: nat, supply: Id, now: int)
    requires k <= |InFlight(s.turns)|
    requires forall i :: 0 <= i < |InFlight(s.turns)| ==>
               InFlight(s.turns)[i].state.InFlight() && FindSession(s.sessions, InFlight(s.turns)[i].sessionId).Some?
    ensures PlanUpTo(s, InFlight(s.turns), k, supply, now).Ok?
  {
    if k > 0 {
      PlanSucceeds(s, k - 1, supply, now);
    }
  }

  lemma RecoverySucceeds(commands: seq<Command>, supply: Id, now: int)
    ensures UniqueTurns(Run(commands).store.turns)
    ensures InterruptAll(Run(commands).store, supply, now).result.Ok?
  {
    RunKeeps(commands);
    var s := Run(commands).store;
    PositionsOfInFlight(s.turns);
    forall i | 0 <= i < |InFlight(s.turns)|
      ensures FindSession(s.sessions, InFlight(s.turns)[i].sessionId).Some?
    {
      assert Frozen(s.sessions, s.turns[Positions(s.turns)[i]]);
    }
    PlanSucceeds(s, |InFlight(s.turns)|, supply, now);
  }
}
