/** What never changes again: recorded events, a finished turn, a session's model, text once taken. */
module AgentHistory {
  import opened Wrappers
  import opened AgentRecords
  import opened AgentStore
  import opened AgentInvariants
  import opened AgentTheorems
  import AgentContext
  import Sources

  predicate SessionStays(x: Session, y: Session) {
    y.id == x.id && y.modelId == x.modelId && y.profileId == x.profileId
  }

  /** A turn keeps its identity and its text, and once finished it is final. */
  predicate TurnGrows(t: Turn, u: Turn) {
    && u.id == t.id && u.sessionId == t.sessionId && u.ordinal == t.ordinal && u.userText == t.userText
    && u.modelId == t.modelId && u.profileId == t.profileId
    && t.agentText <= u.agentText
    && (t.state.Terminal() ==> u == t)
    && (t.state.Streaming? ==> !u.state.Pending?)
  }

  predicate Grows(s: Store, s': Store) {
    && |s.sessions| <= |s'.sessions|
    && (forall i :: 0 <= i < |s.sessions| ==> SessionStays(s.sessions[i], s'.sessions[i]))
    && |s.turns| <= |s'.turns|
    && (forall i :: 0 <= i < |s.turns| ==> TurnGrows(s.turns[i], s'.turns[i]))
    && s.events <= s'.events
    && s.sources <= s'.sources
  }

  lemma GrowsTransitive(a: Store, b: Store, c: Store)
    requires Grows(a, b) && Grows(b, c)
    ensures Grows(a, c)
  {
    forall i | 0 <= i < |a.sessions| ensures SessionStays(a.sessions[i], c.sessions[i]) {
      assert SessionStays(a.sessions[i], b.sessions[i]) && SessionStays(b.sessions[i], c.sessions[i]);
    }
    forall i | 0 <= i < |a.turns| ensures TurnGrows(a.turns[i], c.turns[i]) {
      assert TurnGrows(a.turns[i], b.turns[i]) && TurnGrows(b.turns[i], c.turns[i]);
    }
  }

  lemma MoveGrows(s: Store, s': Store, i: nat, x: Turn, newEvents: seq<Event>)
    requires Moves(s, s', i, x, newEvents) && TurnGrows(s.turns[i], x)
    ensures Grows(s, s')
  {
  }

  lemma FinishedGrows(t: Turn, response: Option<string>, code: string, now: int)
    ensures t.Complete(response, now).Ok? ==> TurnGrows(t, t.Complete(response, now).value)
    ensures t.Cancel(now).Ok? ==> TurnGrows(t, t.Cancel(now).value)
    ensures t.Fail(code, now).Ok? ==> TurnGrows(t, t.Fail(code, now).value)
    ensures t.Interrupt(now).Ok? ==> TurnGrows(t, t.Interrupt(now).value)
  {
  }

  lemma FinishGrows(s: Store, i: nat, finished: Result<Turn, AgentError>, eventId: Id, now: int)
    requires i < |s.turns| && UniqueTurns(s.turns) && Frozen(s.sessions, s.turns[i])
    requires finished.Ok? ==> Finishes(s.turns[i], finished.value) && TurnGrows(s.turns[i], finished.value)
    ensures Grows(s, Finish(s, finished, eventId, now).store)
  {
    if finished.Ok? {
      var e := PersistShape(s, i, finished.value, eventId, now);
      MoveGrows(s, Finish(s, finished, eventId, now).store, i, finished.value, [e]);
    }
  }

  predicate Linked(s: Store) {
    UniqueTurns(s.turns) && forall i :: 0 <= i < |s.turns| ==> Frozen(s.sessions, s.turns[i])
  }

  lemma CompleteGrows(s: Store, turnId: Id, response: Option<string>, eventId: Id, now: int)
    requires Linked(s)
    ensures Grows(s, CompleteTurn(s, turnId, response, eventId, now).store)
  {
    var k := FindTurn(s.turns, turnId);
    if k.Some? {
      FinishersFinish(s.turns[k.value], response, "", now);
      FinishedGrows(s.turns[k.value], response, "", now);
      FinishGrows(s, k.value, s.turns[k.value].Complete(response, now), eventId, now);
    }
  }

  lemma CancelGrows(s: Store, turnId: Id, eventId: Id, now: int)
    requires Linked(s)
    ensures Grows(s, CancelTurn(s, turnId, eventId, now).store)
  {
    var k := FindTurn(s.turns, turnId);
    if k.Some? {
      FinishersFinish(s.turns[k.value], None, "", now);
      FinishedGrows(s.turns[k.value], None, "", now);
      FinishGrows(s, k.value, s.turns[k.value].Cancel(now), eventId, now);
    }
  }

  lemma FailGrows(s: Store, k: nat, code: string, eventId: Id, now: int)
    requires Linked(s) && k < |s.turns|
    ensures Grows(s, Finish(s, s.turns[k].Fail(code, now), eventId, now).store)
  {
    FinishersFinish(s.turns[k], None, code, now);
    FinishedGrows(s.turns[k], None, code, now);
    FinishGrows(s, k, s.turns[k].Fail(code, now), eventId, now);
  }

  lemma LongerGrows(s: Store, s': Store, k: nat, x: Turn)
    requires k < |s.turns| && s.turns[k].state.InFlight()
    requires x == s.turns[k].(agentText := x.agentText, state := x.state) && s.turns[k].agentText <= x.agentText
    requires s.turns[k].state.Streaming? ==> x.state.Streaming?
    requires s'.sessions == s.sessions && s'.turns == s.turns[k := x] && s.events <= s'.events && s'.sources == s.sources
    ensures Grows(s, s')
  {
  }

  lemma DeltaGrows(s: Store, k: nat, text: string, eventId: Id, now: int)
    requires Linked(s) && k < |s.turns|
    ensures Grows(s, ApplyDelta(s, s.turns[k].id, text, eventId, now).store)
  {
    var s' := ApplyDelta(s, s.turns[k].id, text, eventId, now).store;
    DeltaShape(s, k, text, eventId, now);
    if s.turns[k].state.InFlight() {
      if s.turns[k].AppendText(text).None? {
        FailGrows(s, k, "output_limit", eventId, now);
      } else {
        LongerGrows(s, s', k, s'.turns[k]);
      }
    }
  }

  lemma FollowUpGrows(s: Store, m: Message, k: nat, supply: Id)
    requires k < |s.sessions| && ValidateModelId(s.sessions[k].modelId) == Some(s.sessions[k].modelId)
    requires FindSession(s.sessions, s.sessions[k].id) == Some(k) && FollowUp(s, m, s.sessions[k], supply).result.Ok?
    ensures Grows(s, FollowUp(s, m, s.sessions[k], supply).store)
  {
    FollowUpShape(s, m, k, supply);
  }

  lemma FirstSendGrows(s: Store, m: Message, supply: Id)
    requires FirstSend(s, m, supply).result.Ok?
    ensures Grows(s, FirstSend(s, m, supply).store)
  {
    var session := FirstSendShape(s, m, supply);
  }

  lemma SendGrows(s: Store, m: Message, supply: Id)
    requires SessionsOk(s.sessions, supply)
    ensures Grows(s, Send(s, m, supply).store)
  {
    SendCases(s, m, supply);
    if Send(s, m, supply).result.Ok? {
      if m.sessionId.Some? {
        FollowUpGrows(s, m, FindSession(s.sessions, m.sessionId.value).value, supply);
      } else {
        FirstSendGrows(s, m, supply);
      }
    }
  }

  lemma AssociateGrows(s: Store, sessionId: Id, projectId: Option<Id>, eventId: Id, now: int)
    ensures Grows(s, SetProject(s, sessionId, projectId, eventId, now).store)
  {
    var k := FindSession(s.sessions, sessionId);
    if k.Some? {
      AssociateShape(s, k.value, sessionId, projectId, eventId, now);
    }
  }

  lemma InterruptGrows(s: Store, k: nat, eventId: Id, now: int)
    requires Linked(s) && k < |s.turns|
    ensures Grows(s, Finish(s, s.turns[k].Interrupt(now), eventId, now).store)
  {
    FinishersFinish(s.turns[k], None, "", now);
    FinishedGrows(s.turns[k], None, "", now);
    FinishGrows(s, k, s.turns[k].Interrupt(now), eventId, now);
  }

  lemma RecoveredGrows(s: Store, s': Store, eventId: Id, now: int)
    requires Linked(s)
    requires s' == if InFlight(s.turns) == [] || s.turns == [] then s
                   else Finish(s, s.turns[|s.turns| - 1].Interrupt(now), eventId, now).store
    ensures Grows(s, s')
  {
    if InFlight(s.turns) != [] {
      InterruptGrows(s, |s.turns| - 1, eventId, now);
    }
  }

  lemma RecoverGrows(a: Agents, now: int)
    requires Inv(a)
    ensures Grows(a.store, InterruptAll(a.store, a.supply, now).store)
  {
    RecoverShape(a, now);
    RecoveredGrows(a.store, InterruptAll(a.store, a.supply, now).store, a.supply, now);
  }

  lemma SendingGrows(a: Agents, m: Message)
    requires Inv(a)
    ensures Grows(a.store, Do(a, Sending(m)).store)
  {
    SendGrows(a.store, m, a.supply);
  }

  lemma TakingGrows(a: Agents, id: Id, text: string, now: int)
    requires Inv(a)
    ensures Grows(a.store, Do(a, Delta(id, text, now)).store)
  {
    if FindTurn(a.store.turns, id).Some? {
      DeltaGrows(a.store, FindTurn(a.store.turns, id).value, text, a.supply, now);
    }
  }

  lemma AssociatingGrows(a: Agents, id: Id, projectId: Option<Id>, now: int)
    ensures Grows(a.store, Do(a, Associating(id, projectId, now)).store)
  {
    AssociateGrows(a.store, id, projectId, a.supply, now);
  }

  lemma RecoveringShape(a: Agents, now: int)
    ensures Do(a, Recovering(now)).store == InterruptAll(a.store, a.supply, now).store
  {
  }

  lemma RecoveringGrows(a: Agents, now: int)
    requires Inv(a)
    ensures Grows(a.store, Do(a, Recovering(now)).store)
  {
    RecoveringShape(a, now);
    RecoverGrows(a, now);
  }

  lemma CompletingGrows(a: Agents, id: Id, response: Option<string>, now: int)
    requires Inv(a)
    ensures Grows(a.store, Do(a, Completing(id, response, now)).store)
  {
    CompleteGrows(a.store, id, response, a.supply, now);
  }

  lemma CancellingGrows(a: Agents, id: Id, now: int)
    requires Inv(a)
    ensures Grows(a.store, Do(a, Cancelling(id, now)).store)
  {
    CancelGrows(a.store, id, a.supply, now);
  }

  lemma FailTurnGrows(s: Store, id: Id, code: string, eventId: Id, now: int)
    requires Linked(s)
    ensures Grows(s, FailTurn(s, id, code, eventId, now).store)
  {
    var k := FindTurn(s.turns, id);
    if k.Some? {
      FailGrows(s, k.value, code, eventId, now);
    }
  }

  lemma FailingGrows(a: Agents, id: Id, code: string, now: int)
    requires Inv(a)
    ensures Grows(a.store, Do(a, Failing(id, code, now)).store)
  {
    FailTurnGrows(a.store, id, code, a.supply, now);
  }

  lemma DoGrows(a: Agents, c: Command)
    requires Inv(a)
    ensures Grows(a.store, Do(a, c).store)
  {
    match c
    case Sending(m) => SendingGrows(a, m);
    case Delta(id, text, now) => TakingGrows(a, id, text, now);
    case Associating(id, projectId, now) => AssociatingGrows(a, id, projectId, now);
    case Recovering(now) => RecoveringGrows(a, now);
    case Completing(id, response, now) => CompletingGrows(a, id, response, now);
    case Cancelling(id, now) => CancellingGrows(a, id, now);
    case Failing(id, code, now) => FailingGrows(a, id, code, now);
  }

  /** Whatever happens later: the log only grows, a finished turn stays exactly as it is, text already
      taken stays in front, and sessions keep their model. */
  lemma {:induction false} NothingIsRewritten(commands: seq<Command>, later: seq<Command>)
    requires commands <= later
    ensures Grows(Run(commands).store, Run(later).store)
    decreases |later|
  {
    if commands != later {
      var before := later[..|later| - 1];
      NothingIsRewritten(commands, before);
      RunKeeps(before);
      DoGrows(Run(before), later[|later| - 1]);
      GrowsTransitive(Run(commands).store, Run(before).store, Run(later).store);
    }
  }

  // ----- Attached sources -----

  /** Nothing was attached, or one source to the turn the command made. */
  predicate SourcesGrow(a: Agents, a': Agents) {
    var before, now := a.store.sources, a'.store.sources;
    now == before || (|now| == |before| + 1 && before <= now && now[|before|].turnId == a.supply + 1)
  }

  lemma FinishKeepsSources(s: Store, finished: Result<Turn, AgentError>, eventId: Id, now: int)
    ensures Finish(s, finished, eventId, now).store.sources == s.sources
  {
  }

  lemma FollowUpAttaches(s: Store, m: Message, k: nat, supply: Id)
    requires k < |s.sessions| && ValidateModelId(s.sessions[k].modelId) == Some(s.sessions[k].modelId)
    requires FindSession(s.sessions, s.sessions[k].id) == Some(k) && FollowUp(s, m, s.sessions[k], supply).result.Ok?
    ensures FollowUp(s, m, s.sessions[k], supply).store.sources == Attach(s.sources, supply + 1, m.source)
  {
    FollowUpShape(s, m, k, supply);
  }

  lemma FirstSendAttaches(s: Store, m: Message, supply: Id)
    requires FirstSend(s, m, supply).result.Ok?
    ensures FirstSend(s, m, supply).store.sources == Attach(s.sources, supply + 1, m.source)
  {
    var session := FirstSendShape(s, m, supply);
  }

  lemma SendAttaches(s: Store, m: Message, supply: Id)
    requires SessionsOk(s.sessions, supply)
    ensures var r := Send(s, m, supply);
            r.store.sources == if r.result.Ok? then Attach(s.sources, supply + 1, m.source) else s.sources
  {
    SendCases(s, m, supply);
    if Send(s, m, supply).result.Ok? {
      if m.sessionId.Some? {
        FollowUpAttaches(s, m, FindSession(s.sessions, m.sessionId.value).value, supply);
      } else {
        FirstSendAttaches(s, m, supply);
      }
    }
  }

  lemma SendingGrowsSources(a: Agents, m: Message)
    requires Inv(a)
    ensures SourcesGrow(a, Do(a, Sending(m)))
  {
    SendingShape(a, m);
    SendAttaches(a.store, m, a.supply);
  }

  lemma RecoveringKeepsSources(a: Agents, now: int)
    requires Inv(a)
    ensures Do(a, Recovering(now)).store.sources == a.store.sources
  {
    RecoveringShape(a, now);
    RecoverShape(a, now);
    if InFlight(a.store.turns) != [] {
      FinishKeepsSources(a.store, a.store.turns[|a.store.turns| - 1].Interrupt(now), a.supply, now);
    }
  }

  lemma OneTurnKeepsSources(s: Store, id: Id, response: Option<string>, text: string, eventId: Id, now: int)
    ensures CompleteTurn(s, id, response, eventId, now).store.sources == s.sources
    ensures CancelTurn(s, id, eventId, now).store.sources == s.sources
    ensures FailTurn(s, id, text, eventId, now).store.sources == s.sources
  {
  }

  lemma DeltaKeepsSources(s: Store, id: Id, text: string, eventId: Id, now: int)
    ensures ApplyDelta(s, id, text, eventId, now).store.sources == s.sources
  {
  }

  /** Commands other than sends attach nothing. */
  lemma OthersKeepSources(a: Agents, c: Command)
    requires Inv(a) && !c.Sending?
    ensures Do(a, c).store.sources == a.store.sources
  {
    match c
    case Delta(id, text, now) => DeltaKeepsSources(a.store, id, text, a.supply, now);
    case Completing(id, response, now) => OneTurnKeepsSources(a.store, id, response, "", a.supply, now);
    case Cancelling(id, now) => OneTurnKeepsSources(a.store, id, None, "", a.supply, now);
    case Failing(id, code, now) => OneTurnKeepsSources(a.store, id, None, code, a.supply, now);
    case Recovering(now) => RecoveringKeepsSources(a, now);
    case Associating(_, _, _) =>
  }

  lemma DoGrowsSources(a: Agents, c: Command)
    requires Inv(a)
    ensures SourcesGrow(a, Do(a, c))
  {
    if c.Sending? {
      SendingGrowsSources(a, c.message);
    } else {
      OthersKeepSources(a, c);
    }
  }

  predicate SourcesBelow(a: Agents) {
    forall i :: 0 <= i < |a.store.sources| ==> a.store.sources[i].turnId < a.supply
  }

  lemma SupplyGrows(a: Agents, c: Command)
    ensures a.supply + 4 <= Do(a, c).supply
  {
  }

  lemma GrownSourcesBelow(a: Agents, a': Agents)
    requires SourcesBelow(a) && SourcesGrow(a, a') && a.supply + 4 <= a'.supply
    ensures SourcesBelow(a')
  {
  }

  lemma {:induction false} RunSourcesBelow(commands: seq<Command>)
    ensures SourcesBelow(Run(commands))
  {
    if commands != [] {
      var before, last := Run(commands[..|commands| - 1]), commands[|commands| - 1];
      RunSourcesBelow(commands[..|commands| - 1]);
      RunKeeps(commands[..|commands| - 1]);
      DoGrowsSources(before, last);
      SupplyGrows(before, last);
      GrownSourcesBelow(before, Do(before, last));
    }
  }

  lemma {:induction false} SourceOfPrefix(sources: seq<TurnSource>, more: seq<TurnSource>, id: Id, k: nat)
    requires k <= |sources| && forall i :: 0 <= i < |more| ==> more[i].turnId != id
    ensures SourceFrom(sources + more, id, k) == SourceFrom(sources, id, k)
    decreases |sources| - k
  {
    if k < |sources| {
      SourceOfPrefix(sources, more, id, k + 1);
    } else {
      NoSource(sources + more, id, k);
    }
  }

  lemma {:induction false} NoSource(sources: seq<TurnSource>, id: Id, k: nat)
    requires k <= |sources| && forall i :: k <= i < |sources| ==> sources[i].turnId != id
    ensures SourceFrom(sources, id, k) == None
    decreases |sources| - k
  {
    if k < |sources| {
      NoSource(sources, id, k + 1);
    }
  }

  lemma AttachedFound(sources: seq<TurnSource>, id: Id, source: Option<Sources.Source>)
    requires forall i :: 0 <= i < |sources| ==> sources[i].turnId != id
    ensures SourceFrom(Attach(sources, id, source), id, 0)
         == if source.Some? then Some(AgentContext.ContextOf(source.value)) else None
  {
    NoSource(sources, id, 0);
    if source.Some? {
      NewSourceFound(sources, TurnSource(id, source.value), 0);
    }
  }

  lemma SentSourceFound(s: Store, m: Message, supply: Id, r: After<Prepared>)
    requires SessionsOk(s.sessions, supply) && r == Send(s, m, supply) && r.result.Ok?
    requires forall i :: 0 <= i < |s.sources| ==> s.sources[i].turnId != supply + 1
    ensures SourceFrom(r.store.sources, supply + 1, 0)
         == if m.source.Some? then Some(AgentContext.ContextOf(m.source.value)) else None
  {
    SendAttaches(s, m, supply);
    AttachedFound(s.sources, supply + 1, m.source);
  }

  /** The source a send carries is the one found for its turn, and none if it carries none; in every
      state the invariants allow, so in every reachable one. */
  lemma SourceIsAttached(a: Agents, m: Message, r: After<Prepared>)
    requires Inv(a) && SourcesBelow(a) && r == Send(a.store, m, a.supply) && r.result.Ok?
    ensures SourceFrom(r.store.sources, a.supply + 1, 0)
         == if m.source.Some? then Some(AgentContext.ContextOf(m.source.value)) else None
  {
    SentSourceFound(a.store, m, a.supply, r);
  }

  lemma {:induction false} NewSourceFound(sources: seq<TurnSource>, x: TurnSource, k: nat)
    requires k <= |sources| && forall i :: 0 <= i < |sources| ==> sources[i].turnId != x.turnId
    ensures SourceFrom(sources + [x], x.turnId, k) == Some(AgentContext.ContextOf(x.source))
    decreases |sources| - k
  {
    if k < |sources| {
      NewSourceFound(sources, x, k + 1);
    }
  }

  lemma GrownSourceFound(a: Agents, a': Agents, id: Id)
    requires SourcesGrow(a, a') && id < a.supply
    ensures SourceFrom(a'.store.sources, id, 0) == SourceFrom(a.store.sources, id, 0)
  {
    var now, before := a'.store.sources, a.store.sources;
    if now != before {
      assert now == before + [now[|before|]];
      SourceOfPrefix(before, [now[|before|]], id, 0);
    }
  }

  /** And no command changes what is found for a stored turn. */
  lemma SourceStays(a: Agents, c: Command, id: Id)
    requires Inv(a) && id < a.supply
    ensures SourceFrom(Do(a, c).store.sources, id, 0) == SourceFrom(a.store.sources, id, 0)
  {
    DoGrowsSources(a, c);
    GrownSourceFound(a, Do(a, c), id);
  }
}
