/** Every use case keeps the agent invariant, and what follows for every sequence of them. */
module AgentTheorems {
  import opened Wrappers
  import opened Text
  import opened AgentRecords
  import opened AgentStore
  import opened AgentInvariants
  import AgentContext

  // ----- Turns coming to an end -----

  /** x is the turn t brought to its end. */
  predicate Finishes(t: Turn, x: Turn) {
    && t.state.InFlight() && x.state.Terminal() && x.finishedAt.Some?
    && x.id == t.id && x.sessionId == t.sessionId && x.ordinal == t.ordinal
    && x.modelId == t.modelId && x.profileId == t.profileId && x.agentText == t.agentText
  }

  lemma FinishersFinish(t: Turn, response: Option<string>, code: string, now: int)
    ensures t.Complete(response, now).Ok? ==> Finishes(t, t.Complete(response, now).value)
    ensures t.Cancel(now).Ok? ==> Finishes(t, t.Cancel(now).value)
    ensures t.Fail(code, now).Ok? ==> Finishes(t, t.Fail(code, now).value)
    ensures t.Interrupt(now).Ok? ==> Finishes(t, t.Interrupt(now).value)
  {
  }

  lemma FinishedTurnOk(events: seq<Event>, accepted: map<Id, seq<string>>, t: Turn, x: Turn, e: Event)
    requires TurnOk(events, accepted, t) && Finishes(t, x)
    requires e.turnId == Some(t.id) && TerminalKind(x.state) == Ok(e.kind)
    ensures TurnOk(events + [e], accepted, x)
  {
    TurnLogOfAppend(events, e, t.id);
  }

  lemma PersistShape(s: Store, i: nat, x: Turn, eventId: Id, now: int) returns (e: Event)
    requires i < |s.turns| && UniqueTurns(s.turns) && Frozen(s.sessions, s.turns[i]) && Finishes(s.turns[i], x)
    ensures TerminalKind(x.state) == Ok(e.kind) && e.turnId == Some(x.id)
    ensures PersistTerminal(s, x, eventId, now).result == Ok(x)
    ensures Moves(s, PersistTerminal(s, x, eventId, now).store, i, x, [e])
  {
    var k := FindSession(s.sessions, x.sessionId).value;
    e := Event(eventId, x.sessionId, Some(x.id), NextSequence(s.events, x.sessionId), TerminalKind(x.state).value);
    FindUniqueTurn(s.turns, i);
    assert Touched(s.sessions, PersistTerminal(s, x, eventId, now).store.sessions, k, now);
  }

  lemma PersistKeeps(a: Agents, a': Agents, i: nat, x: Turn, now: int)
    requires Inv(a) && i < |a.store.turns| && Finishes(a.store.turns[i], x)
    requires a'.store == PersistTerminal(a.store, x, a.supply, now).store
    requires a'.accepted == a.accepted && a.supply <= a'.supply
    ensures Inv(a')
  {
    assert Frozen(a.store.sessions, a.store.turns[i]);
    assert TurnOk(a.store.events, a.accepted, a.store.turns[i]);
    var e := PersistShape(a.store, i, x, a.supply, now);
    FinishedTurnOk(a.store.events, a.accepted, a.store.turns[i], x, e);
    MoveKeeps(a, a', i, x, [e]);
  }

  lemma EnoughSupply(a: Agents, a': Agents)
    requires Inv(a) && a'.store == a.store && a'.accepted == a.accepted && a.supply <= a'.supply
    ensures Inv(a')
  {
  }

  lemma FinishKeeps(a: Agents, a': Agents, i: nat, finished: Result<Turn, AgentError>, now: int)
    requires Inv(a) && i < |a.store.turns| && (finished.Ok? ==> Finishes(a.store.turns[i], finished.value))
    requires a'.store == Finish(a.store, finished, a.supply, now).store
    requires a'.accepted == a.accepted && a.supply <= a'.supply
    ensures Inv(a')
  {
    if finished.Ok? {
      PersistKeeps(a, a', i, finished.value, now);
    } else {
      EnoughSupply(a, a');
    }
  }

  lemma CompletedKeeps(a: Agents, a': Agents, turnId: Id, response: Option<string>, now: int, after: After<Turn>)
    requires Inv(a) && after == CompleteTurn(a.store, turnId, response, a.supply, now)
    requires a'.store == after.store && a'.accepted == a.accepted && a.supply <= a'.supply
    ensures Inv(a')
  {
    var k := FindTurn(a.store.turns, turnId);
    if k.Some? {
      FinishersFinish(a.store.turns[k.value], response, "", now);
      FinishKeeps(a, a', k.value, a.store.turns[k.value].Complete(response, now), now);
    } else {
      EnoughSupply(a, a');
    }
  }

  lemma CompletingKeeps(a: Agents, turnId: Id, response: Option<string>, now: int)
    requires Inv(a)
    ensures Inv(Do(a, Completing(turnId, response, now)))
  {
    CompletedKeeps(a, Do(a, Completing(turnId, response, now)), turnId, response, now, CompleteTurn(a.store, turnId, response, a.supply, now));
  }

  lemma CancelledKeeps(a: Agents, a': Agents, turnId: Id, now: int, after: After<Turn>)
    requires Inv(a) && after == CancelTurn(a.store, turnId, a.supply, now)
    requires a'.store == after.store && a'.accepted == a.accepted && a.supply <= a'.supply
    ensures Inv(a')
  {
    var k := FindTurn(a.store.turns, turnId);
    if k.Some? {
      FinishersFinish(a.store.turns[k.value], None, "", now);
      FinishKeeps(a, a', k.value, a.store.turns[k.value].Cancel(now), now);
    } else {
      EnoughSupply(a, a');
    }
  }

  lemma CancellingKeeps(a: Agents, turnId: Id, now: int)
    requires Inv(a)
    ensures Inv(Do(a, Cancelling(turnId, now)))
  {
    CancelledKeeps(a, Do(a, Cancelling(turnId, now)), turnId, now, CancelTurn(a.store, turnId, a.supply, now));
  }

  lemma FailedKeeps(a: Agents, a': Agents, turnId: Id, code: string, now: int, after: After<Turn>)
    requires Inv(a) && after == FailTurn(a.store, turnId, code, a.supply, now)
    requires a'.store == after.store && a'.accepted == a.accepted && a.supply <= a'.supply
    ensures Inv(a')
  {
    var k := FindTurn(a.store.turns, turnId);
    if k.Some? {
      FinishersFinish(a.store.turns[k.value], None, code, now);
      FinishKeeps(a, a', k.value, a.store.turns[k.value].Fail(code, now), now);
    } else {
      EnoughSupply(a, a');
    }
  }

  lemma FailingKeeps(a: Agents, turnId: Id, code: string, now: int)
    requires Inv(a)
    ensures Inv(Do(a, Failing(turnId, code, now)))
  {
    FailedKeeps(a, Do(a, Failing(turnId, code, now)), turnId, code, now, FailTurn(a.store, turnId, code, a.supply, now));
  }

  // ----- Text arriving -----

  lemma ConcatOfAppend(deltas: seq<string>, text: string)
    ensures Concat(deltas + [text]) == Concat(deltas) + text
  {
    assert (deltas + [text])[..|deltas|] == deltas;
  }

  lemma LongerText(accepted: map<Id, seq<string>>, t: Turn, text: string)
    requires t.id in accepted && t.agentText == Concat(accepted[t.id]) && t.AppendText(text).Some?
    ensures var longer := t.AppendText(text).value;
            && longer == t.(agentText := t.agentText + text)
            && longer.agentText == Concat(accepted[t.id] + [text])
            && ByteLen(longer.agentText) <= MAX_AGENT_OUTPUT_UTF8
            && (longer.agentText == "" <==> t.agentText == "" && text == "")
  {
    ConcatOfAppend(accepted[t.id], text);
    ByteLenConcat(t.agentText, text);
  }

  /** More text for a turn that already has some, or none for one that has none: no event is due. */
  lemma MoreTextOk(events: seq<Event>, accepted: map<Id, seq<string>>, t: Turn, text: string)
    requires TurnOk(events, accepted, t) && t.state.InFlight() && t.AppendText(text).Some?
    requires t.state.Streaming? || text == ""
    ensures TurnOk(events, accepted[t.id := accepted[t.id] + [text]], t.AppendText(text).value)
  {
    LongerText(accepted, t, text);
  }

  /** The first text makes the turn streaming, with its event. */
  lemma FirstTextOk(events: seq<Event>, accepted: map<Id, seq<string>>, t: Turn, text: string, e: Event)
    requires TurnOk(events, accepted, t) && t.state.Pending? && t.AppendText(text).Some? && text != ""
    requires e.turnId == Some(t.id) && e.kind == TurnStreaming
    ensures TurnOk(events + [e], accepted[t.id := accepted[t.id] + [text]], t.AppendText(text).value.(state := Streaming))
  {
    LongerText(accepted, t, text);
    TurnLogOfAppend(events, e, t.id);
  }

  lemma AcceptedDeltaKeeps(a: Agents, a': Agents, i: nat, text: string)
    requires Inv(a) && i < |a.store.turns|
    requires a.store.turns[i].state.InFlight() && a.store.turns[i].AppendText(text).Some?
    requires var t := a.store.turns[i];
             var longer := t.AppendText(text).value;
             && t.id in a.accepted
             && a'.accepted == a.accepted[t.id := a.accepted[t.id] + [text]] && a.supply <= a'.supply
             && a'.store == if t.state.Pending? && text != ""
                            then a.store.(turns := a.store.turns[i := longer.(state := Streaming)],
                                          events := a.store.events + [StreamingEvent(a.store, t, a.supply)])
                            else a.store.(turns := a.store.turns[i := longer])
    ensures Inv(a')
  {
    var t := a.store.turns[i];
    var longer := t.AppendText(text).value;
    assert TurnOk(a.store.events, a.accepted, t);
    var e := StreamingEvent(a.store, t, a.supply);
    if t.state.Pending? && text != "" {
      FirstTextOk(a.store.events, a.accepted, t, text, e);
      MoveKeeps(a, a', i, longer.(state := Streaming), [e]);
    } else {
      MoreTextOk(a.store.events, a.accepted, t, text);
      assert a.store.events + [] == a.store.events;
      MoveKeeps(a, a', i, longer, []);
    }
  }

  lemma DeltaShape(s: Store, i: nat, text: string, eventId: Id, now: int)
    requires i < |s.turns| && UniqueTurns(s.turns)
    ensures var t := s.turns[i];
            var after := ApplyDelta(s, t.id, text, eventId, now);
            if t.state.Terminal() then after.store == s && after.result.Err?
            else if t.AppendText(text).None? then
              after.store == Finish(s, t.Fail("output_limit", now), eventId, now).store && after.result.Err?
            else
              && after.result.Ok?
              && after.store == if t.state.Pending? && text != ""
                                then s.(turns := s.turns[i := t.AppendText(text).value.(state := Streaming)],
                                        events := s.events + [StreamingEvent(s, t, eventId)])
                                else s.(turns := s.turns[i := t.AppendText(text).value])
  {
    FindUniqueTurn(s.turns, i);
  }

  lemma DeltaKeeps(a: Agents, a': Agents, turnId: Id, text: string, now: int, r: After<Turn>)
    requires Inv(a) && r == ApplyDelta(a.store, turnId, text, a.supply, now) && a'.store == r.store && a.supply <= a'.supply
    requires a'.accepted == if r.result.Ok? && turnId in a.accepted
                            then a.accepted[turnId := a.accepted[turnId] + [text]] else a.accepted
    ensures Inv(a')
  {
    var k := FindTurn(a.store.turns, turnId);
    if k.None? {
      EnoughSupply(a, a');
    } else {
      var t := a.store.turns[k.value];
      DeltaShape(a.store, k.value, text, a.supply, now);
      assert TurnOk(a.store.events, a.accepted, t);
      if t.state.Terminal() {
        EnoughSupply(a, a');
      } else if t.AppendText(text).None? {
        FinishersFinish(t, None, "output_limit", now);
        FinishKeeps(a, a', k.value, t.Fail("output_limit", now), now);
      } else {
        AcceptedDeltaKeeps(a, a', k.value, text);
      }
    }
  }

  lemma TakingKeeps(a: Agents, turnId: Id, text: string, now: int)
    requires Inv(a)
    ensures Inv(Do(a, Delta(turnId, text, now)))
  {
    DeltaKeeps(a, Do(a, Delta(turnId, text, now)), turnId, text, now, ApplyDelta(a.store, turnId, text, a.supply, now));
  }

  // ----- Sessions changing their project -----

  /** A session stored again with its profile and model. */
  lemma PutSessionKeeps(a: Agents, a1: Agents, k: nat, x: Session)
    requires Inv(a) && k < |a.store.sessions|
    requires x.id == a.store.sessions[k].id && x.modelId == a.store.sessions[k].modelId && x.profileId == a.store.sessions[k].profileId
    requires a1 == a.(store := a.store.(sessions := a.store.sessions[k := x]))
    ensures Inv(a1)
    ensures FindSession(a1.store.sessions, x.id) == FindSession(a.store.sessions, x.id)
  {
    PutKeepsSessions(a.store.sessions, k, x, a.supply);
    PutSessionKeepsTurns(a.store.sessions, k, x, a.store.turns, a.supply);
    PutSessionKeepsEvents(a.store, k, x);
    SessionAfterPut(a.store.sessions, k, x, x.id);
  }

  /** An event of a session alone. */
  lemma SessionEventKeeps(a: Agents, a': Agents, e: Event)
    requires Inv(a) && FindSession(a.store.sessions, e.sessionId).Some? && e.turnId.None?
    requires e.sequence == NextSequence(a.store.events, e.sessionId)
    requires a'.store == a.store.(events := a.store.events + [e]) && a'.accepted == a.accepted && a.supply <= a'.supply
    ensures Inv(a')
  {
    AppendKeepsEvents(a.store, e);
    AppendKeepsSequences(a.store.events, e);
    OtherEventKeepsLogs(a.store.turns, a.store.events, e, a.accepted);
  }

  lemma AssociateShape(s: Store, k: nat, sessionId: Id, projectId: Option<Id>, supply: Id, now: int)
    requires FindSession(s.sessions, sessionId) == Some(k)
    ensures SetProject(s, sessionId, projectId, supply, now).store
         == s.(sessions := s.sessions[k := s.sessions[k].(projectId := projectId, updatedAt := now)],
               events := s.events + [Event(supply, sessionId, None, NextSequence(s.events, sessionId), ProjectAssociationChanged)])
  {
  }

  lemma AssociateKeeps(a: Agents, a': Agents, sessionId: Id, projectId: Option<Id>, now: int)
    requires Inv(a) && a'.store == SetProject(a.store, sessionId, projectId, a.supply, now).store
    requires a'.accepted == a.accepted && a.supply <= a'.supply
    ensures Inv(a')
  {
    var k := FindSession(a.store.sessions, sessionId);
    if k.None? {
      EnoughSupply(a, a');
    } else {
      AssociateShape(a.store, k.value, sessionId, projectId, a.supply, now);
      var x := a.store.sessions[k.value].(projectId := projectId, updatedAt := now);
      var e := Event(a.supply, sessionId, None, NextSequence(a.store.events, sessionId), ProjectAssociationChanged);
      var a1 := a.(store := a.store.(sessions := a.store.sessions[k.value := x]));
      PutSessionKeeps(a, a1, k.value, x);
      SessionEventKeeps(a1, a', e);
    }
  }

  lemma OtherEventKeepsLogs(turns: seq<Turn>, events: seq<Event>, e: Event, accepted: map<Id, seq<string>>)
    requires LogsOk(turns, events, accepted)
    requires e.turnId.Some? ==> forall i :: 0 <= i < |turns| ==> turns[i].id != e.turnId.value
    ensures LogsOk(turns, events + [e], accepted)
  {
    forall i | 0 <= i < |turns| ensures TurnOk(events + [e], accepted, turns[i]) {
      assert TurnOk(events, accepted, turns[i]);
      TurnLogOfAppend(events, e, turns[i].id);
    }
  }

  // ----- Sends -----

  lemma {:induction false} InFlightEmpty(turns: seq<Turn>)
    ensures InFlight(turns) == [] <==> forall i :: 0 <= i < |turns| ==> turns[i].state.Terminal()
  {
    if turns != [] {
      InFlightEmpty(turns[..|turns| - 1]);
      assert forall i :: 0 <= i < |turns| - 1 ==> turns[i] == turns[..|turns| - 1][i];
    }
  }

  lemma SessionTurnsOfAppend(turns: seq<Turn>, x: Turn, s: Id)
    ensures SessionTurns(turns + [x], s) == SessionTurns(turns, s) + if x.sessionId == s then [x] else []
  {
    assert (turns + [x])[..|turns|] == turns;
  }

  lemma {:induction false} OrdinalOfPrefix(turns: seq<Turn>, more: seq<Turn>, s: Id, k: nat)
    requires k <= |turns|
    ensures OrdinalUpTo(turns + more, s, k) == OrdinalUpTo(turns, s, k)
  {
    if k > 0 {
      OrdinalOfPrefix(turns, more, s, k - 1);
      assert (turns + more)[k - 1] == turns[k - 1];
    }
  }

  lemma OrdinalAfterAppend(turns: seq<Turn>, x: Turn, s: Id)
    ensures var before := NextOrdinal(turns, s);
            NextOrdinal(turns + [x], s) == if x.sessionId == s && x.ordinal + 1 > before then x.ordinal + 1 else before
  {
    OrdinalOfPrefix(turns, [x], s, |turns|);
    assert (turns + [x])[|turns|] == x;
  }

  lemma {:induction false} NextOrdinalIsCount(turns: seq<Turn>, s: Id)
    requires Numbered(SessionTurns(turns, s))
    ensures NextOrdinal(turns, s) == |SessionTurns(turns, s)|
  {
    if turns != [] {
      var rest, last := turns[..|turns| - 1], turns[|turns| - 1];
      var before, all := SessionTurns(rest, s), SessionTurns(turns, s);
      assert forall i :: 0 <= i < |before| ==> before[i] == all[i];
      NextOrdinalIsCount(rest, s);
      OrdinalAfterAppend(rest, last, s);
      assert rest + [last] == turns;
      if last.sessionId == s {
        assert all[|before|] == last;
      }
    }
  }

  lemma AppendKeepsOrdinals(turns: seq<Turn>, x: Turn)
    requires OrdinalsOk(turns) && x.ordinal == NextOrdinal(turns, x.sessionId)
    ensures OrdinalsOk(turns + [x])
  {
    forall s: Id ensures Numbered(SessionTurns(turns + [x], s)) {
      assert Numbered(SessionTurns(turns, s));
      SessionTurnsOfAppend(turns, x, s);
      NextOrdinalIsCount(turns, s);
    }
  }

  lemma AppendTurnKeepsTurns(sessions: seq<Session>, turns: seq<Turn>, x: Turn, supply: Id, supply': Id)
    requires TurnsLinked(sessions, turns, supply) && Frozen(sessions, x) && supply <= x.id < supply'
    ensures TurnsLinked(sessions, turns + [x], supply')
  {
    var turns' := turns + [x];
    forall i | 0 <= i < |turns'| ensures Frozen(sessions, turns'[i]) {
      if i < |turns| {
        assert Frozen(sessions, turns[i]);
      }
    }
  }

  lemma AppendTurnKeepsEvents(s: Store, x: Turn)
    requires EventsLinked(s)
    ensures EventsLinked(s.(turns := s.turns + [x]))
  {
    forall k | 0 <= k < |s.events| ensures EventLinked(s.sessions, s.turns + [x], s.events[k]) {
      assert EventLinked(s.sessions, s.turns, s.events[k]);
      if s.events[k].turnId.Some? {
        TurnAfterAppend(s.turns, x, s.events[k].turnId.value);
      }
    }
  }

  /** A new turn has no events but the one stored with it. */
  lemma NewTurnLog(s: Store, x: Turn, e: Event)
    requires EventsLinked(s) && forall i :: 0 <= i < |s.turns| ==> s.turns[i].id != x.id
    requires e.turnId == Some(x.id) && e.kind == TurnPending
    ensures TurnLog(s.events + [e], x.id) == [TurnPending]
  {
    forall i | 0 <= i < |s.events| ensures s.events[i].turnId != Some(x.id) {
      assert EventLinked(s.sessions, s.turns, s.events[i]);
    }
    NoTurnNoLog(s.events, x.id);
    TurnLogOfAppend(s.events, e, x.id);
  }

  lemma NewTurnOk(events: seq<Event>, accepted: map<Id, seq<string>>, x: Turn)
    requires x.state.Pending? && x.agentText == "" && x.finishedAt.None? && TurnLog(events, x.id) == [TurnPending]
    ensures TurnOk(events, accepted[x.id := []], x)
  {
  }

  lemma NewTurnLogs(s: Store, x: Turn, e: Event, accepted: map<Id, seq<string>>, supply: Id)
    requires EventsLinked(s) && LogsOk(s.turns, s.events, accepted)
    requires forall i :: 0 <= i < |s.turns| ==> s.turns[i].id < supply
    requires supply <= x.id && x.state.Pending? && x.agentText == "" && x.finishedAt.None?
    requires e.turnId == Some(x.id) && e.kind == TurnPending
    ensures LogsOk(s.turns + [x], s.events + [e], accepted[x.id := []])
  {
    NewTurnLog(s, x, e);
    NewTurnOk(s.events + [e], accepted, x);
    OtherEventKeepsLogs(s.turns, s.events, e, accepted);
    forall i | 0 <= i < |s.turns| ensures TurnOk(s.events + [e], accepted[x.id := []], s.turns[i]) {
      assert TurnOk(s.events + [e], accepted, s.turns[i]);
    }
  }

  /** A pending turn appended with its event, in a session whose other turns are all finished. */
  lemma NewTurnKeeps(a: Agents, a': Agents, x: Turn, e: Event)
    requires Inv(a) && InFlight(a.store.turns) == []
    requires a.supply <= x.id < a'.supply && x.state.Pending? && x.agentText == "" && x.finishedAt.None?
    requires Frozen(a.store.sessions, x) && x.ordinal == NextOrdinal(a.store.turns, x.sessionId)
    requires e.sessionId == x.sessionId && e.turnId == Some(x.id) && e.kind == TurnPending
    requires e.sequence == NextSequence(a.store.events, x.sessionId)
    requires a'.store == Store(a.store.sessions, a.store.turns + [x], a.store.events + [e], a'.store.sources)
    requires a'.accepted == a.accepted[x.id := []]
    ensures Inv(a')
  {
    AppendTurnKeepsTurns(a.store.sessions, a.store.turns, x, a.supply, a'.supply);
    NewTurnKeepsEvents(a.store, x, e);
    NewTurnLogs(a.store, x, e, a.accepted, a.supply);
    AppendKeepsSequences(a.store.events, e);
    AppendKeepsOrdinals(a.store.turns, x);
    InFlightEmpty(a.store.turns);
  }

  lemma NewTurnKeepsEvents(s: Store, x: Turn, e: Event)
    requires EventsLinked(s) && Frozen(s.sessions, x) && forall i :: 0 <= i < |s.turns| ==> s.turns[i].id != x.id
    requires e.sessionId == x.sessionId && e.turnId == Some(x.id)
    ensures EventsLinked(s.(turns := s.turns + [x], events := s.events + [e]))
  {
    AppendTurnKeepsEvents(s, x);
    TurnAfterAppend(s.turns, x, x.id);
    AppendKeepsEvents(s.(turns := s.turns + [x]), e);
  }

  /** A new session with its first event. */
  lemma NewSessionKeeps(a: Agents, a1: Agents, session: Session, e: Event)
    requires Inv(a) && session.id == a.supply < a1.supply && ValidateModelId(session.modelId) == Some(session.modelId)
    requires e.sessionId == session.id && e.turnId == None && e.sequence == 0
    requires a1.store == a.store.(sessions := a.store.sessions + [session], events := a.store.events + [e])
    requires a1.accepted == a.accepted
    ensures Inv(a1)
    ensures FindSession(a1.store.sessions, session.id) == Some(|a.store.sessions|)
  {
    NothingOfNewSession(a, session.id);
    SessionAfterAppend(a.store.sessions, session, session.id);
    var a0 := a.(store := a.store.(sessions := a1.store.sessions), supply := a1.supply);
    NewSessionAlone(a, a0, session);
    SessionEventKeeps(a0, a1, e);
  }

  lemma NewSessionAlone(a: Agents, a0: Agents, session: Session)
    requires Inv(a) && session.id == a.supply < a0.supply && ValidateModelId(session.modelId) == Some(session.modelId)
    requires a0 == a.(store := a.store.(sessions := a.store.sessions + [session]), supply := a0.supply)
    ensures Inv(a0)
  {
    NewSessionLinks(a, session);
  }

  lemma NewSessionCounts(a: Agents, events: seq<Event>, e: Event)
    requires Inv(a) && a.supply <= e.sessionId && e.sequence == 0 && events == a.store.events + [e]
    ensures NextSequence(events, e.sessionId) == 1 && NextOrdinal(a.store.turns, e.sessionId) == 0
  {
    NothingOfNewSession(a, e.sessionId);
    SessionLogOfAppend(a.store.events, e, e.sessionId);
    assert GapFree(SessionLog(events, e.sessionId));
    NextIsCount(events, e.sessionId);
  }

  lemma NothingOfNewSession(a: Agents, id: Id)
    requires Inv(a) && a.supply <= id
    ensures SessionLog(a.store.events, id) == [] && NextSequence(a.store.events, id) == 0
    ensures NextOrdinal(a.store.turns, id) == 0
    ensures FindSession(a.store.sessions, id).None?
  {
    forall i | 0 <= i < |a.store.events| ensures a.store.events[i].sessionId != id {
      assert EventLinked(a.store.sessions, a.store.turns, a.store.events[i]);
    }
    NoSessionNoLog(a.store.events, id);
    NextIsCount(a.store.events, id);
    forall i | 0 <= i < |a.store.turns| ensures a.store.turns[i].sessionId != id {
      assert Frozen(a.store.sessions, a.store.turns[i]);
    }
    NoSessionNoTurns(a.store.turns, id);
    NextOrdinalIsCount(a.store.turns, id);
  }

  lemma {:induction false} NoSessionNoTurns(turns: seq<Turn>, s: Id)
    requires forall i :: 0 <= i < |turns| ==> turns[i].sessionId != s
    ensures SessionTurns(turns, s) == []
  {
    if turns != [] {
      NoSessionNoTurns(turns[..|turns| - 1], s);
    }
  }

  lemma NewSessionLinks(a: Agents, session: Session)
    requires Inv(a)
    ensures TurnsLinked(a.store.sessions + [session], a.store.turns, a.supply)
    ensures EventsLinked(a.store.(sessions := a.store.sessions + [session]))
  {
    var sessions' := a.store.sessions + [session];
    forall i | 0 <= i < |a.store.turns| ensures Frozen(sessions', a.store.turns[i]) {
      assert Frozen(a.store.sessions, a.store.turns[i]);
      SessionAfterAppend(a.store.sessions, session, a.store.turns[i].sessionId);
    }
    forall i | 0 <= i < |a.store.events| ensures EventLinked(sessions', a.store.turns, a.store.events[i]) {
      assert EventLinked(a.store.sessions, a.store.turns, a.store.events[i]);
      SessionAfterAppend(a.store.sessions, session, a.store.events[i].sessionId);
    }
  }

  function FollowUpTurn(s: Store, m: Message, session: Session, supply: Id): Turn {
    NewPending(supply + 1, session.id, NextOrdinal(s.turns, session.id), m.text, m.projectId, m.instructions,
               session.profileId, session.modelId, m.effort, m.now)
  }

  function PendingEvent(id: Id, x: Turn, sequence: nat): Event {
    Event(id, x.sessionId, Some(x.id), sequence, TurnPending)
  }

  /** The store after a follow-up to session k. */
  function FollowedUp(s: Store, m: Message, k: nat, supply: Id): Store
    requires k < |s.sessions|
  {
    var x := FollowUpTurn(s, m, s.sessions[k], supply);
    Store(s.sessions[k := s.sessions[k].(updatedAt := m.now)], s.turns + [x],
          s.events + [PendingEvent(supply + 2, x, NextSequence(s.events, s.sessions[k].id))], Attach(s.sources, x.id, m.source))
  }

  lemma FollowUpStores(s: Store, m: Message, session: Session, supply: Id) returns (context: AgentContext.RequestContext)
    requires ValidateModelId(session.modelId) == Some(session.modelId) && FollowUp(s, m, session, supply).result.Ok?
    ensures ContextFor(ListTurns(s.turns, session.id), s.sources, m, session.modelId) == Ok(context)
    ensures FollowUp(s, m, session, supply) == StoreFollowUp(s, m, session, session.modelId, context, supply)
  {
    context := ContextFor(ListTurns(s.turns, session.id), s.sources, m, session.modelId).value;
  }

  lemma StoredFollowUp(s: Store, m: Message, k: nat, context: AgentContext.RequestContext, supply: Id)
    requires k < |s.sessions| && FindSession(s.sessions, s.sessions[k].id) == Some(k)
    ensures StoreFollowUp(s, m, s.sessions[k], s.sessions[k].modelId, context, supply).store == FollowedUp(s, m, k, supply)
  {
  }

  lemma FollowUpShape(s: Store, m: Message, k: nat, supply: Id)
    requires k < |s.sessions| && ValidateModelId(s.sessions[k].modelId) == Some(s.sessions[k].modelId)
    requires FindSession(s.sessions, s.sessions[k].id) == Some(k)
    requires FollowUp(s, m, s.sessions[k], supply).result.Ok?
    ensures FollowUp(s, m, s.sessions[k], supply).store == FollowedUp(s, m, k, supply)
  {
    var context := FollowUpStores(s, m, s.sessions[k], supply);
    StoredFollowUp(s, m, k, context, supply);
  }

  lemma FollowUpTurnFits(s: Store, m: Message, k: nat, supply: Id)
    requires k < |s.sessions| && FindSession(s.sessions, s.sessions[k].id) == Some(k)
    ensures var touched := s.sessions[k := s.sessions[k].(updatedAt := m.now)];
            FindSession(touched, s.sessions[k].id) == Some(k) && Frozen(touched, FollowUpTurn(s, m, s.sessions[k], supply))
  {
    SessionAfterPut(s.sessions, k, s.sessions[k].(updatedAt := m.now), s.sessions[k].id);
  }

  lemma FollowUpKeeps(a: Agents, a': Agents, m: Message, k: nat)
    requires Inv(a) && InFlight(a.store.turns) == []
    requires k < |a.store.sessions| && FindSession(a.store.sessions, a.store.sessions[k].id) == Some(k)
    requires a'.store == FollowedUp(a.store, m, k, a.supply)
    requires a'.accepted == a.accepted[a.supply + 1 := []] && a.supply + 4 <= a'.supply
    ensures Inv(a')
  {
    var a1 := SessionTouched(a, k, m.now);
    FollowUpTurnFits(a.store, m, k, a.supply);
    FollowedUpFrom(a1, a', FollowUpTurn(a.store, m, a.store.sessions[k], a.supply), a.supply);
  }

  lemma SessionTouched(a: Agents, k: nat, now: int) returns (a1: Agents)
    requires Inv(a) && k < |a.store.sessions|
    ensures Inv(a1) && a1.supply == a.supply && a1.accepted == a.accepted
    ensures a1.store == a.store.(sessions := a.store.sessions[k := a.store.sessions[k].(updatedAt := now)])
  {
    var touched := a.store.sessions[k].(updatedAt := now);
    a1 := a.(store := a.store.(sessions := a.store.sessions[k := touched]));
    PutSessionKeeps(a, a1, k, touched);
  }

  lemma FollowedUpFrom(a1: Agents, a': Agents, x: Turn, supply: Id)
    requires Inv(a1) && InFlight(a1.store.turns) == [] && a1.supply == supply && x.id == supply + 1 && supply + 4 <= a'.supply
    requires x.state.Pending? && x.agentText == "" && x.finishedAt.None?
    requires Frozen(a1.store.sessions, x) && x.ordinal == NextOrdinal(a1.store.turns, x.sessionId)
    requires var e := PendingEvent(supply + 2, x, NextSequence(a1.store.events, x.sessionId));
             a'.store == Store(a1.store.sessions, a1.store.turns + [x], a1.store.events + [e], a'.store.sources)
    requires a'.accepted == a1.accepted[x.id := []]
    ensures Inv(a')
  {
    NewTurnKeeps(a1, a', x, PendingEvent(supply + 2, x, NextSequence(a1.store.events, x.sessionId)));
  }

  function FirstSession(m: Message, model: string, supply: Id): Session {
    Session(supply, m.projectId, Trim(m.profileId), model, m.now)
  }

  function FirstTurn(m: Message, session: Session, supply: Id): Turn {
    NewPending(supply + 1, session.id, 0, m.text, m.projectId, m.instructions, session.profileId, session.modelId, m.effort, m.now)
  }

  /** The store after a first send that creates the session. */
  function Opened(s: Store, m: Message, session: Session, supply: Id): Store {
    var x := FirstTurn(m, session, supply);
    Store(s.sessions + [session], s.turns + [x],
          s.events + [Event(supply + 2, supply, None, 0, SessionCreated)] + [PendingEvent(supply + 3, x, 1)],
          Attach(s.sources, x.id, m.source))
  }

  lemma FirstSendStores(s: Store, m: Message, supply: Id) returns (model: string, context: AgentContext.RequestContext)
    requires FirstSend(s, m, supply).result.Ok?
    ensures ValidateModelId(m.modelId) == Some(model) && ContextFor([], [], m, model) == Ok(context)
    ensures FirstSend(s, m, supply) == StoreFirst(s, m, model, context, supply)
  {
    model := ValidateModelId(m.modelId).value;
    context := ContextFor([], [], m, model).value;
  }

  lemma StoredFirst(s: Store, m: Message, model: string, context: AgentContext.RequestContext, supply: Id)
    ensures StoreFirst(s, m, model, context, supply).store == Opened(s, m, FirstSession(m, model, supply), supply)
  {
    var x := FirstTurn(m, FirstSession(m, model, supply), supply);
    var created := Event(supply + 2, supply, None, 0, SessionCreated);
    assert s.events + [created, PendingEvent(supply + 3, x, 1)] == s.events + [created] + [PendingEvent(supply + 3, x, 1)];
  }

  lemma FirstSendShape(s: Store, m: Message, supply: Id) returns (session: Session)
    requires FirstSend(s, m, supply).result.Ok?
    ensures session.id == supply && ValidateModelId(session.modelId) == Some(session.modelId)
    ensures FirstSend(s, m, supply).store == Opened(s, m, session, supply)
  {
    ValidatedModelIsFixed(m.modelId);
    var model, context := FirstSendStores(s, m, supply);
    session := FirstSession(m, model, supply);
    StoredFirst(s, m, model, context, supply);
  }

  /** The state between a first send's two halves: the session is there, its turn is not yet. */
  function SessionOpened(a: Agents, session: Session): Agents {
    a.(store := a.store.(sessions := a.store.sessions + [session],
                         events := a.store.events + [Event(a.supply + 2, a.supply, None, 0, SessionCreated)]),
       supply := a.supply + 1)
  }

  lemma OpeningKeeps(a: Agents, session: Session)
    requires Inv(a) && session.id == a.supply && ValidateModelId(session.modelId) == Some(session.modelId)
    ensures var a1 := SessionOpened(a, session);
            && Inv(a1)
            && FindSession(a1.store.sessions, session.id) == Some(|a.store.sessions|)
            && NextSequence(a1.store.events, session.id) == 1 && NextOrdinal(a1.store.turns, session.id) == 0
  {
    var created := Event(a.supply + 2, a.supply, None, 0, SessionCreated);
    NewSessionKeeps(a, SessionOpened(a, session), session, created);
    NewSessionCounts(a, SessionOpened(a, session).store.events, created);
  }

  lemma FirstSendKeeps(a: Agents, a': Agents, m: Message, session: Session)
    requires Inv(a) && InFlight(a.store.turns) == []
    requires session.id == a.supply && ValidateModelId(session.modelId) == Some(session.modelId)
    requires a'.store == Opened(a.store, m, session, a.supply)
    requires a'.accepted == a.accepted[a.supply + 1 := []] && a.supply + 4 <= a'.supply
    ensures Inv(a')
  {
    OpeningKeeps(a, session);
    var x := FirstTurn(m, session, a.supply);
    NewTurnKeeps(SessionOpened(a, session), a', x, PendingEvent(a.supply + 3, x, 1));
  }

  lemma SendCases(s: Store, m: Message, supply: Id)
    ensures var r := Send(s, m, supply);
            if r.result.Err? then r.store == s
            else
              && InFlight(s.turns) == []
              && (m.sessionId.Some? ==>
                    FindSession(s.sessions, m.sessionId.value).Some?
                    && r == FollowUp(s, m, s.sessions[FindSession(s.sessions, m.sessionId.value).value], supply))
              && (m.sessionId.None? ==> r == FirstSend(s, m, supply))
  {
  }

  lemma FollowedUpKeeps(a: Agents, a': Agents, m: Message, k: nat, r: After<Prepared>)
    requires Inv(a) && InFlight(a.store.turns) == []
    requires k < |a.store.sessions| && FindSession(a.store.sessions, a.store.sessions[k].id) == Some(k)
    requires r == FollowUp(a.store, m, a.store.sessions[k], a.supply) && r.result.Ok? && a'.store == r.store
    requires a'.accepted == a.accepted[a.supply + 1 := []] && a.supply + 4 <= a'.supply
    ensures Inv(a')
  {
    FollowUpShape(a.store, m, k, a.supply);
    FollowUpKeeps(a, a', m, k);
  }

  lemma FirstSentKeeps(a: Agents, a': Agents, m: Message, r: After<Prepared>)
    requires Inv(a) && InFlight(a.store.turns) == []
    requires r == FirstSend(a.store, m, a.supply) && r.result.Ok? && a'.store == r.store
    requires a'.accepted == a.accepted[a.supply + 1 := []] && a.supply + 4 <= a'.supply
    ensures Inv(a')
  {
    var session := FirstSendShape(a.store, m, a.supply);
    FirstSendKeeps(a, a', m, session);
  }

  lemma SendKeeps(a: Agents, a': Agents, m: Message, r: After<Prepared>)
    requires Inv(a) && r == Send(a.store, m, a.supply) && a'.store == r.store && a.supply + 4 <= a'.supply
    requires a'.accepted == if r.result.Ok? then a.accepted[a.supply + 1 := []] else a.accepted
    ensures Inv(a')
  {
    SendCases(a.store, m, a.supply);
    if r.result.Err? {
      EnoughSupply(a, a');
    } else if m.sessionId.Some? {
      FollowedUpKeeps(a, a', m, FindSession(a.store.sessions, m.sessionId.value).value, r);
    } else {
      FirstSentKeeps(a, a', m, r);
    }
  }

  lemma SendingShape(a: Agents, m: Message)
    ensures Do(a, Sending(m)) == Sent(a, Send(a.store, m, a.supply))
  {
  }

  lemma SentKeeps(a: Agents, m: Message, r: After<Prepared>)
    requires Inv(a) && r == Send(a.store, m, a.supply)
    ensures Inv(Sent(a, r))
  {
    SendKeeps(a, Sent(a, r), m, r);
  }

  lemma SendingKeeps(a: Agents, m: Message)
    requires Inv(a)
    ensures Inv(Do(a, Sending(m)))
  {
    SendingShape(a, m);
    SentKeeps(a, m, Send(a.store, m, a.supply));
  }

  // ----- Recovery -----

  lemma {:induction false} InFlightIsLast(turns: seq<Turn>)
    requires InFlightLast(turns)
    ensures InFlight(turns) == if turns != [] && turns[|turns| - 1].state.InFlight() then [turns[|turns| - 1]] else []
  {
    if turns != [] {
      InFlightEmpty(turns[..|turns| - 1]);
    }
  }

  lemma OneUpdate(s: Store, u: Update)
    ensures ApplyUpdates(s, [u]) == PutAll(s, u.session, u.turn, u.event)
  {
    assert [u][..0] == [];
  }

  lemma PlanOfOne(s: Store, turn: Turn, supply: Id, now: int)
    ensures PlanUpTo(s, [turn], 1, supply, now) == PlanOne(s, Plan([], map[]), turn, supply, now)
  {
    assert PlanUpTo(s, [turn], 0, supply, now) == Ok(Plan([], map[]));
  }

  lemma RecoverOne(s: Store, turn: Turn, supply: Id, now: int)
    requires InFlight(s.turns) == [turn] && turn.Interrupt(now).Ok? && FindSession(s.sessions, turn.sessionId).Some?
    ensures InterruptAll(s, supply, now).store == PersistTerminal(s, turn.Interrupt(now).value, supply, now).store
  {
    PlanOfOne(s, turn, supply, now);
    var plan := PlanOne(s, Plan([], map[]), turn, supply, now).value;
    OneUpdate(s, plan.updates[0]);
    assert plan.updates == [plan.updates[0]];
  }

  lemma RecoverIdle(s: Store, supply: Id, now: int)
    requires InFlight(s.turns) == []
    ensures InterruptAll(s, supply, now) == After(s, Ok([]))
  {
    assert TurnsOf([]) == [];
  }

  lemma RecoverShape(a: Agents, now: int)
    requires Inv(a)
    ensures InterruptAll(a.store, a.supply, now).store
         == if InFlight(a.store.turns) == [] then a.store
            else var turn := a.store.turns[|a.store.turns| - 1];
                 Finish(a.store, turn.Interrupt(now), a.supply, now).store
  {
    InFlightIsLast(a.store.turns);
    if InFlight(a.store.turns) == [] {
      RecoverIdle(a.store, a.supply, now);
    } else {
      var turn := a.store.turns[|a.store.turns| - 1];
      assert Frozen(a.store.sessions, turn);
      RecoverOne(a.store, turn, a.supply, now);
    }
  }

  lemma RecoverKeeps(a: Agents, a': Agents, now: int)
    requires Inv(a) && a'.store == InterruptAll(a.store, a.supply, now).store
    requires a'.accepted == a.accepted && a.supply <= a'.supply
    ensures Inv(a')
  {
    RecoverShape(a, now);
    if InFlight(a.store.turns) == [] {
      EnoughSupply(a, a');
    } else {
      var i := |a.store.turns| - 1;
      FinishersFinish(a.store.turns[i], None, "", now);
      FinishKeeps(a, a', i, a.store.turns[i].Interrupt(now), now);
    }
  }

  lemma DoKeeps(a: Agents, c: Command)
    requires Inv(a)
    ensures Inv(Do(a, c))
  {
    match c
    case Sending(m) => SendingKeeps(a, m);
    case Delta(id, text, now) => TakingKeeps(a, id, text, now);
    case Associating(id, projectId, now) => AssociateKeeps(a, Do(a, c), id, projectId, now);
    case Recovering(now) => RecoverKeeps(a, Do(a, c), now);
    case Completing(id, response, now) => CompletingKeeps(a, id, response, now);
    case Cancelling(id, now) => CancellingKeeps(a, id, now);
    case Failing(id, code, now) => FailingKeeps(a, id, code, now);
  }

  lemma {:induction false} RunKeeps(commands: seq<Command>)
    ensures Inv(Run(commands))
  {
    if commands != [] {
      RunKeeps(commands[..|commands| - 1]);
      DoKeeps(Run(commands[..|commands| - 1]), commands[|commands| - 1]);
    }
  }

  // ----- What follows -----

  /** Each turn's own events: pending, then streaming if any text arrived, then exactly one terminal
      event, of the turn's own kind, if and only if the turn is terminal. */
  lemma TurnEventsTellState(commands: seq<Command>, i: nat)
    requires i < |Run(commands).store.turns|
    ensures var s := Run(commands).store;
            var t := s.turns[i];
            TurnLog(s.events, t.id)
              == [TurnPending] + (if t.agentText != "" then [TurnStreaming] else [])
                 + (if t.state.Terminal() then [TerminalKind(t.state).value] else [])
  {
    RunKeeps(commands);
    EventsOfTurn(Run(commands).store.events, Run(commands).accepted, Run(commands).store.turns[i]);
  }

  lemma EventsOfTurn(events: seq<Event>, accepted: map<Id, seq<string>>, t: Turn)
    requires TurnOk(events, accepted, t)
    ensures TurnLog(events, t.id)
         == [TurnPending] + (if t.agentText != "" then [TurnStreaming] else [])
            + (if t.state.Terminal() then [TerminalKind(t.state).value] else [])
  {
  }

  /** Text is what arrived, in order, and stays within the ceiling. */
  lemma TextIsAccepted(commands: seq<Command>, i: nat)
    requires i < |Run(commands).store.turns|
    ensures var t := Run(commands).store.turns[i];
            && t.id in Run(commands).accepted
            && t.agentText == Concat(Run(commands).accepted[t.id])
            && ByteLen(t.agentText) <= MAX_AGENT_OUTPUT_UTF8
  {
    RunKeeps(commands);
    assert TurnOk(Run(commands).store.events, Run(commands).accepted, Run(commands).store.turns[i]);
  }

  /** A session's events are numbered from zero without gaps. */
  lemma SessionsHaveNoGaps(commands: seq<Command>, sessionId: Id, k: nat)
    requires k < |SessionLog(Run(commands).store.events, sessionId)|
    ensures SessionLog(Run(commands).store.events, sessionId)[k].sequence == k
  {
    RunKeeps(commands);
    assert GapFree(SessionLog(Run(commands).store.events, sessionId));
  }

  /** At most one turn is in flight over all sessions. */
  lemma AtMostOneInFlight(commands: seq<Command>)
    ensures |InFlight(Run(commands).store.turns)| <= 1
  {
    RunKeeps(commands);
    InFlightIsLast(Run(commands).store.turns);
  }

  /** A session's turns are numbered from zero, and all but the last are finished. */
  lemma EarlierTurnsFinished(commands: seq<Command>, sessionId: Id, k: nat)
    requires k < |SessionTurns(Run(commands).store.turns, sessionId)|
    ensures var turns := SessionTurns(Run(commands).store.turns, sessionId);
            turns[k].ordinal == k && (k + 1 < |turns| ==> turns[k].state.Terminal())
  {
    RunKeeps(commands);
    assert Numbered(SessionTurns(Run(commands).store.turns, sessionId));
    if k + 1 < |SessionTurns(Run(commands).store.turns, sessionId)| {
      AllButLastTerminal(Run(commands).store.turns, sessionId, k);
    }
  }

  lemma {:induction false} SessionTurnsTerminal(turns: seq<Turn>, s: Id, k: nat)
    requires forall i :: 0 <= i < |turns| ==> turns[i].state.Terminal()
    requires k < |SessionTurns(turns, s)|
    ensures SessionTurns(turns, s)[k].state.Terminal()
  {
    if k < |SessionTurns(turns[..|turns| - 1], s)| {
      SessionTurnsTerminal(turns[..|turns| - 1], s, k);
    }
  }

  lemma AllButLastTerminal(turns: seq<Turn>, s: Id, k: nat)
    requires InFlightLast(turns) && k + 1 < |SessionTurns(turns, s)|
    ensures SessionTurns(turns, s)[k].state.Terminal()
  {
    SessionTurnsTerminal(turns[..|turns| - 1], s, k);
  }

  /** Every turn carries the model its session was created with, whatever later sends name. */
  lemma ModelIsFrozen(commands: seq<Command>, i: nat)
    requires i < |Run(commands).store.turns|
    ensures var s := Run(commands).store;
            var k := FindSession(s.sessions, s.turns[i].sessionId);
            k.Some? && s.turns[i].modelId == s.sessions[k.value].modelId && s.turns[i].profileId == s.sessions[k.value].profileId
  {
    RunKeeps(commands);
    assert Frozen(Run(commands).store.sessions, Run(commands).store.turns[i]);
  }

  // ----- What a send hands to the provider -----

  lemma {:induction false} NumberedIsSorted(turns: seq<Turn>)
    requires Numbered(turns)
    ensures ByOrdinal(turns) == turns
  {
    if turns != [] {
      var before := turns[..|turns| - 1];
      NumberedIsSorted(before);
      if before != [] {
        assert before[|before| - 1] == turns[|turns| - 2];
      }
    }
  }

  lemma FollowUpContext(s: Store, m: Message, k: nat, supply: Id)
    requires k < |s.sessions| && ValidateModelId(s.sessions[k].modelId) == Some(s.sessions[k].modelId)
    requires FollowUp(s, m, s.sessions[k], supply).result.Ok?
    ensures ContextFor(ListTurns(s.turns, s.sessions[k].id), s.sources, m, s.sessions[k].modelId)
         == Ok(FollowUp(s, m, s.sessions[k], supply).result.value.context)
  {
    var context := FollowUpStores(s, m, s.sessions[k], supply);
  }

  lemma ContextShape(turns: seq<Turn>, sources: seq<TurnSource>, m: Message, model: string)
    ensures var r := ContextFor(turns, sources, m, model);
            r.Ok? ==>
              && r.value.history == CompletedHistory(turns, sources)
              && r.value.modelId == model && r.value.userText == m.text && r.value.effort == m.effort
  {
  }

  /** A follow-up hands over exactly the completed turns of its session, in the order of their ordinals,
      each with its source, and the session's own model. */
  lemma SendsWholeHistory(commands: seq<Command>, m: Message, supply: Id)
    requires m.sessionId.Some? && Send(Run(commands).store, m, supply).result.Ok?
    ensures var s := Run(commands).store;
            var k := FindSession(s.sessions, m.sessionId.value);
            var context := Send(s, m, supply).result.value.context;
            && k.Some?
            && context.history == CompletedHistory(SessionTurns(s.turns, m.sessionId.value), s.sources)
            && context.modelId == s.sessions[k.value].modelId
  {
    RunKeeps(commands);
    var s := Run(commands).store;
    SendCases(s, m, supply);
    var k := FindSession(s.sessions, m.sessionId.value).value;
    FollowUpContext(s, m, k, supply);
    assert Numbered(SessionTurns(s.turns, m.sessionId.value));
    NumberedIsSorted(SessionTurns(s.turns, m.sessionId.value));
    ContextShape(ListTurns(s.turns, m.sessionId.value), s.sources, m, s.sessions[k].modelId);
  }
}
