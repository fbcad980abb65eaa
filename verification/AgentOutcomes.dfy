/** What each agent use case does, told in fields of turns, sessions and events alone, and how the
    history a send carries comes about. */
module AgentOutcomes {
  import opened Wrappers
  import opened Text
  import opened AgentRecords
  import opened AgentStore
  import opened AgentInvariants
  import opened AgentTheorems
  import opened AgentHistory
  import AgentContext
  import Sources

  // ----- Endings -----

  datatype Ending = Completion(response: Option<string>) | Cancellation | Failure(code: string) | Interruption

  /** A turn with the state and the payload of the ending, and nothing else changed. */
  function Ended(t: Turn, ending: Ending, now: int): Turn {
    match ending
    case Completion(response) => t.(state := Completed, responseId := response, finishedAt := Some(now))
    case Cancellation => t.(state := Cancelled, errorCode := Some("cancelled"), finishedAt := Some(now))
    case Failure(code) => t.(state := Failed, errorCode := Some(code), finishedAt := Some(now))
    case Interruption => t.(state := Interrupted, errorCode := Some("interrupted"), finishedAt := Some(now))
  }

  function EndKind(ending: Ending): EventKind {
    match ending
    case Completion(_) => TurnCompleted
    case Cancellation => TurnCancelled
    case Failure(_) => TurnFailed
    case Interruption => TurnInterrupted
  }

  /** An event of a session behind all its others; a session's events are numbered from zero. */
  function Logged(s: Store, id: Id, sessionId: Id, turnId: Option<Id>, kind: EventKind): seq<Event> {
    s.events + [Event(id, sessionId, turnId, |SessionLog(s.events, sessionId)|, kind)]
  }

  /** The store after turn i came to its end: the turn, its session's time and one event. */
  predicate EndedIn(s: Store, s': Store, i: nat, ending: Ending, eventId: Id, now: int)
    requires i < |s.turns|
  {
    var t := s.turns[i];
    var k := FindSession(s.sessions, t.sessionId);
    && k.Some?
    && s'.sessions == s.sessions[k.value := s.sessions[k.value].(updatedAt := now)]
    && s'.turns == s.turns[i := Ended(t, ending, now)]
    && s'.events == Logged(s, eventId, t.sessionId, Some(t.id), EndKind(ending))
    && s'.sources == s.sources
  }

  lemma PersistEnded(s: Store, i: nat, k: nat, ending: Ending, eventId: Id, now: int)
    requires i < |s.turns| && FindTurn(s.turns, s.turns[i].id) == Some(i)
    requires FindSession(s.sessions, s.turns[i].sessionId) == Some(k)
    requires NextSequence(s.events, s.turns[i].sessionId) == |SessionLog(s.events, s.turns[i].sessionId)|
    ensures var after := PersistTerminal(s, Ended(s.turns[i], ending, now), eventId, now);
            after.result == Ok(Ended(s.turns[i], ending, now)) && EndedIn(s, after.store, i, ending, eventId, now)
  {
    var x := Ended(s.turns[i], ending, now);
    assert TerminalKind(x.state) == Ok(EndKind(ending));
    assert PutTurn(s.turns, x) == s.turns[i := x];
  }

  lemma SequenceIsLength(s: Store, sessionId: Id)
    requires SequencesOk(s.events)
    ensures NextSequence(s.events, sessionId) == |SessionLog(s.events, sessionId)|
  {
    assert GapFree(SessionLog(s.events, sessionId));
    NextIsCount(s.events, sessionId);
  }

  lemma PersistExactly(a: Agents, i: nat, ending: Ending, eventId: Id, now: int)
    requires Inv(a) && i < |a.store.turns|
    ensures var after := PersistTerminal(a.store, Ended(a.store.turns[i], ending, now), eventId, now);
            after.result == Ok(Ended(a.store.turns[i], ending, now))
            && EndedIn(a.store, after.store, i, ending, eventId, now)
  {
    assert Frozen(a.store.sessions, a.store.turns[i]);
    FindUniqueTurn(a.store.turns, i);
    SequenceIsLength(a.store, a.store.turns[i].sessionId);
    PersistEnded(a.store, i, FindSession(a.store.sessions, a.store.turns[i].sessionId).value, ending, eventId, now);
  }

  /** A turn in flight takes exactly its ending; a finished one refuses it and nothing changes. */
  ghost predicate EndsExactly(s: Store, after: After<Turn>, i: nat, ending: Ending, eventId: Id, now: int)
    requires i < |s.turns|
  {
    var t := s.turns[i];
    if t.state.Pending? || t.state.Streaming? then
      after.result == Ok(Ended(t, ending, now)) && EndedIn(s, after.store, i, ending, eventId, now)
    else after == After(s, Err(IllegalTransition(t.state, Ended(t, ending, now).state)))
  }

  /** Completing makes the turn completed, with the response identifier. */
  lemma CompletesExactly(a: Agents, i: nat, response: Option<string>, eventId: Id, now: int)
    requires Inv(a) && i < |a.store.turns|
    ensures EndsExactly(a.store, CompleteTurn(a.store, a.store.turns[i].id, response, eventId, now), i, Completion(response),
                        eventId, now)
  {
    FindUniqueTurn(a.store.turns, i);
    PersistExactly(a, i, Completion(response), eventId, now);
  }

  lemma CancelsExactly(a: Agents, i: nat, eventId: Id, now: int)
    requires Inv(a) && i < |a.store.turns|
    ensures EndsExactly(a.store, CancelTurn(a.store, a.store.turns[i].id, eventId, now), i, Cancellation, eventId, now)
  {
    FindUniqueTurn(a.store.turns, i);
    PersistExactly(a, i, Cancellation, eventId, now);
  }

  lemma FailsExactly(a: Agents, i: nat, code: string, eventId: Id, now: int)
    requires Inv(a) && i < |a.store.turns|
    ensures EndsExactly(a.store, FailTurn(a.store, a.store.turns[i].id, code, eventId, now), i, Failure(code), eventId, now)
  {
    FindUniqueTurn(a.store.turns, i);
    PersistExactly(a, i, Failure(code), eventId, now);
  }

  /** Nothing can be ended or extended that is not stored. */
  lemma UnknownTurn(s: Store, id: Id, response: Option<string>, text: string, eventId: Id, now: int)
    requires forall i :: 0 <= i < |s.turns| ==> s.turns[i].id != id
    ensures CompleteTurn(s, id, response, eventId, now) == After(s, Err(TurnNotFound))
    ensures CancelTurn(s, id, eventId, now) == After(s, Err(TurnNotFound))
    ensures FailTurn(s, id, text, eventId, now) == After(s, Err(TurnNotFound))
    ensures ApplyDelta(s, id, text, eventId, now) == After(s, Err(TurnNotFound))
  {
  }

  predicate LastInFlight(turns: seq<Turn>) {
    turns != [] && (turns[|turns| - 1].state.Pending? || turns[|turns| - 1].state.Streaming?)
  }

  /** Recovery interrupts the one turn that can be in flight, and changes nothing when there is none. */
  lemma InterruptsExactly(a: Agents, supply: Id, now: int)
    requires Inv(a)
    ensures var s, after := a.store, InterruptAll(a.store, supply, now);
            if LastInFlight(s.turns) then
              after.result == Ok([Ended(s.turns[|s.turns| - 1], Interruption, now)])
              && EndedIn(s, after.store, |s.turns| - 1, Interruption, supply, now)
            else after == After(s, Ok([]))
  {
    OneInFlight(a.store.turns);
    if LastInFlight(a.store.turns) {
      var i := |a.store.turns| - 1;
      assert Frozen(a.store.sessions, a.store.turns[i]);
      RecoveredTurn(a.store, a.store.turns[i], supply, now);
      PersistExactly(a, i, Interruption, supply, now);
    } else {
      RecoverIdle(a.store, supply, now);
    }
  }

  lemma OneInFlight(turns: seq<Turn>)
    requires InFlightLast(turns)
    ensures InFlight(turns) == if LastInFlight(turns) then [turns[|turns| - 1]] else []
  {
    InFlightIsLast(turns);
  }

  lemma RecoveredTurn(s: Store, turn: Turn, supply: Id, now: int)
    requires InFlight(s.turns) == [turn] && (turn.state.Pending? || turn.state.Streaming?)
    requires FindSession(s.sessions, turn.sessionId).Some?
    ensures InterruptAll(s, supply, now)
         == After(PersistTerminal(s, Ended(turn, Interruption, now), supply, now).store, Ok([Ended(turn, Interruption, now)]))
  {
    RecoverOne(s, turn, supply, now);
    RecoveredTurns(s, turn, supply, now);
  }

  lemma RecoveredTurns(s: Store, turn: Turn, supply: Id, now: int)
    requires InFlight(s.turns) == [turn] && (turn.state.Pending? || turn.state.Streaming?)
    requires FindSession(s.sessions, turn.sessionId).Some?
    ensures InterruptAll(s, supply, now).result == Ok([Ended(turn, Interruption, now)])
  {
    PlanOfOne(s, turn, supply, now);
    var plan := PlanOne(s, Plan([], map[]), turn, supply, now).value;
    assert TurnsOf(plan.updates) == [Ended(turn, Interruption, now)];
  }

  // ----- Text -----

  /** The turn extended by the text; the first text of a pending turn makes it streaming. */
  function Extended(t: Turn, text: string): Turn {
    t.(agentText := t.agentText + text, state := if t.state.Pending? && text != "" then Streaming else t.state)
  }

  /** A delta is refused by a finished turn, fails a turn it would carry past one mebibyte, and otherwise extends
      the text by itself, with a streaming event when it is the first. */
  ghost predicate TakesExactly(s: Store, after: After<Turn>, i: nat, text: string, eventId: Id, now: int)
    requires i < |s.turns|
  {
    var t := s.turns[i];
    if !(t.state.Pending? || t.state.Streaming?) then after == After(s, Err(IllegalTransition(t.state, Streaming)))
    else if ByteLen(t.agentText) + ByteLen(text) > 1_048_576 then
      after.result == Err(OutputLimit(Ended(t, Failure("output_limit"), now)))
      && EndedIn(s, after.store, i, Failure("output_limit"), eventId, now)
    else
      after == After(s.(turns := s.turns[i := Extended(t, text)],
                        events := if t.agentText == "" && text != ""
                                  then Logged(s, eventId, t.sessionId, Some(t.id), TurnStreaming) else s.events),
                     Ok(Extended(t, text)))
  }

  lemma ExtendsExactly(a: Agents, i: nat, text: string, eventId: Id, now: int)
    requires Inv(a) && i < |a.store.turns|
    ensures TakesExactly(a.store, ApplyDelta(a.store, a.store.turns[i].id, text, eventId, now), i, text, eventId, now)
  {
    FindUniqueTurn(a.store.turns, i);
    PersistExactly(a, i, Failure("output_limit"), eventId, now);
    assert TurnOk(a.store.events, a.accepted, a.store.turns[i]);
    SequenceIsLength(a.store, a.store.turns[i].sessionId);
  }

  // ----- Projects -----

  lemma AssociatesExactly(a: Agents, sessionId: Id, projectId: Option<Id>, eventId: Id, now: int)
    requires Inv(a)
    ensures var s, after := a.store, SetProject(a.store, sessionId, projectId, eventId, now);
            var k := FindSession(s.sessions, sessionId);
            if k.None? then after == After(s, Err(SessionNotFound))
            else
              var x := s.sessions[k.value].(projectId := projectId, updatedAt := now);
              after == After(s.(sessions := s.sessions[k.value := x],
                                events := Logged(s, eventId, sessionId, None, ProjectAssociationChanged)),
                             Ok(x))
  {
    SequenceIsLength(a.store, sessionId);
  }

  // ----- The history of a session -----

  /** The completed turns of a session, as a send to it hands them over. */
  function HistoryOf(s: Store, sessionId: Id): seq<AgentContext.CompletedTurn> {
    CompletedHistory(SessionTurns(s.turns, sessionId), s.sources)
  }

  /** What one turn adds to the history of a session. */
  function Part(t: Turn, sources: seq<TurnSource>, sessionId: Id): seq<AgentContext.CompletedTurn> {
    if t.sessionId == sessionId && t.state.Completed? then [FinishedTurn(t, sources)] else []
  }

  lemma HistoryOfAppend(turns: seq<Turn>, x: Turn, sources: seq<TurnSource>, sessionId: Id)
    ensures CompletedHistory(SessionTurns(turns + [x], sessionId), sources)
         == CompletedHistory(SessionTurns(turns, sessionId), sources) + Part(x, sources, sessionId)
  {
    SessionTurnsOfAppend(turns, x, sessionId);
    if x.sessionId == sessionId {
      CompletedOfAppend(SessionTurns(turns, sessionId), x, sources);
    } else {
      assert SessionTurns(turns + [x], sessionId) == SessionTurns(turns, sessionId);
    }
  }

  lemma CompletedOfAppend(turns: seq<Turn>, x: Turn, sources: seq<TurnSource>)
    ensures CompletedHistory(turns + [x], sources)
         == CompletedHistory(turns, sources) + if x.state.Completed? then [FinishedTurn(x, sources)] else []
  {
    assert (turns + [x])[..|turns|] == turns;
  }

  /** The turn stored last replaced by another of its session. */
  lemma HistoryOfLast(turns: seq<Turn>, x: Turn, sources: seq<TurnSource>, sessionId: Id)
    requires turns != [] && !turns[|turns| - 1].state.Completed?
    ensures CompletedHistory(SessionTurns(turns[|turns| - 1 := x], sessionId), sources)
         == CompletedHistory(SessionTurns(turns, sessionId), sources) + Part(x, sources, sessionId)
  {
    var before, t := turns[..|turns| - 1], turns[|turns| - 1];
    assert turns == before + [t] && turns[|turns| - 1 := x] == before + [x];
    HistoryOfAppend(before, t, sources, sessionId);
    HistoryOfAppend(before, x, sources, sessionId);
  }

  lemma {:induction false} HistoryOfMoreSources(turns: seq<Turn>, sources: seq<TurnSource>, more: seq<TurnSource>)
    requires forall i, j :: 0 <= i < |turns| && 0 <= j < |more| ==> more[j].turnId != turns[i].id
    ensures CompletedHistory(turns, sources + more) == CompletedHistory(turns, sources)
  {
    if turns != [] {
      HistoryOfMoreSources(turns[..|turns| - 1], sources, more);
      SourceOfPrefix(sources, more, turns[|turns| - 1].id, 0);
    }
  }

  lemma {:induction false} SessionTurnStored(turns: seq<Turn>, sessionId: Id, k: nat) returns (i: nat)
    requires k < |SessionTurns(turns, sessionId)|
    ensures i < |turns| && SessionTurns(turns, sessionId)[k] == turns[i]
  {
    if k < |SessionTurns(turns[..|turns| - 1], sessionId)| {
      i := SessionTurnStored(turns[..|turns| - 1], sessionId, k);
    } else {
      i := |turns| - 1;
    }
  }

  /** Sources of other turns change no history. */
  lemma HistoryKeepsOnAttach(turns: seq<Turn>, sources: seq<TurnSource>, more: seq<TurnSource>, sessionId: Id)
    requires forall i, j :: 0 <= i < |turns| && 0 <= j < |more| ==> more[j].turnId != turns[i].id
    ensures CompletedHistory(SessionTurns(turns, sessionId), sources + more)
         == CompletedHistory(SessionTurns(turns, sessionId), sources)
  {
    var own := SessionTurns(turns, sessionId);
    forall k, j | 0 <= k < |own| && 0 <= j < |more| ensures more[j].turnId != own[k].id {
      var i := SessionTurnStored(turns, sessionId, k);
    }
    HistoryOfMoreSources(own, sources, more);
  }

  // ----- Commands and the history -----

  /** The exchange a command completes in a session: that of the turn it completes, if that turn is in flight. */
  function Exchange(s: Store, c: Command, sessionId: Id): seq<AgentContext.CompletedTurn> {
    var n := |s.turns|;
    if c.Completing? && LastInFlight(s.turns) && s.turns[n - 1].id == c.turnId && s.turns[n - 1].sessionId == sessionId
    then [AgentContext.CompletedTurn(s.turns[n - 1].userText, s.turns[n - 1].agentText, SourceFrom(s.sources, c.turnId, 0))]
    else []
  }

  /** A store in which at most the last turn, in flight, became another. */
  ghost predicate LastBecomes(s: Store, s': Store, x: Turn) {
    && LastInFlight(s.turns) && x.sessionId == s.turns[|s.turns| - 1].sessionId
    && s'.turns == s.turns[|s.turns| - 1 := x] && s'.sources == s.sources
  }

  lemma LastBecomesHistory(s: Store, s': Store, x: Turn, sessionId: Id)
    requires LastBecomes(s, s', x)
    ensures HistoryOf(s', sessionId) == HistoryOf(s, sessionId) + Part(x, s.sources, sessionId)
  {
    HistoryOfLast(s.turns, x, s.sources, sessionId);
  }

  lemma InFlightAtLast(turns: seq<Turn>, i: nat)
    requires InFlightLast(turns) && i < |turns| && (turns[i].state.Pending? || turns[i].state.Streaming?)
    ensures i == |turns| - 1 && LastInFlight(turns)
  {
  }

  /** An ending changes the history of one session, and only if it is a completion. */
  lemma EndingHistory(s: Store, after: After<Turn>, i: nat, ending: Ending, eventId: Id, now: int, sessionId: Id)
    requires InFlightLast(s.turns) && i < |s.turns| && EndsExactly(s, after, i, ending, eventId, now)
    ensures HistoryOf(after.store, sessionId)
         == HistoryOf(s, sessionId)
            + if s.turns[i].state.InFlight() then Part(Ended(s.turns[i], ending, now), s.sources, sessionId) else []
  {
    if s.turns[i].state.InFlight() {
      InFlightAtLast(s.turns, i);
      LastBecomesHistory(s, after.store, Ended(s.turns[i], ending, now), sessionId);
    }
  }

  lemma CompletingExchange(s: Store, i: nat, response: Option<string>, now: int, sessionId: Id)
    requires UniqueTurns(s.turns) && InFlightLast(s.turns) && i < |s.turns|
    ensures Exchange(s, Completing(s.turns[i].id, response, now), sessionId)
         == if s.turns[i].state.InFlight() then Part(Ended(s.turns[i], Completion(response), now), s.sources, sessionId) else []
  {
  }

  lemma CompletingHistory(a: Agents, id: Id, response: Option<string>, now: int, sessionId: Id)
    requires Inv(a)
    ensures HistoryOf(Do(a, Completing(id, response, now)).store, sessionId)
         == HistoryOf(a.store, sessionId) + Exchange(a.store, Completing(id, response, now), sessionId)
  {
    var k := FindTurn(a.store.turns, id);
    if k.Some? {
      CompletesExactly(a, k.value, response, a.supply, now);
      CompletingExchange(a.store, k.value, response, now, sessionId);
      EndingHistory(a.store, CompleteTurn(a.store, id, response, a.supply, now), k.value, Completion(response), a.supply, now,
                    sessionId);
    }
  }

  lemma CancelledHistory(a: Agents, id: Id, after: After<Turn>, now: int, sessionId: Id)
    requires Inv(a) && after == CancelTurn(a.store, id, a.supply, now)
    ensures HistoryOf(after.store, sessionId) == HistoryOf(a.store, sessionId)
  {
    var k := FindTurn(a.store.turns, id);
    if k.Some? {
      CancelsExactly(a, k.value, a.supply, now);
      EndingHistory(a.store, after, k.value, Cancellation, a.supply, now, sessionId);
    }
  }

  lemma CancellingHistory(a: Agents, id: Id, now: int, sessionId: Id)
    requires Inv(a)
    ensures HistoryOf(Do(a, Cancelling(id, now)).store, sessionId) == HistoryOf(a.store, sessionId)
  {
    CancelledHistory(a, id, CancelTurn(a.store, id, a.supply, now), now, sessionId);
  }

  lemma FailedHistory(a: Agents, id: Id, code: string, after: After<Turn>, now: int, sessionId: Id)
    requires Inv(a) && after == FailTurn(a.store, id, code, a.supply, now)
    ensures HistoryOf(after.store, sessionId) == HistoryOf(a.store, sessionId)
  {
    var k := FindTurn(a.store.turns, id);
    if k.Some? {
      FailsExactly(a, k.value, code, a.supply, now);
      EndingHistory(a.store, after, k.value, Failure(code), a.supply, now, sessionId);
    }
  }

  lemma FailingHistory(a: Agents, id: Id, code: string, now: int, sessionId: Id)
    requires Inv(a)
    ensures HistoryOf(Do(a, Failing(id, code, now)).store, sessionId) == HistoryOf(a.store, sessionId)
  {
    FailedHistory(a, id, code, FailTurn(a.store, id, code, a.supply, now), now, sessionId);
  }

  lemma InterruptedHistory(s: Store, after: After<seq<Turn>>, supply: Id, now: int, sessionId: Id)
    requires if LastInFlight(s.turns) then EndedIn(s, after.store, |s.turns| - 1, Interruption, supply, now) else after.store == s
    ensures HistoryOf(after.store, sessionId) == HistoryOf(s, sessionId)
  {
    if LastInFlight(s.turns) {
      LastBecomesHistory(s, after.store, Ended(s.turns[|s.turns| - 1], Interruption, now), sessionId);
    }
  }

  lemma RecoveringHistory(a: Agents, now: int, sessionId: Id)
    requires Inv(a)
    ensures HistoryOf(Do(a, Recovering(now)).store, sessionId) == HistoryOf(a.store, sessionId)
  {
    RecoveringShape(a, now);
    InterruptsExactly(a, a.supply, now);
    InterruptedHistory(a.store, InterruptAll(a.store, a.supply, now), a.supply, now, sessionId);
  }

  lemma ExtendingHistory(s: Store, s': Store, i: nat, x: Turn, sessionId: Id)
    requires InFlightLast(s.turns) && i < |s.turns| && (s.turns[i].state.Pending? || s.turns[i].state.Streaming?)
    requires x.sessionId == s.turns[i].sessionId && !x.state.Completed?
    requires s'.turns == s.turns[i := x] && s'.sources == s.sources
    ensures HistoryOf(s', sessionId) == HistoryOf(s, sessionId)
  {
    InFlightAtLast(s.turns, i);
    LastBecomesHistory(s, s', x, sessionId);
  }

  lemma TakingHistory(s: Store, after: After<Turn>, i: nat, text: string, eventId: Id, now: int, sessionId: Id)
    requires InFlightLast(s.turns) && i < |s.turns| && TakesExactly(s, after, i, text, eventId, now)
    ensures HistoryOf(after.store, sessionId) == HistoryOf(s, sessionId)
  {
    if s.turns[i].state.InFlight() {
      ExtendingHistory(s, after.store, i, after.store.turns[i], sessionId);
    }
  }

  lemma ExtendedHistory(a: Agents, id: Id, text: string, after: After<Turn>, now: int, sessionId: Id)
    requires Inv(a) && after == ApplyDelta(a.store, id, text, a.supply, now)
    ensures HistoryOf(after.store, sessionId) == HistoryOf(a.store, sessionId)
  {
    var k := FindTurn(a.store.turns, id);
    if k.Some? {
      ExtendsExactly(a, k.value, text, a.supply, now);
      TakingHistory(a.store, after, k.value, text, a.supply, now, sessionId);
    }
  }

  lemma DeltaHistory(a: Agents, id: Id, text: string, now: int, sessionId: Id)
    requires Inv(a)
    ensures HistoryOf(Do(a, Delta(id, text, now)).store, sessionId) == HistoryOf(a.store, sessionId)
  {
    ExtendedHistory(a, id, text, ApplyDelta(a.store, id, text, a.supply, now), now, sessionId);
  }

  /** A pending turn behind the others, with a source of its own or none. */
  lemma PendingHistory(s: Store, s': Store, x: Turn, source: Option<Sources.Source>, sessionId: Id)
    requires s'.turns == s.turns + [x] && x.state.Pending? && s'.sources == Attach(s.sources, x.id, source)
    requires forall i :: 0 <= i < |s.turns| ==> s.turns[i].id != x.id
    ensures HistoryOf(s', sessionId) == HistoryOf(s, sessionId)
  {
    HistoryOfAppend(s.turns, x, s'.sources, sessionId);
    if source.Some? {
      HistoryKeepsOnAttach(s.turns, s.sources, [TurnSource(x.id, source.value)], sessionId);
    }
  }

  lemma FollowUpHistory(s: Store, m: Message, k: nat, supply: Id, sessionId: Id)
    requires k < |s.sessions| && forall i :: 0 <= i < |s.turns| ==> s.turns[i].id < supply
    ensures HistoryOf(FollowedUp(s, m, k, supply), sessionId) == HistoryOf(s, sessionId)
  {
    PendingHistory(s, FollowedUp(s, m, k, supply), FollowUpTurn(s, m, s.sessions[k], supply), m.source, sessionId);
  }

  lemma FirstSendHistory(s: Store, m: Message, session: Session, supply: Id, sessionId: Id)
    requires forall i :: 0 <= i < |s.turns| ==> s.turns[i].id < supply
    ensures HistoryOf(Opened(s, m, session, supply), sessionId) == HistoryOf(s, sessionId)
  {
    PendingHistory(s, Opened(s, m, session, supply), FirstTurn(m, session, supply), m.source, sessionId);
  }

  lemma SendingHistory(a: Agents, m: Message, sessionId: Id)
    requires Inv(a)
    ensures HistoryOf(Do(a, Sending(m)).store, sessionId) == HistoryOf(a.store, sessionId)
  {
    SendingShape(a, m);
    SendCases(a.store, m, a.supply);
    if Send(a.store, m, a.supply).result.Ok? {
      if m.sessionId.Some? {
        var k := FindSession(a.store.sessions, m.sessionId.value).value;
        FollowUpShape(a.store, m, k, a.supply);
        FollowUpHistory(a.store, m, k, a.supply, sessionId);
      } else {
        var session := FirstSendShape(a.store, m, a.supply);
        FirstSendHistory(a.store, m, session, a.supply, sessionId);
      }
    }
  }

  lemma AssociatingHistory(a: Agents, id: Id, projectId: Option<Id>, now: int, sessionId: Id)
    ensures HistoryOf(Do(a, Associating(id, projectId, now)).store, sessionId) == HistoryOf(a.store, sessionId)
  {
  }

  /** A session's history grows by exactly the exchange of a turn that is completed, and by nothing else that
      is done. */
  lemma HistoryGrows(a: Agents, c: Command, sessionId: Id)
    requires Inv(a)
    ensures HistoryOf(Do(a, c).store, sessionId) == HistoryOf(a.store, sessionId) + Exchange(a.store, c, sessionId)
  {
    match c
    case Sending(m) => SendingHistory(a, m, sessionId);
    case Delta(id, text, now) => DeltaHistory(a, id, text, now, sessionId);
    case Associating(id, projectId, now) => AssociatingHistory(a, id, projectId, now, sessionId);
    case Recovering(now) => RecoveringHistory(a, now, sessionId);
    case Completing(id, response, now) => CompletingHistory(a, id, response, now, sessionId);
    case Cancelling(id, now) => CancellingHistory(a, id, now, sessionId);
    case Failing(id, code, now) => FailingHistory(a, id, code, now, sessionId);
  }

  /** The exchanges completed in a session, in the order of their completion. */
  function Exchanges(commands: seq<Command>, sessionId: Id): seq<AgentContext.CompletedTurn> {
    if commands == [] then []
    else
      var before := commands[..|commands| - 1];
      Exchanges(before, sessionId) + Exchange(Run(before).store, commands[|commands| - 1], sessionId)
  }

  lemma {:induction false} HistoryIsExchanges(commands: seq<Command>, sessionId: Id)
    ensures HistoryOf(Run(commands).store, sessionId) == Exchanges(commands, sessionId)
  {
    if commands != [] {
      var before := commands[..|commands| - 1];
      HistoryIsExchanges(before, sessionId);
      RunKeeps(before);
      HistoryGrows(Run(before), commands[|commands| - 1], sessionId);
    }
  }

  /** What a follow-up carries is what was completed in its session, whatever else went on. */
  lemma SendsExchanges(commands: seq<Command>, m: Message, supply: Id)
    requires m.sessionId.Some? && Send(Run(commands).store, m, supply).result.Ok?
    ensures Send(Run(commands).store, m, supply).result.value.context.history == Exchanges(commands, m.sessionId.value)
  {
    SendsWholeHistory(commands, m, supply);
    HistoryIsExchanges(commands, m.sessionId.value);
  }
}
