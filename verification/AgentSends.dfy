/** Which sends are accepted, and what exactly an accepted one stores and hands over. */
module AgentSends {
  import opened Wrappers
  import opened Text
  import opened AgentRecords
  import opened AgentStore
  import opened AgentInvariants
  import opened AgentTheorems
  import opened AgentOutcomes
  import AgentContext

  // ----- What a send must be -----

  predicate Sayable(text: string) {
    (exists i :: 0 <= i < |text| && !IsSpace(text[i])) && ByteLen(text) <= 32_768
  }

  function InstructionsOf(m: Message): string {
    if m.instructions == "" then m.prompt
    else m.prompt + "\n\nSaved Project instructions:\n---\n" + m.instructions + "\n---"
  }

  function SourceOf(m: Message): Option<AgentContext.SourceContext> {
    if m.source.Some? then Some(AgentContext.ContextOf(m.source.value)) else None
  }

  /** Instructions, history and current text fit into 128 kibibytes. */
  predicate Fits(m: Message, history: seq<AgentContext.CompletedTurn>) {
    AgentContext.TotalBytes(InstructionsOf(m), history, AgentContext.FormatTurn(m.text, SourceOf(m))) <= 131_072
  }

  predicate Ready(s: Store, m: Message) {
    Sayable(m.text) && (m.effort.Some? ==> m.effortAvailable) && !LastInFlight(s.turns)
  }

  function ContextOf(m: Message, model: string, history: seq<AgentContext.CompletedTurn>): AgentContext.RequestContext {
    AgentContext.RequestContext(model, InstructionsOf(m), history, m.text, SourceOf(m), m.effort)
  }

  function NewTurn(id: Id, m: Message, session: Session, ordinal: nat): Turn {
    Turn(id, session.id, ordinal, m.text, "", Pending, None, session.profileId, session.modelId, m.effort, m.projectId,
         m.instructions, None, m.now, None)
  }

  // ----- What they have in common -----

  lemma SayableExactly(text: string)
    ensures UserTextError(text).None? <==> Sayable(text)
  {
  }

  lemma IdleExactly(turns: seq<Turn>)
    requires InFlightLast(turns)
    ensures InFlight(turns) == [] <==> !LastInFlight(turns)
  {
    OneInFlight(turns);
  }

  lemma ContextExactly(turns: seq<Turn>, sources: seq<TurnSource>, m: Message, model: string)
    requires Sayable(m.text)
    ensures var r, history := ContextFor(turns, sources, m, model), CompletedHistory(turns, sources);
            (r.Ok? <==> Fits(m, history)) && (r.Ok? ==> r.value == ContextOf(m, model, history))
  {
    SayableExactly(m.text);
    AgentContext.RefusedExactly(m.prompt, CompletedHistory(turns, sources), m.text,
                                if m.instructions == [] then None else Some(m.instructions), model, SourceOf(m), m.effort);
  }

  lemma HistoryListed(a: Agents, sessionId: Id)
    requires Inv(a)
    ensures CompletedHistory(ListTurns(a.store.turns, sessionId), a.store.sources) == HistoryOf(a.store, sessionId)
    ensures NextOrdinal(a.store.turns, sessionId) == |SessionTurns(a.store.turns, sessionId)|
  {
    assert Numbered(SessionTurns(a.store.turns, sessionId));
    NumberedIsSorted(SessionTurns(a.store.turns, sessionId));
    NextOrdinalIsCount(a.store.turns, sessionId);
  }

  // ----- Follow-ups -----

  predicate FollowUpAccepted(s: Store, m: Message, session: Session) {
    && Ready(s, m)
    && session.projectId == m.projectId
    && session.profileId != ""
    && Fits(m, HistoryOf(s, session.id))
  }

  /** Session k touched, its next turn pending, one event, and the source attached to that turn. */
  function FollowUpStored(s: Store, m: Message, k: nat, supply: Id): Store
    requires k < |s.sessions|
  {
    var session := s.sessions[k];
    Store(s.sessions[k := session.(updatedAt := m.now)],
          s.turns + [NewTurn(supply + 1, m, session, |SessionTurns(s.turns, session.id)|)],
          Logged(s, supply + 2, session.id, Some(supply + 1), TurnPending),
          s.sources + if m.source.Some? then [TurnSource(supply + 1, m.source.value)] else [])
  }

  lemma FollowUpDecided(s: Store, m: Message, session: Session, supply: Id)
    requires Sayable(m.text) && ValidateModelId(session.modelId) == Some(session.modelId)
    requires CompletedHistory(ListTurns(s.turns, session.id), s.sources) == HistoryOf(s, session.id)
    ensures var r := FollowUp(s, m, session, supply);
            (r.result.Ok? <==> session.projectId == m.projectId && session.profileId != "" && Fits(m, HistoryOf(s, session.id)))
            && (r.result.Err? ==> r.store == s)
            && (r.result.Ok? ==> r == StoreFollowUp(s, m, session, session.modelId,
                                                    ContextOf(m, session.modelId, HistoryOf(s, session.id)), supply))
  {
    ContextExactly(ListTurns(s.turns, session.id), s.sources, m, session.modelId);
  }

  lemma FollowUpStoresExactly(s: Store, m: Message, k: nat, context: AgentContext.RequestContext, supply: Id)
    requires k < |s.sessions| && FindSession(s.sessions, s.sessions[k].id) == Some(k)
    requires NextSequence(s.events, s.sessions[k].id) == |SessionLog(s.events, s.sessions[k].id)|
    requires NextOrdinal(s.turns, s.sessions[k].id) == |SessionTurns(s.turns, s.sessions[k].id)|
    ensures StoreFollowUp(s, m, s.sessions[k], s.sessions[k].modelId, context, supply)
         == After(FollowUpStored(s, m, k, supply),
                  Ok(Prepared(s.sessions[k].(updatedAt := m.now),
                              NewTurn(supply + 1, m, s.sessions[k], |SessionTurns(s.turns, s.sessions[k].id)|), context, false)))
  {
  }

  lemma SendToSession(s: Store, m: Message, k: nat, supply: Id)
    requires m.sessionId.Some? && FindSession(s.sessions, m.sessionId.value) == Some(k) && InFlightLast(s.turns)
    ensures var r := Send(s, m, supply);
            if Ready(s, m) then r == FollowUp(s, m, s.sessions[k], supply) else r.result.Err? && r.store == s
  {
    SayableExactly(m.text);
    IdleExactly(s.turns);
  }

  /** A send to session k is accepted exactly when its text says something within its limit, an effort is
      chosen only where one is offered, no turn is in flight, the session has this project and a profile, and
      all of it fits. It then carries the session's own model and its history; refused, it changes nothing. */
  lemma FollowUpExactly(a: Agents, m: Message, k: nat, supply: Id)
    requires Inv(a) && m.sessionId.Some? && FindSession(a.store.sessions, m.sessionId.value) == Some(k)
    ensures var s, r := a.store, Send(a.store, m, supply);
            var session := s.sessions[k];
            if FollowUpAccepted(s, m, session) then
              r == After(FollowUpStored(s, m, k, supply),
                         Ok(Prepared(session.(updatedAt := m.now),
                                     NewTurn(supply + 1, m, session, |SessionTurns(s.turns, session.id)|),
                                     ContextOf(m, session.modelId, HistoryOf(s, session.id)), false)))
            else r.result.Err? && r.store == s
  {
    var session := a.store.sessions[k];
    SendToSession(a.store, m, k, supply);
    if Ready(a.store, m) {
      HistoryListed(a, session.id);
      FollowUpDecided(a.store, m, session, supply);
      SequenceIsLength(a.store, session.id);
      FollowUpStoresExactly(a.store, m, k, ContextOf(m, session.modelId, HistoryOf(a.store, session.id)), supply);
    }
  }

  // ----- First sends -----

  predicate FirstAccepted(s: Store, m: Message, model: string) {
    Ready(s, m) && ValidateModelId(m.modelId) == Some(model) && Trim(m.profileId) != "" && Fits(m, [])
  }

  function FirstStored(s: Store, m: Message, session: Session, supply: Id): Store {
    Store(s.sessions + [session], s.turns + [NewTurn(supply + 1, m, session, 0)],
          s.events + [Event(supply + 2, supply, None, 0, SessionCreated), Event(supply + 3, supply, Some(supply + 1), 1, TurnPending)],
          s.sources + if m.source.Some? then [TurnSource(supply + 1, m.source.value)] else [])
  }

  lemma FirstDecided(s: Store, m: Message, supply: Id)
    requires Sayable(m.text)
    ensures var r, model := FirstSend(s, m, supply), ValidateModelId(m.modelId);
            (r.result.Ok? <==> model.Some? && Trim(m.profileId) != "" && Fits(m, []))
            && (r.result.Err? ==> r.store == s)
            && (r.result.Ok? ==> r == StoreFirst(s, m, model.value, ContextOf(m, model.value, []), supply))
  {
    if ValidateModelId(m.modelId).Some? {
      ContextExactly([], [], m, ValidateModelId(m.modelId).value);
    }
  }

  lemma FirstStoresExactly(s: Store, m: Message, model: string, context: AgentContext.RequestContext, supply: Id)
    ensures var session := Session(supply, m.projectId, Trim(m.profileId), model, m.now);
            StoreFirst(s, m, model, context, supply)
              == After(FirstStored(s, m, session, supply), Ok(Prepared(session, NewTurn(supply + 1, m, session, 0), context, true)))
  {
  }

  lemma SendToNone(s: Store, m: Message, supply: Id)
    requires m.sessionId.None? && InFlightLast(s.turns)
    ensures var r := Send(s, m, supply);
            if Ready(s, m) then r == FirstSend(s, m, supply) else r.result.Err? && r.store == s
  {
    SayableExactly(m.text);
    IdleExactly(s.turns);
  }

  /** A send without a session is accepted exactly when, besides, the model identifier is one and the profile is
      not blank; it opens the session with both, and its history is empty. */
  lemma FirstSendExactly(a: Agents, m: Message, supply: Id)
    requires Inv(a) && m.sessionId.None?
    ensures var s, r := a.store, Send(a.store, m, supply);
            (r.result.Ok? <==> exists model :: FirstAccepted(s, m, model))
            && (r.result.Err? ==> r.store == s)
            && forall model :: FirstAccepted(s, m, model) ==>
                 var session := Session(supply, m.projectId, Trim(m.profileId), model, m.now);
                 r == After(FirstStored(s, m, session, supply),
                            Ok(Prepared(session, NewTurn(supply + 1, m, session, 0), ContextOf(m, model, []), true)))
  {
    SendToNone(a.store, m, supply);
    if Ready(a.store, m) {
      FirstDecided(a.store, m, supply);
      if ValidateModelId(m.modelId).Some? {
        var model := ValidateModelId(m.modelId).value;
        FirstStoresExactly(a.store, m, model, ContextOf(m, model, []), supply);
        assert Trim(m.profileId) != "" && Fits(m, []) ==> FirstAccepted(a.store, m, model);
      }
    }
  }

  // ----- What a refusal says -----

  /** The reason given is a fact. */
  ghost predicate Honest(s: Store, m: Message, error: AgentError) {
    match error
    case EmptyText => forall i :: 0 <= i < |m.text| ==> IsSpace(m.text[i])
    case TextTooLarge(n) => n == ByteLen(m.text) && n > 32_768
    case UnsupportedControl => m.effort.Some? && !m.effortAvailable
    case SessionBusy => LastInFlight(s.turns)
    case SessionNotFound => m.sessionId.Some? && FindSession(s.sessions, m.sessionId.value).None?
    case ProjectMismatch =>
      m.sessionId.Some? && exists k :: FindSession(s.sessions, m.sessionId.value) == Some(k) && s.sessions[k].projectId != m.projectId
    case ModelUnavailable => m.sessionId.None? && ValidateModelId(m.modelId).None?
    case ProfileUnavailable => m.sessionId.None? ==> Trim(m.profileId) == ""
    case ContextLimit(_) => !Fits(m, if m.sessionId.Some? then HistoryOf(s, m.sessionId.value) else [])
    case _ => false
  }

  lemma ContextRefusal(turns: seq<Turn>, sources: seq<TurnSource>, m: Message, model: string)
    requires Sayable(m.text) && ContextFor(turns, sources, m, model).Err?
    ensures ContextFor(turns, sources, m, model).error.ContextLimit? && !Fits(m, CompletedHistory(turns, sources))
  {
    SayableExactly(m.text);
    ContextExactly(turns, sources, m, model);
  }

  lemma FollowUpRefusal(s: Store, m: Message, k: nat, supply: Id)
    requires m.sessionId.Some? && FindSession(s.sessions, m.sessionId.value) == Some(k)
    requires Sayable(m.text) && ValidateModelId(s.sessions[k].modelId) == Some(s.sessions[k].modelId)
    requires CompletedHistory(ListTurns(s.turns, s.sessions[k].id), s.sources) == HistoryOf(s, s.sessions[k].id)
    requires FollowUp(s, m, s.sessions[k], supply).result.Err?
    ensures Honest(s, m, FollowUp(s, m, s.sessions[k], supply).result.error)
  {
    var session := s.sessions[k];
    if session.projectId == m.projectId && session.profileId != [] {
      ContextRefusal(ListTurns(s.turns, session.id), s.sources, m, session.modelId);
    }
  }

  lemma FirstRefusal(s: Store, m: Message, supply: Id)
    requires m.sessionId.None? && Sayable(m.text) && FirstSend(s, m, supply).result.Err?
    ensures Honest(s, m, FirstSend(s, m, supply).result.error)
  {
    if ValidateModelId(m.modelId).Some? && Trim(m.profileId) != [] {
      ContextRefusal([], [], m, ValidateModelId(m.modelId).value);
    }
  }

  lemma EarlyRefusal(s: Store, m: Message, supply: Id)
    requires InFlightLast(s.turns) && !Ready(s, m) && Send(s, m, supply).result.Err?
    ensures Honest(s, m, Send(s, m, supply).result.error)
  {
    SayableExactly(m.text);
    IdleExactly(s.turns);
  }

  /** Whatever a refused send is told holds of it. */
  lemma RefusalsAreHonest(a: Agents, m: Message, supply: Id)
    requires Inv(a) && Send(a.store, m, supply).result.Err?
    ensures Honest(a.store, m, Send(a.store, m, supply).result.error)
  {
    if !Ready(a.store, m) {
      EarlyRefusal(a.store, m, supply);
    } else if m.sessionId.None? {
      SendToNone(a.store, m, supply);
      FirstRefusal(a.store, m, supply);
    } else if FindSession(a.store.sessions, m.sessionId.value).Some? {
      var k := FindSession(a.store.sessions, m.sessionId.value).value;
      SendToSession(a.store, m, k, supply);
      HistoryListed(a, m.sessionId.value);
      FollowUpRefusal(a.store, m, k, supply);
    } else {
      UnknownSession(a.store, m, supply);
    }
  }

  /** A send to a session that is not there is refused and changes nothing. */
  lemma UnknownSession(s: Store, m: Message, supply: Id)
    requires InFlightLast(s.turns) && m.sessionId.Some? && FindSession(s.sessions, m.sessionId.value).None?
    ensures Send(s, m, supply).result.Err? && Send(s, m, supply).store == s
    ensures Ready(s, m) ==> Send(s, m, supply).result == Err(SessionNotFound)
  {
    SayableExactly(m.text);
    IdleExactly(s.turns);
  }
}
