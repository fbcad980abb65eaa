/** The stored conversation as it is updated in place, and the use cases as they run on it. */
module AgentRepository {
  import opened Wrappers
  import opened AgentRecords
  import opened AgentStore
  import AgentContext

  class Repository {
    var sessions: seq<Session>
    var turns: seq<Turn>
    var events: seq<Event>
    var sources: seq<TurnSource>

    constructor ()
      ensures Contents() == Store([], [], [], [])
    {
      sessions, turns, events, sources := [], [], [], [];
    }

    function Contents(): Store
      reads this
    {
      Store(sessions, turns, events, sources)
    }

    method UpdateSession(session: Session) returns (ok: bool)
      modifies this`sessions
      ensures ok <==> FindSession(old(sessions), session.id).Some?
      ensures sessions == PutSession(old(sessions), session)
    {
      var i := FindSession(sessions, session.id);
      if i.Some? {
        sessions := sessions[i.value := session];
      }
      ok := i.Some?;
    }

    method UpdateTurn(turn: Turn) returns (ok: bool)
      modifies this`turns
      ensures ok <==> FindTurn(old(turns), turn.id).Some?
      ensures turns == PutTurn(old(turns), turn)
    {
      var i := FindTurn(turns, turn.id);
      if i.Some? {
        turns := turns[i.value := turn];
      }
      ok := i.Some?;
    }

    method CheckpointTurn(turn: Turn, streaming: Option<Event>) returns (ok: bool)
      modifies this`turns, this`events
      ensures ok <==> FindTurn(old(turns), turn.id).Some?
      ensures turns == PutTurn(old(turns), turn)
      ensures events == if ok && streaming.Some? then old(events) + [streaming.value] else old(events)
    {
      ok := UpdateTurn(turn);
      if ok && streaming.Some? {
        events := events + [streaming.value];
      }
    }

    /** Stops at the first part that is missing, keeping what was stored before it. */
    method FinishTurn(session: Session, turn: Turn, event: Event) returns (ok: bool)
      modifies this
      ensures ok <==> FindSession(old(sessions), session.id).Some? && FindTurn(old(turns), turn.id).Some?
      ensures ok ==> Contents() == PutAll(old(Contents()), session, turn, event)
      ensures !ok ==> events == old(events) && turns == old(turns) && sessions == PutSession(old(sessions), session)
    {
      ok := UpdateSession(session);
      if !ok {
        return;
      }
      ok := UpdateTurn(turn);
      if !ok {
        return;
      }
      events := events + [event];
    }

    method HasAll(updates: seq<Update>) returns (all: bool)
      ensures all <==> forall i :: 0 <= i < |updates| ==> Present(Contents(), updates[i])
    {
      for i := 0 to |updates|
        invariant forall j :: 0 <= j < i ==> Present(Contents(), updates[j])
      {
        if !Present(Contents(), updates[i]) {
          return false;
        }
      }
      return true;
    }

    /** All updates or none. */
    method FinishTurns(updates: seq<Update>) returns (ok: bool)
      modifies this
      ensures ok <==> forall i :: 0 <= i < |updates| ==> Present(old(Contents()), updates[i])
      ensures Contents() == if ok then ApplyUpdates(old(Contents()), updates) else old(Contents())
    {
      ok := HasAll(updates);
      if !ok {
        return;
      }
      for i := 0 to |updates|
        invariant Contents() == ApplyUpdates(old(Contents()), updates[..i])
      {
        var u := updates[i];
        assert updates[..i + 1][..i] == updates[..i];
        sessions := PutSession(sessions, u.session);
        turns := PutTurn(turns, u.turn);
        events := events + [u.event];
      }
      assert updates[..|updates|] == updates;
    }
  }

  predicate Present(s: Store, u: Update) {
    FindSession(s.sessions, u.session.id).Some? && FindTurn(s.turns, u.turn.id).Some?
  }

  // ----- Use cases -----

  method StoreTerminal(repo: Repository, turn: Turn, eventId: Id, now: int) returns (result: Result<Turn, AgentError>)
    requires FindTurn(repo.turns, turn.id).Some?
    modifies repo
    ensures After(repo.Contents(), result) == PersistTerminal(old(repo.Contents()), turn, eventId, now)
  {
    var i := FindSession(repo.sessions, turn.sessionId);
    if i.None? {
      return Err(SessionNotFound);
    }
    var session := repo.sessions[i.value].(updatedAt := now);
    var kind := TerminalKind(turn.state);
    if kind.Err? {
      return Err(kind.error);
    }
    var event := Event(eventId, turn.sessionId, Some(turn.id), NextSequence(repo.events, turn.sessionId), kind.value);
    var ok := repo.FinishTurn(session, turn, event);
    assert ok;
    return Ok(turn);
  }

  method CompleteAgentTurn(repo: Repository, turnId: Id, response: Option<string>, eventId: Id, now: int)
    returns (result: Result<Turn, AgentError>)
    modifies repo
    ensures After(repo.Contents(), result) == CompleteTurn(old(repo.Contents()), turnId, response, eventId, now)
  {
    var i := FindTurn(repo.turns, turnId);
    if i.None? {
      return Err(TurnNotFound);
    }
    var turn := repo.turns[i.value].Complete(response, now);
    if turn.Err? {
      return Err(turn.error);
    }
    result := StoreTerminal(repo, turn.value, eventId, now);
  }

  method CancelAgentTurn(repo: Repository, turnId: Id, eventId: Id, now: int) returns (result: Result<Turn, AgentError>)
    modifies repo
    ensures After(repo.Contents(), result) == CancelTurn(old(repo.Contents()), turnId, eventId, now)
  {
    var i := FindTurn(repo.turns, turnId);
    if i.None? {
      return Err(TurnNotFound);
    }
    var turn := repo.turns[i.value].Cancel(now);
    if turn.Err? {
      return Err(turn.error);
    }
    result := StoreTerminal(repo, turn.value, eventId, now);
  }

  method FailAgentTurn(repo: Repository, turnId: Id, code: string, eventId: Id, now: int)
    returns (result: Result<Turn, AgentError>)
    modifies repo
    ensures After(repo.Contents(), result) == FailTurn(old(repo.Contents()), turnId, code, eventId, now)
  {
    var i := FindTurn(repo.turns, turnId);
    if i.None? {
      return Err(TurnNotFound);
    }
    var turn := repo.turns[i.value].Fail(code, now);
    if turn.Err? {
      return Err(turn.error);
    }
    result := StoreTerminal(repo, turn.value, eventId, now);
  }

  method ApplyAgentDelta(repo: Repository, turnId: Id, delta: string, eventId: Id, now: int)
    returns (result: Result<Turn, AgentError>)
    modifies repo
    ensures After(repo.Contents(), result) == ApplyDelta(old(repo.Contents()), turnId, delta, eventId, now)
  {
    var i := FindTurn(repo.turns, turnId);
    if i.None? {
      return Err(TurnNotFound);
    }
    var turn := repo.turns[i.value];
    if turn.state.Terminal() {
      return Err(IllegalTransition(turn.state, Streaming));
    }
    var firstDelta := turn.state.Pending? && delta != [];
    var longer := turn.AppendText(delta);
    if longer.None? {
      var failed := turn.Fail("output_limit", now);
      if failed.Err? {
        return Err(failed.error);
      }
      var persisted := StoreTerminal(repo, failed.value, eventId, now);
      return if persisted.Ok? then Err(OutputLimit(persisted.value)) else persisted;
    }
    turn := longer.value;
    var streaming: Option<Event> := None;
    if firstDelta {
      var marked := turn.MarkStreaming();
      if marked.Err? {
        return Err(marked.error);
      }
      turn := marked.value;
      streaming := Some(Event(eventId, turn.sessionId, Some(turn.id), NextSequence(repo.events, turn.sessionId), TurnStreaming));
    }
    var ok := repo.CheckpointTurn(turn, streaming);
    assert ok;
    return Ok(turn);
  }

  method SetSessionProject(repo: Repository, sessionId: Id, projectId: Option<Id>, eventId: Id, now: int)
    returns (result: Result<Session, AgentError>)
    modifies repo
    ensures After(repo.Contents(), result) == SetProject(old(repo.Contents()), sessionId, projectId, eventId, now)
  {
    var i := FindSession(repo.sessions, sessionId);
    if i.None? {
      return Err(SessionNotFound);
    }
    var session := repo.sessions[i.value].(projectId := projectId, updatedAt := now);
    var event := Event(eventId, sessionId, None, NextSequence(repo.events, sessionId), ProjectAssociationChanged);
    var ok := repo.UpdateSession(session);
    assert ok;
    repo.events := repo.events + [event];
    return Ok(session);
  }

  /** The finished turns among those listed, each with its source. */
  method CollectHistory(turns: seq<Turn>, sources: seq<TurnSource>) returns (history: seq<AgentContext.CompletedTurn>)
    ensures history == CompletedHistory(turns, sources)
  {
    history := [];
    for k := 0 to |turns|
      invariant history == CompletedHistory(turns[..k], sources)
    {
      assert turns[..k + 1][..k] == turns[..k];
      if turns[k].state.Completed? {
        history := history + [FinishedTurn(turns[k], sources)];
      }
    }
    assert turns[..|turns|] == turns;
  }

  method AssembleContext(turns: seq<Turn>, sources: seq<TurnSource>, m: Message, model: string)
    returns (context: Result<AgentContext.RequestContext, AgentError>)
    ensures context == ContextFor(turns, sources, m, model)
  {
    var history := CollectHistory(turns, sources);
    var saved := if m.instructions == [] then None else Some(m.instructions);
    var source := if m.source.Some? then Some(AgentContext.ContextOf(m.source.value)) else None;
    context := AgentContext.BuildAgentRequestContext(m.prompt, history, m.text, saved, model, source, m.effort);
  }

  method PrepareAgentSend(repo: Repository, m: Message, supply: Id) returns (result: Result<Prepared, AgentError>)
    modifies repo
    ensures After(repo.Contents(), result) == Send(old(repo.Contents()), m, supply)
  {
    if UserTextError(m.text).Some? {
      return Err(UserTextError(m.text).value);
    }
    if !m.effortAvailable && m.effort.Some? {
      return Err(UnsupportedControl);
    }
    if InFlight(repo.turns) != [] {
      return Err(SessionBusy);
    }
    if m.sessionId.Some? {
      var i := FindSession(repo.sessions, m.sessionId.value);
      if i.None? {
        return Err(SessionNotFound);
      }
      result := PrepareFollowUp(repo, m, i.value, supply);
    } else {
      result := PrepareFirst(repo, m, supply);
    }
  }

  method PrepareFollowUp(repo: Repository, m: Message, i: nat, supply: Id) returns (result: Result<Prepared, AgentError>)
    requires i < |repo.sessions| && FindSession(repo.sessions, repo.sessions[i].id) == Some(i)
    modifies repo
    ensures After(repo.Contents(), result) == FollowUp(old(repo.Contents()), m, old(repo.sessions[i]), supply)
  {
    var session := repo.sessions[i];
    if session.projectId != m.projectId {
      return Err(ProjectMismatch);
    }
    var model := ValidateModelId(session.modelId);
    if model.None? {
      return Err(ModelUnavailable);
    }
    if session.profileId == [] {
      return Err(ProfileUnavailable);
    }
    var context := AssembleContext(ListTurns(repo.turns, session.id), repo.sources, m, model.value);
    if context.Err? {
      return Err(context.error);
    }
    result := AppendTurn(repo, m, i, model.value, context.value, supply);
  }

  method AppendTurn(repo: Repository, m: Message, i: nat, model: string, context: AgentContext.RequestContext, supply: Id)
    returns (result: Result<Prepared, AgentError>)
    requires i < |repo.sessions| && FindSession(repo.sessions, repo.sessions[i].id) == Some(i)
    modifies repo
    ensures After(repo.Contents(), result)
         == StoreFollowUp(old(repo.Contents()), m, old(repo.sessions[i]), model, context, supply)
  {
    var session := repo.sessions[i];
    var ordinal := NextOrdinal(repo.turns, session.id);
    var turn := NewPending(supply + 1, session.id, ordinal, m.text, m.projectId, m.instructions, session.profileId, model,
                           m.effort, m.now);
    session := session.(updatedAt := m.now);
    var sequence := NextSequence(repo.events, session.id);
    var pending := Event(supply + 2, session.id, Some(turn.id), sequence, TurnPending);
    var ok := repo.UpdateSession(session);
    assert ok;
    repo.turns := repo.turns + [turn];
    if m.source.Some? {
      repo.sources := repo.sources + [TurnSource(turn.id, m.source.value)];
    }
    repo.events := repo.events + [pending];
    return Ok(Prepared(session, turn, context, false));
  }

  method PrepareFirst(repo: Repository, m: Message, supply: Id) returns (result: Result<Prepared, AgentError>)
    modifies repo
    ensures After(repo.Contents(), result) == FirstSend(old(repo.Contents()), m, supply)
  {
    var model := ValidateModelId(m.modelId);
    if model.None? {
      return Err(ModelUnavailable);
    }
    if Trim(m.profileId) == [] {
      return Err(ProfileUnavailable);
    }
    var context := AssembleContext([], [], m, model.value);
    if context.Err? {
      return Err(context.error);
    }
    result := CreateSession(repo, m, model.value, context.value, supply);
  }

  method CreateSession(repo: Repository, m: Message, model: string, context: AgentContext.RequestContext, supply: Id)
    returns (result: Result<Prepared, AgentError>)
    modifies repo
    ensures After(repo.Contents(), result) == StoreFirst(old(repo.Contents()), m, model, context, supply)
  {
    var session := Session(supply, m.projectId, Trim(m.profileId), model, m.now);
    var turn := NewPending(supply + 1, session.id, 0, m.text, m.projectId, m.instructions, session.profileId, model, m.effort,
                           m.now);
    var created := Event(supply + 2, session.id, None, 0, SessionCreated);
    var pending := Event(supply + 3, session.id, Some(turn.id), 1, TurnPending);
    repo.sessions := repo.sessions + [session];
    repo.turns := repo.turns + [turn];
    if m.source.Some? {
      repo.sources := repo.sources + [TurnSource(turn.id, m.source.value)];
    }
    ghost var before := repo.events;
    repo.events := repo.events + [created];
    repo.events := repo.events + [pending];
    assert repo.events == before + [created, pending];
    return Ok(Prepared(session, turn, context, true));
  }

  // ----- Recovery -----

  lemma {:induction false} InFlightStored(turns: seq<Turn>, k: nat)
    requires k < |InFlight(turns)|
    ensures FindTurn(turns, InFlight(turns)[k].id).Some?
  {
    if k < |InFlight(turns[..|turns| - 1])| {
      InFlightStored(turns[..|turns| - 1], k);
      var i := FindTurn(turns[..|turns| - 1], InFlight(turns[..|turns| - 1])[k].id).value;
      assert turns[i].id == InFlight(turns)[k].id;
    } else {
      assert turns[|turns| - 1].id == InFlight(turns)[k].id;
    }
  }

  /** Once planning fails for a turn it fails for the whole list. */
  lemma {:induction false} PlanningFails(s: Store, inflight: seq<Turn>, k: nat, n: nat, supply: Id, now: int)
    requires k <= n <= |inflight| && PlanUpTo(s, inflight, k, supply, now).Err?
    ensures PlanUpTo(s, inflight, n, supply, now) == PlanUpTo(s, inflight, k, supply, now)
  {
    if k < n {
      PlanningFails(s, inflight, k, n - 1, supply, now);
    }
  }

  method InterruptInflightTurns(repo: Repository, supply: Id, now: int) returns (result: Result<seq<Turn>, AgentError>)
    modifies repo
    ensures After(repo.Contents(), result) == InterruptAll(old(repo.Contents()), supply, now)
  {
    var inflight := InFlight(repo.turns);
    var next: map<Id, nat> := map[];
    var updates: seq<Update> := [];
    for k := 0 to |inflight|
      invariant repo.Contents() == old(repo.Contents())
      invariant PlanUpTo(repo.Contents(), inflight, k, supply, now) == Ok(Plan(updates, next))
      invariant forall j :: 0 <= j < |updates| ==> Present(repo.Contents(), updates[j])
    {
      var turn, eventId := inflight[k], supply + k;
      ghost var planned := PlanUpTo(repo.Contents(), inflight, k + 1, supply, now);
      assert planned == PlanOne(repo.Contents(), Plan(updates, next), turn, eventId, now);
      var interrupted := turn.Interrupt(now);
      if interrupted.Err? {
        PlanningFails(repo.Contents(), inflight, k + 1, |inflight|, supply, now);
        return Err(interrupted.error);
      }
      var i := FindSession(repo.sessions, turn.sessionId);
      if i.None? {
        PlanningFails(repo.Contents(), inflight, k + 1, |inflight|, supply, now);
        return Err(SessionNotFound);
      }
      var session := repo.sessions[i.value].(updatedAt := now);
      var sequence;
      if turn.sessionId in next {
        sequence := next[turn.sessionId];
      } else {
        sequence := NextSequence(repo.events, turn.sessionId);
      }
      next := next[turn.sessionId := sequence + 1];
      var event := Event(eventId, turn.sessionId, Some(turn.id), sequence, TurnInterrupted);
      InFlightStored(repo.turns, k);
      updates := updates + [Update(session, interrupted.value, event)];
    }
    var ok := repo.FinishTurns(updates);
    assert ok;
    return Ok(TurnsOf(updates));
  }
}
