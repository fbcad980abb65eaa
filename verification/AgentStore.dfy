/** The stored sessions, turns and events, and every use case as a function on them. */
module AgentStore {
  import opened Wrappers
  import opened AgentRecords
  import AgentContext
  import Sources

  /** A source attached to a turn; every attachment has order zero. */
  datatype TurnSource = TurnSource(turnId: Id, source: Sources.Source)

  datatype Store = Store(sessions: seq<Session>, turns: seq<Turn>, events: seq<Event>, sources: seq<TurnSource>)

  // ----- Looking up -----

  function FindSessionFrom(sessions: seq<Session>, id: Id, k: nat): (r: Option<nat>)
    requires k <= |sessions|
    ensures r.Some? ==> k <= r.value < |sessions| && sessions[r.value].id == id
                        && forall i :: k <= i < r.value ==> sessions[i].id != id
    ensures r.None? ==> forall i :: k <= i < |sessions| ==> sessions[i].id != id
    decreases |sessions| - k
  {
    if k == |sessions| then None
    else if sessions[k].id == id then Some(k)
    else FindSessionFrom(sessions, id, k + 1)
  }

  function FindSession(sessions: seq<Session>, id: Id): (r: Option<nat>)
    ensures r.Some? ==> r.value < |sessions| && sessions[r.value].id == id
                        && forall i :: 0 <= i < r.value ==> sessions[i].id != id
    ensures r.None? ==> forall i :: 0 <= i < |sessions| ==> sessions[i].id != id
  {
    FindSessionFrom(sessions, id, 0)
  }

  function FindTurnFrom(turns: seq<Turn>, id: Id, k: nat): (r: Option<nat>)
    requires k <= |turns|
    ensures r.Some? ==> k <= r.value < |turns| && turns[r.value].id == id
                        && forall i :: k <= i < r.value ==> turns[i].id != id
    ensures r.None? ==> forall i :: k <= i < |turns| ==> turns[i].id != id
    decreases |turns| - k
  {
    if k == |turns| then None
    else if turns[k].id == id then Some(k)
    else FindTurnFrom(turns, id, k + 1)
  }

  function FindTurn(turns: seq<Turn>, id: Id): (r: Option<nat>)
    ensures r.Some? ==> r.value < |turns| && turns[r.value].id == id
                        && forall i :: 0 <= i < r.value ==> turns[i].id != id
    ensures r.None? ==> forall i :: 0 <= i < |turns| ==> turns[i].id != id
  {
    FindTurnFrom(turns, id, 0)
  }

  /** The turns in flight, in storage order. */
  function InFlight(turns: seq<Turn>): seq<Turn> {
    if turns == [] then []
    else InFlight(turns[..|turns| - 1]) + if turns[|turns| - 1].state.InFlight() then [turns[|turns| - 1]] else []
  }

  /** One more than the largest sequence number among the session's first k events. */
  function NextUpTo(events: seq<Event>, sessionId: Id, k: nat): nat
    requires k <= |events|
  {
    if k == 0 then 0
    else
      var last, before := events[k - 1], NextUpTo(events, sessionId, k - 1);
      if last.sessionId == sessionId && last.sequence + 1 > before then last.sequence + 1 else before
  }

  function NextSequence(events: seq<Event>, sessionId: Id): nat {
    NextUpTo(events, sessionId, |events|)
  }

  /** One more than the largest ordinal among the session's first k turns. */
  function OrdinalUpTo(turns: seq<Turn>, sessionId: Id, k: nat): nat
    requires k <= |turns|
  {
    if k == 0 then 0
    else
      var last, before := turns[k - 1], OrdinalUpTo(turns, sessionId, k - 1);
      if last.sessionId == sessionId && last.ordinal + 1 > before then last.ordinal + 1 else before
  }

  function NextOrdinal(turns: seq<Turn>, sessionId: Id): nat {
    OrdinalUpTo(turns, sessionId, |turns|)
  }

  // ----- Storing -----

  function PutSession(sessions: seq<Session>, session: Session): seq<Session> {
    match FindSession(sessions, session.id)
    case None => sessions
    case Some(i) => sessions[i := session]
  }

  function PutTurn(turns: seq<Turn>, turn: Turn): seq<Turn> {
    match FindTurn(turns, turn.id)
    case None => turns
    case Some(i) => turns[i := turn]
  }

  /** A session, a turn and an event stored in one unit. */
  function PutAll(s: Store, session: Session, turn: Turn, event: Event): Store {
    s.(sessions := PutSession(s.sessions, session), turns := PutTurn(s.turns, turn), events := s.events + [event])
  }

  // ----- Use cases -----

  datatype After<T> = After(store: Store, result: Result<T, AgentError>)

  /** Stores a turn that has just become terminal, with its one terminal event. */
  function PersistTerminal(s: Store, turn: Turn, eventId: Id, now: int): After<Turn> {
    match FindSession(s.sessions, turn.sessionId)
    case None => After(s, Err(SessionNotFound))
    case Some(i) =>
      match TerminalKind(turn.state)
      case Err(error) => After(s, Err(error))
      case Ok(kind) =>
        var event := Event(eventId, turn.sessionId, Some(turn.id), NextSequence(s.events, turn.sessionId), kind);
        After(PutAll(s, s.sessions[i].(updatedAt := now), turn, event), Ok(turn))
  }

  function Finish(s: Store, finished: Result<Turn, AgentError>, eventId: Id, now: int): After<Turn> {
    match finished
    case Err(error) => After(s, Err(error))
    case Ok(turn) => PersistTerminal(s, turn, eventId, now)
  }

  function CompleteTurn(s: Store, turnId: Id, response: Option<string>, eventId: Id, now: int): After<Turn> {
    match FindTurn(s.turns, turnId)
    case None => After(s, Err(TurnNotFound))
    case Some(i) => Finish(s, s.turns[i].Complete(response, now), eventId, now)
  }

  function CancelTurn(s: Store, turnId: Id, eventId: Id, now: int): After<Turn> {
    match FindTurn(s.turns, turnId)
    case None => After(s, Err(TurnNotFound))
    case Some(i) => Finish(s, s.turns[i].Cancel(now), eventId, now)
  }

  function FailTurn(s: Store, turnId: Id, code: string, eventId: Id, now: int): After<Turn> {
    match FindTurn(s.turns, turnId)
    case None => After(s, Err(TurnNotFound))
    case Some(i) => Finish(s, s.turns[i].Fail(code, now), eventId, now)
  }

  function StreamingEvent(s: Store, turn: Turn, eventId: Id): Event {
    Event(eventId, turn.sessionId, Some(turn.id), NextSequence(s.events, turn.sessionId), TurnStreaming)
  }

  /** Text that would pass the ceiling fails the turn; the first text makes it streaming. */
  function ApplyDelta(s: Store, turnId: Id, delta: string, eventId: Id, now: int): After<Turn> {
    match FindTurn(s.turns, turnId)
    case None => After(s, Err(TurnNotFound))
    case Some(i) =>
      var turn := s.turns[i];
      if turn.state.Terminal() then After(s, Err(IllegalTransition(turn.state, Streaming)))
      else
        match turn.AppendText(delta)
        case None =>
          var failed := Finish(s, turn.Fail("output_limit", now), eventId, now);
          if failed.result.Err? then failed else After(failed.store, Err(OutputLimit(failed.result.value)))
        case Some(longer) =>
          if turn.state.Pending? && delta != [] then
            match longer.MarkStreaming()
            case Err(error) => After(s, Err(error))
            case Ok(streaming) =>
              After(s.(turns := PutTurn(s.turns, streaming), events := s.events + [StreamingEvent(s, turn, eventId)]),
                    Ok(streaming))
          else After(s.(turns := PutTurn(s.turns, longer)), Ok(longer))
  }

  function SetProject(s: Store, sessionId: Id, projectId: Option<Id>, eventId: Id, now: int): After<Session> {
    match FindSession(s.sessions, sessionId)
    case None => After(s, Err(SessionNotFound))
    case Some(i) =>
      var session := s.sessions[i].(projectId := projectId, updatedAt := now);
      var event := Event(eventId, sessionId, None, NextSequence(s.events, sessionId), ProjectAssociationChanged);
      After(s.(sessions := PutSession(s.sessions, session), events := s.events + [event]), Ok(session))
  }

  // ----- The finished turns of a session -----

  function SessionTurns(turns: seq<Turn>, sessionId: Id): seq<Turn> {
    if turns == [] then []
    else
      SessionTurns(turns[..|turns| - 1], sessionId)
      + if turns[|turns| - 1].sessionId == sessionId then [turns[|turns| - 1]] else []
  }

  /** Behind every turn with the same or a smaller ordinal. */
  function InsertByOrdinal(sorted: seq<Turn>, turn: Turn): seq<Turn> {
    if sorted == [] || sorted[|sorted| - 1].ordinal <= turn.ordinal then sorted + [turn]
    else InsertByOrdinal(sorted[..|sorted| - 1], turn) + [sorted[|sorted| - 1]]
  }

  function ByOrdinal(turns: seq<Turn>): seq<Turn> {
    if turns == [] then [] else InsertByOrdinal(ByOrdinal(turns[..|turns| - 1]), turns[|turns| - 1])
  }

  function ListTurns(turns: seq<Turn>, sessionId: Id): seq<Turn> {
    ByOrdinal(SessionTurns(turns, sessionId))
  }

  /** The first source attached to the turn, from the k-th stored one on. */
  function SourceFrom(sources: seq<TurnSource>, turnId: Id, k: nat): Option<AgentContext.SourceContext>
    requires k <= |sources|
    decreases |sources| - k
  {
    if k == |sources| then None
    else if sources[k].turnId == turnId then Some(AgentContext.ContextOf(sources[k].source))
    else SourceFrom(sources, turnId, k + 1)
  }

  function FinishedTurn(turn: Turn, sources: seq<TurnSource>): AgentContext.CompletedTurn {
    AgentContext.CompletedTurn(turn.userText, turn.agentText, SourceFrom(sources, turn.id, 0))
  }

  function CompletedHistory(turns: seq<Turn>, sources: seq<TurnSource>): seq<AgentContext.CompletedTurn> {
    if turns == [] then []
    else
      CompletedHistory(turns[..|turns| - 1], sources)
      + if turns[|turns| - 1].state.Completed? then [FinishedTurn(turns[|turns| - 1], sources)] else []
  }

  // ----- Sends -----

  /** What a send carries; `prompt` is the fixed instruction, the same for every send. It generates the identifiers `supply` (its session), `supply + 1` (its turn),
      `supply + 2` and `supply + 3` (its events). */
  datatype Message = Message(prompt: string, sessionId: Option<Id>, text: string, projectId: Option<Id>, instructions: string, profileId: string,
                             modelId: string, source: Option<Sources.Source>, effort: Option<Effort>, effortAvailable: bool,
                             now: int)

  datatype Prepared = Prepared(session: Session, turn: Turn, context: AgentContext.RequestContext, created: bool)

  /** The context of a send after the given turns, all of one session. */
  function ContextFor(turns: seq<Turn>, sources: seq<TurnSource>, m: Message, model: string)
    : Result<AgentContext.RequestContext, AgentError>
  {
    AgentContext.Build(m.prompt, CompletedHistory(turns, sources), m.text, if m.instructions == [] then None else Some(m.instructions),
                       model, if m.source.Some? then Some(AgentContext.ContextOf(m.source.value)) else None, m.effort)
  }

  function Attach(sources: seq<TurnSource>, turnId: Id, source: Option<Sources.Source>): seq<TurnSource> {
    if source.Some? then sources + [TurnSource(turnId, source.value)] else sources
  }

  /** A chosen effort is refused where the host offers none; otherwise it is kept as it is. */
  function Send(s: Store, m: Message, supply: Id): After<Prepared> {
    if UserTextError(m.text).Some? then After(s, Err(UserTextError(m.text).value))
    else if !m.effortAvailable && m.effort.Some? then After(s, Err(UnsupportedControl))
    else if InFlight(s.turns) != [] then After(s, Err(SessionBusy))
    else if m.sessionId.Some? then
      match FindSession(s.sessions, m.sessionId.value)
      case None => After(s, Err(SessionNotFound))
      case Some(i) => FollowUp(s, m, s.sessions[i], supply)
    else FirstSend(s, m, supply)
  }

  /** A follow-up keeps the session's profile and model; what the caller names is ignored. */
  function FollowUp(s: Store, m: Message, session: Session, supply: Id): After<Prepared> {
    if session.projectId != m.projectId then After(s, Err(ProjectMismatch))
    else
      match ValidateModelId(session.modelId)
      case None => After(s, Err(ModelUnavailable))
      case Some(model) =>
        if session.profileId == [] then After(s, Err(ProfileUnavailable))
        else
          match ContextFor(ListTurns(s.turns, session.id), s.sources, m, model)
          case Err(error) => After(s, Err(error))
          case Ok(context) => StoreFollowUp(s, m, session, model, context, supply)
  }

  function StoreFollowUp(s: Store, m: Message, session: Session, model: string, context: AgentContext.RequestContext,
                         supply: Id): After<Prepared>
  {
    var turn := NewPending(supply + 1, session.id, NextOrdinal(s.turns, session.id), m.text, m.projectId, m.instructions,
                           session.profileId, model, m.effort, m.now);
    var event := Event(supply + 2, session.id, Some(turn.id), NextSequence(s.events, session.id), TurnPending);
    var touched := session.(updatedAt := m.now);
    After(Store(PutSession(s.sessions, touched), s.turns + [turn], s.events + [event], Attach(s.sources, turn.id, m.source)),
          Ok(Prepared(touched, turn, context, false)))
  }

  function FirstSend(s: Store, m: Message, supply: Id): After<Prepared> {
    match ValidateModelId(m.modelId)
    case None => After(s, Err(ModelUnavailable))
    case Some(model) =>
      if Trim(m.profileId) == [] then After(s, Err(ProfileUnavailable))
      else
        match ContextFor([], [], m, model)
        case Err(error) => After(s, Err(error))
        case Ok(context) => StoreFirst(s, m, model, context, supply)
  }

  function StoreFirst(s: Store, m: Message, model: string, context: AgentContext.RequestContext, supply: Id): After<Prepared> {
    var session := Session(supply, m.projectId, Trim(m.profileId), model, m.now);
    var turn := NewPending(supply + 1, supply, 0, m.text, m.projectId, m.instructions, session.profileId, model, m.effort, m.now);
    After(Store(s.sessions + [session], s.turns + [turn],
                s.events + [Event(supply + 2, supply, None, 0, SessionCreated),
                            Event(supply + 3, supply, Some(turn.id), 1, TurnPending)],
                Attach(s.sources, turn.id, m.source)),
          Ok(Prepared(session, turn, context, true)))
  }

  // ----- Recovery at start-up -----

  datatype Update = Update(session: Session, turn: Turn, event: Event)

  datatype Plan = Plan(updates: seq<Update>, next: map<Id, nat>)

  /** The updates for the first k turns in flight. A session's sequence number is read from the store
      once and counted on from there. */
  function PlanUpTo(s: Store, inflight: seq<Turn>, k: nat, supply: Id, now: int): Result<Plan, AgentError>
    requires k <= |inflight|
  {
    if k == 0 then Ok(Plan([], map[]))
    else PlanNext(s, PlanUpTo(s, inflight, k - 1, supply, now), inflight[k - 1], supply + k - 1, now)
  }

  function PlanNext(s: Store, before: Result<Plan, AgentError>, turn: Turn, eventId: Id, now: int): Result<Plan, AgentError> {
    match before
    case Err(error) => Err(error)
    case Ok(plan) => PlanOne(s, plan, turn, eventId, now)
  }

  function PlanOne(s: Store, plan: Plan, turn: Turn, eventId: Id, now: int): Result<Plan, AgentError> {
    match turn.Interrupt(now)
    case Err(error) => Err(error)
    case Ok(interrupted) =>
      match FindSession(s.sessions, turn.sessionId)
      case None => Err(SessionNotFound)
      case Some(i) =>
        var sequence := if turn.sessionId in plan.next then plan.next[turn.sessionId]
                        else NextSequence(s.events, turn.sessionId);
        var event := Event(eventId, turn.sessionId, Some(turn.id), sequence, TurnInterrupted);
        Ok(Plan(plan.updates + [Update(s.sessions[i].(updatedAt := now), interrupted, event)],
                plan.next[turn.sessionId := sequence + 1]))
  }

  function ApplyUpdates(s: Store, updates: seq<Update>): Store {
    if updates == [] then s
    else
      var u := updates[|updates| - 1];
      PutAll(ApplyUpdates(s, updates[..|updates| - 1]), u.session, u.turn, u.event)
  }

  function TurnsOf(updates: seq<Update>): seq<Turn> {
    seq(|updates|, i requires 0 <= i < |updates| => updates[i].turn)
  }

  /** Every turn in flight is interrupted, in one unit. */
  function InterruptAll(s: Store, supply: Id, now: int): After<seq<Turn>> {
    var inflight := InFlight(s.turns);
    match PlanUpTo(s, inflight, |inflight|, supply, now)
    case Err(error) => After(s, Err(error))
    case Ok(plan) => After(ApplyUpdates(s, plan.updates), Ok(TurnsOf(plan.updates)))
  }
}
