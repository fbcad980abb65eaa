/** What every sequence of agent use cases keeps: each turn's events tell its state, session logs have
    no gaps, at most one turn is in flight, and a turn carries its session's frozen model. */
module AgentInvariants {
  import opened Wrappers
  import opened Text
  import opened AgentRecords
  import opened AgentStore

  /** `accepted` lists the deltas each turn took; it is history and decides nothing. */
  datatype Agents = Agents(store: Store, supply: Id, accepted: map<Id, seq<string>>)

  datatype Command =
    | Sending(message: Message)
    | Delta(turnId: Id, text: string, now: int)
    | Completing(turnId: Id, response: Option<string>, now: int)
    | Cancelling(turnId: Id, now: int)
    | Failing(turnId: Id, code: string, now: int)
    | Associating(sessionId: Id, projectId: Option<Id>, now: int)
    | Recovering(now: int)

  function Next(a: Agents, store: Store, accepted: map<Id, seq<string>>): Agents {
    Agents(store, a.supply + 4 + |a.store.turns|, accepted)
  }

  function Sent(a: Agents, sent: After<Prepared>): Agents {
    Next(a, sent.store, if sent.result.Ok? then a.accepted[a.supply + 1 := []] else a.accepted)
  }

  function Do(a: Agents, c: Command): Agents {
    match c
    case Sending(m) => Sent(a, Send(a.store, m, a.supply))
    case Delta(id, text, now) =>
      var after := ApplyDelta(a.store, id, text, a.supply, now);
      Next(a, after.store,
           if after.result.Ok? && id in a.accepted then a.accepted[id := a.accepted[id] + [text]] else a.accepted)
    case Completing(id, response, now) => Next(a, CompleteTurn(a.store, id, response, a.supply, now).store, a.accepted)
    case Cancelling(id, now) => Next(a, CancelTurn(a.store, id, a.supply, now).store, a.accepted)
    case Failing(id, code, now) => Next(a, FailTurn(a.store, id, code, a.supply, now).store, a.accepted)
    case Associating(id, projectId, now) => Next(a, SetProject(a.store, id, projectId, a.supply, now).store, a.accepted)
    case Recovering(now) => Next(a, InterruptAll(a.store, a.supply, now).store, a.accepted)
  }

  function Run(commands: seq<Command>): Agents {
    if commands == [] then Agents(Store([], [], [], []), 0, map[])
    else Do(Run(commands[..|commands| - 1]), commands[|commands| - 1])
  }

  // ----- Logs -----

  function SessionLog(events: seq<Event>, sessionId: Id): seq<Event> {
    if events == [] then []
    else
      SessionLog(events[..|events| - 1], sessionId)
      + if events[|events| - 1].sessionId == sessionId then [events[|events| - 1]] else []
  }

  function TurnLog(events: seq<Event>, turnId: Id): seq<EventKind> {
    if events == [] then []
    else
      TurnLog(events[..|events| - 1], turnId)
      + if events[|events| - 1].turnId == Some(turnId) then [events[|events| - 1].kind] else []
  }

  function Concat(deltas: seq<string>): string {
    if deltas == [] then "" else Concat(deltas[..|deltas| - 1]) + deltas[|deltas| - 1]
  }

  // ----- The invariant -----

  predicate SessionsOk(sessions: seq<Session>, supply: Id) {
    && (forall i :: 0 <= i < |sessions| ==> sessions[i].id < supply)
    && (forall i :: 0 <= i < |sessions| ==> ValidateModelId(sessions[i].modelId) == Some(sessions[i].modelId))
  }

  predicate UniqueTurns(turns: seq<Turn>) {
    forall i, j :: 0 <= i < j < |turns| ==> turns[i].id != turns[j].id
  }

  /** The turn belongs to a session and carries its profile and model. */
  predicate Frozen(sessions: seq<Session>, turn: Turn) {
    var k := FindSession(sessions, turn.sessionId);
    k.Some? && turn.modelId == sessions[k.value].modelId && turn.profileId == sessions[k.value].profileId
  }

  predicate TurnsLinked(sessions: seq<Session>, turns: seq<Turn>, supply: Id) {
    && UniqueTurns(turns)
    && (forall i :: 0 <= i < |turns| ==> turns[i].id < supply)
    && (forall i :: 0 <= i < |turns| ==> Frozen(sessions, turns[i]))
  }

  predicate EventLinked(sessions: seq<Session>, turns: seq<Turn>, e: Event) {
    && FindSession(sessions, e.sessionId).Some?
    && (e.turnId.Some? ==>
          FindTurn(turns, e.turnId.value).Some?
          && turns[FindTurn(turns, e.turnId.value).value].sessionId == e.sessionId)
  }

  predicate EventsLinked(s: Store) {
    forall i :: 0 <= i < |s.events| ==> EventLinked(s.sessions, s.turns, s.events[i])
  }

  predicate GapFree(log: seq<Event>) {
    forall i :: 0 <= i < |log| ==> log[i].sequence == i
  }

  ghost predicate SequencesOk(events: seq<Event>) {
    forall s: Id :: GapFree(SessionLog(events, s))
  }

  /** The events a turn must have, read off the turn. */
  function Expected(turn: Turn): seq<EventKind> {
    [TurnPending]
    + (if turn.agentText != "" then [TurnStreaming] else [])
    + match TerminalKind(turn.state) case Ok(kind) => [kind] case Err(_) => []
  }

  predicate TurnOk(events: seq<Event>, accepted: map<Id, seq<string>>, turn: Turn) {
    && TurnLog(events, turn.id) == Expected(turn)
    && (turn.state.Pending? ==> turn.agentText == "")
    && (turn.state.Streaming? ==> turn.agentText != "")
    && (turn.finishedAt.Some? <==> turn.state.Terminal())
    && turn.id in accepted && turn.agentText == Concat(accepted[turn.id])
    && ByteLen(turn.agentText) <= MAX_AGENT_OUTPUT_UTF8
  }

  predicate LogsOk(turns: seq<Turn>, events: seq<Event>, accepted: map<Id, seq<string>>) {
    forall i :: 0 <= i < |turns| ==> TurnOk(events, accepted, turns[i])
  }

  /** Only the turn stored last can be in flight. */
  predicate InFlightLast(turns: seq<Turn>) {
    forall i :: 0 <= i < |turns| - 1 ==> turns[i].state.Terminal()
  }

  predicate Numbered(turns: seq<Turn>) {
    forall k :: 0 <= k < |turns| ==> turns[k].ordinal == k
  }

  ghost predicate OrdinalsOk(turns: seq<Turn>) {
    forall s: Id :: Numbered(SessionTurns(turns, s))
  }

  ghost predicate Inv(a: Agents) {
    && SessionsOk(a.store.sessions, a.supply)
    && TurnsLinked(a.store.sessions, a.store.turns, a.supply)
    && EventsLinked(a.store)
    && SequencesOk(a.store.events)
    && LogsOk(a.store.turns, a.store.events, a.accepted)
    && InFlightLast(a.store.turns)
    && OrdinalsOk(a.store.turns)
  }

  // ----- Looking up after storing -----

  lemma SessionAfterPut(sessions: seq<Session>, i: nat, x: Session, id: Id)
    requires i < |sessions| && x.id == sessions[i].id
    ensures FindSession(sessions[i := x], id) == FindSession(sessions, id)
  {
    var before, now := FindSession(sessions, id), FindSession(sessions[i := x], id);
    assert before.Some? ==> sessions[i := x][before.value].id == id;
    assert now.Some? ==> sessions[now.value].id == id;
  }

  lemma SessionAfterAppend(sessions: seq<Session>, x: Session, id: Id)
    ensures FindSession(sessions + [x], id)
         == if FindSession(sessions, id).Some? then FindSession(sessions, id)
            else if x.id == id then Some(|sessions|) else None
  {
    var before := FindSession(sessions, id);
    assert before.Some? ==> (sessions + [x])[before.value].id == id;
    assert (sessions + [x])[|sessions|] == x;
  }

  lemma TurnAfterPut(turns: seq<Turn>, i: nat, x: Turn, id: Id)
    requires i < |turns| && x.id == turns[i].id
    ensures FindTurn(turns[i := x], id) == FindTurn(turns, id)
  {
    var before, now := FindTurn(turns, id), FindTurn(turns[i := x], id);
    assert before.Some? ==> turns[i := x][before.value].id == id;
    assert now.Some? ==> turns[now.value].id == id;
  }

  lemma TurnAfterAppend(turns: seq<Turn>, x: Turn, id: Id)
    ensures FindTurn(turns + [x], id)
         == if FindTurn(turns, id).Some? then FindTurn(turns, id)
            else if x.id == id then Some(|turns|) else None
  {
    var before := FindTurn(turns, id);
    assert before.Some? ==> (turns + [x])[before.value].id == id;
    assert (turns + [x])[|turns|] == x;
  }

  lemma FindUniqueTurn(turns: seq<Turn>, i: nat)
    requires UniqueTurns(turns) && i < |turns|
    ensures FindTurn(turns, turns[i].id) == Some(i)
  {
    var k := FindTurn(turns, turns[i].id);
    assert k.Some? && turns[k.value].id == turns[i].id;
  }

  // ----- Logs after appending -----

  lemma SessionLogOfAppend(events: seq<Event>, e: Event, s: Id)
    ensures SessionLog(events + [e], s) == SessionLog(events, s) + if e.sessionId == s then [e] else []
  {
    assert (events + [e])[..|events|] == events;
  }

  lemma TurnLogOfAppend(events: seq<Event>, e: Event, t: Id)
    ensures TurnLog(events + [e], t) == TurnLog(events, t) + if e.turnId == Some(t) then [e.kind] else []
  {
    assert (events + [e])[..|events|] == events;
  }

  lemma {:induction false} NextOfPrefix(events: seq<Event>, more: seq<Event>, s: Id, k: nat)
    requires k <= |events|
    ensures NextUpTo(events + more, s, k) == NextUpTo(events, s, k)
  {
    if k > 0 {
      NextOfPrefix(events, more, s, k - 1);
      assert (events + more)[k - 1] == events[k - 1];
    }
  }

  lemma NextAfterAppend(events: seq<Event>, e: Event, s: Id)
    ensures var before := NextSequence(events, s);
            NextSequence(events + [e], s) == if e.sessionId == s && e.sequence + 1 > before then e.sequence + 1 else before
  {
    NextOfPrefix(events, [e], s, |events|);
    assert (events + [e])[|events|] == e;
  }

  /** Without gaps, the next sequence number is the number of events. */
  lemma {:induction false} NextIsCount(events: seq<Event>, s: Id)
    requires GapFree(SessionLog(events, s))
    ensures NextSequence(events, s) == |SessionLog(events, s)|
  {
    if events != [] {
      var rest, last := events[..|events| - 1], events[|events| - 1];
      var before, log := SessionLog(rest, s), SessionLog(events, s);
      assert forall i :: 0 <= i < |before| ==> before[i] == log[i];
      NextIsCount(rest, s);
      NextAfterAppend(rest, last, s);
      assert rest + [last] == events;
      if last.sessionId == s {
        assert log[|before|] == last;
      }
    }
  }

  lemma AppendKeepsSequences(events: seq<Event>, e: Event)
    requires SequencesOk(events) && e.sequence == NextSequence(events, e.sessionId)
    ensures SequencesOk(events + [e])
  {
    forall s: Id ensures GapFree(SessionLog(events + [e], s)) {
      assert GapFree(SessionLog(events, s));
      SessionLogOfAppend(events, e, s);
      NextIsCount(events, s);
    }
  }

  lemma {:induction false} NoTurnNoLog(events: seq<Event>, t: Id)
    requires forall i :: 0 <= i < |events| ==> events[i].turnId != Some(t)
    ensures TurnLog(events, t) == []
  {
    if events != [] {
      NoTurnNoLog(events[..|events| - 1], t);
    }
  }

  lemma {:induction false} NoSessionNoLog(events: seq<Event>, s: Id)
    requires forall i :: 0 <= i < |events| ==> events[i].sessionId != s
    ensures SessionLog(events, s) == []
  {
    if events != [] {
      NoSessionNoLog(events[..|events| - 1], s);
    }
  }

  // ----- Sessions stored again -----

  lemma PutKeepsSessions(sessions: seq<Session>, i: nat, x: Session, supply: Id)
    requires SessionsOk(sessions, supply) && i < |sessions| && x.id == sessions[i].id && x.modelId == sessions[i].modelId
    ensures SessionsOk(sessions[i := x], supply)
  {
  }

  lemma PutSessionKeepsTurns(sessions: seq<Session>, i: nat, x: Session, turns: seq<Turn>, supply: Id)
    requires TurnsLinked(sessions, turns, supply)
    requires i < |sessions| && x.id == sessions[i].id && x.modelId == sessions[i].modelId && x.profileId == sessions[i].profileId
    ensures TurnsLinked(sessions[i := x], turns, supply)
  {
    forall j | 0 <= j < |turns| ensures Frozen(sessions[i := x], turns[j]) {
      assert Frozen(sessions, turns[j]);
      SessionAfterPut(sessions, i, x, turns[j].sessionId);
    }
  }

  lemma PutSessionKeepsEvents(s: Store, i: nat, x: Session)
    requires EventsLinked(s) && i < |s.sessions| && x.id == s.sessions[i].id
    ensures EventsLinked(s.(sessions := s.sessions[i := x]))
  {
    forall k | 0 <= k < |s.events| ensures EventLinked(s.sessions[i := x], s.turns, s.events[k]) {
      assert EventLinked(s.sessions, s.turns, s.events[k]);
      SessionAfterPut(s.sessions, i, x, s.events[k].sessionId);
    }
  }

  // ----- A turn stored again -----

  lemma PutTurnKeepsTurns(sessions: seq<Session>, turns: seq<Turn>, i: nat, x: Turn, supply: Id)
    requires TurnsLinked(sessions, turns, supply) && i < |turns|
    requires x.id == turns[i].id && x.sessionId == turns[i].sessionId && x.modelId == turns[i].modelId && x.profileId == turns[i].profileId
    ensures TurnsLinked(sessions, turns[i := x], supply)
  {
    var turns' := turns[i := x];
    forall j | 0 <= j < |turns'| ensures Frozen(sessions, turns'[j]) {
      assert Frozen(sessions, turns[j]);
    }
  }

  lemma PutTurnKeepsEvents(s: Store, i: nat, x: Turn)
    requires EventsLinked(s) && i < |s.turns| && x.id == s.turns[i].id && x.sessionId == s.turns[i].sessionId
    ensures EventsLinked(s.(turns := s.turns[i := x]))
  {
    forall k | 0 <= k < |s.events| ensures EventLinked(s.sessions, s.turns[i := x], s.events[k]) {
      assert EventLinked(s.sessions, s.turns, s.events[k]);
      if s.events[k].turnId.Some? {
        TurnAfterPut(s.turns, i, x, s.events[k].turnId.value);
      }
    }
  }

  lemma {:induction false} PutTurnKeepsOrdinals(turns: seq<Turn>, i: nat, x: Turn, s: Id)
    requires i < |turns| && x.sessionId == turns[i].sessionId && x.ordinal == turns[i].ordinal
    requires Numbered(SessionTurns(turns, s))
    ensures Numbered(SessionTurns(turns[i := x], s)) && |SessionTurns(turns[i := x], s)| == |SessionTurns(turns, s)|
  {
    var n := |turns| - 1;
    var before := SessionTurns(turns[..n], s);
    assert forall k :: 0 <= k < |before| ==> before[k] == SessionTurns(turns, s)[k];
    if turns[n].sessionId == s {
      assert SessionTurns(turns, s)[|before|] == turns[n];
    }
    if i == n {
      assert turns[i := x][..n] == turns[..n];
    } else {
      assert turns[i := x][..n] == turns[..n][i := x];
      PutTurnKeepsOrdinals(turns[..n], i, x, s);
    }
  }

  /** A list of at most one event, and that of turn t. */
  predicate OwnEvent(newEvents: seq<Event>, t: Id) {
    |newEvents| <= 1 && (newEvents != [] ==> newEvents[0].turnId == Some(t))
  }

  lemma OwnEventLeavesOthers(events: seq<Event>, newEvents: seq<Event>, t: Id, other: Id)
    requires OwnEvent(newEvents, t) && other != t
    ensures TurnLog(events + newEvents, other) == TurnLog(events, other)
  {
    if newEvents == [] {
      assert events + newEvents == events;
    } else {
      assert newEvents == [newEvents[0]];
      TurnLogOfAppend(events, newEvents[0], other);
    }
  }

  /** The turn as its log now says it should be. */
  lemma PutTurnKeepsLogs(turns: seq<Turn>, events: seq<Event>, newEvents: seq<Event>, accepted: map<Id, seq<string>>,
                         accepted': map<Id, seq<string>>, i: nat, x: Turn)
    requires UniqueTurns(turns) && LogsOk(turns, events, accepted) && i < |turns| && x.id == turns[i].id
    requires OwnEvent(newEvents, x.id)
    requires forall t :: t in accepted && t != x.id ==> t in accepted' && accepted'[t] == accepted[t]
    requires TurnOk(events + newEvents, accepted', x)
    ensures LogsOk(turns[i := x], events + newEvents, accepted')
  {
    var turns' := turns[i := x];
    forall j | 0 <= j < |turns'| ensures TurnOk(events + newEvents, accepted', turns'[j]) {
      if j != i {
        assert TurnOk(events, accepted, turns[j]);
        OwnEventLeavesOthers(events, newEvents, x.id, turns[j].id);
      }
    }
  }

  // ----- An event appended -----

  lemma AppendKeepsEvents(s: Store, e: Event)
    requires EventsLinked(s) && EventLinked(s.sessions, s.turns, e)
    ensures EventsLinked(s.(events := s.events + [e]))
  {
  }

  // ----- Changing one turn -----

  /** One stored turn moves on, its session is touched or not, and at most one event of its own is added. */
  ghost predicate Moves(s: Store, s': Store, i: nat, x: Turn, newEvents: seq<Event>) {
    && i < |s.turns|
    && x.id == s.turns[i].id && x.sessionId == s.turns[i].sessionId && x.ordinal == s.turns[i].ordinal
    && x.modelId == s.turns[i].modelId && x.profileId == s.turns[i].profileId
    && (x.state.InFlight() ==> s.turns[i].state.InFlight())
    && s'.turns == s.turns[i := x]
    && s'.events == s.events + newEvents && s'.sources == s.sources
    && OwnEvent(newEvents, x.id)
    && (newEvents != [] ==>
          newEvents[0].sessionId == x.sessionId && newEvents[0].sequence == NextSequence(s.events, x.sessionId))
    && (s'.sessions == s.sessions || exists k: nat, now: int :: Touched(s.sessions, s'.sessions, k, now))
  }

  predicate Touched(sessions: seq<Session>, sessions': seq<Session>, k: nat, now: int) {
    k < |sessions| && sessions' == sessions[k := sessions[k].(updatedAt := now)]
  }

  lemma SessionsTouched(a: Agents, s': Store)
    requires SessionsOk(a.store.sessions, a.supply) && TurnsLinked(a.store.sessions, a.store.turns, a.supply) && EventsLinked(a.store)
    requires s'.sessions == a.store.sessions || exists k: nat, now: int :: Touched(a.store.sessions, s'.sessions, k, now)
    ensures SessionsOk(s'.sessions, a.supply)
    ensures TurnsLinked(s'.sessions, a.store.turns, a.supply)
    ensures EventsLinked(a.store.(sessions := s'.sessions))
  {
    if s'.sessions != a.store.sessions {
      var k: nat, now: int :| Touched(a.store.sessions, s'.sessions, k, now);
      var x := a.store.sessions[k].(updatedAt := now);
      PutKeepsSessions(a.store.sessions, k, x, a.supply);
      PutSessionKeepsTurns(a.store.sessions, k, x, a.store.turns, a.supply);
      PutSessionKeepsEvents(a.store, k, x);
    }
  }

  lemma MoveKeepsLinks(a: Agents, s': Store, i: nat, x: Turn, newEvents: seq<Event>)
    requires SessionsOk(a.store.sessions, a.supply) && TurnsLinked(a.store.sessions, a.store.turns, a.supply) && EventsLinked(a.store)
    requires Moves(a.store, s', i, x, newEvents)
    ensures SessionsOk(s'.sessions, a.supply) && TurnsLinked(s'.sessions, s'.turns, a.supply) && EventsLinked(s')
  {
    SessionsTouched(a, s');
    var s1 := a.store.(sessions := s'.sessions);
    PutTurnKeepsTurns(s'.sessions, a.store.turns, i, x, a.supply);
    PutTurnKeepsEvents(s1, i, x);
    var s2 := s1.(turns := s'.turns);
    FindUniqueTurn(s'.turns, i);
    if newEvents != [] {
      assert newEvents == [newEvents[0]];
      assert Frozen(s'.sessions, s'.turns[i]);
      AppendKeepsEvents(s2, newEvents[0]);
    } else {
      assert s'.events == s2.events;
    }
  }

  lemma MoveKeepsNumbers(s: Store, s': Store, i: nat, x: Turn, newEvents: seq<Event>)
    requires SequencesOk(s.events) && InFlightLast(s.turns) && OrdinalsOk(s.turns)
    requires Moves(s, s', i, x, newEvents)
    ensures SequencesOk(s'.events) && InFlightLast(s'.turns) && OrdinalsOk(s'.turns)
  {
    if newEvents != [] {
      assert newEvents == [newEvents[0]];
      AppendKeepsSequences(s.events, newEvents[0]);
    } else {
      assert s'.events == s.events;
    }
    forall id: Id ensures Numbered(SessionTurns(s'.turns, id)) {
      assert Numbered(SessionTurns(s.turns, id));
      PutTurnKeepsOrdinals(s.turns, i, x, id);
    }
  }

  lemma MoveKeepsLogs(a: Agents, s': Store, accepted': map<Id, seq<string>>, i: nat, x: Turn, newEvents: seq<Event>)
    requires UniqueTurns(a.store.turns) && LogsOk(a.store.turns, a.store.events, a.accepted)
    requires Moves(a.store, s', i, x, newEvents)
    requires forall t :: t in a.accepted && t != x.id ==> t in accepted' && accepted'[t] == a.accepted[t]
    requires TurnOk(s'.events, accepted', x)
    ensures LogsOk(s'.turns, s'.events, accepted')
  {
    PutTurnKeepsLogs(a.store.turns, a.store.events, newEvents, a.accepted, accepted', i, x);
  }

  /** A move after which the turn's events say what the turn says keeps everything. */
  lemma MoveKeeps(a: Agents, a': Agents, i: nat, x: Turn, newEvents: seq<Event>)
    requires Inv(a) && Moves(a.store, a'.store, i, x, newEvents) && a.supply <= a'.supply
    requires forall t :: t in a.accepted && t != x.id ==> t in a'.accepted && a'.accepted[t] == a.accepted[t]
    requires TurnOk(a'.store.events, a'.accepted, x)
    ensures Inv(a')
  {
    MoveKeepsLinks(a, a'.store, i, x, newEvents);
    MoveKeepsNumbers(a.store, a'.store, i, x, newEvents);
    MoveKeepsLogs(a, a'.store, a'.accepted, i, x, newEvents);
  }
}
