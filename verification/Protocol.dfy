/** Any number of use-case calls in progress on one run. A call reads a snapshot, computes an intent
    from it and commits the intent later; a dispatch first takes budget from a grant. Between these
    steps every other call may take steps of its own, and a call may be lost at any point. */
module Protocol {
  import opened Wrappers
  import opened RunRecords
  import opened RunStore

  datatype Call =
    | Ticket(effectId: Id, grantId: Id, claimant: string, now: int)
    | Ready(request: Request, snapshot: RunState, seen: nat, intent: Intent)

  /** `consumed` lists the grants budget was taken from, `startedUnder` the grant each effect was
      dispatched under; both are history and decide nothing. Call `c` generates the identifiers
      `c + 1` (its record) and `c + 2` (its event). */
  datatype Sys = Sys(
    run: RunState,
    calls: map<Id, Call>,
    supply: nat,
    consumed: seq<Id>,
    startedUnder: map<Id, Id>)

  datatype Step =
    | Consume(effectId: Id, grantId: Id, claimant: string, now: int)
    | ReadTicket(call: Id)
    | Read(request: Request)
    | Persist(call: Id)
    | Lose(call: Id)

  function Init(now: int): Sys {
    Sys(RunState([RunEvent(0, 1, RunCreated, now)], [], [], [], None), map[], 1, [], map[])
  }

  function Exec(s: Sys, step: Step): Sys {
    match step
    case Consume(effectId, grantId, claimant, now) =>
      var r := CommitConsume(s.run, grantId, now);
      if r.error.Some? then s
      else s.(run := r.state,
              consumed := s.consumed + [grantId],
              calls := s.calls[s.supply := Ticket(effectId, grantId, claimant, now)],
              supply := s.supply + 3)
    case ReadTicket(c) =>
      if c !in s.calls || !s.calls[c].Ticket? then s
      else
        var t := s.calls[c];
        Reading(s, c, Dispatch(t.effectId, t.grantId, t.claimant, t.now))
    case Read(request) =>
      // A dispatch reads only after it has taken its budget.
      if request.Dispatch? then s else Reading(s.(supply := s.supply + 3), s.supply, request)
    case Persist(c) =>
      if c !in s.calls || !s.calls[c].Ready? then s
      else
        var call := s.calls[c];
        var r := Commit(s.run, call.intent);
        s.(run := r.state,
           calls := s.calls - {c},
           startedUnder := if r.error.None? && call.request.Dispatch?
                           then s.startedUnder[call.request.effectId := call.request.grantId]
                           else s.startedUnder)
    case Lose(c) => s.(calls := s.calls - {c})
  }

  /** Call `c` takes its snapshot now; a refused request ends the call. */
  function Reading(s: Sys, c: Id, request: Request): Sys {
    match Compute(s.run, request, c + 1, c + 2)
    case Err(_) => s.(calls := s.calls - {c})
    case Ok(intent) => s.(calls := s.calls[c := Ready(request, s.run, |s.consumed|, intent)])
  }

  function Run(now: int, steps: seq<Step>): Sys {
    if steps == [] then Init(now)
    else Exec(Run(now, steps[..|steps| - 1]), steps[|steps| - 1])
  }

  /** Whether this step commits an intent, and with success. */
  predicate Commits(s: Sys, step: Step) {
    && step.Persist?
    && step.call in s.calls
    && s.calls[step.call].Ready?
    && Commit(s.run, s.calls[step.call].intent).error.None?
  }

  // ----- The log seen from one effect -----

  function Own(events: seq<RunEvent>, effect: Id): seq<EventKind> {
    if events == [] then []
    else
      var last := events[|events| - 1].kind;
      Own(events[..|events| - 1], effect) + if last.Concerns(effect) then [last] else []
  }

  /** Position in an effect's own events after the preparation and the optional claim. */
  function AfterClaim(own: seq<EventKind>): nat {
    if |own| > 1 && own[1].EffectClaimed? then 2 else 1
  }

  /** An effect's own events are its preparation, at most one claim, at most one dispatch, then
      settlements of which all but the last are unknown; they say what the record says, except that
      a claim that lost on sequence left no event. */
  predicate Fits(own: seq<EventKind>, e: EffectRecord) {
    var d := AfterClaim(own);
    && |own| > 0
    && own[0].EffectPrepared?
    && (d == 2 ==> e.claimant == Some(own[1].claimant))
    && match e.phase
       case Prepared => |own| == 1
       case Claimed => |own| == d
       case Dispatched => |own| == d + 1 && own[d].EffectDispatched?
       case Settled =>
         && |own| > d + 1
         && own[d].EffectDispatched?
         && (forall j :: d < j < |own| ==> own[j].EffectSettled?)
         && (forall j :: d < j < |own| - 1 ==> own[j].certainty.UnknownOrPartial?)
         && e.certainty == Some(own[|own| - 1].certainty)
  }

  lemma OwnOfAppend(events: seq<RunEvent>, event: RunEvent, effect: Id)
    ensures Own(events + [event], effect)
         == Own(events, effect) + if event.kind.Concerns(effect) then [event.kind] else []
  {
    assert (events + [event])[..|events|] == events;
  }

  function Count(xs: seq<Id>, x: Id): nat {
    if xs == [] then 0
    else Count(xs[..|xs| - 1], x) + if xs[|xs| - 1] == x then 1 else 0
  }

  lemma CountOfAppend(xs: seq<Id>, y: Id, x: Id)
    ensures Count(xs + [y], x) == Count(xs, x) + if y == x then 1 else 0
  {
    assert (xs + [y])[..|xs|] == xs;
  }
}
