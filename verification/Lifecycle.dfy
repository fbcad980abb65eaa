/** The lifecycle of a run, derived from its event log and its effects table. */
module Lifecycle {
  import opened Wrappers
  import opened RunRecords

  datatype State =
    | Created | AwaitingApproval | Approved | Executing | BlockedReconciliationRequired
    | Checkpointed | Validated | Completed | Paused | Cancelled | Abandoned
  {
    predicate IsTerminal() { Completed? || Cancelled? || Abandoned? }
  }

  function NextState(current: State, kind: EventKind): State {
    match kind
    case RunCreated => State.Created
    case PairFrozen(_, _, _) => State.AwaitingApproval
    case Approved(_) => State.Approved
    case EffectPrepared(_) | EffectClaimed(_, _) | EffectDispatched(_) | GrantIssued(_) =>
      if current.Approved? || current.Executing? || current.AwaitingApproval? || current.Created?
      then State.Executing else current
    case EffectSettled(_, certainty) =>
      if certainty.UnknownOrPartial? then State.BlockedReconciliationRequired else State.Executing
    case Checkpointed(_) => State.Checkpointed
    case Validated(_) => State.Validated
    case Completed => State.Completed
    case Paused => State.Paused
    case Cancelled => State.Cancelled
    case Abandoned => State.Abandoned
    case Denied(_) | GrantRevoked(_) | LeaseAcquired(_) | LeaseReleased(_) | LeaseTakeover(_) | Resumed => current
  }

  function Fold(events: seq<RunEvent>): State {
    if events == [] then State.Created
    else NextState(Fold(events[..|events| - 1]), events[|events| - 1].kind)
  }

  predicate HasAbandoned(events: seq<RunEvent>) {
    exists i :: 0 <= i < |events| && events[i].kind.Abandoned?
  }

  predicate HasCancelled(events: seq<RunEvent>) {
    exists i :: 0 <= i < |events| && events[i].kind.Cancelled?
  }

  /** The run was told to stop; from then on unresolved effects no longer block it. */
  predicate Stopped(events: seq<RunEvent>) {
    HasAbandoned(events) || HasCancelled(events)
  }

  predicate AnyUnknown(effects: seq<EffectRecord>) {
    exists i :: 0 <= i < |effects| && effects[i].certainty == Some(UnknownOrPartial)
  }

  /** First test of the source: in flight is recognised by a missing certainty. */
  predicate OuterTest(effects: seq<EffectRecord>) {
    exists i :: 0 <= i < |effects| &&
      (effects[i].certainty == Some(UnknownOrPartial)
       || ((effects[i].phase.Claimed? || effects[i].phase.Dispatched?) && effects[i].certainty.None?))
  }

  /** Nested test of the source: in flight is recognised by a missing settlement time. */
  predicate InnerTest(effects: seq<EffectRecord>) {
    exists i :: 0 <= i < |effects| &&
      (effects[i].certainty == Some(UnknownOrPartial)
       || ((effects[i].phase.Claimed? || effects[i].phase.Dispatched?) && effects[i].settledAt.None?))
  }

  predicate AnyUnresolved(effects: seq<EffectRecord>) {
    exists i :: 0 <= i < |effects| && effects[i].Unresolved()
  }

  predicate AllQuiet(effects: seq<EffectRecord>) {
    forall i :: 0 <= i < |effects| ==> effects[i].Quiet()
  }

  function Derive(events: seq<RunEvent>, effects: seq<EffectRecord>): State {
    if OuterTest(effects) && InnerTest(effects) then
      if HasAbandoned(events) then State.Abandoned
      else if HasCancelled(events) then State.Cancelled
      else State.BlockedReconciliationRequired
    else
      var folded := Fold(events);
      if AnyUnknown(effects) && !folded.IsTerminal() then State.BlockedReconciliationRequired else folded
  }

  predicate IsQuiescent(effects: seq<EffectRecord>) {
    !exists i :: 0 <= i < |effects| && (effects[i].phase.Claimed? || effects[i].phase.Dispatched?)
  }

  /** The loop the source runs: scan the table, then fold the log event by event. */
  method DeriveLifecycle(events: seq<RunEvent>, effects: seq<EffectRecord>) returns (lifecycle: State)
    ensures lifecycle == Derive(events, effects)
  {
    if OuterTest(effects) {
      if InnerTest(effects) {
        if HasAbandoned(events) {
          return State.Abandoned;
        }
        if HasCancelled(events) {
          return State.Cancelled;
        }
        return State.BlockedReconciliationRequired;
      }
    }
    lifecycle := State.Created;
    for i := 0 to |events|
      invariant lifecycle == Fold(events[..i])
    {
      assert events[..i + 1][..i] == events[..i];
      lifecycle := NextState(lifecycle, events[i].kind);
    }
    assert events[..|events|] == events;
    if AnyUnknown(effects) && !lifecycle.IsTerminal() {
      lifecycle := State.BlockedReconciliationRequired;
    }
  }

  // ----- The fold without folding -----

  /** The state an event names whatever came before it. */
  function Named(kind: EventKind): Option<State> {
    match kind
    case RunCreated => Some(State.Created)
    case PairFrozen(_, _, _) => Some(State.AwaitingApproval)
    case Approved(_) => Some(State.Approved)
    case EffectSettled(_, UnknownOrPartial) => Some(State.BlockedReconciliationRequired)
    case EffectSettled(_, _) => Some(State.Executing)
    case Checkpointed(_) => Some(State.Checkpointed)
    case Validated(_) => Some(State.Validated)
    case Completed => Some(State.Completed)
    case Paused => Some(State.Paused)
    case Cancelled => Some(State.Cancelled)
    case Abandoned => Some(State.Abandoned)
    case _ => None
  }

  /** Events that set a run going which has not been. */
  predicate Stirs(kind: EventKind) {
    kind.EffectPrepared? || kind.EffectClaimed? || kind.EffectDispatched? || kind.GrantIssued?
  }

  predicate NotYetGoing(state: State) {
    state.Created? || state.AwaitingApproval? || state.Approved?
  }

  predicate AnyStirs(events: seq<RunEvent>, k: nat) {
    exists j :: k <= j < |events| && Stirs(events[j].kind)
  }

  lemma StirsUpTo(events: seq<RunEvent>, k: nat)
    requires k < |events|
    ensures AnyStirs(events, k) <==> AnyStirs(events[..|events| - 1], k) || Stirs(events[|events| - 1].kind)
  {
    var before := events[..|events| - 1];
    if AnyStirs(before, k) {
      var j :| k <= j < |before| && Stirs(before[j].kind);
      assert Stirs(events[j].kind);
    }
    if j :| k <= j < |events| && Stirs(events[j].kind) {
      assert j < |before| ==> Stirs(before[j].kind);
    }
  }

  /** Going on from a state no later event names another for. */
  function Onward(state: State, stirred: bool): State {
    if NotYetGoing(state) && stirred then State.Executing else state
  }

  lemma {:induction false} FoldFrom(events: seq<RunEvent>, k: nat, state: State)
    requires k <= |events| && Fold(events[..k]) == state
    requires forall j :: k <= j < |events| ==> Named(events[j].kind).None?
    ensures Fold(events) == Onward(state, AnyStirs(events, k))
  {
    if k == |events| {
      assert events[..k] == events;
    } else {
      var before := events[..|events| - 1];
      assert before[..k] == events[..k];
      FoldFrom(before, k, state);
      StirsUpTo(events, k);
    }
  }

  lemma NamedFolds(events: seq<RunEvent>, i: nat)
    requires i < |events| && Named(events[i].kind).Some?
    ensures Fold(events[..i + 1]) == Named(events[i].kind).value
  {
    assert events[..i + 1][..i] == events[..i];
  }

  /** A log folds to the state its last naming event names, or to Created if none does; a run not yet going is
      set going by any grant or effect event behind that. No other event counts. */
  lemma FoldExactly(events: seq<RunEvent>, i: int)
    requires -1 <= i < |events| && (i >= 0 ==> Named(events[i].kind).Some?)
    requires forall j :: i < j < |events| ==> Named(events[j].kind).None?
    ensures Fold(events) == Onward(if i < 0 then State.Created else Named(events[i].kind).value, AnyStirs(events, i + 1))
  {
    if i >= 0 {
      NamedFolds(events, i);
      FoldFrom(events, i + 1, Named(events[i].kind).value);
    } else {
      FoldFrom(events, 0, State.Created);
    }
  }

  // ----- The log alone -----

  /** Certainty carried by the last settlement of an effect in the log. */
  function LastSettlement(events: seq<RunEvent>, effect: Id): Option<Certainty> {
    if events == [] then None
    else
      var last := events[|events| - 1].kind;
      if last.EffectSettled? && last.effectId == effect then Some(last.certainty)
      else LastSettlement(events[..|events| - 1], effect)
  }

  /** A log folds to Blocked only through an effect whose last settlement left it unknown. */
  lemma {:induction false} BlockedFoldHasUnknown(events: seq<RunEvent>) returns (effect: Id)
    requires Fold(events).BlockedReconciliationRequired?
    ensures LastSettlement(events, effect) == Some(UnknownOrPartial)
  {
    var last := events[|events| - 1].kind;
    if last.EffectSettled? {
      effect := last.effectId;
    } else {
      effect := BlockedFoldHasUnknown(events[..|events| - 1]);
    }
  }

  lemma QuietOrUnresolved(effect: EffectRecord)
    requires effect.WellShaped()
    ensures effect.Quiet() <==> !effect.Unresolved()
  {
    if effect.certainty.Some? {
      assert effect.certainty.value == ConfirmedCommitted || effect.certainty.value == ConfirmedNoEffect
        || effect.certainty.value == UnknownOrPartial;
    }
  }

  /** On well shaped tables the outer and the nested test are one test. */
  lemma TestsCoincide(effects: seq<EffectRecord>)
    requires forall i :: 0 <= i < |effects| ==> effects[i].WellShaped()
    ensures OuterTest(effects) <==> InnerTest(effects)
    ensures OuterTest(effects) <==> AnyUnresolved(effects)
    ensures AllQuiet(effects) <==> !AnyUnresolved(effects)
  {
    forall i | 0 <= i < |effects|
      ensures effects[i].Quiet() <==> !effects[i].Unresolved()
      ensures effects[i].Unresolved() <==>
        (effects[i].certainty == Some(UnknownOrPartial)
         || ((effects[i].phase.Claimed? || effects[i].phase.Dispatched?) && effects[i].certainty.None?))
      ensures effects[i].Unresolved() <==>
        (effects[i].certainty == Some(UnknownOrPartial)
         || ((effects[i].phase.Claimed? || effects[i].phase.Dispatched?) && effects[i].settledAt.None?))
    {
      QuietOrUnresolved(effects[i]);
    }
  }

  /** The settlement recorded in the table is the last one the log holds, effect by effect. */
  ghost predicate Settlements(events: seq<RunEvent>, effects: seq<EffectRecord>) {
    && (forall i :: 0 <= i < |effects| ==> LastSettlement(events, effects[i].id) == effects[i].certainty)
    && (forall id: Id :: LastSettlement(events, id).Some? ==> exists i :: 0 <= i < |effects| && effects[i].id == id)
  }

  /** Blocked means exactly: something is unresolved and nobody stopped the run. */
  lemma BlockedExactly(events: seq<RunEvent>, effects: seq<EffectRecord>)
    requires forall i :: 0 <= i < |effects| ==> effects[i].WellShaped()
    requires Settlements(events, effects)
    ensures Derive(events, effects).BlockedReconciliationRequired? <==> AnyUnresolved(effects) && !Stopped(events)
    ensures !AnyUnresolved(effects) ==> Derive(events, effects) == Fold(events)
    ensures AnyUnresolved(effects) && Stopped(events) ==>
              Derive(events, effects) == if HasAbandoned(events) then State.Abandoned else State.Cancelled
  {
    TestsCoincide(effects);
    if AnyUnknown(effects) {
      UnknownIsUnresolved(effects);
    }
    if Fold(events).BlockedReconciliationRequired? {
      BlockedFoldIsUnresolved(events, effects);
    }
  }

  lemma UnknownIsUnresolved(effects: seq<EffectRecord>)
    requires AnyUnknown(effects)
    ensures AnyUnresolved(effects)
  {
    var i :| 0 <= i < |effects| && effects[i].certainty == Some(UnknownOrPartial);
    assert effects[i].Unresolved();
  }

  lemma BlockedFoldIsUnresolved(events: seq<RunEvent>, effects: seq<EffectRecord>)
    requires Settlements(events, effects)
    requires Fold(events).BlockedReconciliationRequired?
    ensures AnyUnresolved(effects)
  {
    var id := BlockedFoldHasUnknown(events);
    var i :| 0 <= i < |effects| && effects[i].id == id;
    assert effects[i].Unresolved();
  }
}
