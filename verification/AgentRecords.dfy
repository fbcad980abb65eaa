/** Sessions, turns and events of an agent conversation, and what a turn may become. */
module AgentRecords {
  import opened Wrappers
  import opened Text

  type Id = nat

  const MAX_USER_TEXT_UTF8: nat := 32 * 1024
  const MAX_AGENT_OUTPUT_UTF8: nat := 1024 * 1024
  const MODEL_ID_MAX_UTF8: nat := 128

  // ----- Turn states -----

  datatype TurnState = Pending | Streaming | Completed | Cancelled | Failed | Interrupted
  {
    predicate Terminal() { Completed? || Cancelled? || Failed? || Interrupted? }
    predicate InFlight() { Pending? || Streaming? }

    function Transition(next: TurnState): Result<TurnState, AgentError> {
      if (Pending? && !next.Pending?) || (Streaming? && next.Terminal()) then Ok(next)
      else Err(IllegalTransition(this, next))
    }
  }

  datatype AgentError =
    | EmptyText
    | TextTooLarge(byteCount: nat)
    | SessionBusy
    | SessionNotFound
    | ProjectMismatch
    | ModelUnavailable
    | ProfileUnavailable
    | UnsupportedControl
    | ContextLimit(byteCount: nat)
    | TurnNotFound
    | IllegalTransition(from: TurnState, next: TurnState)
    | OutputLimit(failed: Turn)

  datatype EventKind =
    | SessionCreated | ProjectAssociationChanged
    | TurnPending | TurnStreaming | TurnCompleted | TurnCancelled | TurnFailed | TurnInterrupted

  function TerminalKind(state: TurnState): Result<EventKind, AgentError> {
    match state
    case Completed => Ok(TurnCompleted)
    case Cancelled => Ok(TurnCancelled)
    case Failed => Ok(TurnFailed)
    case Interrupted => Ok(TurnInterrupted)
    case _ => Err(IllegalTransition(state, state))
  }

  datatype Effort = Low | Medium | High

  // ----- Records -----

  datatype Session = Session(id: Id, projectId: Option<Id>, profileId: string, modelId: string, updatedAt: int)

  datatype Event = Event(id: Id, sessionId: Id, turnId: Option<Id>, sequence: nat, kind: EventKind)

  datatype Turn = Turn(
    id: Id,
    sessionId: Id,
    ordinal: nat,
    userText: string,
    agentText: string,
    state: TurnState,
    errorCode: Option<string>,
    profileId: string,
    modelId: string,
    effort: Option<Effort>,
    projectId: Option<Id>,
    instructions: string,
    responseId: Option<string>,
    startedAt: int,
    finishedAt: Option<int>)
  {
    /** None when the text would grow past its ceiling. */
    function AppendText(delta: string): Option<Turn> {
      if ByteLen(agentText) + ByteLen(delta) > MAX_AGENT_OUTPUT_UTF8 then None
      else Some(this.(agentText := agentText + delta))
    }

    function MarkStreaming(): Result<Turn, AgentError> {
      match state.Transition(Streaming)
      case Err(error) => Err(error)
      case Ok(next) => Ok(this.(state := next))
    }

    function Complete(response: Option<string>, now: int): Result<Turn, AgentError> {
      match state.Transition(Completed)
      case Err(error) => Err(error)
      case Ok(next) => Ok(this.(state := next, responseId := response, finishedAt := Some(now)))
    }

    function Cancel(now: int): Result<Turn, AgentError> {
      match state.Transition(Cancelled)
      case Err(error) => Err(error)
      case Ok(next) => Ok(this.(state := next, errorCode := Some("cancelled"), finishedAt := Some(now)))
    }

    function Fail(code: string, now: int): Result<Turn, AgentError> {
      match state.Transition(Failed)
      case Err(error) => Err(error)
      case Ok(next) => Ok(this.(state := next, errorCode := Some(code), finishedAt := Some(now)))
    }

    function Interrupt(now: int): Result<Turn, AgentError> {
      match state.Transition(Interrupted)
      case Err(error) => Err(error)
      case Ok(next) => Ok(this.(state := next, errorCode := Some("interrupted"), finishedAt := Some(now)))
    }
  }

  function NewPending(id: Id, sessionId: Id, ordinal: nat, userText: string, projectId: Option<Id>, instructions: string,
                      profileId: string, modelId: string, effort: Option<Effort>, now: int): Turn
  {
    Turn(id, sessionId, ordinal, userText, "", Pending, None, profileId, modelId, effort, projectId, instructions, None, now, None)
  }

  // ----- Input -----

  predicate IsSpace(c: char) {
    var code := c as int;
    || 0x9 <= code <= 0xD || code == 0x20 || code == 0x85 || code == 0xA0 || code == 0x1680
    || 0x2000 <= code <= 0x200A || code == 0x2028 || code == 0x2029 || code == 0x202F || code == 0x205F || code == 0x3000
  }

  /** The first position from k on that holds no space. */
  function SkipSpaces(s: string, k: nat): (r: nat)
    requires k <= |s|
    ensures k <= r <= |s|
    ensures forall i :: k <= i < r ==> IsSpace(s[i])
    ensures r < |s| ==> !IsSpace(s[r])
    decreases |s| - k
  {
    if k < |s| && IsSpace(s[k]) then SkipSpaces(s, k + 1) else k
  }

  /** The end of s[low..k] without the spaces it ends with. */
  function DropSpaces(s: string, low: nat, k: nat): (r: nat)
    requires low <= k <= |s|
    ensures low <= r <= k
    ensures forall i :: r <= i < k ==> IsSpace(s[i])
    ensures r > low ==> !IsSpace(s[r - 1])
  {
    if k > low && IsSpace(s[k - 1]) then DropSpaces(s, low, k - 1) else k
  }

  function Trim(s: string): string {
    var low := SkipSpaces(s, 0);
    s[low..DropSpaces(s, low, |s|)]
  }

  /** s[low..high] is all of s but the spaces around it. */
  predicate Surrounded(s: string, low: nat, high: nat) {
    && low <= high <= |s|
    && (forall i :: 0 <= i < low ==> IsSpace(s[i]))
    && (forall i :: high <= i < |s| ==> IsSpace(s[i]))
    && (low < high ==> !IsSpace(s[low]) && !IsSpace(s[high - 1]))
  }

  lemma TrimmedPart(s: string) returns (low: nat, high: nat)
    ensures Surrounded(s, low, high) && Trim(s) == s[low..high]
  {
    low := SkipSpaces(s, 0);
    high := DropSpaces(s, low, |s|);
  }

  /** Trimming takes off exactly the spaces at both ends. */
  lemma TrimExactly(s: string, low: nat, high: nat)
    requires Surrounded(s, low, high)
    ensures Trim(s) == s[low..high]
  {
    var l, h := TrimmedPart(s);
    if low < high {
      assert !IsSpace(s[low]) && !IsSpace(s[high - 1]);
      assert l == low && h == high;
    } else {
      assert forall i :: 0 <= i < |s| ==> IsSpace(s[i]);
      assert l == h;
    }
  }

  predicate ModelChar(c: char) {
    || 'a' <= c <= 'z' || 'A' <= c <= 'Z' || '0' <= c <= '9'
    || c == '.' || c == '-' || c == '_' || c == '/' || c == ':'
  }

  /** The trimmed identifier, if it is one. */
  function ValidateModelId(modelId: string): Option<string> {
    var trimmed := Trim(modelId);
    if trimmed == [] || ByteLen(trimmed) > MODEL_ID_MAX_UTF8 then None
    else if exists i :: 0 <= i < |trimmed| && !ModelChar(trimmed[i]) then None
    else Some(trimmed)
  }

  /** Validating once is enough: an identifier that was accepted is accepted unchanged again. */
  lemma ValidatedModelIsFixed(modelId: string)
    ensures var r := ValidateModelId(modelId); r.Some? ==> ValidateModelId(r.value) == r
  {
    var r := ValidateModelId(modelId);
    if r.Some? {
      assert ModelChar(r.value[0]) && !IsSpace(r.value[0]);
      assert ModelChar(r.value[|r.value| - 1]) && !IsSpace(r.value[|r.value| - 1]);
      assert Trim(r.value) == r.value;
    }
  }

  predicate IsModelId(x: string) {
    0 < |x| && ByteLen(x) <= 128 && forall i :: 0 <= i < |x| ==> ModelChar(x[i])
  }

  /** An identifier is accepted as what stands between the spaces around it, if that is not empty, at most 128
      bytes long and of permitted characters, and otherwise not at all. */
  lemma ModelIdExactly(modelId: string, x: string)
    ensures ValidateModelId(modelId) == Some(x)
       <==> IsModelId(x) && exists low: nat, high: nat :: Surrounded(modelId, low, high) && modelId[low..high] == x
  {
    var l, h := TrimmedPart(modelId);
    if low: nat, high: nat :| Surrounded(modelId, low, high) && modelId[low..high] == x {
      TrimExactly(modelId, low, high);
    }
  }

  function UserTextError(text: string): Option<AgentError> {
    if forall i :: 0 <= i < |text| ==> IsSpace(text[i]) then Some(EmptyText)
    else if ByteLen(text) > MAX_USER_TEXT_UTF8 then Some(TextTooLarge(ByteLen(text)))
    else None
  }
}
