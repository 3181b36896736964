/** Domain items of the conversation: history items (persisted) and live items
    (stream-only), with the JSON-like values that stand in for Python's `Any`. */
module Models {

  /** Identifiers (UUIDs in the program) are abstract tokens. */
  type Uuid = nat

  datatype Option<+T> = None | Some(value: T)

  datatype Result<+T, +E> = Ok(value: T) | Err(error: E)

  /** The dynamically typed payloads (tool arguments, tool results, JSON columns,
      provider details). `Object` is a JSON object keyed by strings. */
  datatype Value =
    | Null
    | Bool(b: bool)
    | Int(i: int)
    | Str(s: string)
    | List(items: seq<Value>)
    | Object(fields: map<string, Value>)

  /** Python truthiness of a value. */
  predicate Truthy(v: Value) {
    match v
    case Null => false
    case Bool(b) => b
    case Int(i) => i != 0
    case Str(s) => s != ""
    case List(xs) => xs != []
    case Object(m) => m != map[]
  }

  /** The `part_type` literal of a `PartStart`. */
  datatype PartType = PartThinking | PartResponse | PartToolCallPrep | PartFinalResponse

  /** `HistoryItemKind`, the tag stored with persisted and indexed items. */
  datatype HistoryItemKind = UserPromptKind | ModelResponseKind | ThinkingStepKind | ToolCallKind | ToolResultKind

  /** The string value of each kind. */
  function KindValue(k: HistoryItemKind): string {
    match k
    case UserPromptKind => "user_prompt"
    case ModelResponseKind => "model_response"
    case ThinkingStepKind => "thinking_step"
    case ToolCallKind => "tool_call"
    case ToolResultKind => "tool_result"
  }

  /** Everything the orchestrator yields: the five history items followed by
      the five live items. All carry an id, the owning history id and a
      creation timestamp. */
  datatype StreamItem =
    | UserPrompt(id: Uuid, historyId: Uuid, createdAt: int, prompt: string)
    | ModelResponse(id: Uuid, historyId: Uuid, createdAt: int, response: string)
    | ThinkingStep(id: Uuid, historyId: Uuid, createdAt: int, thoughts: string)
    | ToolCall(id: Uuid, historyId: Uuid, createdAt: int, toolCallId: string, toolName: string, args: Value)
    | ToolResult(id: Uuid, historyId: Uuid, createdAt: int, toolCallId: string, toolName: string, isRetry: bool, result: Value)
    | SystemPrompt(id: Uuid, historyId: Uuid, createdAt: int, prompt: string)
    | PartStart(id: Uuid, historyId: Uuid, createdAt: int, partType: PartType)
    | ModelResponseDelta(id: Uuid, historyId: Uuid, createdAt: int, delta: string)
    | ThinkingDelta(id: Uuid, historyId: Uuid, createdAt: int, delta: string)
    | StreamEnd(id: Uuid, historyId: Uuid, createdAt: int)
  {
    predicate IsHistoryItem() {
      UserPrompt? || ModelResponse? || ThinkingStep? || ToolCall? || ToolResult?
    }

    /** Items that may be replayed into the model: history items and system prompts. */
    predicate IsReplayItem() {
      IsHistoryItem() || SystemPrompt?
    }
  }

  /** The same item with another creation time. */
  function WithCreatedAt(x: StreamItem, t: int): (r: StreamItem)
    ensures r.createdAt == t && r.id == x.id && r.historyId == x.historyId
  {
    match x
    case UserPrompt(id, historyId, _, prompt) => UserPrompt(id, historyId, t, prompt)
    case ModelResponse(id, historyId, _, response) => ModelResponse(id, historyId, t, response)
    case ThinkingStep(id, historyId, _, thoughts) => ThinkingStep(id, historyId, t, thoughts)
    case ToolCall(id, historyId, _, toolCallId, toolName, args) => ToolCall(id, historyId, t, toolCallId, toolName, args)
    case ToolResult(id, historyId, _, toolCallId, toolName, isRetry, result) =>
      ToolResult(id, historyId, t, toolCallId, toolName, isRetry, result)
    case SystemPrompt(id, historyId, _, prompt) => SystemPrompt(id, historyId, t, prompt)
    case PartStart(id, historyId, _, partType) => PartStart(id, historyId, t, partType)
    case ModelResponseDelta(id, historyId, _, delta) => ModelResponseDelta(id, historyId, t, delta)
    case ThinkingDelta(id, historyId, _, delta) => ThinkingDelta(id, historyId, t, delta)
    case StreamEnd(id, historyId, _) => StreamEnd(id, historyId, t)
  }

  type HistoryItem = x: StreamItem | x.IsHistoryItem() witness UserPrompt(0, 0, 0, "")

  /** The kind tag of a history item. */
  function KindOf(x: HistoryItem): HistoryItemKind {
    match x
    case UserPrompt(_, _, _, _) => UserPromptKind
    case ModelResponse(_, _, _, _) => ModelResponseKind
    case ThinkingStep(_, _, _, _) => ThinkingStepKind
    case ToolCall(_, _, _, _, _, _) => ToolCallKind
    case ToolResult(_, _, _, _, _, _, _) => ToolResultKind
  }

  /** A conversation: its id, creation time and items in append order. */
  datatype History = History(id: Uuid, createdAt: int, items: seq<HistoryItem>)
}
