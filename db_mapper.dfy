/** The mapping between domain history items and database rows. A row keeps
    the common fields in columns, the kind as its string value, and the
    kind-specific fields in a JSON object column. */
module HistoryDbMapper {
  import opened Models

  /** A row of the `history_items` table. */
  datatype HistoryItemDb = HistoryItemDb(
    id: Uuid,
    historyId: Uuid,
    createdAt: int,
    kind: string,
    content: map<string, Value>)

  /** Why a row cannot be read back: an unknown kind (`ValueError`), a missing
      content key (`KeyError`), or a content value of the wrong JSON type. */
  datatype DbError = UnexpectedKind | MissingKey(key: string) | WrongType(key: string)

  /** `map_history_item_to_db`. */
  function ToDb(x: HistoryItem): (r: HistoryItemDb)
    ensures r.id == x.id && r.historyId == x.historyId && r.createdAt == x.createdAt
    ensures r.kind == KindValue(KindOf(x))
    ensures r.content.Keys == ContentKeys(KindOf(x))
  {
    match x
    case UserPrompt(id, historyId, createdAt, prompt) =>
      HistoryItemDb(id, historyId, createdAt, "user_prompt", map["prompt" := Str(prompt)])
    case ModelResponse(id, historyId, createdAt, response) =>
      HistoryItemDb(id, historyId, createdAt, "model_response", map["response" := Str(response)])
    case ThinkingStep(id, historyId, createdAt, thoughts) =>
      HistoryItemDb(id, historyId, createdAt, "thinking_step", map["thoughts" := Str(thoughts)])
    case ToolCall(id, historyId, createdAt, toolCallId, toolName, args) =>
      HistoryItemDb(id, historyId, createdAt, "tool_call",
        map["tool_call_id" := Str(toolCallId), "tool_name" := Str(toolName), "args" := args])
    case ToolResult(id, historyId, createdAt, toolCallId, toolName, isRetry, result) =>
      HistoryItemDb(id, historyId, createdAt, "tool_result",
        map["tool_call_id" := Str(toolCallId), "tool_name" := Str(toolName), "is_retry" := Bool(isRetry),
            "result" := result])
  }

  /** The content keys each kind stores, in the order the reader looks them up. */
  function ContentKeyOrder(k: HistoryItemKind): seq<string> {
    match k
    case UserPromptKind => ["prompt"]
    case ModelResponseKind => ["response"]
    case ThinkingStepKind => ["thoughts"]
    case ToolCallKind => ["tool_call_id", "tool_name", "args"]
    case ToolResultKind => ["tool_call_id", "tool_name", "is_retry", "result"]
  }

  function ContentKeys(k: HistoryItemKind): set<string> {
    set key | key in ContentKeyOrder(k)
  }

  /** The kind whose string value is `s`, if any. */
  function KindNamed(s: string): (r: Option<HistoryItemKind>)
    ensures r.Some? ==> KindValue(r.value) == s
    ensures r.None? ==> forall k :: KindValue(k) != s
  {
    if s == "user_prompt" then Some(UserPromptKind)
    else if s == "model_response" then Some(ModelResponseKind)
    else if s == "thinking_step" then Some(ThinkingStepKind)
    else if s == "tool_call" then Some(ToolCallKind)
    else if s == "tool_result" then Some(ToolResultKind)
    else None
  }

  /** A string field of the content: missing raises, a non-string is rejected. */
  function StrField(content: map<string, Value>, key: string): Result<string, DbError> {
    if key !in content then Err(MissingKey(key))
    else if !content[key].Str? then Err(WrongType(key))
    else Ok(content[key].s)
  }

  function BoolField(content: map<string, Value>, key: string): Result<bool, DbError> {
    if key !in content then Err(MissingKey(key))
    else if !content[key].Bool? then Err(WrongType(key))
    else Ok(content[key].b)
  }

  function AnyField(content: map<string, Value>, key: string): Result<Value, DbError> {
    if key !in content then Err(MissingKey(key)) else Ok(content[key])
  }

  /** `map_history_item_to_domain`: the kind selects the item; its fields are
      read from the content in order, the first failing one decides the error. */
  function ToDomain(row: HistoryItemDb): (r: Result<HistoryItem, DbError>)
    ensures r == Err(UnexpectedKind) <==> KindNamed(row.kind).None?
    ensures r.Ok? ==>
      r.value.id == row.id && r.value.historyId == row.historyId && r.value.createdAt == row.createdAt
      && KindNamed(row.kind) == Some(KindOf(r.value))
    ensures r.Err? && r.error.MissingKey? ==>
      KindNamed(row.kind).Some? && r.error.key in ContentKeys(KindNamed(row.kind).value) && r.error.key !in row.content
  {
    match KindNamed(row.kind)
    case None => Err(UnexpectedKind)
    case Some(UserPromptKind) =>
      var prompt := StrField(row.content, "prompt");
      if prompt.Err? then Err(prompt.error)
      else Ok(UserPrompt(row.id, row.historyId, row.createdAt, prompt.value))
    case Some(ModelResponseKind) =>
      var response := StrField(row.content, "response");
      if response.Err? then Err(response.error)
      else Ok(ModelResponse(row.id, row.historyId, row.createdAt, response.value))
    case Some(ThinkingStepKind) =>
      var thoughts := StrField(row.content, "thoughts");
      if thoughts.Err? then Err(thoughts.error)
      else Ok(ThinkingStep(row.id, row.historyId, row.createdAt, thoughts.value))
    case Some(ToolCallKind) =>
      var toolCallId := StrField(row.content, "tool_call_id");
      if toolCallId.Err? then Err(toolCallId.error)
      else
        var toolName := StrField(row.content, "tool_name");
        if toolName.Err? then Err(toolName.error)
        else
          var args := AnyField(row.content, "args");
          if args.Err? then Err(args.error)
          else Ok(ToolCall(row.id, row.historyId, row.createdAt, toolCallId.value, toolName.value, args.value))
    case Some(ToolResultKind) =>
      var toolCallId := StrField(row.content, "tool_call_id");
      if toolCallId.Err? then Err(toolCallId.error)
      else
        var toolName := StrField(row.content, "tool_name");
        if toolName.Err? then Err(toolName.error)
        else
          var isRetry := BoolField(row.content, "is_retry");
          if isRetry.Err? then Err(isRetry.error)
          else
            var result := AnyField(row.content, "result");
            if result.Err? then Err(result.error)
            else Ok(ToolResult(row.id, row.historyId, row.createdAt, toolCallId.value, toolName.value,
                               isRetry.value, result.value))
  }

  /** Writing an item and reading it back gives the same item. */
  lemma RoundTrip(x: HistoryItem)
    ensures ToDomain(ToDb(x)) == Ok(x)
  {
  }

  /** The row an item read from `row` writes back agrees with `row`. */
  ghost predicate WritesBack(row: HistoryItemDb, back: HistoryItemDb) {
    back.id == row.id && back.historyId == row.historyId && back.createdAt == row.createdAt
    && back.kind == row.kind
    && back.content.Keys <= row.content.Keys
    && (forall key :: key in back.content ==> back.content[key] == row.content[key])
  }

  lemma ReadThenWriteToolCall(row: HistoryItemDb)
    requires KindNamed(row.kind) == Some(ToolCallKind) && ToDomain(row).Ok?
    ensures WritesBack(row, ToDb(ToDomain(row).value))
  {
    assert row.content["args"] == ToDomain(row).value.args;
  }

  lemma ReadThenWriteToolResult(row: HistoryItemDb)
    requires KindNamed(row.kind) == Some(ToolResultKind) && ToDomain(row).Ok?
    ensures WritesBack(row, ToDb(ToDomain(row).value))
  {
    assert row.content["result"] == ToDomain(row).value.result;
  }

  /** Reading a row and writing the item back gives the same row, except that
      content keys the kind does not use are dropped. */
  lemma ReadThenWrite(row: HistoryItemDb)
    requires ToDomain(row).Ok?
    ensures var back := ToDb(ToDomain(row).value);
      back.id == row.id && back.historyId == row.historyId && back.createdAt == row.createdAt
      && back.kind == row.kind
      && back.content.Keys <= row.content.Keys
      && (forall key :: key in back.content ==> back.content[key] == row.content[key])
  {
    var k := KindNamed(row.kind).value;
    if k == ToolCallKind {
      ReadThenWriteToolCall(row);
    } else if k == ToolResultKind {
      ReadThenWriteToolResult(row);
    }
  }

  /** Two items with the same row are the same item: the row loses nothing. */
  lemma ToDbInjective(x: HistoryItem, y: HistoryItem)
    requires ToDb(x) == ToDb(y)
    ensures x == y
  {
    RoundTrip(x);
    RoundTrip(y);
  }
}
