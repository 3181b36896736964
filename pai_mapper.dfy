/** The mapping between domain items and the provider's (pydantic-ai)
    messages. "Out" maps provider parts to domain items, under a given id and
    history id and with the creation time `now`; "in" maps replay items to
    provider messages. Both directions are inverse to each other up to two
    normalisations the program performs: falsy tool arguments become an empty
    object, and a retry without a tool name is named "unknown". */
module PydanticAiMapper {
  import opened Models
  import opened Messages

  // ---------------------------------------------------------------------------
  // Out: provider parts to domain items

  /** The concatenated text fragments of a user prompt given as a sequence;
      other fragments are skipped. */
  function TextOf(fragments: seq<UserContent>): string
    decreases |fragments|
  {
    if fragments == [] then ""
    else
      var last := fragments[|fragments| - 1];
      TextOf(fragments[..|fragments| - 1]) + (if last.TextContent? then last.text else "")
  }

  /** `map_user_prompt_out` as a function: a string or a sequence of fragments
      becomes a user prompt; any other value is skipped. */
  function UserPromptOut(content: UserPromptContent, id: Uuid, historyId: Uuid, now: int): (r: Option<StreamItem>)
    ensures r.None? <==> content.OtherPromptValue?
    ensures r.Some? ==> r.value.UserPrompt? && r.value.id == id && r.value.historyId == historyId
  {
    match content
    case PlainText(text) => Some(UserPrompt(id, historyId, now, text))
    case ContentSequence(fragments) => Some(UserPrompt(id, historyId, now, TextOf(fragments)))
    case OtherPromptValue => None
  }

  /** `map_user_prompt_out`: the loop over the fragments. */
  method MapUserPromptOut(content: UserPromptContent, id: Uuid, historyId: Uuid, now: int)
    returns (r: Option<StreamItem>)
    ensures r == UserPromptOut(content, id, historyId, now)
  {
    match content
    case PlainText(text) =>
      r := Some(UserPrompt(id, historyId, now, text));
    case ContentSequence(fragments) =>
      var fullUserPrompt := "";
      for i := 0 to |fragments|
        invariant fullUserPrompt == TextOf(fragments[..i])
      {
        assert fragments[..i + 1][..i] == fragments[..i];
        if fragments[i].TextContent? {
          fullUserPrompt := fullUserPrompt + fragments[i].text;
        }
      }
      assert fragments[..|fragments|] == fragments;
      r := Some(UserPrompt(id, historyId, now, fullUserPrompt));
    case OtherPromptValue =>
      r := None;
  }

  /** `map_tool_result_out` (with `_map_tool_result_out` and
      `_map_retry_part_out`): a return is not a retry; a retry's missing or
      empty tool name becomes "unknown". */
  function ToolResultOut(part: RequestPart, id: Uuid, historyId: Uuid, now: int): (r: StreamItem)
    requires part.ToolReturnPart? || part.RetryPromptPart?
    ensures r.ToolResult? && r.id == id && r.historyId == historyId && r.createdAt == now
    ensures r.toolCallId == part.toolCallId && r.result == part.returned
    ensures r.isRetry <==> part.RetryPromptPart?
    ensures part.ToolReturnPart? ==> r.toolName == part.toolName
    ensures part.RetryPromptPart? ==>
      r.toolName == (if part.retryToolName.Some? && part.retryToolName.value != "" then part.retryToolName.value else "unknown")
  {
    match part
    case ToolReturnPart(toolName, toolCallId, returned) =>
      ToolResult(id, historyId, now, toolCallId, toolName, false, returned)
    case RetryPromptPart(retryToolName, toolCallId, returned) =>
      var toolName := if retryToolName.Some? && retryToolName.value != "" then retryToolName.value else "unknown";
      ToolResult(id, historyId, now, toolCallId, toolName, true, returned)
  }

  /** `map_tool_call_out`. */
  function ToolCallOut(part: ResponsePart, id: Uuid, historyId: Uuid, now: int): (r: StreamItem)
    requires part.ToolCallPart?
    ensures r.ToolCall? && r.id == id && r.historyId == historyId && r.createdAt == now
    ensures r.toolCallId == part.toolCallId && r.toolName == part.toolName && r.args == part.args
    ensures HistoryItemIn(r) ==
      Some(ModelMessage.ModelResponse([part.(args := if Truthy(part.args) then part.args else Object(map[]))]))
  {
    ToolCall(id, historyId, now, part.toolCallId, part.toolName, part.args)
  }

  /** What one part of a request contributes to `_map_model_message_out`. */
  function RequestPartOut(part: RequestPart, id: Uuid, historyId: Uuid, now: int): (r: seq<StreamItem>)
    ensures |r| <= 1
    ensures r == [] <==> part.UserPromptPart? && part.userContent.OtherPromptValue?
    ensures r != [] ==>
      r[0].id == id && r[0].historyId == historyId && r[0].createdAt == now
      && (r[0].SystemPrompt? <==> part.SystemPromptPart?) && (r[0].UserPrompt? <==> part.UserPromptPart?)
      && (r[0].ToolResult? <==> part.ToolReturnPart? || part.RetryPromptPart?)
    ensures part.SystemPromptPart? ==> r[0].prompt == part.content
  {
    match part
    case SystemPromptPart(content) => [SystemPrompt(id, historyId, now, content)]
    case UserPromptPart(content) =>
      var p := UserPromptOut(content, id, historyId, now);
      if p.Some? then [p.value] else []
    case ToolReturnPart(_, _, _) => [ToolResultOut(part, id, historyId, now)]
    case RetryPromptPart(_, _, _) => [ToolResultOut(part, id, historyId, now)]
  }

  /** What one part of a response contributes; built-in tool parts and files
      are skipped. */
  function ResponsePartOut(part: ResponsePart, id: Uuid, historyId: Uuid, now: int): (r: seq<StreamItem>)
    ensures |r| <= 1
    ensures r == [] <==> !(part.TextPart? || part.ThinkingPart? || part.ToolCallPart?)
    ensures r != [] ==>
      r[0].id == id && r[0].historyId == historyId && r[0].createdAt == now
      && (r[0].ModelResponse? <==> part.TextPart?) && (r[0].ThinkingStep? <==> part.ThinkingPart?)
      && (r[0].ToolCall? <==> part.ToolCallPart?)
    ensures part.TextPart? ==> r[0].response == part.content
    ensures part.ThinkingPart? ==> r[0].thoughts == part.content
  {
    match part
    case TextPart(content, _) => [StreamItem.ModelResponse(id, historyId, now, content)]
    case ThinkingPart(content, _) => [ThinkingStep(id, historyId, now, content)]
    case ToolCallPart(_, _, _) => [ToolCallOut(part, id, historyId, now)]
    case _ => []
  }

  function RequestPartsOut(parts: seq<RequestPart>, id: Uuid, historyId: Uuid, now: int): seq<StreamItem>
    decreases |parts|
  {
    if parts == [] then []
    else RequestPartsOut(parts[..|parts| - 1], id, historyId, now) + RequestPartOut(parts[|parts| - 1], id, historyId, now)
  }

  function ResponsePartsOut(parts: seq<ResponsePart>, id: Uuid, historyId: Uuid, now: int): seq<StreamItem>
    decreases |parts|
  {
    if parts == [] then []
    else ResponsePartsOut(parts[..|parts| - 1], id, historyId, now) + ResponsePartOut(parts[|parts| - 1], id, historyId, now)
  }

  /** `_map_model_message_out` as a function. Every produced item carries the
      same given id. */
  function ModelMessageOut(message: ModelMessage, id: Uuid, historyId: Uuid, now: int): (r: seq<StreamItem>)
    ensures |r| <= (if message.ModelRequest? then |message.requestParts| else |message.responseParts|)
    ensures forall k :: 0 <= k < |r| ==>
      r[k].id == id && r[k].historyId == historyId && r[k].createdAt == now && r[k].IsReplayItem()
      && (r[k].SystemPrompt? || r[k].UserPrompt? || r[k].ToolResult? <==> message.ModelRequest?)
  {
    match message
    case ModelRequest(parts) =>
      RequestPartsOutShape(parts, id, historyId, now);
      RequestPartsOut(parts, id, historyId, now)
    case ModelResponse(parts) =>
      ResponsePartsOutShape(parts, id, historyId, now);
      ResponsePartsOut(parts, id, historyId, now)
  }

  /** `_map_model_message_out`: the loops over the parts. */
  method MapModelMessageOut(message: ModelMessage, id: Uuid, historyId: Uuid, now: int)
    returns (streamItems: seq<StreamItem>)
    ensures streamItems == ModelMessageOut(message, id, historyId, now)
  {
    streamItems := [];
    match message
    case ModelRequest(parts) =>
      for i := 0 to |parts|
        invariant streamItems == RequestPartsOut(parts[..i], id, historyId, now)
      {
        assert parts[..i + 1][..i] == parts[..i];
        var part := parts[i];
        match part
        case SystemPromptPart(content) =>
          streamItems := streamItems + [SystemPrompt(id, historyId, now, content)];
        case UserPromptPart(content) =>
          var userPrompt := MapUserPromptOut(content, id, historyId, now);
          if userPrompt.Some? {
            streamItems := streamItems + [userPrompt.value];
          }
        case ToolReturnPart(_, _, _) =>
          streamItems := streamItems + [ToolResultOut(part, id, historyId, now)];
        case RetryPromptPart(_, _, _) =>
          streamItems := streamItems + [ToolResultOut(part, id, historyId, now)];
      }
      assert parts[..|parts|] == parts;
    case ModelResponse(parts) =>
      for i := 0 to |parts|
        invariant streamItems == ResponsePartsOut(parts[..i], id, historyId, now)
      {
        assert parts[..i + 1][..i] == parts[..i];
        var part := parts[i];
        if part.TextPart? {
          streamItems := streamItems + [StreamItem.ModelResponse(id, historyId, now, part.content)];
        } else if part.ThinkingPart? {
          streamItems := streamItems + [ThinkingStep(id, historyId, now, part.content)];
        } else if part.ToolCallPart? {
          streamItems := streamItems + [ToolCallOut(part, id, historyId, now)];
        }
      }
      assert parts[..|parts|] == parts;
  }

  // ---------------------------------------------------------------------------
  // In: replay items to provider messages

  /** `_map_history_item_in`: one single-part message per replay item; a live
      item matches no case and maps to nothing. */
  function HistoryItemIn(x: StreamItem): (r: Option<ModelMessage>)
    ensures r.Some? <==> x.IsReplayItem()
    ensures r.Some? ==>
      (r.value.ModelRequest? <==> x.SystemPrompt? || x.UserPrompt? || x.ToolResult?)
      && (r.value.ModelRequest? ==> |r.value.requestParts| == 1)
      && (r.value.ModelResponse? ==> |r.value.responseParts| == 1)
  {
    match x
    case SystemPrompt(_, _, _, prompt) => Some(ModelRequest([SystemPromptPart(prompt)]))
    case UserPrompt(_, _, _, prompt) => Some(ModelRequest([UserPromptPart(PlainText(prompt))]))
    case ThinkingStep(_, _, _, thoughts) => Some(ModelMessage.ModelResponse([ThinkingPart(thoughts, None)]))
    case ToolCall(_, _, _, toolCallId, toolName, args) =>
      Some(ModelMessage.ModelResponse([ToolCallPart(toolName, toolCallId, if Truthy(args) then args else Object(map[]))]))
    case ToolResult(_, _, _, toolCallId, toolName, isRetry, result) =>
      if isRetry then Some(ModelRequest([RetryPromptPart(Some(toolName), toolCallId, result)]))
      else Some(ModelRequest([ToolReturnPart(toolName, toolCallId, result)]))
    case ModelResponse(_, _, _, response) => Some(ModelMessage.ModelResponse([TextPart(response, None)]))
    case _ => None
  }

  /** `map_history_items_in` as a function: the items that map, in order. */
  function HistoryItemsIn(items: seq<StreamItem>): (r: seq<ModelMessage>)
    ensures |r| <= |items|
    ensures r == [] <==> forall k :: 0 <= k < |items| ==> !items[k].IsReplayItem()
    decreases |items|
  {
    if items == [] then []
    else
      var m := HistoryItemIn(items[|items| - 1]);
      HistoryItemsIn(items[..|items| - 1]) + (if m.Some? then [m.value] else [])
  }

  /** `map_history_items_in`: the loop that skips unmappable items. */
  method MapHistoryItemsIn(historyItems: seq<StreamItem>) returns (paiHistory: seq<ModelMessage>)
    ensures paiHistory == HistoryItemsIn(historyItems)
  {
    paiHistory := [];
    for i := 0 to |historyItems|
      invariant paiHistory == HistoryItemsIn(historyItems[..i])
    {
      assert historyItems[..i + 1][..i] == historyItems[..i];
      var paimMessage := HistoryItemIn(historyItems[i]);
      if paimMessage.Some? {
        paiHistory := paiHistory + [paimMessage.value];
      }
    }
    assert historyItems[..|historyItems|] == historyItems;
  }

  // ---------------------------------------------------------------------------
  // Properties

  /** Text fragments are concatenated in order: mapping a sequence split in
      two gives the two texts joined. */
  lemma {:induction false} TextOfAppend(a: seq<UserContent>, b: seq<UserContent>)
    ensures TextOf(a + b) == TextOf(a) + TextOf(b)
    decreases |b|
  {
    if b == [] {
      assert a + b == a;
    } else {
      assert (a + b)[..|a + b| - 1] == a + b[..|b| - 1];
      TextOfAppend(a, b[..|b| - 1]);
    }
  }

  /** A non-text fragment anywhere in the sequence contributes nothing. */
  lemma TextOfSkipsNonText(a: seq<UserContent>, b: seq<UserContent>)
    ensures TextOf(a + [NonTextContent] + b) == TextOf(a + b)
  {
    TextOfAppend(a + [NonTextContent], b);
    TextOfAppend(a, b);
    assert (a + [NonTextContent])[..|a|] == a;
  }

  /** The items of one message all carry the given id, history id and time;
      a request yields only prompts and tool results, a response only
      responses, thinking steps and tool calls; skipped parts make the list
      shorter, never longer. */
  lemma {:induction false} RequestPartsOutShape(parts: seq<RequestPart>, id: Uuid, historyId: Uuid, now: int)
    ensures var out := RequestPartsOut(parts, id, historyId, now);
      |out| <= |parts|
      && (|out| == |parts| <==>
            forall k :: 0 <= k < |parts| ==> !(parts[k].UserPromptPart? && parts[k].userContent.OtherPromptValue?))
      && forall k :: 0 <= k < |out| ==>
           out[k].id == id && out[k].historyId == historyId && out[k].createdAt == now
           && (out[k].SystemPrompt? || out[k].UserPrompt? || out[k].ToolResult?)
    decreases |parts|
  {
    if parts != [] {
      var init := parts[..|parts| - 1];
      RequestPartsOutShape(init, id, historyId, now);
      forall k | 0 <= k < |init| ensures init[k] == parts[k] { }
    }
  }

  lemma {:induction false} ResponsePartsOutShape(parts: seq<ResponsePart>, id: Uuid, historyId: Uuid, now: int)
    ensures var out := ResponsePartsOut(parts, id, historyId, now);
      |out| <= |parts|
      && (|out| == |parts| <==>
            forall k :: 0 <= k < |parts| ==> parts[k].TextPart? || parts[k].ThinkingPart? || parts[k].ToolCallPart?)
      && forall k :: 0 <= k < |out| ==>
           out[k].id == id && out[k].historyId == historyId && out[k].createdAt == now
           && (out[k].ModelResponse? || out[k].ThinkingStep? || out[k].ToolCall?)
    decreases |parts|
  {
    if parts != [] {
      var init := parts[..|parts| - 1];
      ResponsePartsOutShape(init, id, historyId, now);
      forall k | 0 <= k < |init| ensures init[k] == parts[k] { }
    }
  }

  /** Replay items that survive the in-and-out trip unchanged (apart from the
      creation time, which is taken anew): everything except a tool call with
      falsy arguments other than the empty object, and a retry whose tool name
      is empty. */
  predicate Restorable(x: StreamItem) {
    !(x.ToolCall? && !Truthy(x.args) && x.args != Object(map[]))
    && !(x.ToolResult? && x.isRetry && x.toolName == "")
  }

  /** What the in-and-out trip makes of a replay item. */
  function Normalized(x: StreamItem, now: int): StreamItem {
    match x
    case ToolCall(id, historyId, _, toolCallId, toolName, args) =>
      ToolCall(id, historyId, now, toolCallId, toolName, if Truthy(args) then args else Object(map[]))
    case ToolResult(id, historyId, _, toolCallId, toolName, isRetry, result) =>
      ToolResult(id, historyId, now, toolCallId, if isRetry && toolName == "" then "unknown" else toolName, isRetry, result)
    case _ => WithCreatedAt(x, now)
  }

  /** Mapping a replay item in and back out under its own ids gives exactly
      one item, its normalised form; this is the item itself (with the new
      time) if and only if it is restorable. */
  lemma ItemRoundTrip(x: StreamItem, now: int)
    requires x.IsReplayItem()
    ensures ModelMessageOut(HistoryItemIn(x).value, x.id, x.historyId, now) == [Normalized(x, now)]
    ensures Normalized(x, now) == WithCreatedAt(x, now) <==> Restorable(x)
  {
    var m := HistoryItemIn(x).value;
    if m.ModelRequest? {
      assert m.requestParts[..0] == [];
      assert RequestPartsOut(m.requestParts, x.id, x.historyId, now)
        == RequestPartsOut(m.requestParts[..0], x.id, x.historyId, now) + RequestPartOut(m.requestParts[0], x.id, x.historyId, now);
      assert ModelMessageOut(m, x.id, x.historyId, now) == RequestPartOut(m.requestParts[0], x.id, x.historyId, now);
    } else {
      assert m.responseParts[..0] == [];
      assert ResponsePartsOut(m.responseParts, x.id, x.historyId, now)
        == ResponsePartsOut(m.responseParts[..0], x.id, x.historyId, now) + ResponsePartOut(m.responseParts[0], x.id, x.historyId, now);
      assert ModelMessageOut(m, x.id, x.historyId, now) == ResponsePartOut(m.responseParts[0], x.id, x.historyId, now);
    }
  }

  /** The other direction: a single provider part mapped out and back in gives
      the same message, up to dropped provider details, exactly when nothing
      is lost on the way out. */
  lemma RequestPartRoundTrip(part: RequestPart, id: Uuid, historyId: Uuid, now: int)
    requires !(part.UserPromptPart? && part.userContent.OtherPromptValue?)
    ensures |RequestPartOut(part, id, historyId, now)| == 1
    ensures HistoryItemIn(RequestPartOut(part, id, historyId, now)[0]) == Some(ModelRequest([part]))
      <==> !(part.UserPromptPart? && part.userContent.ContentSequence?)
           && !(part.RetryPromptPart? && (part.retryToolName.None? || part.retryToolName.value == ""))
  {
  }

  lemma ResponsePartRoundTrip(part: ResponsePart, id: Uuid, historyId: Uuid, now: int)
    requires part.TextPart? || part.ThinkingPart? || part.ToolCallPart?
    ensures |ResponsePartOut(part, id, historyId, now)| == 1
    ensures part.TextPart? || part.ThinkingPart? ==>
      HistoryItemIn(ResponsePartOut(part, id, historyId, now)[0])
        == Some(ModelMessage.ModelResponse([part.(providerDetails := None)]))
    ensures part.ToolCallPart? ==>
      (HistoryItemIn(ResponsePartOut(part, id, historyId, now)[0]) == Some(ModelMessage.ModelResponse([part]))
       <==> Truthy(part.args) || part.args == Object(map[]))
  {
  }

  /** Replay items all map: one message per item, in order. Live items are
      skipped. */
  lemma {:induction false} HistoryItemsInPointwise(items: seq<StreamItem>)
    ensures |HistoryItemsIn(items)| <= |items|
    ensures (forall k :: 0 <= k < |items| ==> items[k].IsReplayItem()) ==>
      |HistoryItemsIn(items)| == |items|
      && forall k :: 0 <= k < |items| ==> HistoryItemsIn(items)[k] == HistoryItemIn(items[k]).value
    decreases |items|
  {
    if items != [] {
      var init := items[..|items| - 1];
      HistoryItemsInPointwise(init);
      if forall k :: 0 <= k < |items| ==> items[k].IsReplayItem() {
        assert forall k :: 0 <= k < |init| ==> init[k] == items[k];
      }
    }
  }

  /** Mapping a list of replay items in and each message back out under its
      item's ids yields the normalised items, in order. */
  lemma HistoryRoundTrip(items: seq<StreamItem>, now: int)
    requires forall k :: 0 <= k < |items| ==> items[k].IsReplayItem()
    ensures |HistoryItemsIn(items)| == |items|
    ensures forall k :: 0 <= k < |items| ==>
      ModelMessageOut(HistoryItemsIn(items)[k], items[k].id, items[k].historyId, now) == [Normalized(items[k], now)]
  {
    HistoryItemsInPointwise(items);
    forall k | 0 <= k < |items|
      ensures ModelMessageOut(HistoryItemsIn(items)[k], items[k].id, items[k].historyId, now) == [Normalized(items[k], now)]
    {
      ItemRoundTrip(items[k], now);
    }
  }
}
