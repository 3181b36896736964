/** The part-assembly reducer of a model request: each provider event moves the
    cursor and produces stream items. `Step` and `Run` say what one event and a
    whole event sequence produce; `HandleEvent` and `HandleModelRequestNode` are
    the imperative event loop, proved to produce exactly that. An exception
    ends the run: the items produced before it have been yielded, nothing after.
    Also here: the assembly of the history list replayed into the model. */
module Adapter {
  import opened Models
  import opened Messages
  import opened ModelRequestYields
  import HistoryPreprocessor

  /** What handling one event (or a run of events) produced. */
  datatype StepResult = StepResult(cursor: CursorState, items: seq<StreamItem>, err: Option<CursorError>)

  function FlushedItems(f: Option<StreamItem>): seq<StreamItem> {
    if f.Some? then [f.value] else []
  }

  /** Opening a thinking or text part: a part of another kind is flushed and a
      new part started; from NO_STREAM a new part is started; a part of the same
      kind stays open. */
  function OpenPart(c: CursorState, s: PartState, now: int): (r: StepResult)
    requires s == Thinking || s == Talking
    ensures r.err.Some? <==> StreamingOtherThan(c, s) && Flushed(c, now).Err?
    ensures r.err.Some? ==> r.cursor == c && r.items == []
    ensures r.err.None? ==> r.cursor.state == s
    ensures c.state == s ==> r == StepResult(c, [], None)
    ensures |r.items| <= 2 && r.cursor.historyId == c.historyId && c.nextId <= r.cursor.nextId
    ensures forall k :: 0 <= k < |r.items| ==> r.items[k].historyId == c.historyId
  {
    if StreamingOtherThan(c, s) then
      var f := Flushed(c, now);
      if f.Err? then StepResult(c, [], Some(f.error))
      else
        var o := Reset(c, s, now);
        StepResult(o.cursor, FlushedItems(f.value) + [o.result.value], None)
    else if Idle(c) then
      var o := Reset(c, s, now);
      StepResult(o.cursor, [o.result.value], None)
    else
      StepResult(c, [], None)
  }

  /** `add_content_and_yield_delta` after the items already produced: its
      exception, if any, ends the step. */
  function AppendContent(r: StepResult, text: string, now: int): (r': StepResult)
    ensures r'.err.None? <==> (r.cursor.state == Thinking || r.cursor.state == Talking) && r.cursor.id.Some?
    ensures r'.err.Some? ==> r'.items == r.items
    ensures r'.err.None? ==>
              |r'.items| == |r.items| + 1 && r'.items[..|r.items|] == r.items && IsDelta(r'.items[|r.items|])
              && r'.items[|r.items|].id == r.cursor.id.value && r'.items[|r.items|].delta == text
              && r'.cursor.content == r.cursor.content + text
    ensures r'.cursor.id == r.cursor.id && r'.cursor.state == r.cursor.state
    ensures r'.cursor.historyId == r.cursor.historyId && r'.cursor.nextId == r.cursor.nextId
    ensures r'.cursor.providerDetails == r.cursor.providerDetails
  {
    var o := AddContent(r.cursor, text, now);
    if o.result.Ok? then StepResult(o.cursor, r.items + [o.result.value], None)
    else StepResult(o.cursor, r.items, Some(o.result.error))
  }

  /** `"".join(raw)`: a string joins to itself and a list of strings to their
      concatenation; any other value raises. */
  function JoinStrings(v: Value): Option<string> {
    match v
    case Str(s) => Some(s)
    case List(xs) => JoinList(xs)
    case _ => None
  }

  function JoinList(xs: seq<Value>): Option<string> {
    if xs == [] then Some("")
    else if !xs[0].Str? then None
    else
      var rest := JoinList(xs[1..]);
      if rest.None? then None else Some(xs[0].s + rest.value)
  }

  /** The delta text of a swallowed `add_content_and_yield_delta` call. */
  function TryAdd(c: CursorState, text: string, now: int): (CursorState, seq<StreamItem>) {
    var o := AddContent(c, text, now);
    (o.cursor, if o.result.Ok? then [o.result.value] else [])
  }

  /** `_try_extracting_raw_content_start_of_part`: the stored details'
      `raw_content`, joined, becomes content; every failure (a missing key, a
      value that does not join, an exception of the cursor) is swallowed. */
  function RawContentAtStart(c: CursorState, partContent: string, now: int): (x: (CursorState, seq<StreamItem>))
    ensures |x.1| <= 1
    ensures x.1 != [] ==>
              partContent == "" && c.providerDetails.Some? && "raw_content" in c.providerDetails.value
              && IsDelta(x.1[0]) && Some(x.1[0].id) == c.id && x.1[0].historyId == c.historyId
              && x.0.content == c.content + x.1[0].delta
    ensures x.0.id == c.id && x.0.state == c.state && x.0.providerDetails == c.providerDetails
    ensures x.0.historyId == c.historyId && x.0.nextId == c.nextId
  {
    if c.providerDetails.Some? && c.providerDetails.value != map[] && partContent == ""
       && "raw_content" in c.providerDetails.value && Truthy(c.providerDetails.value["raw_content"])
       && JoinStrings(c.providerDetails.value["raw_content"]).Some?
    then TryAdd(c, JoinStrings(c.providerDetails.value["raw_content"]).value, now)
    else (c, [])
  }

  /** A part with no content of its own: its provider details are stored, and
      tried as a content source when present. */
  function StoreDetails(r: StepResult, details: Option<Details>, partContent: string, now: int): (r': StepResult)
    ensures r'.err.None? && r'.cursor.providerDetails == details
    ensures r.items <= r'.items && |r'.items| <= |r.items| + 1
    ensures r'.cursor.id == r.cursor.id && r'.cursor.state == r.cursor.state
    ensures r'.cursor.historyId == r.cursor.historyId && r'.cursor.nextId == r.cursor.nextId
    ensures forall k :: |r.items| <= k < |r'.items| ==> r'.items[k].historyId == r.cursor.historyId
  {
    var c := r.cursor.(providerDetails := details);
    if details.Some? && details.value != map[] then
      var extraction := RawContentAtStart(c, partContent, now);
      StepResult(extraction.0, r.items + extraction.1, None)
    else StepResult(c, r.items, None)
  }

  /** Python's `v[-1]`; `None` where it raises. */
  function LastOf(v: Value): Option<Value> {
    match v
    case List(xs) => if xs == [] then None else Some(xs[|xs| - 1])
    case Str(s) => if s == "" then None else Some(Str([s[|s| - 1]]))
    case _ => None
  }

  /** `_try_extracting_raw_content_delta`: the callable is applied to the
      stored details (which it does not replace) and the last element of the
      derived `raw_content` becomes content; every failure is swallowed. */
  function RawContentDelta(c: CursorState, derive: Details -> Option<Details>, now: int): (x: (CursorState, seq<StreamItem>))
    ensures |x.1| <= 1
    ensures x.1 != [] ==>
              c.providerDetails.Some? && IsDelta(x.1[0]) && Some(x.1[0].id) == c.id
              && x.1[0].historyId == c.historyId && x.0.content == c.content + x.1[0].delta
    ensures x.0.id == c.id && x.0.state == c.state && x.0.providerDetails == c.providerDetails
    ensures x.0.historyId == c.historyId && x.0.nextId == c.nextId
  {
    if c.providerDetails.None? || c.providerDetails.value == map[] then (c, [])
    else
      var derived := derive(c.providerDetails.value);
      if derived.None? || "raw_content" !in derived.value then (c, [])
      else
        var last := LastOf(derived.value["raw_content"]);
        // a falsy element is skipped; a non-string one makes `+=` raise
        if last.None? || !Truthy(last.value) || !last.value.Str? then (c, [])
        else TryAdd(c, last.value.s, now)
  }

  /** The start of a tool call: further tool calls join the one being
      prepared; otherwise the open part is flushed and a tool-call part is
      announced. */
  function StartToolCall(c: CursorState, now: int): (r: StepResult)
    ensures r.err.Some? <==> StreamingOtherThan(c, ToolCallPrep) && Flushed(c, now).Err?
    ensures r.err.Some? ==> r.cursor == c && r.items == []
    ensures c.state == ToolCallPrep ==> r == StepResult(c, [], None)
    ensures r.err.None? && c.state != ToolCallPrep ==>
              r.cursor.state == ToolCallPrep && r.items != [] && r.items[|r.items| - 1].PartStart?
              && r.items[|r.items| - 1].id == c.nextId
    ensures |r.items| <= 2 && r.cursor.historyId == c.historyId && c.nextId <= r.cursor.nextId
    ensures forall k :: 0 <= k < |r.items| ==> r.items[k].historyId == c.historyId
  {
    if c.state == ToolCallPrep then StepResult(c, [], None)
    else
      var f := if StreamingOtherThan(c, NoStream) then Flushed(c, now) else Ok(None);
      if f.Err? then StepResult(c, [], Some(f.error))
      else
        var o := Reset(c, ToolCallPrep, now);
        StepResult(o.cursor, FlushedItems(f.value) + [o.result.value], None)
  }

  /** The start of a part: at most a completed item, a `PartStart` and a
      delta; an exception leaves the cursor and yields nothing. */
  function StartPart(c: CursorState, part: ResponsePart, now: int): (r: StepResult)
    ensures r.err.Some? ==> r.cursor == c && r.items == []
    ensures |r.items| <= 3
    ensures r.cursor.historyId == c.historyId && c.nextId <= r.cursor.nextId
    ensures forall k :: 0 <= k < |r.items| ==> r.items[k].historyId == c.historyId
  {
    match part
    case ThinkingPart(content, details) =>
      var separator := if c.state == Thinking then "\n\n" else "";
      var r := OpenPart(c, Thinking, now);
      if r.err.Some? then r
      else if separator + content != "" then AppendContent(r, separator + content, now)
      else StoreDetails(r, details, content, now)
    case TextPart(content, details) =>
      var r := OpenPart(c, Talking, now);
      if r.err.Some? then r
      else if content != "" then AppendContent(r, content, now)
      else StoreDetails(r, details, content, now)
    case ToolCallPart(_, _, _) => StartToolCall(c, now)
    case _ =>
      // a built-in tool call or return, or a file
      if StreamingOtherThan(c, NoStream) then
        var f := Flushed(c, now);
        if f.Err? then StepResult(c, [], Some(f.error))
        else StepResult(ResetIdle(c), FlushedItems(f.value), None)
      else StepResult(c, [], None)
  }

  /** A thinking or text delta: typed by the cursor's state, not by its kind. */
  function DeltaContent(c: CursorState, text: string, details: DeltaDetails, now: int): (r: StepResult)
    ensures r.err.Some? <==> text != "" && !((c.state == Thinking || c.state == Talking) && c.id.Some?)
    ensures r.err.Some? ==> r.items == []
    ensures |r.items| <= 1
    ensures r.items != [] ==>
              IsDelta(r.items[0]) && Some(r.items[0].id) == c.id && r.items[0].historyId == c.historyId
              && r.cursor.content == c.content + r.items[0].delta
    ensures r.cursor.id == c.id && r.cursor.state == c.state && r.cursor.providerDetails == c.providerDetails
    ensures r.cursor.historyId == c.historyId && r.cursor.nextId == c.nextId
  {
    if text != "" then AppendContent(StepResult(c, [], None), text, now)
    else if details.CallableDetails? then
      var extraction := RawContentDelta(c, details.derive, now);
      StepResult(extraction.0, extraction.1, None)
    else
      // no details, or a static dictionary (logged as unsupported)
      StepResult(c, [], None)
  }

  /** One event of the request stream. */
  function Step(c: CursorState, e: Event, now: int): (r: StepResult)
    ensures r.err.Some? ==> r.items == []
    ensures |r.items| <= 3
    ensures r.cursor.historyId == c.historyId && c.nextId <= r.cursor.nextId
    ensures forall k :: 0 <= k < |r.items| ==> r.items[k].historyId == c.historyId
  {
    match e
    case PartStartEvent(part) => StartPart(c, part, now)
    case PartDeltaEvent(delta) =>
      (match delta
       case ThinkingPartDelta(text, details) => DeltaContent(c, text, details, now)
       case TextPartDelta(text, details) => DeltaContent(c, text, details, now)
       case ToolCallPartDelta => StepResult(c, [], None))
    case PartEndEvent => StepResult(c, [], None)
    case FinalResultEvent => StepResult(c, [], None)
  }

  /** A whole event sequence, stopping at the first exception. Nothing happens
      after the last event: a part still open is not flushed. */
  function Run(c: CursorState, events: seq<Event>, now: int): (r: StepResult)
    ensures |r.items| <= 3 * |events|
    ensures r.cursor.historyId == c.historyId && c.nextId <= r.cursor.nextId
    ensures forall k :: 0 <= k < |r.items| ==> r.items[k].historyId == c.historyId
    decreases |events|
  {
    if events == [] then StepResult(c, [], None)
    else
      var s := Step(c, events[0], now);
      if s.err.Some? then s
      else
        var rest := Run(s.cursor, events[1..], now);
        StepResult(rest.cursor, s.items + rest.items, rest.err)
  }

  // ---------------------------------------------------------------------------
  // The imperative event loop

  method OpenPartOn(cursor: ModelRequestCurrentPart, s: PartState, now: int)
    returns (emitted: seq<StreamItem>, err: Option<CursorError>)
    requires s == Thinking || s == Talking
    modifies cursor
    ensures var r := OpenPart(old(cursor.Snapshot()), s, now);
      cursor.Snapshot() == r.cursor && emitted == r.items && err == r.err
  {
    emitted, err := [], None;
    if cursor.IsStreamingButNotInState(s) {
      var flushed := cursor.Flush(now);
      if flushed.Err? {
        return [], Some(flushed.error);
      }
      if flushed.value.Some? {
        emitted := emitted + [flushed.value.value];
      }
      var start := cursor.ResetToStateAndGetPartStart(s, now);
      emitted := emitted + [start.value];
    } else if cursor.IsNotStreaming() {
      var start := cursor.ResetToStateAndGetPartStart(s, now);
      emitted := emitted + [start.value];
    }
  }

  method TryRawContentAtStart(cursor: ModelRequestCurrentPart, partContent: string, now: int)
    returns (extracted: seq<StreamItem>)
    modifies cursor
    ensures var r := RawContentAtStart(old(cursor.Snapshot()), partContent, now);
      cursor.Snapshot() == r.0 && extracted == r.1
  {
    extracted := [];
    if cursor.providerDetails.Some? && cursor.providerDetails.value != map[] && partContent == ""
       && "raw_content" in cursor.providerDetails.value
    {
      var raw := cursor.providerDetails.value["raw_content"];
      if Truthy(raw) {
        var joined := JoinStrings(raw);
        if joined.Some? {
          var delta := cursor.AddContentAndYieldDelta(joined.value, now);
          if delta.Ok? {
            extracted := [delta.value];
          }
        }
      }
    }
  }

  method TryRawContentDelta(cursor: ModelRequestCurrentPart, derive: Details -> Option<Details>, now: int)
    returns (extracted: seq<StreamItem>)
    modifies cursor
    ensures var r := RawContentDelta(old(cursor.Snapshot()), derive, now);
      cursor.Snapshot() == r.0 && extracted == r.1
  {
    extracted := [];
    if cursor.providerDetails.None? || cursor.providerDetails.value == map[] {
      return;
    }
    var derived := derive(cursor.providerDetails.value);
    if derived.None? || "raw_content" !in derived.value {
      return;
    }
    var last := LastOf(derived.value["raw_content"]);
    if last.Some? && Truthy(last.value) && last.value.Str? {
      var delta := cursor.AddContentAndYieldDelta(last.value.s, now);
      if delta.Ok? {
        extracted := [delta.value];
      }
    }
  }

  method AddAndEmit(cursor: ModelRequestCurrentPart, emitted: seq<StreamItem>, text: string, now: int)
    returns (emitted': seq<StreamItem>, err: Option<CursorError>)
    modifies cursor
    ensures var r := AppendContent(StepResult(old(cursor.Snapshot()), emitted, None), text, now);
      cursor.Snapshot() == r.cursor && emitted' == r.items && err == r.err
  {
    var delta := cursor.AddContentAndYieldDelta(text, now);
    if delta.Ok? {
      emitted', err := emitted + [delta.value], None;
    } else {
      emitted', err := emitted, Some(delta.error);
    }
  }

  method HandlePartStart(cursor: ModelRequestCurrentPart, part: ResponsePart, now: int)
    returns (emitted: seq<StreamItem>, err: Option<CursorError>)
    modifies cursor
    ensures var r := StartPart(old(cursor.Snapshot()), part, now);
      cursor.Snapshot() == r.cursor && emitted == r.items && err == r.err
  {
    match part
    case ThinkingPart(content, details) =>
      var separator := if cursor.state == Thinking then "\n\n" else "";
      emitted, err := OpenPartOn(cursor, Thinking, now);
      if err.Some? {
        return;
      }
      if separator + content != "" {
        emitted, err := AddAndEmit(cursor, emitted, separator + content, now);
      } else {
        cursor.providerDetails := details;
        if details.Some? && details.value != map[] {
          var extracted := TryRawContentAtStart(cursor, content, now);
          emitted := emitted + extracted;
        }
      }
    case TextPart(content, details) =>
      emitted, err := OpenPartOn(cursor, Talking, now);
      if err.Some? {
        return;
      }
      if content != "" {
        emitted, err := AddAndEmit(cursor, emitted, content, now);
      } else {
        cursor.providerDetails := details;
        if details.Some? && details.value != map[] {
          var extracted := TryRawContentAtStart(cursor, content, now);
          emitted := emitted + extracted;
        }
      }
    case ToolCallPart(_, _, _) =>
      emitted, err := [], None;
      if cursor.state != ToolCallPrep {
        if cursor.IsStreamingButNotInState(NoStream) {
          var flushed := cursor.Flush(now);
          if flushed.Err? {
            return [], Some(flushed.error);
          }
          if flushed.value.Some? {
            emitted := emitted + [flushed.value.value];
          }
        }
        var start := cursor.ResetToStateAndGetPartStart(ToolCallPrep, now);
        emitted := emitted + [start.value];
      }
    case _ =>
      emitted, err := [], None;
      if cursor.IsStreamingButNotInState(NoStream) {
        var flushed := cursor.Flush(now);
        if flushed.Err? {
          return [], Some(flushed.error);
        }
        if flushed.value.Some? {
          emitted := emitted + [flushed.value.value];
        }
        cursor.ResetToNoStream();
      }
  }

  /** The body of the `async for event` loop: consumes one event. */
  method HandleEvent(cursor: ModelRequestCurrentPart, event: Event, now: int)
    returns (emitted: seq<StreamItem>, err: Option<CursorError>)
    modifies cursor
    ensures var r := Step(old(cursor.Snapshot()), event, now);
      cursor.Snapshot() == r.cursor && emitted == r.items && err == r.err
  {
    emitted, err := [], None;
    match event
    case PartStartEvent(part) =>
      emitted, err := HandlePartStart(cursor, part, now);
    case PartDeltaEvent(delta) =>
      if delta.ThinkingPartDelta? || delta.TextPartDelta? {
        if delta.contentDelta != "" {
          emitted, err := AddAndEmit(cursor, [], delta.contentDelta, now);
        } else if delta.deltaDetails.CallableDetails? {
          emitted := TryRawContentDelta(cursor, delta.deltaDetails.derive, now);
        }
      }
    case PartEndEvent =>
    case FinalResultEvent =>
  }

  /** `_handle_model_request_node`: a fresh cursor, then every event in turn
      until the stream ends or an exception is raised. */
  method HandleModelRequestNode(historyId: Uuid, firstFreshId: nat, events: seq<Event>, now: int)
    returns (items: seq<StreamItem>, err: Option<CursorError>)
    ensures var r := Run(Initial(historyId, firstFreshId), events, now);
      items == r.items && err == r.err
  {
    var cursor := new ModelRequestCurrentPart(historyId, firstFreshId);
    ghost var whole := Run(Initial(historyId, firstFreshId), events, now);
    items, err := [], None;
    var i := 0;
    while i < |events| && err.None?
      invariant 0 <= i <= |events|
      invariant err.None? ==>
        var rest := Run(cursor.Snapshot(), events[i..], now);
        items + rest.items == whole.items && rest.err == whole.err
      invariant err.Some? ==> items == whole.items && err == whole.err
      decreases |events| - i
    {
      assert events[i..][1..] == events[i + 1..];
      var emitted, e := HandleEvent(cursor, events[i], now);
      items := items + emitted;
      err := e;
      i := i + 1;
    }
    assert err.None? ==> events[i..] == [];
  }

  // ---------------------------------------------------------------------------
  // The history replayed into the model

  /** The list `stream_agent_run` hands to the preprocessor: the memory prompt
      (when semantic memory is configured), then the main system prompt, then
      the recent history items. */
  method AssembleHistory(lastItems: seq<StreamItem>, mainSystemPrompt: StreamItem, memoryPrompt: Option<StreamItem>)
    returns (history: seq<StreamItem>)
    requires mainSystemPrompt.SystemPrompt?
    requires memoryPrompt.Some? ==> memoryPrompt.value.SystemPrompt?
    ensures var prompts := (if memoryPrompt.Some? then [memoryPrompt.value] else []) + [mainSystemPrompt];
      history == prompts + HistoryPreprocessor.Preprocessed(lastItems)
      && history == HistoryPreprocessor.Preprocessed(prompts + lastItems)
  {
    var assembled := lastItems;
    assembled := [mainSystemPrompt] + assembled;
    if memoryPrompt.Some? {
      assembled := [memoryPrompt.value] + assembled;
    }
    var prompts := (if memoryPrompt.Some? then [memoryPrompt.value] else []) + [mainSystemPrompt];
    assert assembled == prompts + lastItems;
    HistoryPreprocessor.SystemPromptsLeadThrough(prompts, lastItems);
    history := HistoryPreprocessor.PreprocessHistory(assembled);
  }
}
