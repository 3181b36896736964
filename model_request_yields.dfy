/** The reducer's cursor over the part currently being streamed in a model
    request: which kind of part is open, under which id, and the text
    accumulated so far. `CursorState` is the cursor as a value and the functions
    below say what each operation does to it; the class
    `ModelRequestCurrentPart` is the mutable object the adapter threads through
    its event loop, and each of its methods is proved to act as the matching
    function. Fresh ids come from a counter standing in for `uuid4`, and the
    creation timestamp of every produced item is the parameter `now`. */
module ModelRequestYields {
  import opened Models
  import Messages

  type Details = Messages.Details

  datatype PartState = NoStream | Thinking | Talking | ToolCallPrep

  /** The exceptions the cursor raises: a failed `assert`, or a `ValueError`. */
  datatype CursorError = AssertionError | ValueError

  datatype CursorState = CursorState(
    historyId: Uuid,
    id: Option<Uuid>,
    state: PartState,
    content: string,
    providerDetails: Option<Details>,
    nextId: nat)

  /** The cursor as the adapter creates it: only the history id is given. */
  function Initial(historyId: Uuid, firstFreshId: nat): CursorState {
    CursorState(historyId, None, NoStream, "", None, firstFreshId)
  }

  predicate StreamingOtherThan(c: CursorState, s: PartState) {
    c.state != NoStream && c.state != s
  }

  predicate Idle(c: CursorState) {
    c.state == NoStream
  }

  /** The `part_type` announced when a part of state `s` starts. */
  function PartTypeOf(s: PartState): PartType
    requires s != NoStream
  {
    match s
    case Thinking => PartThinking
    case Talking => PartResponse
    case ToolCallPrep => PartToolCallPrep
  }

  /** A cursor operation's new cursor together with what it returns or raises. */
  datatype Outcome<+T> = Outcome(cursor: CursorState, result: Result<T, CursorError>)

  predicate IsDelta(x: StreamItem) {
    x.ThinkingDelta? || x.ModelResponseDelta?
  }

  /** The items a flush produces: a completed thinking step or response. */
  predicate IsTerminal(x: StreamItem) {
    x.ThinkingStep? || x.ModelResponse?
  }

  function TerminalText(x: StreamItem): string
    requires IsTerminal(x)
  {
    if x.ThinkingStep? then x.thoughts else x.response
  }

  /** `reset_to_state_and_get_part_start`: a fresh id, the new state and empty
      content are stored first; only then is NO_STREAM rejected. */
  function Reset(c: CursorState, s: PartState, now: int): (o: Outcome<StreamItem>)
    ensures o.cursor.id == Some(c.nextId) && o.cursor.nextId == c.nextId + 1
    ensures o.cursor.state == s && o.cursor.content == ""
    ensures o.cursor.historyId == c.historyId && o.cursor.providerDetails == c.providerDetails
    ensures o.result.Err? <==> s == NoStream
    ensures o.result.Err? ==> o.result.error == ValueError
    ensures o.result.Ok? ==>
              o.result.value.PartStart? && o.result.value.id == c.nextId && o.result.value.historyId == c.historyId
    ensures s == Thinking ==> o.result == Ok(PartStart(c.nextId, c.historyId, now, PartThinking))
    ensures s == Talking ==> o.result == Ok(PartStart(c.nextId, c.historyId, now, PartResponse))
    ensures s == ToolCallPrep ==> o.result == Ok(PartStart(c.nextId, c.historyId, now, PartToolCallPrep))
  {
    var c' := c.(id := Some(c.nextId), state := s, content := "", nextId := c.nextId + 1);
    if s == NoStream then Outcome(c', Err(ValueError))
    else Outcome(c', Ok(PartStart(c.nextId, c.historyId, now, PartTypeOf(s))))
  }

  /** `reset_to_no_stream`: a fresh id, NO_STREAM and empty content. */
  function ResetIdle(c: CursorState): (c': CursorState)
    ensures c'.id == Some(c.nextId) && c'.nextId == c.nextId + 1
    ensures c'.state == NoStream && c'.content == ""
    ensures c'.historyId == c.historyId && c'.providerDetails == c.providerDetails
  {
    c.(id := Some(c.nextId), state := NoStream, content := "", nextId := c.nextId + 1)
  }

  /** `add_content_and_yield_delta`: the two assertions come first; the content
      is then extended, and the delta is typed by the cursor's state (in
      TOOL_CALL_PREP the `ValueError` is raised after the content grew). */
  function AddContent(c: CursorState, text: string, now: int): (o: Outcome<StreamItem>)
    ensures o.result == Err(AssertionError) <==> c.state == NoStream || c.id.None?
    ensures o.result == Err(AssertionError) ==> o.cursor == c
    ensures o.result != Err(AssertionError) ==> o.cursor == c.(content := c.content + text)
    ensures o.result == Err(ValueError) <==> c.state == ToolCallPrep && c.id.Some?
    ensures o.result.Ok? <==> (c.state == Thinking || c.state == Talking) && c.id.Some?
    ensures o.result.Ok? ==>
              IsDelta(o.result.value) && o.result.value.delta == text
              && o.result.value.id == c.id.value && o.result.value.historyId == c.historyId
              && (o.result.value.ThinkingDelta? <==> c.state == Thinking)
  {
    if c.state == NoStream || c.id.None? then Outcome(c, Err(AssertionError))
    else
      var c' := c.(content := c.content + text);
      match c.state
      case Thinking => Outcome(c', Ok(ThinkingDelta(c.id.value, c.historyId, now, text)))
      case Talking => Outcome(c', Ok(ModelResponseDelta(c.id.value, c.historyId, now, text)))
      case ToolCallPrep => Outcome(c', Err(ValueError))
  }

  /** `flush`: the completed item of the open part, whatever its content
      (possibly empty); nothing in NO_STREAM; an error in TOOL_CALL_PREP. The
      cursor itself is left as it is. */
  function Flushed(c: CursorState, now: int): (r: Result<Option<StreamItem>, CursorError>)
    ensures r == Ok(None) <==> c.state == NoStream
    ensures r == Err(ValueError) <==> c.state == ToolCallPrep
    ensures r == Err(AssertionError) <==> (c.state == Thinking || c.state == Talking) && c.id.None?
    ensures r.Ok? && r.value.Some? ==>
              IsTerminal(r.value.value) && TerminalText(r.value.value) == c.content
              && c.id.Some? && r.value.value.id == c.id.value && r.value.value.historyId == c.historyId
              && (r.value.value.ThinkingStep? <==> c.state == Thinking)
  {
    match c.state
    case Thinking =>
      if c.id.None? then Err(AssertionError)
      else Ok(Some(ThinkingStep(c.id.value, c.historyId, now, c.content)))
    case Talking =>
      if c.id.None? then Err(AssertionError)
      else Ok(Some(ModelResponse(c.id.value, c.historyId, now, c.content)))
    case ToolCallPrep => Err(ValueError)
    case NoStream => Ok(None)
  }

  /** Any number of `add_content_and_yield_delta` calls in a row, collecting the
      deltas they return (a call that raises contributes no delta). */
  function AddAll(c: CursorState, texts: seq<string>, now: int): (CursorState, seq<StreamItem>)
    decreases |texts|
  {
    if texts == [] then (c, [])
    else
      var o := AddContent(c, texts[0], now);
      var rest := AddAll(o.cursor, texts[1..], now);
      (rest.0, (if o.result.Ok? then [o.result.value] else []) + rest.1)
  }

  function Concat(texts: seq<string>): string {
    if texts == [] then "" else texts[0] + Concat(texts[1..])
  }

  /** The texts of the deltas among `items`, in order. */
  function DeltaTexts(items: seq<StreamItem>): seq<string> {
    if items == [] then []
    else (if IsDelta(items[0]) then [items[0].delta] else []) + DeltaTexts(items[1..])
  }

  lemma {:induction false} AddAllAccumulates(c: CursorState, texts: seq<string>, now: int)
    requires c.state == Thinking || c.state == Talking
    requires c.id.Some?
    ensures var (c', deltas) := AddAll(c, texts, now);
      c' == c.(content := c.content + Concat(texts))
      && |deltas| == |texts|
      && (forall k :: 0 <= k < |deltas| ==>
            IsDelta(deltas[k]) && deltas[k].id == c.id.value && deltas[k].delta == texts[k]
            && (deltas[k].ThinkingDelta? <==> c.state == Thinking))
      && DeltaTexts(deltas) == texts
    decreases |texts|
  {
    if texts != [] {
      var o := AddContent(c, texts[0], now);
      AddAllAccumulates(o.cursor, texts[1..], now);
      var rest := AddAll(o.cursor, texts[1..], now).1;
      assert ([o.result.value] + rest)[1..] == rest;
      assert c.content + texts[0] + Concat(texts[1..]) == c.content + Concat(texts);
    }
  }

  /** After a reset to THINKING or TALKING and any sequence of content
      additions, the accumulated content is the concatenation of the returned
      delta texts, every delta carries the id announced by the `PartStart`, and
      `flush` returns exactly that content under that id. */
  lemma {:induction false} DeltasConcatenateToFlushed(c: CursorState, s: PartState, texts: seq<string>, now: int)
    requires s == Thinking || s == Talking
    ensures var o := Reset(c, s, now);
      var (c', deltas) := AddAll(o.cursor, texts, now);
      o.result.Ok? && o.result.value.PartStart?
      && (forall k :: 0 <= k < |deltas| ==> IsDelta(deltas[k]) && deltas[k].id == o.result.value.id)
      && DeltaTexts(deltas) == texts
      && c'.content == Concat(texts)
      && Flushed(c', now).Ok? && Flushed(c', now).value.Some?
      && Flushed(c', now).value.value.id == o.result.value.id
      && TerminalText(Flushed(c', now).value.value) == Concat(DeltaTexts(deltas))
  {
    var o := Reset(c, s, now);
    AddAllAccumulates(o.cursor, texts, now);
    assert "" + Concat(texts) == Concat(texts);
  }

  /** The mutable cursor the adapter creates once per model request. */
  class ModelRequestCurrentPart {
    const historyId: Uuid
    var id: Option<Uuid>
    var state: PartState
    var content: string
    var providerDetails: Option<Details>
    /** The next fresh id to hand out (stands in for `uuid4`). */
    var nextId: nat

    function Snapshot(): CursorState
      reads this
    {
      CursorState(historyId, id, state, content, providerDetails, nextId)
    }

    constructor (historyId: Uuid, firstFreshId: nat)
      ensures Snapshot() == Initial(historyId, firstFreshId)
    {
      this.historyId := historyId;
      id := None;
      state := NoStream;
      content := "";
      providerDetails := None;
      nextId := firstFreshId;
    }

    /** `is_not_streaming`: no part is open, so a flush yields nothing. */
    predicate IsNotStreaming(): (b: bool)
      reads this
      ensures b ==> forall now :: Flushed(Snapshot(), now) == Ok(None)
      ensures !b ==> forall now :: Flushed(Snapshot(), now) != Ok(None)
    {
      Idle(Snapshot())
    }

    /** `is_streaming_but_not_in_state`: a part is open, of a kind other than
        `s`. */
    predicate IsStreamingButNotInState(s: PartState): (b: bool)
      reads this
      ensures b <==> !IsNotStreaming() && state != s
    {
      StreamingOtherThan(Snapshot(), s)
    }

    method AddContentAndYieldDelta(text: string, now: int) returns (r: Result<StreamItem, CursorError>)
      modifies this
      ensures Snapshot() == AddContent(old(Snapshot()), text, now).cursor
      ensures r == AddContent(old(Snapshot()), text, now).result
    {
      if state == NoStream || id.None? {
        return Err(AssertionError);
      }
      content := content + text;
      match state
      case Thinking => r := Ok(ThinkingDelta(id.value, historyId, now, text));
      case Talking => r := Ok(ModelResponseDelta(id.value, historyId, now, text));
      case ToolCallPrep => r := Err(ValueError);
    }

    method ResetToStateAndGetPartStart(s: PartState, now: int) returns (r: Result<StreamItem, CursorError>)
      modifies this
      ensures Snapshot() == Reset(old(Snapshot()), s, now).cursor
      ensures r == Reset(old(Snapshot()), s, now).result
    {
      id := Some(nextId);
      nextId := nextId + 1;
      state := s;
      content := "";
      if s == NoStream {
        return Err(ValueError);
      }
      r := Ok(PartStart(id.value, historyId, now, PartTypeOf(s)));
    }

    method ResetToNoStream()
      modifies this
      ensures Snapshot() == ResetIdle(old(Snapshot()))
    {
      id := Some(nextId);
      nextId := nextId + 1;
      state := NoStream;
      content := "";
    }

    method Flush(now: int) returns (r: Result<Option<StreamItem>, CursorError>)
      ensures r == Flushed(Snapshot(), now)
    {
      match state
      case Thinking =>
        if id.None? { return Err(AssertionError); }
        r := Ok(Some(ThinkingStep(id.value, historyId, now, content)));
      case Talking =>
        if id.None? { return Err(AssertionError); }
        r := Ok(Some(ModelResponse(id.value, historyId, now, content)));
      case ToolCallPrep => r := Err(ValueError);
      case NoStream => r := Ok(None);
    }
  }
}
