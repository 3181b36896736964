/** What the reducer guarantees about the items it yields: per-event behaviour
    (continuation of a thinking part, flush on a switch of kind, one PartStart
    for a run of tool calls, rejection in TOOL_CALL_PREP) and, over a whole
    request, the coherence of the stream: every completed thinking step or
    response carries exactly the text of the deltas yielded under its id, and
    every id a PartStart announces is fresh. */
module AdapterProperties {
  import opened Models
  import opened Messages
  import opened ModelRequestYields
  import opened Adapter
  import opened Sequences

  // ---------------------------------------------------------------------------
  // Single events

  /** From NO_STREAM, a text part with content announces a new response part
      and yields its content as the first delta. */
  lemma TextStartFromIdle(c: CursorState, content: string, details: Option<Details>, now: int)
    requires Idle(c) && content != ""
    ensures Step(c, PartStartEvent(TextPart(content, details)), now)
      == StepResult(c.(id := Some(c.nextId), state := Talking, content := content, nextId := c.nextId + 1),
                    [PartStart(c.nextId, c.historyId, now, PartResponse),
                     ModelResponseDelta(c.nextId, c.historyId, now, content)],
                    None)
  {
  }

  /** A thinking part following a thinking part continues it: no PartStart,
      no flush, and the content arrives after a blank-line separator under the
      same id, even when the new part is empty. */
  lemma ThinkingContinues(c: CursorState, content: string, details: Option<Details>, now: int)
    requires c.state == Thinking && c.id.Some?
    ensures Step(c, PartStartEvent(ThinkingPart(content, details)), now)
      == StepResult(c.(content := c.content + "\n\n" + content),
                    [ThinkingDelta(c.id.value, c.historyId, now, "\n\n" + content)],
                    None)
  {
    assert c.content + ("\n\n" + content) == c.content + "\n\n" + content;
  }

  /** Switching between thinking and talking flushes the open part (its whole
      accumulated content under its id) before announcing the new one. */
  lemma SwitchFlushesFirst(c: CursorState, part: ResponsePart, now: int)
    requires c.id.Some?
    requires (c.state == Thinking && part.TextPart?) || (c.state == Talking && part.ThinkingPart?)
    ensures var r := Step(c, PartStartEvent(part), now);
      r.err.None? && |r.items| >= 2
      && IsTerminal(r.items[0]) && r.items[0].id == c.id.value && TerminalText(r.items[0]) == c.content
      && (r.items[0].ThinkingStep? <==> c.state == Thinking)
      && r.items[1] == PartStart(c.nextId, c.historyId, now, if part.TextPart? then PartResponse else PartThinking)
      && r.cursor.id == Some(c.nextId)
  {
  }

  /** In TOOL_CALL_PREP only further tool calls are accepted: a text,
      thinking, built-in tool or file part makes the flush raise `ValueError`,
      nothing is yielded and the cursor is untouched. */
  lemma ToolCallPrepRejectsOtherParts(c: CursorState, part: ResponsePart, now: int)
    requires c.state == ToolCallPrep
    requires !part.ToolCallPart?
    ensures Step(c, PartStartEvent(part), now) == StepResult(c, [], Some(ValueError))
  {
  }

  /** A built-in tool part or a file part closes an open thinking or text
      part: it is flushed and the cursor returns to NO_STREAM under a fresh id,
      without a PartStart. */
  lemma BuiltinPartCloses(c: CursorState, part: ResponsePart, now: int)
    requires c.state == Thinking || c.state == Talking
    requires c.id.Some?
    requires part.BuiltinToolCallPart? || part.BuiltinToolReturnPart? || part.FilePart?
    ensures var r := Step(c, PartStartEvent(part), now);
      r.err.None? && |r.items| == 1 && IsTerminal(r.items[0])
      && TerminalText(r.items[0]) == c.content && r.items[0].id == c.id.value
      && r.cursor == ResetIdle(c)
  {
  }

  /** Content deltas are typed by the cursor's state, not by their own kind;
      in NO_STREAM they raise `AssertionError`, and in TOOL_CALL_PREP they raise
      `ValueError` after the content was extended. */
  lemma DeltaTypedByState(c: CursorState, delta: DeltaPart, now: int)
    requires delta.ThinkingPartDelta? || delta.TextPartDelta?
    requires delta.contentDelta != ""
    ensures var r := Step(c, PartDeltaEvent(delta), now);
      (c.state == NoStream ==> r == StepResult(c, [], Some(AssertionError)))
      && (c.state == ToolCallPrep && c.id.Some? ==>
            r == StepResult(c.(content := c.content + delta.contentDelta), [], Some(ValueError)))
      && (c.state == Thinking && c.id.Some? ==>
            r == StepResult(c.(content := c.content + delta.contentDelta),
                            [ThinkingDelta(c.id.value, c.historyId, now, delta.contentDelta)], None))
      && (c.state == Talking && c.id.Some? ==>
            r == StepResult(c.(content := c.content + delta.contentDelta),
                            [ModelResponseDelta(c.id.value, c.historyId, now, delta.contentDelta)], None))
  {
  }

  /** Part ends, final-result events, tool-call deltas, empty deltas whose
      details are absent or a dictionary, and empty deltas with a callable when
      no details are stored change nothing. */
  lemma NoOpEvents(c: CursorState, e: Event, now: int)
    requires e.PartEndEvent? || e.FinalResultEvent?
      || (e.PartDeltaEvent? && e.delta.ToolCallPartDelta?)
      || (e.PartDeltaEvent? && !e.delta.ToolCallPartDelta? && e.delta.contentDelta == ""
          && !e.delta.deltaDetails.CallableDetails?)
      || (e.PartDeltaEvent? && !e.delta.ToolCallPartDelta? && e.delta.contentDelta == ""
          && e.delta.deltaDetails.CallableDetails? && (c.providerDetails.None? || c.providerDetails.value == map[]))
    ensures Step(c, e, now) == StepResult(c, [], None)
  {
  }

  /** A raw-content extraction from a delta's callable yields at most one
      delta, typed by the state and carrying the text it added; when it yields
      nothing the cursor is unchanged, except in TOOL_CALL_PREP, where the
      content may have grown before the swallowed `ValueError`. */
  lemma RawContentDeltaOutcome(c: CursorState, derive: Details -> Option<Details>, now: int)
    ensures var (c', items) := RawContentDelta(c, derive, now);
      |items| <= 1
      && (|items| == 1 ==>
            IsDelta(items[0]) && c.id.Some? && items[0].id == c.id.value
            && c' == c.(content := c.content + items[0].delta)
            && (items[0].ThinkingDelta? <==> c.state == Thinking))
      && (items == [] && c.state != ToolCallPrep ==> c' == c)
      && (items == [] && c.state == ToolCallPrep ==> c'.(content := c.content) == c && c.content <= c'.content)
  {
  }

  predicate IsToolCallStart(e: Event) {
    e.PartStartEvent? && e.part.ToolCallPart?
  }

  /** Further tool-call parts in TOOL_CALL_PREP do nothing. */
  lemma {:induction false} ToolCallStartsStay(c: CursorState, events: seq<Event>, now: int)
    requires c.state == ToolCallPrep
    requires forall k :: 0 <= k < |events| ==> IsToolCallStart(events[k])
    ensures Run(c, events, now) == StepResult(c, [], None)
    decreases |events|
  {
    if events != [] {
      ToolCallStartsStay(c, events[1..], now);
    }
  }

  /** Parallel tool calls: a run of tool-call parts yields (after the flush of
      the open part) one single PartStart of type TOOL_CALL_PREP. */
  lemma ToolCallStartsCoalesce(c: CursorState, events: seq<Event>, now: int)
    requires c.state != ToolCallPrep
    requires Flushed(c, now).Ok?
    requires |events| > 0 && forall k :: 0 <= k < |events| ==> IsToolCallStart(events[k])
    ensures var r := Run(c, events, now);
      r.err.None? && r.cursor.state == ToolCallPrep
      && r.items == FlushedItems(Flushed(c, now).value) + [PartStart(c.nextId, c.historyId, now, PartToolCallPrep)]
  {
    var s := Step(c, events[0], now);
    ToolCallStartsStay(s.cursor, events[1..], now);
  }

  // ---------------------------------------------------------------------------
  // Concrete runs

  /** The last part of a request is never flushed: a text part "4" followed by
      a delta "!" yields a PartStart and two deltas, and no ModelResponse; the
      cursor is left holding "4!". */
  lemma NoFlushAfterLastEvent(h: Uuid, n: nat, now: int)
    ensures var r := Run(Initial(h, n),
                         [PartStartEvent(TextPart("4", None)), PartDeltaEvent(TextPartDelta("!", NoDetails))], now);
      r.err.None?
      && r.items == [PartStart(n, h, now, PartResponse), ModelResponseDelta(n, h, now, "4"),
                     ModelResponseDelta(n, h, now, "!")]
      && r.cursor.state == Talking && r.cursor.content == "4!"
  {
    var events := [PartStartEvent(TextPart("4", None)), PartDeltaEvent(TextPartDelta("!", NoDetails))];
    assert events[1..][1..] == [];
  }

  /** Thinking "foo" then text "bar": the thinking step is flushed when the
      text part starts, the response "bar" only ever arrives as a delta. */
  lemma ThinkingThenText(h: Uuid, n: nat, now: int)
    ensures var r := Run(Initial(h, n),
                         [PartStartEvent(ThinkingPart("foo", None)), PartStartEvent(TextPart("bar", None))], now);
      r.err.None?
      && r.items == [PartStart(n, h, now, PartThinking), ThinkingDelta(n, h, now, "foo"),
                     ThinkingStep(n, h, now, "foo"),
                     PartStart(n + 1, h, now, PartResponse), ModelResponseDelta(n + 1, h, now, "bar")]
  {
    var events := [PartStartEvent(ThinkingPart("foo", None)), PartStartEvent(TextPart("bar", None))];
    var s0 := Step(Initial(h, n), events[0], now);
    assert "" + "foo" == "foo";
    assert s0.items == [PartStart(n, h, now, PartThinking), ThinkingDelta(n, h, now, "foo")];
    assert s0.cursor.state == Thinking && s0.cursor.id == Some(n) && s0.cursor.content == "foo";
    var s1 := Step(s0.cursor, events[1], now);
    assert s1.items == [ThinkingStep(n, h, now, "foo"), PartStart(n + 1, h, now, PartResponse),
                        ModelResponseDelta(n + 1, h, now, "bar")];
    assert events[1..][1..] == [];
  }

  /** Two thinking parts "A" and "B" coalesce into one part whose content is
      "A\n\nB", flushed when a tool call starts. */
  lemma ThinkingPartsCoalesce(h: Uuid, n: nat, now: int)
    ensures var r := Run(Initial(h, n),
                         [PartStartEvent(ThinkingPart("A", None)), PartStartEvent(ThinkingPart("B", None)),
                          PartStartEvent(ToolCallPart("t", "c1", Null))], now);
      r.err.None?
      && r.items == [PartStart(n, h, now, PartThinking), ThinkingDelta(n, h, now, "A"),
                     ThinkingDelta(n, h, now, "\n\nB"), ThinkingStep(n, h, now, "A\n\nB"),
                     PartStart(n + 1, h, now, PartToolCallPrep)]
  {
    var events := [PartStartEvent(ThinkingPart("A", None)), PartStartEvent(ThinkingPart("B", None)),
                   PartStartEvent(ToolCallPart("t", "c1", Null))];
    var s0 := Step(Initial(h, n), events[0], now);
    assert "" + "A" == "A";
    assert s0.items == [PartStart(n, h, now, PartThinking), ThinkingDelta(n, h, now, "A")];
    assert s0.cursor.state == Thinking && s0.cursor.id == Some(n) && s0.cursor.content == "A";
    var s1 := Step(s0.cursor, events[1], now);
    assert "A" + "\n\nB" == "A\n\nB";
    assert "\n\n" + "B" == "\n\nB";
    assert s1.items == [ThinkingDelta(n, h, now, "\n\nB")];
    assert s1.cursor.state == Thinking && s1.cursor.id == Some(n) && s1.cursor.content == "A\n\nB";
    var s2 := Step(s1.cursor, events[2], now);
    assert s2.items == [ThinkingStep(n, h, now, "A\n\nB"), PartStart(n + 1, h, now, PartToolCallPrep)];
    assert events[1..][1..] == [events[2]];
    assert events[1..][1..][1..] == [];
  }

  // ---------------------------------------------------------------------------
  // Coherence of a whole request's stream

  /** The concatenated texts of the deltas yielded under `id`. */
  function DeltaText(items: seq<StreamItem>, id: Uuid): string
    decreases |items|
  {
    if items == [] then ""
    else
      var x := items[|items| - 1];
      DeltaText(items[..|items| - 1], id) + (if IsDelta(x) && x.id == id then x.delta else "")
  }

  /** The ids announced by PartStart items. */
  function StartIds(items: seq<StreamItem>): set<Uuid>
    decreases |items|
  {
    if items == [] then {}
    else StartIds(items[..|items| - 1]) + (if items[|items| - 1].PartStart? then {items[|items| - 1].id} else {})
  }

  /** The guarantees of a yielded stream: every delta and completed item
      belongs to a part announced before it; every completed item's text is the
      concatenation of the deltas yielded before it under its id; every
      PartStart's id is larger than (so differs from) every earlier item's id;
      nothing is yielded under an id after its completed item, so a part has at
      most one completed item. */
  ghost predicate Sound(all: seq<StreamItem>) {
    (forall k :: 0 <= k < |all| && (IsDelta(all[k]) || IsTerminal(all[k])) ==> all[k].id in StartIds(all[..k]))
    && (forall k :: 0 <= k < |all| && IsTerminal(all[k]) ==> TerminalText(all[k]) == DeltaText(all[..k], all[k].id))
    && (forall j, k :: 0 <= j < k < |all| && all[k].PartStart? ==> all[j].id < all[k].id)
    && (forall j, k :: 0 <= j < k < |all| && IsTerminal(all[j]) ==> all[k].id != all[j].id)
  }

  /** The cursor agrees with what was yielded so far: fresh ids are above all
      used ones, and an open thinking or text part was announced and holds the
      text of its deltas; the current part is not one already completed. */
  ghost predicate Coherent(c: CursorState, all: seq<StreamItem>) {
    (forall k :: 0 <= k < |all| ==> all[k].id < c.nextId)
    && (c.id.Some? ==> c.id.value < c.nextId)
    && (forall k :: 0 <= k < |all| && IsTerminal(all[k]) ==> c.id != Some(all[k].id))
    && ((c.state == Thinking || c.state == Talking) ==>
          c.id.Some? && c.id.value in StartIds(all) && c.content == DeltaText(all, c.id.value))
  }

  lemma SoundSnoc(all: seq<StreamItem>, x: StreamItem)
    requires Sound(all)
    requires IsDelta(x) || IsTerminal(x) ==> x.id in StartIds(all)
    requires IsTerminal(x) ==> TerminalText(x) == DeltaText(all, x.id)
    requires x.PartStart? ==> forall j :: 0 <= j < |all| ==> all[j].id < x.id
    requires forall j :: 0 <= j < |all| && IsTerminal(all[j]) ==> x.id != all[j].id
    ensures Sound(all + [x])
  {
    var all' := all + [x];
    assert all'[..|all|] == all;
    forall k | 0 <= k < |all| ensures all'[..k] == all[..k] {
    }
  }

  lemma SnocFacts(all: seq<StreamItem>, x: StreamItem, id: Uuid)
    ensures DeltaText(all + [x], id) == DeltaText(all, id) + (if IsDelta(x) && x.id == id then x.delta else "")
    ensures StartIds(all + [x]) == StartIds(all) + (if x.PartStart? then {x.id} else {})
  {
    assert (all + [x])[..|all|] == all;
  }

  /** Yielding the completed item of the open part. */
  lemma FlushKeeps(c: CursorState, all: seq<StreamItem>, now: int)
    requires Coherent(c, all) && Sound(all)
    requires Flushed(c, now).Ok?
    ensures var all' := all + FlushedItems(Flushed(c, now).value);
      Sound(all') && (forall k :: 0 <= k < |all'| ==> all'[k].id < c.nextId)
      && (c.id.Some? ==> StartIds(all) <= StartIds(all'))
  {
    var f := Flushed(c, now).value;
    if f.Some? {
      SoundSnoc(all, f.value);
      SnocFacts(all, f.value, 0);
    } else {
      assert all + [] == all;
    }
  }

  /** Announcing a new part after the items `all`. */
  lemma ResetKeeps(c: CursorState, s: PartState, all: seq<StreamItem>, now: int)
    requires s != NoStream
    requires Sound(all) && forall k :: 0 <= k < |all| ==> all[k].id < c.nextId
    ensures var o := Reset(c, s, now);
      Sound(all + [o.result.value]) && Coherent(o.cursor, all + [o.result.value])
  {
    var o := Reset(c, s, now);
    var x := o.result.value;
    SoundSnoc(all, x);
    SnocFacts(all, x, c.nextId);
    DeltaTextOfOthers(all, c.nextId);
  }

  /** No delta among `items` carries an id above all their ids. */
  lemma {:induction false} DeltaTextOfOthers(items: seq<StreamItem>, id: Uuid)
    requires forall k :: 0 <= k < |items| ==> items[k].id < id
    ensures DeltaText(items, id) == ""
    decreases |items|
  {
    if items != [] {
      DeltaTextOfOthers(items[..|items| - 1], id);
    }
  }

  lemma OpenPartKeeps(c: CursorState, s: PartState, all: seq<StreamItem>, now: int)
    requires s == Thinking || s == Talking
    requires Coherent(c, all) && Sound(all)
    ensures var r := OpenPart(c, s, now);
      Sound(all + r.items) && (r.err.None? ==> Coherent(r.cursor, all + r.items))
  {
    var r := OpenPart(c, s, now);
    if StreamingOtherThan(c, s) {
      var f := Flushed(c, now);
      if f.Ok? {
        FlushKeeps(c, all, now);
        var all' := all + FlushedItems(f.value);
        ResetKeeps(c, s, all', now);
        assert all + r.items == all' + [Reset(c, s, now).result.value];
      } else {
        assert all + r.items == all;
      }
    } else if Idle(c) {
      ResetKeeps(c, s, all, now);
    } else {
      assert all + r.items == all;
    }
  }

  /** Adding content to the open part after the items `all`. */
  lemma AddContentKeeps(c: CursorState, text: string, all: seq<StreamItem>, now: int)
    requires Coherent(c, all) && Sound(all)
    ensures var o := AddContent(c, text, now);
      var all' := all + (if o.result.Ok? then [o.result.value] else []);
      Sound(all') && (o.result.Ok? ==> Coherent(o.cursor, all'))
      && (c.state == NoStream || c.state == ToolCallPrep ==> Coherent(o.cursor, all'))
  {
    var o := AddContent(c, text, now);
    if o.result.Ok? {
      SoundSnoc(all, o.result.value);
      SnocFacts(all, o.result.value, c.id.value);
    } else {
      assert all + [] == all;
    }
  }

  lemma AppendContentKeeps(r: StepResult, text: string, all: seq<StreamItem>, now: int)
    requires r.err.None? && Coherent(r.cursor, all + r.items) && Sound(all + r.items)
    ensures var r' := AppendContent(r, text, now);
      Sound(all + r'.items) && (r'.err.None? ==> Coherent(r'.cursor, all + r'.items))
  {
    var o := AddContent(r.cursor, text, now);
    AddContentKeeps(r.cursor, text, all + r.items, now);
    if o.result.Ok? {
      assert all + (r.items + [o.result.value]) == (all + r.items) + [o.result.value];
    }
  }

  lemma TryAddKeeps(c: CursorState, text: string, all: seq<StreamItem>, now: int)
    requires Coherent(c, all) && Sound(all)
    ensures var t := TryAdd(c, text, now);
      Sound(all + t.1) && Coherent(t.0, all + t.1)
  {
    var o := AddContent(c, text, now);
    AddContentKeeps(c, text, all, now);
    if !o.result.Ok? {
      assert all + [] == all;
    }
  }

  lemma RawContentAtStartKeeps(c: CursorState, partContent: string, all: seq<StreamItem>, now: int)
    requires Coherent(c, all) && Sound(all)
    ensures var x := RawContentAtStart(c, partContent, now);
      Sound(all + x.1) && Coherent(x.0, all + x.1)
  {
    if c.providerDetails.Some? && c.providerDetails.value != map[] && partContent == ""
       && "raw_content" in c.providerDetails.value && Truthy(c.providerDetails.value["raw_content"])
       && JoinStrings(c.providerDetails.value["raw_content"]).Some?
    {
      TryAddKeeps(c, JoinStrings(c.providerDetails.value["raw_content"]).value, all, now);
    } else {
      assert all + [] == all;
    }
  }

  lemma StoreDetailsKeeps(r: StepResult, details: Option<Details>, partContent: string, all: seq<StreamItem>, now: int)
    requires r.err.None? && Coherent(r.cursor, all + r.items) && Sound(all + r.items)
    ensures var r' := StoreDetails(r, details, partContent, now);
      r'.err.None? && Sound(all + r'.items) && Coherent(r'.cursor, all + r'.items)
  {
    var c := r.cursor.(providerDetails := details);
    assert Coherent(c, all + r.items);
    if details.Some? && details.value != map[] {
      var x := RawContentAtStart(c, partContent, now);
      RawContentAtStartKeeps(c, partContent, all + r.items, now);
      AppendAssoc(all, r.items, x.1);
    }
  }

  lemma StartPartKeeps(c: CursorState, part: ResponsePart, all: seq<StreamItem>, now: int)
    requires Coherent(c, all) && Sound(all)
    ensures var r := StartPart(c, part, now);
      Sound(all + r.items) && (r.err.None? ==> Coherent(r.cursor, all + r.items))
  {
    match part
    case ThinkingPart(_, _) => ThinkingStartKeeps(c, part, all, now);
    case TextPart(_, _) => TextStartKeeps(c, part, all, now);
    case ToolCallPart(_, _, _) => ToolCallStartKeeps(c, all, now);
    case _ => ClosingStartKeeps(c, part, all, now);
  }

  lemma ThinkingStartKeeps(c: CursorState, part: ResponsePart, all: seq<StreamItem>, now: int)
    requires part.ThinkingPart?
    requires Coherent(c, all) && Sound(all)
    ensures var r := StartPart(c, part, now);
      Sound(all + r.items) && (r.err.None? ==> Coherent(r.cursor, all + r.items))
  {
    var separator := if c.state == Thinking then "\n\n" else "";
    var o := OpenPart(c, Thinking, now);
    OpenPartKeeps(c, Thinking, all, now);
    if o.err.None? {
      if separator + part.content != "" {
        AppendContentKeeps(o, separator + part.content, all, now);
      } else {
        StoreDetailsKeeps(o, part.providerDetails, part.content, all, now);
      }
    }
  }

  lemma TextStartKeeps(c: CursorState, part: ResponsePart, all: seq<StreamItem>, now: int)
    requires part.TextPart?
    requires Coherent(c, all) && Sound(all)
    ensures var r := StartPart(c, part, now);
      Sound(all + r.items) && (r.err.None? ==> Coherent(r.cursor, all + r.items))
  {
    var o := OpenPart(c, Talking, now);
    OpenPartKeeps(c, Talking, all, now);
    if o.err.None? {
      if part.content != "" {
        AppendContentKeeps(o, part.content, all, now);
      } else {
        StoreDetailsKeeps(o, part.providerDetails, part.content, all, now);
      }
    }
  }

  lemma ToolCallStartKeeps(c: CursorState, all: seq<StreamItem>, now: int)
    requires Coherent(c, all) && Sound(all)
    ensures var r := StartToolCall(c, now);
      Sound(all + r.items) && (r.err.None? ==> Coherent(r.cursor, all + r.items))
  {
    var r := StartToolCall(c, now);
    if c.state == ToolCallPrep {
      assert all + r.items == all;
    } else {
      var f := if StreamingOtherThan(c, NoStream) then Flushed(c, now) else Ok(None);
      assert f == Flushed(c, now);
      if f.Ok? {
        FlushKeeps(c, all, now);
        var all' := all + FlushedItems(f.value);
        ResetKeeps(c, ToolCallPrep, all', now);
        assert all + r.items == all' + [Reset(c, ToolCallPrep, now).result.value];
      } else {
        // a coherent cursor that streams text or thinking has an id
        assert false;
      }
    }
  }

  /** A built-in tool call or return, or a file. */
  lemma ClosingStartKeeps(c: CursorState, part: ResponsePart, all: seq<StreamItem>, now: int)
    requires !part.ThinkingPart? && !part.TextPart? && !part.ToolCallPart?
    requires Coherent(c, all) && Sound(all)
    ensures var r := StartPart(c, part, now);
      Sound(all + r.items) && (r.err.None? ==> Coherent(r.cursor, all + r.items))
  {
    var r := StartPart(c, part, now);
    if StreamingOtherThan(c, NoStream) {
      var f := Flushed(c, now);
      if f.Ok? {
        FlushKeeps(c, all, now);
        var all' := all + FlushedItems(f.value);
        assert all + r.items == all';
        assert Coherent(ResetIdle(c), all');
      } else {
        assert all + r.items == all;
      }
    } else {
      assert all + r.items == all;
    }
  }

  lemma DeltaContentKeeps(c: CursorState, text: string, details: DeltaDetails, all: seq<StreamItem>, now: int)
    requires Coherent(c, all) && Sound(all)
    ensures var r := DeltaContent(c, text, details, now);
      Sound(all + r.items) && (r.err.None? ==> Coherent(r.cursor, all + r.items))
  {
    if text != "" {
      assert all + [] == all;
      AppendContentKeeps(StepResult(c, [], None), text, all, now);
    } else if details.CallableDetails? {
      var x := RawContentDelta(c, details.derive, now);
      if c.providerDetails.None? || c.providerDetails.value == map[] {
        assert all + x.1 == all;
      } else {
        var derived := details.derive(c.providerDetails.value);
        if derived.None? || "raw_content" !in derived.value {
          assert all + x.1 == all;
        } else {
          var last := LastOf(derived.value["raw_content"]);
          if last.None? || !Truthy(last.value) || !last.value.Str? {
            assert all + x.1 == all;
          } else {
            TryAddKeeps(c, last.value.s, all, now);
          }
        }
      }
    } else {
      assert all + [] == all;
    }
  }

  lemma StepKeeps(c: CursorState, e: Event, all: seq<StreamItem>, now: int)
    requires Coherent(c, all) && Sound(all)
    ensures var r := Step(c, e, now);
      Sound(all + r.items) && (r.err.None? ==> Coherent(r.cursor, all + r.items))
  {
    match e
    case PartStartEvent(part) => StartPartKeeps(c, part, all, now);
    case PartDeltaEvent(delta) => {
      match delta
      case ThinkingPartDelta(text, details) => DeltaContentKeeps(c, text, details, all, now);
      case TextPartDelta(text, details) => DeltaContentKeeps(c, text, details, all, now);
      case ToolCallPartDelta => assert all + [] == all;
    }
    case PartEndEvent => assert all + [] == all;
    case FinalResultEvent => assert all + [] == all;
  }

  /** How `Run` continues after its first event. */
  lemma RunCons(c: CursorState, events: seq<Event>, now: int)
    requires events != []
    ensures var s := Step(c, events[0], now);
      var rest := Run(s.cursor, events[1..], now);
      Run(c, events, now) == if s.err.Some? then s else StepResult(rest.cursor, s.items + rest.items, rest.err)
  {
  }

  lemma {:induction false} RunKeeps(c: CursorState, events: seq<Event>, all: seq<StreamItem>, now: int)
    requires Coherent(c, all) && Sound(all)
    ensures var r := Run(c, events, now);
      Sound(all + r.items) && (r.err.None? ==> Coherent(r.cursor, all + r.items))
    decreases |events|
  {
    if events == [] {
      assert all + [] == all;
    } else {
      var s := Step(c, events[0], now);
      StepKeeps(c, events[0], all, now);
      RunCons(c, events, now);
      if s.err.None? {
        RunKeeps(s.cursor, events[1..], all + s.items, now);
        AppendAssoc(all, s.items, Run(s.cursor, events[1..], now).items);
      }
    }
  }

  /** The stream of one model request is sound, whatever the events, and
      whether or not it ends in an exception. */
  lemma RequestStreamIsSound(historyId: Uuid, firstFreshId: nat, events: seq<Event>, now: int)
    ensures Sound(Run(Initial(historyId, firstFreshId), events, now).items)
  {
    RunKeeps(Initial(historyId, firstFreshId), events, [], now);
    assert [] + Run(Initial(historyId, firstFreshId), events, now).items
      == Run(Initial(historyId, firstFreshId), events, now).items;
  }
}
