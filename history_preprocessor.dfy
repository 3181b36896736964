/** The preprocessing applied to a history before it is replayed into the
    model: thinking steps are dropped, tool calls without a result and results
    without a call are dropped, and every kept call is immediately followed by
    its result. Items are any stream items; as in the program's `match`, an
    item that is not a history item or a system prompt is dropped. */
module HistoryPreprocessor {
  import opened Models
  import opened Sequences

  /** The first pass: for each tool call id, the last tool result with it. */
  function ResultsById(h: seq<StreamItem>): (m: map<string, StreamItem>)
    ensures WellFormed(m)
    decreases |h|
  {
    if h == [] then map[]
    else if h[|h| - 1].ToolResult? then ResultsById(h[..|h| - 1])[h[|h| - 1].toolCallId := h[|h| - 1]]
    else ResultsById(h[..|h| - 1])
  }

  /** What the second pass appends for one item. */
  function Expand(x: StreamItem, results: map<string, StreamItem>): seq<StreamItem> {
    if x.SystemPrompt? || x.UserPrompt? || x.ModelResponse? then [x]
    else if x.ToolCall? && x.toolCallId in results then [x, results[x.toolCallId]]
    else []
  }

  /** The second pass over `h` with the lookup `results`. */
  function SecondPass(h: seq<StreamItem>, results: map<string, StreamItem>): (r: seq<StreamItem>)
    ensures |r| <= 2 * |h|
    decreases |h|
  {
    if h == [] then [] else SecondPass(h[..|h| - 1], results) + Expand(h[|h| - 1], results)
  }

  /** `preprocess_history` as a function. */
  function Preprocessed(h: seq<StreamItem>): (r: seq<StreamItem>)
    ensures |r| <= 2 * |h|
    ensures forall k :: 0 <= k < |r| ==> IsConversational(r[k]) || r[k].ToolCall? || r[k].ToolResult?
  {
    SecondPassPaired(h, ResultsById(h));
    SecondPass(h, ResultsById(h))
  }

  /** `preprocess_history`: the two loops of the program. */
  method PreprocessHistory(history: seq<StreamItem>) returns (preprocessed: seq<StreamItem>)
    ensures preprocessed == Preprocessed(history)
  {
    var results: map<string, StreamItem> := map[];
    for i := 0 to |history|
      invariant results == ResultsById(history[..i])
    {
      assert history[..i + 1][..i] == history[..i];
      if history[i].ToolResult? {
        results := results[history[i].toolCallId := history[i]];
      }
    }
    assert history[..|history|] == history;
    preprocessed := [];
    for i := 0 to |history|
      invariant preprocessed == SecondPass(history[..i], results)
    {
      assert history[..i + 1][..i] == history[..i];
      var item := history[i];
      if item.SystemPrompt? || item.UserPrompt? || item.ModelResponse? {
        preprocessed := preprocessed + [item];
      } else if item.ToolCall? && item.toolCallId in results {
        preprocessed := preprocessed + [item];
        preprocessed := preprocessed + [results[item.toolCallId]];
      }
    }
  }

  // ---------------------------------------------------------------------------
  // Vocabulary for the properties

  /** Items kept unchanged and in place: system prompts, user prompts, responses. */
  predicate IsConversational(x: StreamItem) {
    x.SystemPrompt? || x.UserPrompt? || x.ModelResponse?
  }

  function Conversational(h: seq<StreamItem>): seq<StreamItem>
    decreases |h|
  {
    if h == [] then [] else Conversational(h[..|h| - 1]) + (if IsConversational(h[|h| - 1]) then [h[|h| - 1]] else [])
  }

  /** Some tool result in `h` carries this tool call id. */
  ghost predicate Answered(h: seq<StreamItem>, id: string) {
    exists k :: 0 <= k < |h| && h[k].ToolResult? && h[k].toolCallId == id
  }

  /** The tool calls of `h` whose id is in the lookup, in order. */
  function AnsweredCalls(h: seq<StreamItem>, results: map<string, StreamItem>): seq<StreamItem>
    decreases |h|
  {
    if h == [] then []
    else AnsweredCalls(h[..|h| - 1], results)
         + (if h[|h| - 1].ToolCall? && h[|h| - 1].toolCallId in results then [h[|h| - 1]] else [])
  }

  /** Every entry of the lookup is a tool result filed under its own id. */
  ghost predicate WellFormed(results: map<string, StreamItem>) {
    forall id :: id in results ==> results[id].ToolResult? && results[id].toolCallId == id
  }

  /** `r` occurs in `h` and no tool result with its id comes after it. */
  ghost predicate IsLastResult(h: seq<StreamItem>, r: StreamItem)
    requires r.ToolResult?
  {
    exists i :: 0 <= i < |h| && h[i] == r
      && forall j :: i < j < |h| ==> !(h[j].ToolResult? && h[j].toolCallId == r.toolCallId)
  }

  /** Every tool call is immediately followed by the lookup's result for its id,
      and every tool result immediately follows a call with the same id. */
  ghost predicate Paired(out: seq<StreamItem>, results: map<string, StreamItem>) {
    (forall k :: 0 <= k < |out| && out[k].ToolCall? ==>
       k + 1 < |out| && out[k].toolCallId in results && out[k + 1] == results[out[k].toolCallId])
    && (forall k :: 0 <= k < |out| && out[k].ToolResult? ==>
          0 < k && out[k - 1].ToolCall? && out[k - 1].toolCallId == out[k].toolCallId)
  }

  // ---------------------------------------------------------------------------
  // The first pass

  /** The lookup holds, for exactly the answered ids, the LAST tool result
      with that id. */
  lemma {:induction false} ResultsByIdIsLastResult(h: seq<StreamItem>)
    ensures WellFormed(ResultsById(h))
    ensures forall id :: id in ResultsById(h) <==> Answered(h, id)
    ensures forall id :: id in ResultsById(h) ==> IsLastResult(h, ResultsById(h)[id])
    decreases |h|
  {
    if h != [] {
      var init := h[..|h| - 1];
      ResultsByIdIsLastResult(init);
      var x := h[|h| - 1];
      forall id ensures id in ResultsById(h) <==> Answered(h, id) {
        if Answered(h, id) {
          var k :| 0 <= k < |h| && h[k].ToolResult? && h[k].toolCallId == id;
          if k < |h| - 1 {
            assert init[k] == h[k];
          }
        }
        if id in ResultsById(h) && !(x.ToolResult? && x.toolCallId == id) {
          assert Answered(init, id);
          var k :| 0 <= k < |init| && init[k].ToolResult? && init[k].toolCallId == id;
          assert h[k] == init[k];
        }
      }
      forall id | id in ResultsById(h) ensures IsLastResult(h, ResultsById(h)[id]) {
        if x.ToolResult? && x.toolCallId == id {
          assert h[|h| - 1] == ResultsById(h)[id];
        } else {
          var k :| 0 <= k < |init| && init[k] == ResultsById(init)[id]
            && forall j :: k < j < |init| ==> !(init[j].ToolResult? && init[j].toolCallId == id);
          assert h[k] == ResultsById(h)[id];
          forall j | k < j < |h| ensures !(h[j].ToolResult? && h[j].toolCallId == id) {
            if j < |init| { assert h[j] == init[j]; }
          }
        }
      }
    }
  }

  lemma {:induction false} NoResultsNoLookup(a: seq<StreamItem>)
    requires forall k :: 0 <= k < |a| ==> !a[k].ToolResult?
    ensures ResultsById(a) == map[]
    decreases |a|
  {
    if a != [] {
      NoResultsNoLookup(a[..|a| - 1]);
    }
  }

  /** Items before the last tool result-free prefix do not affect the lookup. */
  lemma {:induction false} LookupIgnoresResultFreePrefix(a: seq<StreamItem>, b: seq<StreamItem>)
    requires forall k :: 0 <= k < |a| ==> !a[k].ToolResult?
    ensures ResultsById(a + b) == ResultsById(b)
    decreases |b|
  {
    if b == [] {
      assert a + b == a;
      NoResultsNoLookup(a);
    } else {
      assert (a + b)[..|a + b| - 1] == a + b[..|b| - 1];
      LookupIgnoresResultFreePrefix(a, b[..|b| - 1]);
    }
  }

  // ---------------------------------------------------------------------------
  // The second pass

  lemma {:induction false} SecondPassAppend(a: seq<StreamItem>, b: seq<StreamItem>, results: map<string, StreamItem>)
    ensures SecondPass(a + b, results) == SecondPass(a, results) + SecondPass(b, results)
    decreases |b|
  {
    if b == [] {
      assert a + b == a;
    } else {
      var init, x := b[..|b| - 1], b[|b| - 1];
      assert (a + b)[..|a + b| - 1] == a + init && (a + b)[|a + b| - 1] == x;
      SecondPassAppend(a, init, results);
      AppendAssoc(SecondPass(a, results), SecondPass(init, results), Expand(x, results));
    }
  }

  /** The second pass emits prompts, responses, calls and results only, each
      call directly followed by the lookup's result for it. */
  lemma {:induction false} SecondPassPaired(h: seq<StreamItem>, results: map<string, StreamItem>)
    requires WellFormed(results)
    ensures Paired(SecondPass(h, results), results)
    ensures forall k :: 0 <= k < |SecondPass(h, results)| ==>
      IsConversational(SecondPass(h, results)[k]) || SecondPass(h, results)[k].ToolCall?
      || SecondPass(h, results)[k].ToolResult?
    decreases |h|
  {
    if h != [] {
      SecondPassPaired(h[..|h| - 1], results);
    }
  }

  /** A call is emitted iff it is in the input and its id is in the lookup;
      every emitted item other than a result comes from the input. */
  lemma {:induction false} SecondPassMembers(h: seq<StreamItem>, results: map<string, StreamItem>)
    requires WellFormed(results)
    ensures forall x: StreamItem :: x.ToolCall? ==>
      (x in SecondPass(h, results) <==> x in h && x.toolCallId in results)
    ensures forall x: StreamItem :: x in SecondPass(h, results) && !x.ToolResult? ==> x in h
    decreases |h|
  {
    if h != [] {
      var init := h[..|h| - 1];
      SecondPassMembers(init, results);
      assert h == init + [h[|h| - 1]];
    }
  }

  lemma {:induction false} SecondPassConversational(h: seq<StreamItem>, results: map<string, StreamItem>)
    requires WellFormed(results)
    ensures Conversational(SecondPass(h, results)) == Conversational(h)
    decreases |h|
  {
    if h != [] {
      var init := h[..|h| - 1];
      var x := h[|h| - 1];
      SecondPassConversational(init, results);
      var e := Expand(x, results);
      ConversationalAppend(SecondPass(init, results), e);
      if x.ToolCall? && x.toolCallId in results {
        var r := results[x.toolCallId];
        assert e == [x, r] && !IsConversational(r);
        assert e[..1] == [x];
        assert [x][..0] == [];
        assert Conversational([x]) == [];
        assert Conversational(e) == Conversational([x]) + [];
      } else if IsConversational(x) {
        assert e[..0] == [];
      }
    }
  }

  lemma {:induction false} SecondPassLength(h: seq<StreamItem>, results: map<string, StreamItem>)
    ensures |SecondPass(h, results)| == |Conversational(h)| + 2 * |AnsweredCalls(h, results)|
    decreases |h|
  {
    if h != [] {
      SecondPassLength(h[..|h| - 1], results);
    }
  }

  lemma {:induction false} ConversationalAppend(a: seq<StreamItem>, b: seq<StreamItem>)
    ensures Conversational(a + b) == Conversational(a) + Conversational(b)
    decreases |b|
  {
    if b == [] {
      assert a + b == a;
    } else {
      assert (a + b)[..|a + b| - 1] == a + b[..|b| - 1];
      ConversationalAppend(a, b[..|b| - 1]);
    }
  }

  /** The second pass leaves the output of one step unchanged when the
      lookup it uses agrees on the call's id. */
  lemma SecondPassOfExpand(x: StreamItem, m: map<string, StreamItem>, m': map<string, StreamItem>)
    requires WellFormed(m)
    requires x.ToolCall? && x.toolCallId in m ==>
      x.toolCallId in m' && m'[x.toolCallId] == m[x.toolCallId]
    ensures SecondPass(Expand(x, m), m') == Expand(x, m)
  {
    var e := Expand(x, m);
    if x.ToolCall? && x.toolCallId in m {
      var r := m[x.toolCallId];
      assert e == [x, r] && r.ToolResult?;
      assert e[..1] == [x];
      assert [x][..0] == [];
      assert SecondPass([x], m') == [x, r];
      assert Expand(r, m') == [];
      assert SecondPass(e, m') == SecondPass([x], m') + Expand(r, m');
    } else if IsConversational(x) {
      assert e[..0] == [];
    }
  }

  /** `m'` agrees with `m` on the id of every call in `s` that `m` answers. */
  ghost predicate AgreesOnCalls(s: seq<StreamItem>, m: map<string, StreamItem>, m': map<string, StreamItem>) {
    forall x :: x in s && x.ToolCall? && x.toolCallId in m ==>
      x.toolCallId in m' && m'[x.toolCallId] == m[x.toolCallId]
  }

  /** Replaying the second pass over its own output with a lookup that agrees
      on every answered call changes nothing. */
  lemma {:induction false} SecondPassStable(s: seq<StreamItem>, m: map<string, StreamItem>, m': map<string, StreamItem>)
    requires WellFormed(m)
    requires AgreesOnCalls(s, m, m')
    ensures SecondPass(SecondPass(s, m), m') == SecondPass(s, m)
    decreases |s|
  {
    if s != [] {
      var init := s[..|s| - 1];
      var x := s[|s| - 1];
      assert forall y :: y in init ==> y in s;
      SecondPassStable(init, m, m');
      SecondPassAppend(SecondPass(init, m), Expand(x, m), m');
      SecondPassOfExpand(x, m, m');
    }
  }

  // ---------------------------------------------------------------------------
  // Properties of `preprocess_history`

  /** No thinking step survives; every output item is a prompt, a response, a
      tool call or a tool result taken from the input. */
  lemma PreprocessedItems(h: seq<StreamItem>)
    ensures forall k :: 0 <= k < |Preprocessed(h)| ==>
      !Preprocessed(h)[k].ThinkingStep? && Preprocessed(h)[k] in h
      && (IsConversational(Preprocessed(h)[k]) || Preprocessed(h)[k].ToolCall? || Preprocessed(h)[k].ToolResult?)
  {
    var m := ResultsById(h);
    var out := Preprocessed(h);
    ResultsByIdIsLastResult(h);
    SecondPassPaired(h, m);
    SecondPassMembers(h, m);
    forall k | 0 <= k < |out| ensures out[k] in h {
      if out[k].ToolResult? {
        var id := out[k - 1].toolCallId;
        assert out[k] == m[id];
        assert IsLastResult(h, m[id]);
      } else {
        assert out[k] in out;
      }
    }
  }

  /** System prompts, user prompts and responses are all kept, in their
      original relative order. */
  lemma PreprocessedKeepsConversation(h: seq<StreamItem>)
    ensures Conversational(Preprocessed(h)) == Conversational(h)
  {
    ResultsByIdIsLastResult(h);
    SecondPassConversational(h, ResultsById(h));
  }

  /** A tool call is kept if and only if some tool result with its id appears
      anywhere in the input, before or after it. */
  lemma PreprocessedKeepsAnsweredCalls(h: seq<StreamItem>, call: StreamItem)
    requires call.ToolCall?
    ensures call in Preprocessed(h) <==> call in h && Answered(h, call.toolCallId)
  {
    ResultsByIdIsLastResult(h);
    SecondPassMembers(h, ResultsById(h));
  }

  /** Every kept tool call is immediately followed by the last input tool
      result with its id, and a tool result appears only directly after a
      call with the same id. */
  lemma PreprocessedPairsCalls(h: seq<StreamItem>)
    ensures forall k :: 0 <= k < |Preprocessed(h)| && Preprocessed(h)[k].ToolCall? ==>
      k + 1 < |Preprocessed(h)| && Preprocessed(h)[k + 1].ToolResult?
      && Preprocessed(h)[k + 1].toolCallId == Preprocessed(h)[k].toolCallId
      && IsLastResult(h, Preprocessed(h)[k + 1])
    ensures forall k :: 0 <= k < |Preprocessed(h)| && Preprocessed(h)[k].ToolResult? ==>
      0 < k && Preprocessed(h)[k - 1].ToolCall?
      && Preprocessed(h)[k - 1].toolCallId == Preprocessed(h)[k].toolCallId
  {
    ResultsByIdIsLastResult(h);
    SecondPassPaired(h, ResultsById(h));
  }

  /** The output holds the kept prompts and responses plus two items for every
      answered tool call (calls sharing an id each receive the result). */
  lemma PreprocessedLength(h: seq<StreamItem>)
    ensures |Preprocessed(h)| == |Conversational(h)| + 2 * |AnsweredCalls(h, ResultsById(h))|
  {
    SecondPassLength(h, ResultsById(h));
  }

  /** The lookup rebuilt from the output agrees with the original lookup on
      every answered call of the input. */
  lemma LookupAgreesOnOutput(h: seq<StreamItem>)
    ensures AgreesOnCalls(h, ResultsById(h), ResultsById(Preprocessed(h)))
  {
    var m := ResultsById(h);
    var out := Preprocessed(h);
    ResultsByIdIsLastResult(h);
    SecondPassPaired(h, m);
    SecondPassMembers(h, m);
    ResultsByIdIsLastResult(out);
    var m' := ResultsById(out);
    forall x | x in h && x.ToolCall? && x.toolCallId in m
      ensures x.toolCallId in m' && m'[x.toolCallId] == m[x.toolCallId]
    {
      var id := x.toolCallId;
      var k :| 0 <= k < |out| && out[k] == x;
      assert out[k + 1].ToolResult? && out[k + 1].toolCallId == id;
      assert Answered(out, id);
      assert IsLastResult(out, m'[id]);
      var i :| 0 <= i < |out| && out[i] == m'[id]
        && forall j :: i < j < |out| ==> !(out[j].ToolResult? && out[j].toolCallId == id);
      assert out[i - 1].ToolCall?;
    }
  }

  /** Preprocessing an already preprocessed history changes nothing. */
  lemma PreprocessedIdempotent(h: seq<StreamItem>)
    ensures Preprocessed(Preprocessed(h)) == Preprocessed(h)
  {
    var m := ResultsById(h);
    var out := SecondPass(h, m);
    ResultsByIdIsLastResult(h);
    LookupAgreesOnOutput(h);
    assert out == Preprocessed(h);
    SecondPassStable(h, m, ResultsById(out));
    assert Preprocessed(out) == SecondPass(out, ResultsById(out));
  }

  /** System prompts placed in front of a history pass through unchanged and
      stay in front. */
  lemma {:induction false} SystemPromptsLeadThrough(prompts: seq<StreamItem>, rest: seq<StreamItem>)
    requires forall k :: 0 <= k < |prompts| ==> prompts[k].SystemPrompt?
    ensures Preprocessed(prompts + rest) == prompts + Preprocessed(rest)
  {
    LookupIgnoresResultFreePrefix(prompts, rest);
    SecondPassAppend(prompts, rest, ResultsById(rest));
    SystemPromptsPass(prompts, ResultsById(rest));
  }

  lemma {:induction false} SystemPromptsPass(prompts: seq<StreamItem>, results: map<string, StreamItem>)
    requires forall k :: 0 <= k < |prompts| ==> prompts[k].SystemPrompt?
    ensures SecondPass(prompts, results) == prompts
    decreases |prompts|
  {
    if prompts != [] {
      SystemPromptsPass(prompts[..|prompts| - 1], results);
      assert prompts[..|prompts| - 1] + [prompts[|prompts| - 1]] == prompts;
    }
  }
}
