# infai: the streaming core, modelled in Dafny

infai is a chat assistant built on pydantic-ai. This project models the path
from a model's streamed output to the conversation history that is replayed
into the next request:

- **the part cursor** (`ModelRequestCurrentPart`), a small state machine over
  `NO_STREAM`, `THINKING`, `TALKING` and `TOOL_CALL_PREP` that hands out part
  ids, accumulates content and emits deltas and completed items
  (`model_request_yields.dfy`, module `ModelRequestYields`);
- **the reducer** of `_handle_model_request_node`: each provider event moves
  the cursor and yields stream items; the two raw-content fallbacks for
  providers that put text into `provider_details`; and the history list
  `stream_agent_run` assembles (`adapter.dfy`, module `Adapter`; properties in
  `adapter_properties.dfy`, module `AdapterProperties`);
- **`preprocess_history`**: drops thinking steps and orphan tool calls and
  results and moves each result right after its call
  (`history_preprocessor.dfy`);
- **the pydantic-ai mapper** between domain items and provider messages, with
  its round trips (`pai_mapper.dfy`, provider shapes in `messages.dfy`);
- **the database mapper** between items and `(kind, content)` rows
  (`db_mapper.dfy`);
- **the retrieval mapper**, **the chunker** and **the memory prompt** of the
  Qdrant retrieval service (`rag_mapper.dfy`, `rag_chunking.dfy`,
  `rag_prompt.dfy`);
- **the history service**: `items[-n:]` with Python's slice rules and the
  methods forwarding to the repository (`history_service.dfy`).

The domain items are one datatype `StreamItem` (`models.dfy`) with the five
history items, the system prompt and the four live items; `HistoryItem` is the
subset of the five history kinds. Python exceptions become `Result`/`Option`
values or an `err` field that ends the run. `uuid4` is replaced by a counter of
fresh ids (`nextId`), and `time_ns` by a parameter `now`. Python's `Any` payloads
(tool arguments and results, JSON columns, provider details) are the datatype
`Value`, and Python truthiness is the predicate `Truthy`.

Each imperative piece of the source is a method proved against a function that
specifies it: the cursor class against `Reset`, `AddContent`, `Flushed` and
`ResetIdle`; the event loop against `Step`/`Run`; the preprocessor's two loops
against `Preprocessed`; the chunking and prompt loops against `ChunkedDoc`,
`ChunkedDocs` and `MemoryPrompt`. The lemmas state the promised properties of
those functions.

Behaviours of the code worth knowing, all modelled as written:

- The event loop does not flush the part still open when the stream ends
  (`AdapterProperties.NoFlushAfterLastEvent`).
- Flushing an empty thinking or text part still yields a completed item with
  empty content.
- A text, thinking, built-in tool or file part that starts in
  `TOOL_CALL_PREP` makes `flush` raise `ValueError`, which ends the run.
- The chunker drops the text left after the last full chunk
  (`RagChunking.ChunksDropTail`).

## Model

| member | source | states |
|---|---|---|
| ModelRequestYields.Reset | src/ai/model_request_yields.py:81-102 | A fresh id, the new state and empty content are stored whatever the state. `NO_STREAM` raises `ValueError` after that. The other states return a `PartStart` with the fresh id and `part_type` thinking, response or tool_call_prep. `provider_details` is untouched. |
| ModelRequestYields.ResetIdle | src/ai/model_request_yields.py:104-108 | `NO_STREAM`, empty content, a fresh id, `provider_details` untouched |
| ModelRequestYields.AddContent | src/ai/model_request_yields.py:44-79 | The assertion fails (nothing changes) exactly in `NO_STREAM` or without an id. Otherwise the content grows by the text. `TOOL_CALL_PREP` then raises `ValueError`. `THINKING`/`TALKING` return a `ThinkingDelta`/`ModelResponseDelta` with the part id and exactly the text. |
| ModelRequestYields.Flushed | src/ai/model_request_yields.py:110-135 | `None` exactly in `NO_STREAM`. `ValueError` exactly in `TOOL_CALL_PREP`. Otherwise a `ThinkingStep`/`ModelResponse` with the part id and the whole content, even when empty. |
| ModelRequestYields.AddAllAccumulates | src/ai/model_request_yields.py:56-77 | Any sequence of additions to an open part appends their concatenation to the content, and yields one delta per text with the part id and that text. |
| ModelRequestYields.DeltasConcatenateToFlushed | src/ai/model_request_yields.py:81-128 | After a reset and any additions, the content is the concatenation of the delta texts. Every delta carries the `PartStart` id. `flush` returns that content under that id. |
| ModelRequestYields.ModelRequestCurrentPart.constructor | src/ai/model_request_yields.py:22-34 | Only the history id is set; `NO_STREAM`, no id, empty content, no details. |
| ModelRequestYields.ModelRequestCurrentPart.IsNotStreaming | src/ai/model_request_yields.py:40-42 | True exactly when a flush of the cursor would return `None`. |
| ModelRequestYields.ModelRequestCurrentPart.IsStreamingButNotInState | src/ai/model_request_yields.py:36-38 | True exactly when a part is open (the cursor is streaming) and its state differs from the given one. |
| ModelRequestYields.ModelRequestCurrentPart.AddContentAndYieldDelta | src/ai/model_request_yields.py:44-79 | The new cursor and the result are those of `AddContent`. |
| ModelRequestYields.ModelRequestCurrentPart.ResetToStateAndGetPartStart | src/ai/model_request_yields.py:81-102 | The new cursor and the result are those of `Reset`. |
| ModelRequestYields.ModelRequestCurrentPart.ResetToNoStream | src/ai/model_request_yields.py:104-108 | The new cursor is `ResetIdle` of the old one. |
| ModelRequestYields.ModelRequestCurrentPart.Flush | src/ai/model_request_yields.py:110-135 | Returns `Flushed` of the cursor and changes nothing. |
| Adapter.OpenPart | src/ai/pydantic_ai/adapter.py:108-144 | Opening a thinking or text part fails exactly when a part of another kind is open and its flush raises. A failure leaves the cursor and yields nothing. A success ends in the new state. A part of the same kind stays open and untouched. |
| Adapter.AppendContent | src/ai/pydantic_ai/adapter.py:124-126 | The step goes on exactly when the cursor streams thinking or text under an id. It then gains one delta with the part id and the text, and the content grows by it. Otherwise the exception ends the step with no new item. Id, state, history id and details are kept. |
| Adapter.RawContentAtStart | src/ai/pydantic_ai/adapter.py:63-75 | At most one delta, only for a part with no content whose stored details hold `raw_content`. The delta has the part id, and the content grows by exactly its text. Id, state and details are kept. |
| Adapter.StoreDetails | src/ai/pydantic_ai/adapter.py:127-135 | The part's details become the cursor's details, whatever they are. Nothing raises, at most one delta is added, and id and state are kept. |
| Adapter.RawContentDelta | src/ai/pydantic_ai/adapter.py:77-91 | At most one delta, only with stored details, with the part id and appended to the content. The stored details are not replaced, and id and state are kept. |
| Adapter.StartToolCall | src/ai/pydantic_ai/adapter.py:159-169 | In `TOOL_CALL_PREP` nothing happens. Otherwise it fails exactly when the open part's flush raises, and then nothing changes. Success ends in `TOOL_CALL_PREP`, with the last item a `PartStart` with the fresh id. |
| Adapter.StartPart | src/ai/pydantic_ai/adapter.py:105-175 | A part start yields at most three items, all of the cursor's history. An exception leaves the cursor and yields nothing. |
| Adapter.DeltaContent | src/ai/pydantic_ai/adapter.py:177-207 | A delta raises exactly when it has text and no thinking or text part is open under an id, and then yields nothing. It yields at most one delta, with the part id, and appends it to the content. Id, state and details are kept. |
| Adapter.Step | src/ai/pydantic_ai/adapter.py:104-218 | One event yields at most three items, none when it raises. All of them belong to the cursor's history, and fresh ids are never reused. |
| Adapter.Run | src/ai/pydantic_ai/adapter.py:103-218 | A run yields at most three items per event, all of the cursor's history, and never reuses a fresh id. |
| Adapter.OpenPartOn | src/ai/pydantic_ai/adapter.py:111-118 | The cursor, items and error are those of `OpenPart`. |
| Adapter.TryRawContentAtStart | src/ai/pydantic_ai/adapter.py:63-75 | The cursor and extracted items are those of `RawContentAtStart`; every failure is swallowed. |
| Adapter.TryRawContentDelta | src/ai/pydantic_ai/adapter.py:77-91 | The cursor and extracted items are those of `RawContentDelta`; every failure is swallowed. |
| Adapter.AddAndEmit | src/ai/pydantic_ai/adapter.py:124-126 | The cursor, items and error are those of `AppendContent`. |
| Adapter.HandlePartStart | src/ai/pydantic_ai/adapter.py:105-175 | The cursor, items and error are those of `StartPart`. |
| Adapter.HandleEvent | src/ai/pydantic_ai/adapter.py:104-218 | One event moves the cursor and yields as `Step` says. |
| Adapter.HandleModelRequestNode | src/ai/pydantic_ai/adapter.py:93-218 | From a fresh cursor, the loop yields exactly the items of `Run` and stops with its error. |
| Adapter.AssembleHistory | src/ai/pydantic_ai/adapter.py:265-285 | The list is `[memory prompt] ++ [main system prompt] ++ last items`, then preprocessed. It equals the prompts followed by the preprocessed items. |
| AdapterProperties.TextStartFromIdle | src/ai/pydantic_ai/adapter.py:137-147 | A non-empty text part in `NO_STREAM` yields `PartStart(response)` with a fresh id, then one delta with the content, and the cursor is `TALKING`. |
| AdapterProperties.ThinkingContinues | src/ai/pydantic_ai/adapter.py:107-126 | A thinking part while `THINKING` yields no `PartStart` and no flush. It yields only the delta "\n\n" + content under the same id, even for empty content. |
| AdapterProperties.SwitchFlushesFirst | src/ai/pydantic_ai/adapter.py:108-141 | Switching between thinking and text first yields the old part's completed item (old id, whole content), then a `PartStart` with a fresh id. |
| AdapterProperties.ToolCallPrepRejectsOtherParts | src/ai/pydantic_ai/adapter.py:105-175 | In `TOOL_CALL_PREP` any part other than a tool call raises `ValueError`, yields nothing and leaves the cursor. |
| AdapterProperties.BuiltinPartCloses | src/ai/pydantic_ai/adapter.py:171-175 | A built-in tool or file part flushes an open thinking/text part and resets to `NO_STREAM` without a `PartStart`. |
| AdapterProperties.DeltaTypedByState | src/ai/pydantic_ai/adapter.py:177-196 | A non-empty thinking or text delta is typed by the cursor's state. It fails the assertion in `NO_STREAM`. In `TOOL_CALL_PREP` it raises `ValueError` after the content grew. |
| AdapterProperties.NoOpEvents | src/ai/pydantic_ai/adapter.py:177-218 | These change nothing and yield nothing: part ends, final results, tool-call deltas, empty deltas with no or static details, and empty callable deltas with no stored details. |
| AdapterProperties.RawContentDeltaOutcome | src/ai/pydantic_ai/adapter.py:77-91 | A callable extraction yields at most one delta, with the part id, typed by the state and appended to the content. When it yields nothing, the cursor is unchanged, except for content grown in `TOOL_CALL_PREP`. |
| AdapterProperties.ToolCallStartsStay | src/ai/pydantic_ai/adapter.py:159-163 | In `TOOL_CALL_PREP`, further tool-call parts do nothing. |
| AdapterProperties.ToolCallStartsCoalesce | src/ai/pydantic_ai/adapter.py:159-169 | A run of tool-call parts yields the flushed open part and then exactly one `PartStart(tool_call_prep)`. |
| AdapterProperties.NoFlushAfterLastEvent | src/ai/pydantic_ai/adapter.py:100-218 | A text part "4" and a delta "!" yield a `PartStart` and two deltas, but no `ModelResponse`. The open part is never flushed. |
| AdapterProperties.ThinkingThenText | src/ai/pydantic_ai/adapter.py:105-147 | Thinking "foo" then text "bar" yields start, delta, `ThinkingStep("foo")`, then start and delta "bar", in this order. |
| AdapterProperties.ThinkingPartsCoalesce | src/ai/pydantic_ai/adapter.py:105-169 | Thinking "A", thinking "B", then a tool call yield one thinking part "A\n\nB", flushed before `PartStart(tool_call_prep)`. |
| AdapterProperties.StepKeeps | src/ai/pydantic_ai/adapter.py:104-218 | Every event keeps the yielded stream sound and, unless it raises, the cursor coherent with it. |
| AdapterProperties.RunKeeps | src/ai/pydantic_ai/adapter.py:103-218 | The same holds for any sequence of events. |
| AdapterProperties.RequestStreamIsSound | src/ai/pydantic_ai/adapter.py:93-218 | For any events, every delta and completed item follows a `PartStart` with its id. Each completed item's text is the concatenation of the earlier deltas under its id. `PartStart` ids are fresh. Nothing is yielded under an id after its completed item, so each part has at most one. |
| HistoryPreprocessor.ResultsById | src/ai/history_preprocessor.py:19-26 | Every entry of the lookup is a tool result filed under its own call id. |
| HistoryPreprocessor.SecondPass | src/ai/history_preprocessor.py:28-51 | The second pass emits at most two items per input item. |
| HistoryPreprocessor.Preprocessed | src/ai/history_preprocessor.py:5-53 | At most twice as long as the input. Every output item is a prompt, a response, a tool call or a tool result. |
| HistoryPreprocessor.PreprocessHistory | src/ai/history_preprocessor.py:5-53 | The two loops compute `Preprocessed`. |
| HistoryPreprocessor.ResultsByIdIsLastResult | src/ai/history_preprocessor.py:16-26 | The first pass maps exactly the answered tool call ids, each to the last result with that id. |
| HistoryPreprocessor.SecondPassPaired | src/ai/history_preprocessor.py:28-51 | The second pass puts the lookup's result right after each call. Results appear only there. |
| HistoryPreprocessor.SecondPassMembers | src/ai/history_preprocessor.py:39-48 | The second pass emits a call iff it is in the input and answered. Every non-result output item comes from the input. |
| HistoryPreprocessor.SecondPassConversational | src/ai/history_preprocessor.py:28-38 | The second pass keeps prompts and responses, in order. |
| HistoryPreprocessor.SecondPassLength | src/ai/history_preprocessor.py:28-51 | The second pass's length is the number of prompts and responses plus twice the answered calls. |
| HistoryPreprocessor.SecondPassStable | src/ai/history_preprocessor.py:28-51 | Rerunning the second pass on its output, with a lookup that agrees on its calls, changes nothing. |
| HistoryPreprocessor.LookupIgnoresResultFreePrefix | src/ai/history_preprocessor.py:19-26 | Items without results in front do not change the lookup. |
| HistoryPreprocessor.PreprocessedItems | src/ai/history_preprocessor.py:34-36 | No thinking step survives. Every output item comes from the input and is a prompt, a response, a call or a result. |
| HistoryPreprocessor.PreprocessedKeepsConversation | src/ai/history_preprocessor.py:30-38 | All system prompts, user prompts and responses are kept in their order. |
| HistoryPreprocessor.PreprocessedKeepsAnsweredCalls | src/ai/history_preprocessor.py:39-44 | A tool call is kept iff some result with its id is anywhere in the input. |
| HistoryPreprocessor.PreprocessedPairsCalls | src/ai/history_preprocessor.py:44-51 | Each kept call is followed by the last input result with its id. Results occur only there. |
| HistoryPreprocessor.PreprocessedLength | src/ai/history_preprocessor.py:28-51 | Length = prompts and responses + 2 × answered calls. |
| HistoryPreprocessor.LookupAgreesOnOutput | src/ai/history_preprocessor.py:19-26 | The lookup rebuilt from the output agrees with the original on every kept call. |
| HistoryPreprocessor.PreprocessedIdempotent | src/ai/history_preprocessor.py:5-53 | Preprocessing twice equals preprocessing once. |
| HistoryPreprocessor.SystemPromptsLeadThrough | src/ai/history_preprocessor.py:30-31 | System prompts in front pass through unchanged, and the rest is preprocessed as on its own. |
| PydanticAiMapper.UserPromptOut | src/ai/pydantic_ai/mapper.py:40-69 | A string or a fragment sequence gives a user prompt with the given ids; any other value gives `None`. |
| PydanticAiMapper.MapUserPromptOut | src/ai/pydantic_ai/mapper.py:45-69 | The loop over fragments computes `UserPromptOut`. |
| PydanticAiMapper.TextOfAppend | src/ai/pydantic_ai/mapper.py:54-60 | Fragment texts concatenate in order. |
| PydanticAiMapper.TextOfSkipsNonText | src/ai/pydantic_ai/mapper.py:55-60 | A non-text fragment anywhere contributes nothing. |
| PydanticAiMapper.ToolResultOut | src/ai/pydantic_ai/mapper.py:145-194 | A return is not a retry and keeps its name. A retry is a retry, and a missing or empty name becomes "unknown". Id, content and the given ids are copied. |
| PydanticAiMapper.ToolCallOut | src/ai/pydantic_ai/mapper.py:116-128 | A tool call with the given ids and time and the part's name, call id and args. Mapped back in, it gives the single-part response of the part, with falsy args as `{}`. |
| PydanticAiMapper.RequestPartOut | src/ai/pydantic_ai/mapper.py:262-295 | One item of the part's kind with the given ids and time. Only a user prompt of another type gives none. |
| PydanticAiMapper.ResponsePartOut | src/ai/pydantic_ai/mapper.py:297-339 | Text, thinking and tool-call parts give one item of their kind with the given ids and time, text carrying the content. Other parts give none. |
| PydanticAiMapper.ModelMessageOut | src/ai/pydantic_ai/mapper.py:254-340 | At most one item per part, each with the given ids and time. A request gives only prompts and results, a response only the other replay kinds. |
| PydanticAiMapper.MapModelMessageOut | src/ai/pydantic_ai/mapper.py:253-340 | The loops over the parts compute `ModelMessageOut`. |
| PydanticAiMapper.RequestPartsOutShape | src/ai/pydantic_ai/mapper.py:260-295 | Request parts give system prompts, user prompts and results, all with the given ids and time. Only unmappable user prompts are skipped. |
| PydanticAiMapper.ResponsePartsOutShape | src/ai/pydantic_ai/mapper.py:296-339 | Response parts give responses, thinking steps and tool calls with the given ids. Built-in tool parts and files are skipped. |
| PydanticAiMapper.HistoryItemIn | src/ai/pydantic_ai/mapper.py:342-356 | Every replay item maps to a single-part message: a request for system prompts, user prompts and results, a response otherwise. Live items map to nothing. |
| PydanticAiMapper.HistoryItemsIn | src/ai/pydantic_ai/mapper.py:361-371 | At most one message per item. No message comes out exactly when no item is a replay item. |
| PydanticAiMapper.MapHistoryItemsIn | src/ai/pydantic_ai/mapper.py:360-371 | The loop computes `HistoryItemsIn`. |
| PydanticAiMapper.HistoryItemsInPointwise | src/ai/pydantic_ai/mapper.py:360-371 | Replay items map one-to-one, in order. |
| PydanticAiMapper.ItemRoundTrip | src/ai/pydantic_ai/mapper.py:25-356 | In and back out gives exactly the item's normalised form. That is the item itself (new time) iff its tool args are truthy or `{}` and a retry has a name. |
| PydanticAiMapper.RequestPartRoundTrip | src/ai/pydantic_ai/mapper.py:25-216 | A request part out and back in gives the same single-part request, for a named retry and a mappable user prompt. |
| PydanticAiMapper.ResponsePartRoundTrip | src/ai/pydantic_ai/mapper.py:97-248 | A text or thinking part out and back in gives itself without details. A tool call gives itself iff its args are truthy or `{}`. |
| PydanticAiMapper.HistoryRoundTrip | src/ai/pydantic_ai/mapper.py:253-371 | A whole history in and back out gives the normalised items in order. |
| HistoryDbMapper.ToDb | src/history/async_sqlalchemy/mapper.py:13-63 | Ids and time are copied, the kind is the variant's string, and the content keys are exactly the variant's keys. |
| HistoryDbMapper.KindNamed | src/history/async_sqlalchemy/mapper.py:67-108 | A string names a kind iff it is that kind's value. |
| HistoryDbMapper.ToDomain | src/history/async_sqlalchemy/mapper.py:66-109 | An unknown kind raises `ValueError`, and only it does. A `KeyError` names a key of the kind that the content lacks. A success is an item of the row's kind with the row's ids and time. |
| HistoryDbMapper.RoundTrip | src/history/async_sqlalchemy/mapper.py:13-107 | Writing then reading any item gives it back. |
| HistoryDbMapper.ReadThenWrite | src/history/async_sqlalchemy/mapper.py:66-107 | Reading a row then writing gives the same row, minus unused content keys. |
| HistoryDbMapper.ToDbInjective | src/history/async_sqlalchemy/mapper.py:13-63 | Different items never share a row. |
| RagMapper.ToRagItem | src/rag/qdrant/mapper.py:7-25 | A user prompt or response gives a document with its ids, time, text and kind. Anything else raises `NotImplementedError`. |
| RagMapper.PointToHistoryItem | src/rag/qdrant/mapper.py:27-44 | The user-prompt and response kinds give that item with the payload's ids and time; other kinds raise. |
| RagMapper.ToRagItems | src/rag/qdrant/mapper.py:46-48 | A list maps iff every item does, with the same length. |
| RagMapper.ToRagItemsPointwise | src/rag/qdrant/mapper.py:46-48 | Document i is the document of item i. |
| RagMapper.ItemRoundTrip | src/rag/qdrant/mapper.py:7-42 | Storing an embeddable item and reading the point back gives the item. |
| RagMapper.PointRoundTrip | src/rag/qdrant/mapper.py:7-44 | Reading a point and storing the item gives the payload. |
| RagMapper.DocumentOfItem | src/rag/qdrant/mapper.py:7-23 | The document's text is the prompt/response, and its kind is the item's kind. |
| RagChunking.Chunks | src/rag/qdrant/service.py:86-89 | The loop emits chunks exactly when more than `max` characters remain. |
| RagChunking.ChunkAt | src/rag/qdrant/service.py:86-88 | Chunk i is the `max` characters from offset i steps of `max - overlap`, strictly inside the text, with the document's identity. |
| RagChunking.ChunksCount | src/rag/qdrant/service.py:86-90 | The loop stops once at most `max` characters remain after the last step. |
| RagChunking.ChunkedDoc | src/rag/qdrant/service.py:70-90 | A short document stays as it is, and at least one document comes out. |
| RagChunking.ChunkedDocOffsets | src/rag/qdrant/service.py:70-90 | For a long text, chunk i is `text[i*(max-overlap) .. +max]`, and the chunks reach within `max` of the end. |
| RagChunking.ChunkedDocShape | src/rag/qdrant/service.py:77-87 | Every chunk copies id, history id, time and kind, and holds `min(len, max)` characters. |
| RagChunking.ChunksDropTail | src/rag/qdrant/service.py:86-90 | Characters after the last chunk are in no chunk. |
| RagChunking.ChunksOfTenByFour | src/rag/qdrant/service.py:86-90 | Ten characters cut by 4 with overlap 1 give chunks at 0 and 3. Characters 7-9 are lost. |
| RagChunking.ConfiguredSizesDropTail | src/config/factory.py:47-48 | With 16000/1600, a 20000-character text yields one chunk and loses its last 4000 characters. |
| RagChunking.ChunkRagDoc | src/rag/qdrant/service.py:70-90 | The while loop computes `ChunkedDoc`. |
| RagChunking.ChunkedDocs | src/rag/qdrant/service.py:92-96 | Per-document chunk lists concatenated in order; at least one per document. |
| RagChunking.ChunkedDocsProvenance | src/rag/qdrant/service.py:92-96 | Every chunk comes from one of the documents. |
| RagChunking.ChunkRagDocs | src/rag/qdrant/service.py:92-96 | The for loop computes `ChunkedDocs`. |
| RagChunking.FirstChunkIsPrefix | src/rag/qdrant/service.py:149-150 | The text searched for is the prompt cut to at most `max` characters. |
| RagPrompt.BlockHoldsText | src/rag/qdrant/service.py:175-179 | A hit's block is its text between tags naming its kind. |
| RagPrompt.MemoryPrompt | src/rag/qdrant/service.py:153-183 | No hits give the fixed no-relevant prompt. The prompt fails with `NotImplementedError` iff some hit is neither a user prompt nor a response. |
| RagPrompt.PromptFrame | src/rag/qdrant/service.py:165-183 | A prompt with hits starts with the header and ends with "\n\n</previous_interactions>". |
| RagPrompt.BlockInPlace | src/rag/qdrant/service.py:174-183 | Hit k's block sits in the prompt right after the header and the blocks of hits before k. |
| RagPrompt.HitsPromptIsNotEmptyPrompt | src/rag/qdrant/service.py:153-172 | A prompt with hits differs from the no-hits prompt. |
| RagPrompt.PointsNeverRaise | src/rag/qdrant/service.py:140-181 | Hits read from stored points never make the prompt raise. |
| RagPrompt.MemorySystemPrompt | src/rag/qdrant/service.py:148-189 | A system prompt in the user prompt's history holding the memory prompt; failures propagate. |
| RagPrompt.BuildMemoryPrompt | src/rag/qdrant/service.py:153-183 | The loop appending one block per hit computes `MemoryPrompt`. |
| RagPrompt.SearchForUserPrompt | src/rag/qdrant/service.py:148-189 | The searched document is the prompt's first chunk, and the result is `MemorySystemPrompt`. |
| HistoryService.SliceStart | src/history/service.py:21 | Where Python's `s[start:]` starts: clamped, with negatives counted from the end. |
| HistoryService.LastN | src/history/service.py:21 | A suffix. `n > 0` keeps `min(n, len)` items. `n = 0` keeps all. `n = -k` drops the first `k`. |
| HistoryService.LastNOfAppended | src/history/service.py:21 | After adding x, the last 1 is `[x]`, and the last n are the last n-1 before it plus x. |
| HistoryService.LastNNested | src/history/service.py:21 | The last m of the last n are the last m; taking the last n twice changes nothing. |
| HistoryService.HistoryRepo.constructor | src/history/port.py:7-12 | An empty store. |
| HistoryService.HistoryRepo.GetOrCreateHistory | src/history/async_sqlalchemy/adapter.py:36-46 | Returns the stored history, or stores and returns an empty one stamped `now`. |
| HistoryService.HistoryRepo.AddHistoryItem | src/history/async_sqlalchemy/adapter.py:48-51 | The item joins the end of its history. With no such history the foreign key fails. With an item id already stored the primary key fails. Either failure changes nothing. No two stored items share an id. |
| HistoryService.Service.constructor | src/history/service.py:10-11 | Keeps the repository. |
| HistoryService.Service.GetOrCreateHistoryById | src/history/service.py:13-14 | Exactly the repository's `GetOrCreateHistory`. |
| HistoryService.Service.AddHistoryItem | src/history/service.py:16-17 | Exactly the repository's `AddHistoryItem`: one append, or nothing on a foreign-key or primary-key failure. |
| HistoryService.Service.GetLastNHistoryItems | src/history/service.py:19-21 | `items[-n:]` of the stored or newly created history; every item belongs to it. A missing history is stored, empty and stamped `now`. The other histories are unchanged. |

## Left out

- The agent iteration in `stream_agent_run`, `node.stream`, and the call-tools and end-node handlers (src/ai/pydantic_ai/adapter.py:220-305) are left out. They are asynchronous orchestration over a foreign library. The model takes a model request's events as a sequence.
- `uuid4` and `time_ns`: ids come from a counter, and every timestamp is a parameter `now` (one per operation or run). Creation times are therefore not distinct.
- Logging calls are no-ops.
- The `logger.error` branch for a static-dictionary `provider_details` on a delta is a no-op in the model, as in the code.
- `"".join(raw_content)` on a dictionary would join its keys in insertion order. JSON objects are unordered maps here, so that case is modelled as a failed extraction, which is swallowed.
- Adapter.TryRawContentDelta: the value the callable returns is not stored back as the part's `provider_details`, as in the code.
- The branches of `_map_model_message_out` for `TextPartDelta` and `ThinkingPartDelta` inside a response's parts are left out. The provider's response part types cannot hold deltas.
- HistoryDbMapper.ToDomain: a content value of the wrong JSON type (e.g. a number for `prompt`) is an error in the model. Python would build an ill-typed item.
- RagChunking.Chunks requires `overlap < max`; the configured 16000/1600 (src/config/factory.py:47-48) meet this. With `max < overlap <= 2*max`, `text[max - overlap:]` is a negative-start slice that keeps the last `overlap - max` characters, so the loop stops after its first chunk. Those configurations are not modelled. On a text longer than `max`, the loop does not terminate when `overlap == max` or `overlap > 2*max`.
- Embedding and Qdrant I/O (`_embed_rag_docs`, `_upsert_rag_docs_and_embeddings`, `_search_for_embedding`, `add_history_items`) are left out. The hits of the semantic search are a parameter of `RagPrompt.SearchForUserPrompt`.
- The repository port is an in-memory store, `HistoryService.HistoryRepo`. It assumes the database returns a history's items in insertion order, which the SQL query does not guarantee.
- `src/ai/prompts.py` (the main system prompt) is not part of this model. The main system prompt is a parameter of `Adapter.AssembleHistory`.
- Concurrency: the asynchronous pipeline is treated as sequential.
