/** Building the system prompt that reports the stored messages a semantic
    search found for a user prompt (`search_for_user_prompt` of the retrieval
    service). */
module RagPrompt {
  import opened Models
  import opened RagMapper
  import opened RagChunking
  import opened Sequences

  /** The title both memory prompts carry. */
  const Title: string := "[# Relevant Previous Interactions #]"

  /** The prompt returned when the search finds nothing. */
  const NoRelevantPrompt: string :=
    "\n" + Title + "\n\nNo relevant previous interactions between the user and you (the assistant) have been found.\n"

  /** The opening of the prompt listing the hits. */
  const Header: string :=
    Title + "\n\nVia a semantic search, the following previous messages between the user and you (the assistant) have been found to be relevant to the current user prompt.\n\n<previous_interactions>"

  const Footer: string := "\n\n</previous_interactions>"

  function OpenTag(x: StreamItem): string
    requires Embeddable(x)
  {
    if x.UserPrompt? then "\n\t<user_prompt>\n\t" else "\n\t<model_response>\n\t"
  }

  function CloseTag(x: StreamItem): string
    requires Embeddable(x)
  {
    if x.UserPrompt? then "\n\t</user_prompt>\n" else "\n\t</model_response>\n"
  }

  /** The block one hit adds to the prompt: its text between tags naming its
      kind. */
  function Block(x: StreamItem): string
    requires Embeddable(x)
  {
    match x
    case UserPrompt(_, _, _, prompt) => "\n\t<user_prompt>\n\t" + prompt + "\n\t</user_prompt>\n"
    case ModelResponse(_, _, _, response) => "\n\t<model_response>\n\t" + response + "\n\t</model_response>\n"
  }

  /** A block holds the hit's text between an opening and a closing tag
      naming its kind. */
  lemma BlockHoldsText(x: StreamItem)
    requires Embeddable(x)
    ensures Block(x) == OpenTag(x) + EmbeddedText(x) + CloseTag(x)
    ensures Block(x)[|OpenTag(x)| .. |Block(x)| - |CloseTag(x)|] == EmbeddedText(x)
  {
  }

  /** Whether every hit is a user prompt or a model response, the only kinds
      the prompt can show. */
  predicate AllEmbeddable(hits: seq<StreamItem>) {
    forall i :: 0 <= i < |hits| ==> Embeddable(hits[i])
  }

  /** The blocks of all hits, in order. */
  function Blocks(hits: seq<StreamItem>): string
    requires AllEmbeddable(hits)
  {
    if hits == [] then ""
    else Blocks(hits[..|hits| - 1]) + Block(hits[|hits| - 1])
  }

  /** The memory prompt built from the search hits; a hit of another kind
      raises `NotImplementedError`. */
  function MemoryPrompt(hits: seq<HistoryItem>): (r: Result<string, RagError>)
    ensures hits == [] ==> r == Ok(NoRelevantPrompt)
    ensures r.Ok? <==> AllEmbeddable(hits)
  {
    if hits == [] then Ok(NoRelevantPrompt)
    else if !AllEmbeddable(hits) then Err(NotImplemented)
    else Ok(Header + Blocks(hits) + Footer)
  }

  /** A prompt listing hits opens with the header and closes with the
      footer. */
  lemma PromptFrame(hits: seq<HistoryItem>)
    requires hits != [] && MemoryPrompt(hits).Ok?
    ensures var p := MemoryPrompt(hits).value;
      |p| >= |Header| + |Footer| && p[..|Header|] == Header && p[|p| - |Footer|..] == Footer
  {
  }

  /** Adding a hit adds its block at the end. */
  lemma BlocksSnoc(hits: seq<StreamItem>, k: nat)
    requires k < |hits|
    requires AllEmbeddable(hits[..k]) && Embeddable(hits[k])
    ensures AllEmbeddable(hits[..k + 1])
    ensures Blocks(hits[..k + 1]) == Blocks(hits[..k]) + Block(hits[k])
  {
    assert hits[..k + 1][..k] == hits[..k];
  }

  /** The blocks of the first `k` hits start the blocks of all hits. */
  lemma {:induction false} BlocksPrefix(hits: seq<StreamItem>, k: nat)
    requires AllEmbeddable(hits)
    requires k <= |hits|
    ensures AllEmbeddable(hits[..k]) && Blocks(hits[..k]) <= Blocks(hits)
    decreases |hits| - k
  {
    if k == |hits| {
      assert hits[..k] == hits;
    } else {
      var init := hits[..|hits| - 1];
      BlocksPrefix(init, k);
      assert init[..k] == hits[..k];
    }
  }

  /** The blocks of the hits before `k`, then the block of hit `k`, start the
      blocks of all hits. */
  lemma BlocksUpTo(hits: seq<StreamItem>, k: nat)
    requires AllEmbeddable(hits)
    requires k < |hits|
    ensures AllEmbeddable(hits[..k])
    ensures Blocks(hits[..k]) + Block(hits[k]) <= Blocks(hits)
  {
    BlocksPrefix(hits, k + 1);
    BlocksSnoc(hits, k);
  }

  /** Each hit's block appears in the prompt, in the order of the hits, right
      after the blocks of the hits before it. */
  lemma BlockInPlace(hits: seq<HistoryItem>, k: nat)
    requires MemoryPrompt(hits).Ok?
    requires k < |hits|
    ensures AllEmbeddable(hits[..k])
    ensures var p := MemoryPrompt(hits).value; var off := |Header| + |Blocks(hits[..k])|;
      off + |Block(hits[k])| <= |p| && p[off .. off + |Block(hits[k])|] == Block(hits[k])
  {
    BlocksUpTo(hits, k);
    var pre, b, all := Blocks(hits[..k]), Block(hits[k]), Blocks(hits);
    InfixAt(Header, pre, b, all, Footer);
  }

  /** A prompt listing hits never reads as the no-hits prompt. */
  lemma HitsPromptIsNotEmptyPrompt(hits: seq<HistoryItem>)
    requires hits != [] && MemoryPrompt(hits).Ok?
    ensures MemoryPrompt(hits).value != NoRelevantPrompt
  {
    assert Title[0] == '[';
    assert MemoryPrompt(hits).value[0] == Header[0] == '[';
    assert NoRelevantPrompt[0] == '\n';
  }

  /** Hits read back from stored points are always user prompts or model
      responses, so building the prompt from them never raises. */
  lemma PointsNeverRaise(points: seq<RagItem>, hits: seq<HistoryItem>)
    requires |hits| == |points|
    requires forall i :: 0 <= i < |points| ==> PointToHistoryItem(points[i]) == Ok(hits[i])
    ensures MemoryPrompt(hits).Ok?
  {
  }

  /** The system prompt `search_for_user_prompt` returns: a fresh item in the
      user prompt's history whose text is the memory prompt. */
  function MemorySystemPrompt(userPrompt: StreamItem, hits: seq<HistoryItem>, freshId: Uuid, now: int)
    : (r: Result<StreamItem, RagError>)
    ensures r.Ok? <==> MemoryPrompt(hits).Ok?
    ensures r.Ok? ==> r.value == SystemPrompt(freshId, userPrompt.historyId, now, MemoryPrompt(hits).value)
  {
    var p := MemoryPrompt(hits);
    if p.Err? then Err(p.error) else Ok(SystemPrompt(freshId, userPrompt.historyId, now, p.value))
  }

  /** The prompt-building loop of `search_for_user_prompt`: the fixed prompt
      when there are no hits, otherwise one block appended per hit, in order,
      between the header and the footer. */
  method BuildMemoryPrompt(hits: seq<HistoryItem>) returns (r: Result<string, RagError>)
    ensures r == MemoryPrompt(hits)
  {
    if |hits| == 0 {
      return Ok(NoRelevantPrompt);
    }
    var prompt := Header;
    for i := 0 to |hits|
      invariant AllEmbeddable(hits[..i]) && prompt == Header + Blocks(hits[..i])
    {
      if !Embeddable(hits[i]) {
        return Err(NotImplemented);
      }
      BlocksSnoc(hits, i);
      AppendAssoc(Header, Blocks(hits[..i]), Block(hits[i]));
      prompt := prompt + Block(hits[i]);
    }
    assert hits[..|hits|] == hits;
    prompt := prompt + Footer;
    r := Ok(prompt);
  }

  /** `search_for_user_prompt`: the document searched for is the first chunk of
      the prompt; the hits of the search are given, as are the fresh id and the
      time stamp of the system prompt. */
  method SearchForUserPrompt(userPrompt: StreamItem, hits: seq<HistoryItem>, maxChars: nat, overlapChars: int,
                             freshId: Uuid, now: int)
    returns (query: RagItem, r: Result<StreamItem, RagError>)
    requires userPrompt.UserPrompt?
    requires overlapChars < maxChars
    ensures query == RagItem(userPrompt.id, userPrompt.historyId, userPrompt.createdAt,
                             userPrompt.prompt[..Min(|userPrompt.prompt|, maxChars)], UserPromptKind)
    ensures r == MemorySystemPrompt(userPrompt, hits, freshId, now)
  {
    var ragDoc := ToRagItem(userPrompt).value;
    var docs := ChunkRagDocs([ragDoc], maxChars, overlapChars);
    FirstChunkIsPrefix(ragDoc, maxChars, overlapChars);
    query := docs[0];
    var prompt := BuildMemoryPrompt(hits);
    if prompt.Err? {
      r := Err(prompt.error);
    } else {
      r := Ok(SystemPrompt(freshId, userPrompt.historyId, now, prompt.value));
    }
  }
}
