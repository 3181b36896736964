/** The mapping between history items and the documents stored in the vector
    store. Only user prompts and model responses are embedded; a document
    keeps the item's identity, its text and its kind. */
module RagMapper {
  import opened Models

  /** A `QdrantRAGItem`: the payload of a point in the vector store. */
  datatype RagItem = RagItem(
    historyItemId: Uuid,
    historyId: Uuid,
    createdAt: int,
    text: string,
    kind: HistoryItemKind)

  /** Raised for an item or a kind that has no text to embed. */
  datatype RagError = NotImplemented

  /** The items that can be embedded. */
  predicate Embeddable(x: StreamItem) {
    x.UserPrompt? || x.ModelResponse?
  }

  /** `map_history_item_to_rag_item`: a user prompt keeps its prompt, a model
      response its response; any other item is rejected. */
  function ToRagItem(x: StreamItem): (r: Result<RagItem, RagError>)
    ensures r.Ok? <==> Embeddable(x)
    ensures r.Ok? ==>
      r.value.historyItemId == x.id && r.value.historyId == x.historyId && r.value.createdAt == x.createdAt
    ensures x.UserPrompt? ==> r == Ok(RagItem(x.id, x.historyId, x.createdAt, x.prompt, UserPromptKind))
    ensures x.ModelResponse? ==>
      r == Ok(RagItem(x.id, x.historyId, x.createdAt, x.response, ModelResponseKind))
  {
    match x
    case UserPrompt(id, historyId, createdAt, prompt) =>
      Ok(RagItem(id, historyId, createdAt, prompt, UserPromptKind))
    case ModelResponse(id, historyId, createdAt, response) =>
      Ok(RagItem(id, historyId, createdAt, response, ModelResponseKind))
    case _ => Err(NotImplemented)
  }

  /** `map_point_to_history_item`: the kind decides which item the payload
      becomes; any kind other than a user prompt or a model response is
      rejected. */
  function PointToHistoryItem(p: RagItem): (r: Result<HistoryItem, RagError>)
    ensures r.Ok? <==> p.kind in {UserPromptKind, ModelResponseKind}
    ensures r.Ok? ==>
      Embeddable(r.value) && KindOf(r.value) == p.kind
      && r.value.id == p.historyItemId && r.value.historyId == p.historyId && r.value.createdAt == p.createdAt
  {
    if p.kind == UserPromptKind then Ok(UserPrompt(p.historyItemId, p.historyId, p.createdAt, p.text))
    else if p.kind == ModelResponseKind then Ok(ModelResponse(p.historyItemId, p.historyId, p.createdAt, p.text))
    else Err(NotImplemented)
  }

  /** The text the document of an embeddable item carries. */
  function EmbeddedText(x: StreamItem): string
    requires Embeddable(x)
  {
    if x.UserPrompt? then x.prompt else x.response
  }

  /** `map_history_items_to_rag_items`: one document per item, in order; the
      first item that cannot be embedded makes the whole list fail. */
  function ToRagItems(xs: seq<StreamItem>): (r: Result<seq<RagItem>, RagError>)
    ensures r.Ok? <==> forall i :: 0 <= i < |xs| ==> Embeddable(xs[i])
    ensures r.Ok? ==> |r.value| == |xs|
  {
    if xs == [] then Ok([])
    else
      var init := ToRagItems(xs[..|xs| - 1]);
      var last := ToRagItem(xs[|xs| - 1]);
      if init.Err? then Err(init.error)
      else if last.Err? then Err(last.error)
      else Ok(init.value + [last.value])
  }

  /** Each document of a mapped list is the document of the item at the same
      position. */
  lemma {:induction false} ToRagItemsPointwise(xs: seq<StreamItem>)
    requires ToRagItems(xs).Ok?
    ensures forall i :: 0 <= i < |xs| ==> ToRagItem(xs[i]) == Ok(ToRagItems(xs).value[i])
  {
    if xs != [] {
      var init := xs[..|xs| - 1];
      ToRagItemsPointwise(init);
      forall i | 0 <= i < |xs|
        ensures ToRagItem(xs[i]) == Ok(ToRagItems(xs).value[i])
      {
        if i < |xs| - 1 {
          assert xs[i] == init[i];
        }
      }
    }
  }

  /** Storing an embeddable item and reading its point back gives the same
      item. */
  lemma ItemRoundTrip(x: StreamItem)
    requires Embeddable(x)
    ensures ToRagItem(x).Ok? && PointToHistoryItem(ToRagItem(x).value) == Ok(x)
  {
  }

  /** Reading a point and storing the item again gives the same payload. */
  lemma PointRoundTrip(p: RagItem)
    requires PointToHistoryItem(p).Ok?
    ensures ToRagItem(PointToHistoryItem(p).value) == Ok(p)
  {
  }

  /** A document's text is the embedded text of its item, and its kind the
      item's kind. */
  lemma DocumentOfItem(x: StreamItem)
    requires Embeddable(x)
    ensures ToRagItem(x).Ok?
    ensures ToRagItem(x).value.text == EmbeddedText(x)
    ensures ToRagItem(x).value.kind == KindOf(x)
  {
  }
}
