/** Cutting documents into overlapping fixed-size chunks before they are
    embedded (`_chunk_rag_doc`, `_chunk_rag_docs` of the retrieval service). */
module RagChunking {
  import opened Models
  import opened RagMapper
  import opened Sequences

  function Min(a: int, b: int): int {
    if a <= b then a else b
  }

  /** The documents the chunking loop emits for the remaining `text` of
      `doc`: while more than `maxChars` characters remain, the first `maxChars`
      of them form a chunk carrying `doc`'s identity and kind, and the
      remaining text restarts `maxChars - overlapChars` characters further on.
      The remainder left when the loop stops is not emitted. The loop only
      terminates when that step is positive. */
  function Chunks(doc: RagItem, text: string, maxChars: nat, overlapChars: int): (r: seq<RagItem>)
    requires overlapChars < maxChars
    ensures r != [] <==> |text| > maxChars
    decreases |text|
  {
    if |text| <= maxChars then []
    else [doc.(text := text[..maxChars])] + Chunks(doc, text[Min(maxChars - overlapChars, |text|)..], maxChars, overlapChars)
  }

  /** Two documents come from the same stored item. */
  predicate SameSource(c: RagItem, d: RagItem) {
    c.historyItemId == d.historyItemId && c.historyId == d.historyId
    && c.createdAt == d.createdAt && c.kind == d.kind
  }

  /** Where chunk `i` starts: `i` steps of `step` characters. */
  function Offset(i: nat, step: nat): nat {
    if i == 0 then 0 else Offset(i - 1, step) + step
  }

  lemma {:induction false} OffsetIsProduct(i: nat, step: nat)
    ensures Offset(i, step) == i * step
  {
    if i > 0 {
      OffsetIsProduct(i - 1, step);
      assert (i - 1) * step + step == i * step;
    }
  }

  lemma {:induction false} OffsetMonotone(i: nat, j: nat, step: nat)
    requires i <= j
    ensures Offset(i, step) <= Offset(j, step)
    decreases j
  {
    if i < j {
      OffsetMonotone(i, j - 1, step);
    }
  }

  /** Chunk `i` copies the document's identity and kind and holds the
      `maxChars` characters of the text starting at `Offset(i, step)`, where
      `step = maxChars - overlapChars`; it lies strictly inside the text. */
  lemma {:induction false} ChunkAt(doc: RagItem, text: string, maxChars: nat, overlapChars: int, i: nat)
    requires overlapChars < maxChars
    requires i < |Chunks(doc, text, maxChars, overlapChars)|
    ensures var off := Offset(i, maxChars - overlapChars);
      off + maxChars < |text|
      && Chunks(doc, text, maxChars, overlapChars)[i] == doc.(text := text[off .. off + maxChars])
    decreases i
  {
    var step := maxChars - overlapChars;
    if i > 0 {
      var next := text[Min(step, |text|)..];
      ChunksTail(doc, text, maxChars, overlapChars, i);
      ChunkAt(doc, next, maxChars, overlapChars, i - 1);
      SliceOfSuffix(text, step, Offset(i - 1, step), maxChars);
    }
  }

  /** Past the first chunk, the chunks are those of the text one step on. */
  lemma ChunksTail(doc: RagItem, text: string, maxChars: nat, overlapChars: int, i: nat)
    requires overlapChars < maxChars
    requires 0 < i < |Chunks(doc, text, maxChars, overlapChars)|
    ensures var next := text[Min(maxChars - overlapChars, |text|)..];
      i - 1 < |Chunks(doc, next, maxChars, overlapChars)|
      && Chunks(doc, text, maxChars, overlapChars)[i] == Chunks(doc, next, maxChars, overlapChars)[i - 1]
  {
  }

  /** The loop stops once at most `maxChars` characters are left after the
      last step. */
  lemma {:induction false} ChunksCount(doc: RagItem, text: string, maxChars: nat, overlapChars: int)
    requires overlapChars < maxChars
    ensures |text| <= Offset(|Chunks(doc, text, maxChars, overlapChars)|, maxChars - overlapChars) + maxChars
    decreases |text|
  {
    var step := maxChars - overlapChars;
    if |text| > maxChars {
      var next := text[Min(step, |text|)..];
      ChunksCount(doc, next, maxChars, overlapChars);
      var n := |Chunks(doc, next, maxChars, overlapChars)|;
      OffsetShift(n, step);
      if step > |text| {
        OffsetMonotone(1, n + 1, step);
      }
    }
  }

  lemma {:induction false} OffsetShift(n: nat, step: nat)
    ensures Offset(n + 1, step) == step + Offset(n, step)
    decreases n
  {
    if n > 0 {
      OffsetShift(n - 1, step);
    }
  }

  /** `_chunk_rag_doc` as a value: a short document stays as it is, a long one
      is replaced by its chunks. */
  function ChunkedDoc(doc: RagItem, maxChars: nat, overlapChars: int): (r: seq<RagItem>)
    requires overlapChars < maxChars
    ensures |doc.text| <= maxChars ==> r == [doc]
    ensures |r| >= 1
  {
    if |doc.text| <= maxChars then [doc] else Chunks(doc, doc.text, maxChars, overlapChars)
  }

  /** Chunk `i` of a long document is its text's `maxChars` characters from
      offset `i * (maxChars - overlapChars)`, with the document's identity and
      kind; the chunks stop once at most `maxChars` characters are left after
      the last step. */
  lemma ChunkedDocOffsets(doc: RagItem, maxChars: nat, overlapChars: int, i: nat)
    requires overlapChars < maxChars
    requires |doc.text| > maxChars
    requires i < |ChunkedDoc(doc, maxChars, overlapChars)|
    ensures var off := i * (maxChars - overlapChars);
      off + maxChars < |doc.text|
      && ChunkedDoc(doc, maxChars, overlapChars)[i] == doc.(text := doc.text[off .. off + maxChars])
    ensures |doc.text| <= |ChunkedDoc(doc, maxChars, overlapChars)| * (maxChars - overlapChars) + maxChars
  {
    ChunkAt(doc, doc.text, maxChars, overlapChars, i);
    OffsetIsProduct(i, maxChars - overlapChars);
    ChunksCount(doc, doc.text, maxChars, overlapChars);
    OffsetIsProduct(|ChunkedDoc(doc, maxChars, overlapChars)|, maxChars - overlapChars);
  }

  /** Every chunk copies the document's identity and kind, and holds
      `maxChars` characters unless the document was shorter. */
  lemma ChunkedDocShape(doc: RagItem, maxChars: nat, overlapChars: int)
    requires overlapChars < maxChars
    ensures forall c :: c in ChunkedDoc(doc, maxChars, overlapChars) ==>
      SameSource(c, doc) && |c.text| == Min(|doc.text|, maxChars)
  {
    var cs := ChunkedDoc(doc, maxChars, overlapChars);
    if |doc.text| > maxChars {
      forall c | c in cs
        ensures SameSource(c, doc) && |c.text| == maxChars
      {
        var i :| 0 <= i < |cs| && cs[i] == c;
        ChunkAt(doc, doc.text, maxChars, overlapChars, i);
      }
    }
  }

  /** Whether character `j` of `doc`'s text lies in some chunk. */
  ghost predicate Covered(doc: RagItem, maxChars: nat, overlapChars: int, j: int)
    requires overlapChars < maxChars
  {
    var step := maxChars - overlapChars;
    exists i :: 0 <= i < |ChunkedDoc(doc, maxChars, overlapChars)| && Offset(i, step) <= j < Offset(i, step) + maxChars
  }

  /** The characters after the end of the last chunk are in no chunk: the
      remainder the loop stops on is dropped, not emitted. */
  lemma ChunksDropTail(doc: RagItem, maxChars: nat, overlapChars: int, j: int)
    requires overlapChars < maxChars
    requires |doc.text| > maxChars
    requires (|ChunkedDoc(doc, maxChars, overlapChars)| - 1) * (maxChars - overlapChars) + maxChars <= j
    ensures !Covered(doc, maxChars, overlapChars, j)
  {
    var step := maxChars - overlapChars;
    var n := |ChunkedDoc(doc, maxChars, overlapChars)|;
    OffsetIsProduct(n - 1, step);
    forall i | 0 <= i < n
      ensures !(Offset(i, step) <= j < Offset(i, step) + maxChars)
    {
      OffsetMonotone(i, n - 1, step);
    }
  }

  /** A ten-character text cut into chunks of four overlapping by one gives
      the chunks at offsets 0 and 3; its last three characters are lost. */
  lemma ChunksOfTenByFour(doc: RagItem)
    requires |doc.text| == 10
    ensures ChunkedDoc(doc, 4, 1) == [doc.(text := doc.text[0..4]), doc.(text := doc.text[3..7])]
    ensures forall j :: 7 <= j < 10 ==> !Covered(doc, 4, 1, j)
  {
    var text := doc.text;
    assert text[3..][3..] == text[6..];
    assert text[3..][..4] == text[3..7];
    assert Chunks(doc, text[6..], 4, 1) == [];
    assert Chunks(doc, text, 4, 1) == [doc.(text := text[0..4])] + Chunks(doc, text[3..], 4, 1);
    forall j | 7 <= j < 10
      ensures !Covered(doc, 4, 1, j)
    {
      ChunksDropTail(doc, 4, 1, j);
    }
  }

  /** With the configured sizes (16000 characters, 1600 overlap), a text of
      20000 characters yields a single chunk: its last 4000 characters are
      never embedded. */
  lemma ConfiguredSizesDropTail(doc: RagItem)
    requires |doc.text| == 20000
    ensures ChunkedDoc(doc, 16000, 1600) == [doc.(text := doc.text[..16000])]
    ensures forall j :: 16000 <= j < 20000 ==> !Covered(doc, 16000, 1600, j)
  {
    assert Chunks(doc, doc.text[14400..], 16000, 1600) == [];
    forall j | 16000 <= j < 20000
      ensures !Covered(doc, 16000, 1600, j)
    {
      ChunksDropTail(doc, 16000, 1600, j);
    }
  }

  /** `_chunk_rag_doc`. */
  method ChunkRagDoc(doc: RagItem, maxChars: nat, overlapChars: int) returns (chunked: seq<RagItem>)
    requires overlapChars < maxChars
    ensures chunked == ChunkedDoc(doc, maxChars, overlapChars)
  {
    var text := doc.text;
    chunked := [];
    if |text| <= maxChars {
      return [doc];
    }
    while |text| > maxChars
      invariant chunked + Chunks(doc, text, maxChars, overlapChars) == Chunks(doc, doc.text, maxChars, overlapChars)
      decreases |text|
    {
      var next := text[Min(maxChars - overlapChars, |text|)..];
      assert Chunks(doc, text, maxChars, overlapChars)
          == [doc.(text := text[..maxChars])] + Chunks(doc, next, maxChars, overlapChars);
      chunked := chunked + [doc.(text := text[..maxChars])];
      text := next;
    }
  }

  /** `_chunk_rag_docs` as a value: the chunks of each document, in order. */
  function ChunkedDocs(docs: seq<RagItem>, maxChars: nat, overlapChars: int): (r: seq<RagItem>)
    requires overlapChars < maxChars
    ensures |r| >= |docs|
  {
    if docs == [] then []
    else ChunkedDocs(docs[..|docs| - 1], maxChars, overlapChars) + ChunkedDoc(docs[|docs| - 1], maxChars, overlapChars)
  }

  /** Every chunk comes from one of the documents. */
  lemma {:induction false} ChunkedDocsProvenance(docs: seq<RagItem>, maxChars: nat, overlapChars: int)
    requires overlapChars < maxChars
    ensures forall c :: c in ChunkedDocs(docs, maxChars, overlapChars) ==> exists d :: d in docs && SameSource(c, d)
  {
    if docs != [] {
      var init := docs[..|docs| - 1];
      var last := docs[|docs| - 1];
      ChunkedDocsProvenance(init, maxChars, overlapChars);
      forall c | c in ChunkedDocs(docs, maxChars, overlapChars)
        ensures exists d :: d in docs && SameSource(c, d)
      {
        if c in ChunkedDocs(init, maxChars, overlapChars) {
          var d :| d in init && SameSource(c, d);
          assert d in docs;
        } else {
          assert c in ChunkedDoc(last, maxChars, overlapChars);
          ChunkedDocShape(last, maxChars, overlapChars);
          assert last in docs && SameSource(c, last);
        }
      }
    }
  }

  /** The text searched for a prompt: the first chunk of its document, that
      is, the prompt cut to at most `maxChars` characters. */
  lemma FirstChunkIsPrefix(doc: RagItem, maxChars: nat, overlapChars: int)
    requires overlapChars < maxChars
    ensures ChunkedDocs([doc], maxChars, overlapChars)[0]
         == doc.(text := doc.text[..Min(|doc.text|, maxChars)])
  {
    assert [doc][..0] == [];
    if |doc.text| > maxChars {
      ChunkAt(doc, doc.text, maxChars, overlapChars, 0);
    } else {
      assert doc.text[..|doc.text|] == doc.text;
    }
  }

  /** `_chunk_rag_docs`. */
  method ChunkRagDocs(docs: seq<RagItem>, maxChars: nat, overlapChars: int) returns (chunked: seq<RagItem>)
    requires overlapChars < maxChars
    ensures chunked == ChunkedDocs(docs, maxChars, overlapChars)
  {
    chunked := [];
    for i := 0 to |docs|
      invariant chunked == ChunkedDocs(docs[..i], maxChars, overlapChars)
    {
      var pieces := ChunkRagDoc(docs[i], maxChars, overlapChars);
      assert docs[..i + 1][..i] == docs[..i];
      chunked := chunked + pieces;
    }
    assert docs[..|docs|] == docs;
  }
}
