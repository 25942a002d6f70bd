/**
 * app/json_chunks_embeddings.py: the extracted text is cut into overlapping windows of
 * tokens, each window is decoded back to text and stripped, blank windows are dropped,
 * and each chunk becomes a numbered document carrying its embedding. The tokenizer,
 * the decoder and the embedding service are parameters.
 */
module TokenChunks {
  import opened Common
  import opened AzureUpload

  type Token = int

  /** CHUNK_SIZE_TOKENS and CHUNK_OVERLAP_TOKENS. */
  const ChunkSizeTokens: nat := 500
  const ChunkOverlapTokens: int := 50

  function Min(a: int, b: int): int
  {
    if a < b then a else b
  }

  /** `tokens[start:start + size]` for start, start + step, … while the start is below the token count. */
  function Windows(tokens: seq<Token>, size: nat, step: nat, start: nat): (r: seq<seq<Token>>)
    requires step > 0
    ensures start >= |tokens| ==> r == []
    decreases |tokens| - start
  {
    if start >= |tokens| then []
    else [tokens[start..Min(start + size, |tokens|)]] + Windows(tokens, size, step, start + step)
  }

  /** `detokenize(window).strip()`. */
  function StrippedText(decode: seq<Token> -> string): seq<Token> -> string
  {
    w => Strip(decode(w))
  }

  /** The texts of the windows, without the empty ones, in window order. */
  function NonBlank(windows: seq<seq<Token>>, text: seq<Token> -> string): (r: seq<string>)
    ensures |r| <= |windows|
    ensures forall k :: 0 <= k < |r| ==> r[k] != ""
  {
    if windows == [] then []
    else (if text(windows[0]) != "" then [text(windows[0])] else []) + NonBlank(windows[1..], text)
  }

  /** What chunk_text returns for the token list of its text. */
  function TokenChunks(tokens: seq<Token>, chunkSize: nat, overlap: int, decode: seq<Token> -> string): seq<string>
    requires overlap < chunkSize
  {
    NonBlank(Windows(tokens, chunkSize, chunkSize - overlap, 0), StrippedText(decode))
  }

  /**
   * chunk_text, with `tokens` the tokenizer's encoding of the text and `decode` the
   * tokenizer's decoding. The loop ends only when `chunk_size > overlap` (see StartStalls).
   */
  method ChunkText(tokens: seq<Token>, chunkSize: nat, overlap: int, decode: seq<Token> -> string)
    returns (chunks: seq<string>)
    requires overlap < chunkSize
    ensures chunks == TokenChunks(tokens, chunkSize, overlap, decode)
  {
    chunks := ChunkWindows(tokens, chunkSize, chunkSize - overlap, StrippedText(decode));
  }

  /** The loop of chunk_text, with `text` standing for `detokenize(window).strip()`. */
  method ChunkWindows(tokens: seq<Token>, size: nat, step: nat, text: seq<Token> -> string)
    returns (chunks: seq<string>)
    requires step > 0
    ensures chunks == NonBlank(Windows(tokens, size, step, 0), text)
  {
    chunks := [];
    var start := 0;
    while start < |tokens|
      invariant 0 <= start
      invariant chunks + NonBlank(Windows(tokens, size, step, start), text) == NonBlank(Windows(tokens, size, step, 0), text)
      decreases |tokens| - start
    {
      var end := start + size;
      var chunkTokens := tokens[start..Min(end, |tokens|)];
      var chunkStr := text(chunkTokens);
      ChunkTextStep(tokens, size, step, start, text, chunks, NonBlank(Windows(tokens, size, step, 0), text));
      if chunkStr != "" {
        chunks := chunks + [chunkStr];
      }
      start := start + step;
    }
  }

  /** One turn of chunk_text: the window at `start` is handled, the rest is left to later turns. */
  lemma ChunkTextStep(tokens: seq<Token>, size: nat, step: nat, start: nat, text: seq<Token> -> string,
                      chunks: seq<string>, total: seq<string>)
    requires step > 0 && start < |tokens|
    requires chunks + NonBlank(Windows(tokens, size, step, start), text) == total
    ensures var w := tokens[start..Min(start + size, |tokens|)];
      (if text(w) != "" then chunks + [text(w)] else chunks) + NonBlank(Windows(tokens, size, step, start + step), text) == total
  {
    var w := tokens[start..Min(start + size, |tokens|)];
    var rest := NonBlank(Windows(tokens, size, step, start + step), text);
    NonBlankCons(w, Windows(tokens, size, step, start + step), text);
    if text(w) != "" {
      assert chunks + ([text(w)] + rest) == (chunks + [text(w)]) + rest;
    } else {
      assert [] + rest == rest;
    }
  }

  // ---------------------------------------------------------------- the windows

  /** Where window k starts, counted from the first window's start: k steps on. */
  function Offset(k: nat, step: nat): nat
  {
    if k == 0 then 0 else Offset(k - 1, step) + step
  }

  /** The window starts are 0, step, 2·step, … */
  lemma {:induction false} OffsetIsMultiple(k: nat, step: nat)
    ensures Offset(k, step) == k * step
  {
    if k > 0 {
      OffsetIsMultiple(k - 1, step);
      assert (k - 1) * step + step == k * step;
    }
  }

  /**
   * The windows start exactly at the offsets below the token count, and window k is
   * the slice of at most `size` tokens from its start.
   */
  lemma {:induction false} WindowShape(tokens: seq<Token>, size: nat, step: nat, start: nat, k: nat)
    requires step > 0
    ensures k < |Windows(tokens, size, step, start)| <==> start + Offset(k, step) < |tokens|
    ensures k < |Windows(tokens, size, step, start)| ==>
      Windows(tokens, size, step, start)[k] == tokens[start + Offset(k, step)..Min(start + Offset(k, step) + size, |tokens|)]
    decreases |tokens| - start
  {
    if start < |tokens| && k > 0 {
      WindowShape(tokens, size, step, start + step, k - 1);
      OffsetShift(k, step);
    }
  }

  lemma {:induction false} OffsetShift(k: nat, step: nat)
    requires k > 0
    ensures Offset(k, step) == step + Offset(k - 1, step)
  {
  }

  /** Every window holds at most `chunk_size` tokens, and at least one when `chunk_size > 0`. */
  lemma WindowSizes(tokens: seq<Token>, size: nat, step: nat, k: nat)
    requires step > 0 && k < |Windows(tokens, size, step, 0)|
    ensures |Windows(tokens, size, step, 0)[k]| <= size
    ensures size > 0 ==> |Windows(tokens, size, step, 0)[k]| > 0
  {
    WindowShape(tokens, size, step, 0, k);
  }

  /** With a non-negative overlap every token lies in some window. */
  lemma {:induction false} WindowsCover(tokens: seq<Token>, size: nat, step: nat, start: nat, x: nat)
    requires 0 < step <= size && start <= x < |tokens|
    ensures exists k :: (0 <= k < |Windows(tokens, size, step, start)| &&
                         start + Offset(k, step) <= x < start + Offset(k, step) + |Windows(tokens, size, step, start)[k]|)
    decreases |tokens| - start
  {
    var w := Windows(tokens, size, step, start);
    if x < start + size {
      assert start + Offset(0, step) <= x < start + Offset(0, step) + |w[0]|;
    } else {
      WindowsCover(tokens, size, step, start + step, x);
      var rest := Windows(tokens, size, step, start + step);
      var k :| 0 <= k < |rest| && start + step + Offset(k, step) <= x < start + step + Offset(k, step) + |rest[k]|;
      assert w[k + 1] == rest[k];
      OffsetShift(k + 1, step);
    }
  }

  /**
   * Consecutive windows overlap: the tokens of window k after its first `step` are the
   * first `overlap` tokens of window k + 1, fewer where the tokens run out.
   */
  lemma WindowsOverlap(tokens: seq<Token>, size: nat, overlap: nat, k: nat)
    requires overlap < size && k + 1 < |Windows(tokens, size, size - overlap, 0)|
    ensures var w := Windows(tokens, size, size - overlap, 0);
      size - overlap <= |w[k]| && w[k][size - overlap..] == w[k + 1][..Min(overlap, |w[k + 1]|)]
  {
    var step := size - overlap;
    var n := |tokens|;
    var w := Windows(tokens, size, step, 0);
    WindowShape(tokens, size, step, 0, k);
    WindowShape(tokens, size, step, 0, k + 1);
    OffsetShift(k + 1, step);
    var s0 := Offset(k, step);
    var s1 := Offset(k + 1, step);
    assert w[k] == tokens[s0..Min(s0 + size, n)];
    assert w[k + 1] == tokens[s1..Min(s1 + size, n)];
    assert w[k][step..] == tokens[s1..Min(s0 + size, n)];
  }

  /** An empty token list gives no chunks. */
  lemma NoTokensNoChunks(chunkSize: nat, overlap: int, decode: seq<Token> -> string)
    requires overlap < chunkSize
    ensures TokenChunks([], chunkSize, overlap, decode) == []
  {
  }

  /** The chunks of consecutive windows are those of each part, in turn: the filter keeps window order. */
  lemma {:induction false} NonBlankAppend(a: seq<seq<Token>>, b: seq<seq<Token>>, text: seq<Token> -> string)
    ensures NonBlank(a + b, text) == NonBlank(a, text) + NonBlank(b, text)
  {
    if a == [] {
      assert a + b == b;
    } else {
      assert (a + b)[1..] == a[1..] + b;
      NonBlankAppend(a[1..], b, text);
    }
  }

  lemma NonBlankCons(w: seq<Token>, ws: seq<seq<Token>>, text: seq<Token> -> string)
    ensures NonBlank([w] + ws, text) == (if text(w) != "" then [text(w)] else []) + NonBlank(ws, text)
  {
    assert ([w] + ws)[1..] == ws;
  }

  /** A window gives a chunk exactly when its decoded text is not all whitespace, and the chunk is that text stripped. */
  lemma NonBlankOne(w: seq<Token>, decode: seq<Token> -> string)
    ensures NonBlank([w], StrippedText(decode)) == if AllSpace(decode(w)) then [] else [Strip(decode(w))]
  {
    StripEmptyIffAllSpace(decode(w));
    NonBlankCons(w, [], StrippedText(decode));
  }

  /** The loop's start after `m` turns, for any chunk size and overlap. */
  function StartAfter(m: nat, chunkSize: int, overlap: int): int
  {
    if m == 0 then 0 else StartAfter(m - 1, chunkSize, overlap) + (chunkSize - overlap)
  }

  /**
   * With `chunk_size <= overlap` the start never becomes positive, so for any non-empty
   * token list the loop condition holds forever.
   */
  lemma {:induction false} StartStalls(m: nat, chunkSize: int, overlap: int, tokens: seq<Token>)
    requires chunkSize <= overlap && tokens != []
    ensures StartAfter(m, chunkSize, overlap) <= 0 < |tokens|
  {
    if m > 0 {
      StartStalls(m - 1, chunkSize, overlap, tokens);
    }
  }

  // ---------------------------------------------------------------- the documents

  /** The document written for chunk i; its `id` is a fresh uuid, given here. */
  function ChunkDocument(i: nat, id: string, chunk: string, embedding: seq<real>): InputDoc
  {
    InputDoc(Some(id), None, Some(chunk), Numbers(embedding), Missing,
             InputMetadata(Some("notion"), None, None, Some(i)))
  }

  /**
   * The main loop: document i holds chunk i, the embedding the service returned for it,
   * and metadata with source "notion" and chunk_index i.
   */
  method BuildDocuments(chunks: seq<string>, ids: seq<string>, embeddings: seq<seq<real>>)
    returns (documents: seq<InputDoc>)
    requires |ids| == |chunks| && |embeddings| == |chunks|
    ensures |documents| == |chunks|
    ensures forall i :: 0 <= i < |documents| ==>
      && documents[i].content == Some(chunks[i])
      && documents[i].embedding == Numbers(embeddings[i])
      && documents[i].metadata.source == Some("notion")
      && documents[i].metadata.chunkIndex == Some(i)
      && documents[i] == ChunkDocument(i, ids[i], chunks[i], embeddings[i])
  {
    documents := [];
    var i := 0;
    while i < |chunks|
      invariant 0 <= i <= |chunks| && |documents| == i
      invariant forall j :: 0 <= j < i ==> documents[j] == ChunkDocument(j, ids[j], chunks[j], embeddings[j])
    {
      documents := documents + [ChunkDocument(i, ids[i], chunks[i], embeddings[i])];
      i := i + 1;
    }
  }

  /**
   * Through the uploader: when every embedding has the detected dimension, every chunk
   * document is kept, and the uploaded document i has content chunk i, an empty title,
   * its embedding, and metadata source "notion", the chunk file's name and index i.
   */
  lemma UploadKeepsNumbering(chunks: seq<string>, ids: seq<string>, embeddings: seq<seq<real>>, dim: nat, fileName: string)
    requires |ids| == |chunks| && |embeddings| == |chunks| && dim > 0
    requires forall i :: 0 <= i < |embeddings| ==> |embeddings[i]| == dim
    ensures var docs := seq(|chunks|, i requires 0 <= i < |chunks| => ChunkDocument(i, ids[i], chunks[i], embeddings[i]));
      && Kept(docs, dim) == docs
      && var up := TransformAll(docs, fileName);
         |up| == |chunks|
         && forall i :: 0 <= i < |up| ==>
              up[i] == IndexDoc(Some(ids[i]), "", chunks[i], embeddings[i], Metadata("notion", fileName, i))
  {
    var docs := seq(|chunks|, i requires 0 <= i < |chunks| => ChunkDocument(i, ids[i], chunks[i], embeddings[i]));
    forall d | d in docs
      ensures Fits(d, dim)
    {
      var i :| 0 <= i < |docs| && docs[i] == d;
      assert embeddings[i] != [];
    }
    KeptAll(docs, dim);
  }
}
