/**
 * app/upload_to_azure_search_notion.py: reading the embedded chunks, deciding whether
 * the search index must be (re)created, and uploading the documents in batches whose
 * size shrinks when the service rejects a payload as too large. The search service is
 * a script of answers, one per upload request.
 */
module AzureUpload {
  import opened Common

  // ---------------------------------------------------------------- input documents

  /**
   * The JSON value found where a vector is expected: absent or null, an array of
   * numbers, or any other value (which Python treats as true or false).
   */
  datatype VectorField = Missing | Numbers(values: seq<real>) | Other(truthy: bool)

  function Truthy(f: VectorField): bool
  {
    match f
    case Missing => false
    case Numbers(values) => values != []
    case Other(truthy) => truthy
  }

  /** The `metadata` object of an input document; an absent or empty object has no keys. */
  datatype InputMetadata = InputMetadata(
    source: Option<string>, filename: Option<string>, index: Option<int>, chunkIndex: Option<int>)

  /** One element of the chunks file; an absent or null string field is None. */
  datatype InputDoc = InputDoc(
    id: Option<string>, title: Option<string>, content: Option<string>,
    embedding: VectorField, contentVector: VectorField, metadata: InputMetadata)

  /** `d.get("embedding") or d.get("contentVector")`. */
  function Vector(d: InputDoc): (v: VectorField)
    ensures Truthy(d.embedding) ==> v == d.embedding
    ensures !Truthy(d.embedding) ==> v == d.contentVector
  {
    if Truthy(d.embedding) then d.embedding else d.contentVector
  }

  /** The vector length the dimension scan reads off a document: only a non-empty array has one. */
  function VectorLength(d: InputDoc): (n: Option<nat>)
    ensures n.Some? <==> Vector(d).Numbers? && Vector(d).values != []
    ensures n.Some? ==> n.value == |Vector(d).values| > 0
  {
    var v := Vector(d);
    if v.Numbers? && v.values != [] then Some(|v.values|) else None
  }

  /**
   * detect_embedding_dim over the loaded documents: the vector length of the first
   * document that has a non-empty vector, or None where the script raises ValueError.
   */
  method DetectEmbeddingDim(docs: seq<InputDoc>) returns (dim: Option<nat>)
    ensures dim.None? <==> forall k :: 0 <= k < |docs| ==> VectorLength(docs[k]).None?
    ensures dim.Some? ==> exists k :: 0 <= k < |docs| && VectorLength(docs[k]) == dim
                                 && forall j :: 0 <= j < k ==> VectorLength(docs[j]).None?
    ensures dim.Some? ==> dim.value > 0
  {
    var k := 0;
    while k < |docs|
      invariant 0 <= k <= |docs|
      invariant forall j :: 0 <= j < k ==> VectorLength(docs[j]).None?
    {
      var v := Vector(docs[k]);
      if v.Numbers? && |v.values| > 0 {
        return Some(|v.values|);
      }
      k := k + 1;
    }
    return None;
  }

  // ---------------------------------------------------------------- transformed documents

  datatype Metadata = Metadata(source: string, filename: string, index: int)

  /** A document in the shape of the index schema. */
  datatype IndexDoc = IndexDoc(id: Option<string>, title: string, content: string, contentVector: seq<real>, metadata: Metadata)

  /** The vector check of load_and_transform_documents: a non-empty array of exactly `dim` numbers. */
  predicate Fits(d: InputDoc, dim: int)
  {
    VectorLength(d) == Some(dim)
  }

  /**
   * The index document built from an input document that passed the check: missing
   * title and content become "", the source defaults to "notion", the file name to the
   * chunk file's own name, and the index to `chunk_index`, then to 0.
   */
  function Transform(d: InputDoc, fileName: string): (r: IndexDoc)
    requires Vector(d).Numbers?
    ensures r.contentVector == Vector(d).values && r.id == d.id
    ensures d.title.None? ==> r.title == ""
    ensures d.title.Some? ==> r.title == d.title.value
    ensures d.content.None? ==> r.content == ""
    ensures d.content.Some? ==> r.content == d.content.value
    ensures d.metadata.source.None? ==> r.metadata.source == "notion"
    ensures d.metadata.source.Some? ==> r.metadata.source == d.metadata.source.value
    ensures d.metadata.filename.None? ==> r.metadata.filename == fileName
    ensures d.metadata.filename.Some? ==> r.metadata.filename == d.metadata.filename.value
    ensures d.metadata.index.Some? ==> r.metadata.index == d.metadata.index.value
    ensures d.metadata.index.None? && d.metadata.chunkIndex.Some? ==> r.metadata.index == d.metadata.chunkIndex.value
    ensures d.metadata.index.None? && d.metadata.chunkIndex.None? ==> r.metadata.index == 0
  {
    var m := d.metadata;
    IndexDoc(d.id, d.title.GetOr(""), d.content.GetOr(""), Vector(d).values,
      Metadata(m.source.GetOr("notion"), m.filename.GetOr(fileName),
               if m.index.Some? then m.index.value else m.chunkIndex.GetOr(0)))
  }

  /** The documents that pass the vector check, in their original order. */
  function Kept(docs: seq<InputDoc>, dim: int): (r: seq<InputDoc>)
    ensures |r| <= |docs|
    ensures forall d :: d in r ==> Fits(d, dim)
  {
    if docs == [] then []
    else (if Fits(docs[0], dim) then [docs[0]] else []) + Kept(docs[1..], dim)
  }

  function TransformAll(docs: seq<InputDoc>, fileName: string): (r: seq<IndexDoc>)
    requires forall d :: d in docs ==> Vector(d).Numbers?
  {
    seq(|docs|, k requires 0 <= k < |docs| => Transform(docs[k], fileName))
  }

  /**
   * load_and_transform_documents: the transformed kept documents, and the number of
   * skipped ones. `fileName` is `os.path.basename(path)`.
   */
  method LoadAndTransformDocuments(docs: seq<InputDoc>, expectedDim: int, fileName: string)
    returns (transformed: seq<IndexDoc>, skipped: nat)
    ensures transformed == TransformAll(Kept(docs, expectedDim), fileName)
    ensures skipped + |transformed| == |docs|
  {
    transformed := [];
    skipped := 0;
    var k := 0;
    while k < |docs|
      invariant 0 <= k <= |docs|
      invariant transformed == TransformAll(Kept(docs[..k], expectedDim), fileName)
      invariant skipped + |transformed| == k
    {
      KeptStep(docs, k, expectedDim);
      var d := docs[k];
      var v := Vector(d);
      if !Truthy(v) || !v.Numbers? || |v.values| != expectedDim {
        skipped := skipped + 1;
      } else {
        TransformAllSnoc(Kept(docs[..k], expectedDim), d, fileName);
        transformed := transformed + [Transform(d, fileName)];
      }
      k := k + 1;
    }
    assert docs[..k] == docs;
  }

  /** The loop's step: the documents before `k + 1` are those before `k` and document k. */
  lemma KeptStep(docs: seq<InputDoc>, k: nat, dim: int)
    requires k < |docs|
    ensures Kept(docs[..k + 1], dim) == Kept(docs[..k], dim) + (if Fits(docs[k], dim) then [docs[k]] else [])
  {
    assert docs[..k + 1] == docs[..k] + [docs[k]];
    KeptAppend(docs[..k], [docs[k]], dim);
    assert [docs[k]][1..] == [];
  }

  lemma TransformAllSnoc(kept: seq<InputDoc>, d: InputDoc, fileName: string)
    requires forall x :: x in kept ==> Vector(x).Numbers?
    requires Vector(d).Numbers?
    ensures TransformAll(kept + [d], fileName) == TransformAll(kept, fileName) + [Transform(d, fileName)]
  {
    var t := kept + [d];
    assert forall k :: 0 <= k < |kept| ==> t[k] == kept[k];
  }

  /** Filtering keeps order: the kept documents of a concatenation are those of each part, in turn. */
  lemma {:induction false} KeptAppend(a: seq<InputDoc>, b: seq<InputDoc>, dim: int)
    ensures Kept(a + b, dim) == Kept(a, dim) + Kept(b, dim)
  {
    if a == [] {
      assert a + b == b;
    } else {
      assert (a + b)[1..] == a[1..] + b;
      KeptAppend(a[1..], b, dim);
    }
  }

  /** A document is kept exactly when it is an input document that passes the vector check. */
  lemma {:induction false} KeptExactly(docs: seq<InputDoc>, dim: int, d: InputDoc)
    ensures d in Kept(docs, dim) <==> d in docs && Fits(d, dim)
  {
    if docs != [] {
      KeptExactly(docs[1..], dim, d);
      assert d in docs <==> d == docs[0] || d in docs[1..];
    }
  }

  /** When every document passes the vector check, none is skipped. */
  lemma {:induction false} KeptAll(docs: seq<InputDoc>, dim: int)
    requires forall d :: d in docs ==> Fits(d, dim)
    ensures Kept(docs, dim) == docs
  {
    if docs != [] {
      assert docs[0] in docs;
      assert forall d :: d in docs[1..] ==> d in docs;
      KeptAll(docs[1..], dim);
    }
  }

  /** Every uploaded vector has the detected dimension. */
  lemma TransformedDimension(docs: seq<InputDoc>, dim: int, fileName: string)
    ensures var out := TransformAll(Kept(docs, dim), fileName);
      forall k :: 0 <= k < |out| ==> |out[k].contentVector| == dim
  {
    var kept := Kept(docs, dim);
    forall k | 0 <= k < |kept|
      ensures Fits(kept[k], dim)
    {
      assert kept[k] in kept;
    }
  }

  // ---------------------------------------------------------------- ensure_index

  /** The existing index; its vector dimension is None when it cannot be read. */
  datatype SearchIndex = SearchIndex(dim: Option<nat>)

  datatype IndexAction = KeepIndex | CreateIndex | RecreateIndex

  /**
   * ensure_index's decision: an absent index is created; an existing one is deleted and
   * created again only when its dimension is known and differs; otherwise it is kept.
   */
  function EnsureIndexAction(current: Option<SearchIndex>, embeddingDim: nat): (a: IndexAction)
    ensures a == CreateIndex <==> current.None?
    ensures a == RecreateIndex <==> current.Some? && current.value.dim.Some? && current.value.dim.value != embeddingDim
    ensures a == KeepIndex <==> current.Some? && (current.value.dim.None? || current.value.dim == Some(embeddingDim))
  {
    match current
    case None => CreateIndex
    case Some(index) =>
      if index.dim.Some? && index.dim.value != embeddingDim then RecreateIndex else KeepIndex
  }

  /** The index after the action: a created index has the data's dimension. */
  function ApplyIndexAction(current: Option<SearchIndex>, a: IndexAction, embeddingDim: nat): Option<SearchIndex>
  {
    match a
    case KeepIndex => current
    case CreateIndex => Some(SearchIndex(Some(embeddingDim)))
    case RecreateIndex => Some(SearchIndex(Some(embeddingDim)))
  }

  /**
   * After ensure_index an index exists whose dimension is the data's or unknown: a missing
   * or mismatched index is replaced by a new one of the data's dimension, and an index
   * that was already compatible is left exactly as it was.
   */
  lemma EnsureIndexCompatible(current: Option<SearchIndex>, embeddingDim: nat)
    ensures var after := ApplyIndexAction(current, EnsureIndexAction(current, embeddingDim), embeddingDim);
      && after.Some?
      && (after.value.dim.None? || after.value.dim == Some(embeddingDim))
      && (current.None? ==> after == Some(SearchIndex(Some(embeddingDim))))
      && (current.Some? && current.value.dim != Some(embeddingDim) && current.value.dim.Some? ==>
            after == Some(SearchIndex(Some(embeddingDim))))
      && (current.Some? && (current.value.dim.None? || current.value.dim == Some(embeddingDim)) ==> after == current)
  {
  }

  // ---------------------------------------------------------------- chunk_iter

  /**
   * chunk_iter: `items[i:i + size]` for `i` in `range(0, len(items), size)`. A zero size
   * makes `range` raise ValueError (None); a negative size gives an empty range.
   */
  function ChunkIter<T>(items: seq<T>, size: int): (r: Option<seq<seq<T>>>)
    ensures r.None? <==> size == 0
    ensures size < 0 ==> r == Some([])
    ensures size > 0 ==> r.Some? && Concat(r.value) == items
    ensures size > 0 ==> forall k :: 0 <= k < |r.value| ==> 0 < |r.value[k]| <= size
    ensures size > 0 ==> forall k :: 0 <= k < |r.value| - 1 ==> |r.value[k]| == size
  {
    if size == 0 then None
    else if size < 0 then Some([])
    else Some(Chunks(items, size))
  }

  // ---------------------------------------------------------------- upload_in_batches

  /** What one `upload_documents` request came back with. */
  datatype Outcome =
    | Uploaded
    | HttpError(status: Option<int>, message: string)   // HttpResponseError
    | TransportError                                    // ServiceRequestError or ServiceResponseError

  predicate Contains(s: string, part: string)
  {
    exists k :: 0 <= k <= |s| && part <= s[k..]
  }

  /** A 413, or a message that says "Too Large". */
  predicate TooLarge(o: Outcome)
  {
    o.HttpError? && (o.status == Some(413) || Contains(o.message, "Too Large"))
  }

  predicate Transient(o: Outcome)
  {
    o.TransportError? || (o.HttpError? && o.status in {Some(429), Some(502), Some(503)})
  }

  /** What the loop does after a request. */
  datatype Reaction = Advance | Halve | SkipOne | Retry | Raise

  function React(o: Outcome, batchSize: nat): Reaction
  {
    if o.Uploaded? then Advance
    else if TooLarge(o) then (if batchSize > 1 then Halve else SkipOne)
    else if Transient(o) then Retry
    else Raise
  }

  /** One request: the batch `documents[lo:hi]`, sent while the batch size was `batchSize`. */
  datatype Attempt = Attempt(lo: nat, hi: nat, batchSize: nat, outcome: Outcome)

  function ReactionOf(a: Attempt): Reaction
  {
    React(a.outcome, a.batchSize)
  }

  /** The request moved the cursor past its batch: uploaded, or one oversize document skipped. */
  predicate Moves(a: Attempt)
  {
    ReactionOf(a) == Advance || ReactionOf(a) == SkipOne
  }

  /** The cursor after the request. */
  function NextLo(a: Attempt): nat
  {
    if Moves(a) then a.hi else a.lo
  }

  /** The batch size after the request: halved (floored, at least 1) after a payload that was too large. */
  function NextBatchSize(a: Attempt): nat
  {
    if ReactionOf(a) == Halve then (if a.batchSize / 2 > 1 then a.batchSize / 2 else 1) else a.batchSize
  }

  /** The requests the loop makes, in order, over `total` documents. */
  predicate Trace(attempts: seq<Attempt>, total: nat, initial: nat)
  {
    && (|attempts| > 0 ==> attempts[0].lo == 0 && attempts[0].batchSize == initial)
    && (forall k :: 0 <= k < |attempts| ==>
          && attempts[k].lo < total
          && attempts[k].batchSize >= 1
          && attempts[k].hi == (if attempts[k].lo + attempts[k].batchSize < total then attempts[k].lo + attempts[k].batchSize else total))
    && (forall k :: 0 <= k < |attempts| - 1 ==>
          && ReactionOf(attempts[k]) != Raise
          && attempts[k + 1].lo == NextLo(attempts[k])
          && attempts[k + 1].batchSize == NextBatchSize(attempts[k]))
  }

  /** How the loop ended: all documents done, an error re-raised, or the scripted answers ran out. */
  datatype Finish = Done | Raised(error: Outcome) | OutOfAnswers

  /**
   * upload_in_batches, with `answers[k]` the service's answer to the k-th request. The
   * loop stops when every document is done, when an error that is neither too large
   * nor transient is raised again, or (in this model only) when no answer is left.
   */
  method UploadInBatches<D>(documents: seq<D>, initialBatchSize: nat, answers: seq<Outcome>)
    returns (attempts: seq<Attempt>, finish: Finish)
    requires initialBatchSize >= 1
    ensures Trace(attempts, |documents|, initialBatchSize)
    ensures |attempts| <= |answers| && forall k :: 0 <= k < |attempts| ==> attempts[k].outcome == answers[k]
    ensures |documents| == 0 ==> attempts == [] && finish == Done
    ensures finish == Done && |documents| > 0 ==>
      attempts != [] && Moves(attempts[|attempts| - 1]) && attempts[|attempts| - 1].hi == |documents|
    ensures finish.Raised? ==>
      attempts != [] && ReactionOf(attempts[|attempts| - 1]) == Raise && finish.error == attempts[|attempts| - 1].outcome
    ensures finish == OutOfAnswers ==> |attempts| == |answers|
  {
    var total := |documents|;
    attempts := [];
    if total == 0 {
      return attempts, Done;
    }
    var batchSize := initialBatchSize;
    var i := 0;
    while i < total
      invariant Trace(attempts, total, initialBatchSize)
      invariant |attempts| <= |answers| && forall k :: 0 <= k < |attempts| ==> attempts[k].outcome == answers[k]
      invariant batchSize >= 1 && i <= total
      invariant attempts == [] ==> i == 0 && batchSize == initialBatchSize
      invariant attempts != [] ==> var last := attempts[|attempts| - 1];
        ReactionOf(last) != Raise && i == NextLo(last) && batchSize == NextBatchSize(last)
      decreases |answers| - |attempts|
    {
      if |attempts| == |answers| {
        return attempts, OutOfAnswers;
      }
      var end := if i + batchSize < total then i + batchSize else total;
      var outcome := answers[|attempts|];
      var attempt := Attempt(i, end, batchSize, outcome);
      TraceExtend(attempts, attempt, total, initialBatchSize);
      AttemptEffect(attempt);
      attempts := attempts + [attempt];
      if outcome.Uploaded? {
        i := end;
      } else if TooLarge(outcome) {
        if batchSize > 1 {
          batchSize := if batchSize / 2 > 1 then batchSize / 2 else 1;
        } else {
          i := end;
        }
      } else if Transient(outcome) {
      } else {
        return attempts, Raised(outcome);
      }
    }
    return attempts, Done;
  }

  /** How each kind of answer moves the cursor and the batch size. */
  lemma AttemptEffect(a: Attempt)
    ensures a.outcome.Uploaded? ==> ReactionOf(a) == Advance && NextLo(a) == a.hi && NextBatchSize(a) == a.batchSize
    ensures TooLarge(a.outcome) && a.batchSize > 1 ==>
      ReactionOf(a) == Halve && NextLo(a) == a.lo && NextBatchSize(a) == (if a.batchSize / 2 > 1 then a.batchSize / 2 else 1)
    ensures TooLarge(a.outcome) && a.batchSize <= 1 ==> ReactionOf(a) == SkipOne && NextLo(a) == a.hi && NextBatchSize(a) == a.batchSize
    ensures !a.outcome.Uploaded? && !TooLarge(a.outcome) && Transient(a.outcome) ==>
      ReactionOf(a) == Retry && NextLo(a) == a.lo && NextBatchSize(a) == a.batchSize
    ensures !a.outcome.Uploaded? && !TooLarge(a.outcome) && !Transient(a.outcome) ==> ReactionOf(a) == Raise
  {
  }

  /** A request made from the state the previous one left extends the trace. */
  lemma TraceExtend(attempts: seq<Attempt>, a: Attempt, total: nat, initial: nat)
    requires Trace(attempts, total, initial)
    requires a.lo < total && a.batchSize >= 1
    requires a.hi == (if a.lo + a.batchSize < total then a.lo + a.batchSize else total)
    requires attempts == [] ==> a.lo == 0 && a.batchSize == initial
    requires attempts != [] ==> var last := attempts[|attempts| - 1];
      ReactionOf(last) != Raise && a.lo == NextLo(last) && a.batchSize == NextBatchSize(last)
    ensures Trace(attempts + [a], total, initial)
  {
    var t := attempts + [a];
    assert forall k :: 0 <= k < |attempts| ==> t[k] == attempts[k];
  }

  // ---------------------------------------------------------------- what the loop guarantees

  /** The cursor never moves back and the batch size never grows. */
  lemma {:induction false} TraceMonotone(attempts: seq<Attempt>, total: nat, initial: nat, j: nat, k: nat)
    requires Trace(attempts, total, initial) && j <= k < |attempts|
    ensures attempts[j].lo <= attempts[k].lo
    ensures attempts[k].batchSize <= attempts[j].batchSize <= initial
    decreases k, j
  {
    if j < k {
      TraceMonotone(attempts, total, initial, j, k - 1);
    }
    if 0 < j {
      TraceMonotone(attempts, total, initial, 0, j);
    }
  }

  /** A request that moved the cursor is followed only by requests at or past its batch. */
  lemma {:induction false} TraceMovesOn(attempts: seq<Attempt>, total: nat, initial: nat, j: nat, k: nat)
    requires Trace(attempts, total, initial) && j < k < |attempts| && Moves(attempts[j])
    ensures attempts[j].hi <= attempts[k].lo
    decreases k
  {
    if j + 1 < k {
      TraceMovesOn(attempts, total, initial, j, k - 1);
      TraceMonotone(attempts, total, initial, k - 1, k);
    }
  }

  /** No document is in two successful uploads, or uploaded after it was skipped. */
  lemma NoDocumentTwice(attempts: seq<Attempt>, total: nat, initial: nat, j: nat, k: nat, x: nat)
    requires Trace(attempts, total, initial) && j < k < |attempts|
    requires Moves(attempts[j]) && Moves(attempts[k])
    ensures !(attempts[j].lo <= x < attempts[j].hi && attempts[k].lo <= x < attempts[k].hi)
  {
    TraceMovesOn(attempts, total, initial, j, k);
  }

  /** A skipped oversize request covers exactly one document; a halving leaves the cursor and shrinks the batch. */
  lemma TraceSteps(attempts: seq<Attempt>, total: nat, initial: nat, k: nat)
    requires Trace(attempts, total, initial) && k < |attempts|
    ensures attempts[k].lo < attempts[k].hi <= total
    ensures ReactionOf(attempts[k]) == SkipOne ==> attempts[k].hi == attempts[k].lo + 1
    ensures ReactionOf(attempts[k]) == Halve ==> 1 <= NextBatchSize(attempts[k]) < attempts[k].batchSize
    ensures ReactionOf(attempts[k]) == Halve || ReactionOf(attempts[k]) == Retry ==> NextLo(attempts[k]) == attempts[k].lo
  {
  }

  /**
   * Every document before the cursor of request k was uploaded or skipped by an earlier
   * request that moved the cursor.
   */
  lemma {:induction false} TraceCovers(attempts: seq<Attempt>, total: nat, initial: nat, k: nat, x: nat)
    requires Trace(attempts, total, initial) && k < |attempts| && x < attempts[k].lo
    ensures exists j :: 0 <= j < k && Moves(attempts[j]) && attempts[j].lo <= x < attempts[j].hi
    decreases k
  {
    var prev := attempts[k - 1];
    if Moves(prev) && prev.lo <= x {
      assert 0 <= k - 1 < k && Moves(attempts[k - 1]) && attempts[k - 1].lo <= x < attempts[k - 1].hi;
    } else {
      TraceCovers(attempts, total, initial, k - 1, x);
    }
  }

  /**
   * When the loop finishes, each document was in exactly one request that moved the
   * cursor: uploaded once, or skipped once as oversize.
   */
  lemma DoneCoversAll(attempts: seq<Attempt>, total: nat, initial: nat, x: nat)
    requires Trace(attempts, total, initial) && attempts != []
    requires Moves(attempts[|attempts| - 1]) && attempts[|attempts| - 1].hi == total && x < total
    ensures exists j :: 0 <= j < |attempts| && Moves(attempts[j]) && attempts[j].lo <= x < attempts[j].hi
  {
    var last := |attempts| - 1;
    if x < attempts[last].lo {
      TraceCovers(attempts, total, initial, last, x);
    }
  }
}
