/**
 * app/json_chunks.py: the text is split into words, the words are grouped `max_palabras`
 * at a time, each group is joined back with single spaces, and every group becomes a
 * numbered document.
 */
module WordChunks {
  import opened Common

  /** CHUNK_SIZE: words per chunk. */
  const ChunkSize: nat := 800
  /** INPUT_FILE, recorded in every document's metadata. */
  const InputFile := "notion_contenido.txt"

  /** `" ".join(group)` for every group. */
  function JoinGroups(groups: seq<seq<string>>): (r: seq<string>)
    ensures |r| == |groups|
  {
    seq(|groups|, k requires 0 <= k < |groups| => Join(groups[k], " "))
  }

  /** What dividir_en_chunks returns. */
  function WordChunks(texto: string, maxPalabras: nat): seq<string>
    requires maxPalabras > 0
  {
    JoinGroups(Chunks(Words(texto), maxPalabras))
  }

  /**
   * dividir_en_chunks. The loop only ends if `max_palabras > 0`: with 0 the word list
   * never shrinks (see SliceStepStalls).
   */
  method DividirEnChunks(texto: string, maxPalabras: nat) returns (chunks: seq<string>)
    requires maxPalabras > 0
    ensures chunks == WordChunks(texto, maxPalabras)
  {
    var palabras := Words(texto);
    chunks := [];
    while palabras != []
      invariant chunks + JoinGroups(Chunks(palabras, maxPalabras)) == WordChunks(texto, maxPalabras)
      decreases |palabras|
    {
      var n := if |palabras| < maxPalabras then |palabras| else maxPalabras;
      var chunk := palabras[..n];
      ChunksStep(palabras, maxPalabras);
      JoinGroupsCons(chunk, Chunks(palabras[n..], maxPalabras));
      assert chunks + ([Join(chunk, " ")] + JoinGroups(Chunks(palabras[n..], maxPalabras)))
          == (chunks + [Join(chunk, " ")]) + JoinGroups(Chunks(palabras[n..], maxPalabras));
      palabras := palabras[n..];
      chunks := chunks + [Join(chunk, " ")];
    }
  }

  /** One turn of the loop: the first group, then the groups of what is left. */
  lemma ChunksStep(palabras: seq<string>, size: nat)
    requires size > 0 && palabras != []
    ensures var n := if |palabras| < size then |palabras| else size;
      Chunks(palabras, size) == [palabras[..n]] + Chunks(palabras[n..], size)
  {
    if |palabras| <= size {
      assert palabras[..|palabras|] == palabras;
      assert palabras[|palabras|..] == [];
    }
  }

  lemma JoinGroupsCons(g: seq<string>, gs: seq<seq<string>>)
    ensures JoinGroups([g] + gs) == [Join(g, " ")] + JoinGroups(gs)
  {
    assert forall k :: 0 < k <= |gs| ==> ([g] + gs)[k] == gs[k - 1];
  }

  /**
   * Python's `palabras[:k]` and `palabras[k:]` for a non-positive `k`: the head drops
   * the last `-k` words and the tail keeps them.
   */
  function SliceStep(palabras: seq<string>, k: int): (seq<string>, seq<string>)
  {
    var cut := if k >= 0 then (if k <= |palabras| then k else |palabras|)
               else (if -k <= |palabras| then |palabras| + k else 0);
    (palabras[..cut], palabras[cut..])
  }

  /**
   * With `max_palabras <= 0` the loop never ends on non-empty text: with 0 every step
   * leaves a non-empty word list as it was, and with a negative size so does every step
   * once the list is no longer than `-max_palabras` (SliceStepNegative: after one step).
   */
  lemma SliceStepStalls(palabras: seq<string>, k: int)
    requires k <= 0 && palabras != [] && (k == 0 || |palabras| <= -k)
    ensures SliceStep(palabras, k).1 == palabras
  {
    assert palabras[0..] == palabras;
  }

  /** With a negative size, one step already leaves at most `-max_palabras` words. */
  lemma SliceStepNegative(palabras: seq<string>, k: int)
    requires k < 0
    ensures |SliceStep(palabras, k).1| <= -k
  {
  }

  // ---------------------------------------------------------------- split and join

  /** The run of non-space characters at the front of `s` is exactly `n` long. */
  lemma {:induction false} RunLengthExact(s: string, n: nat)
    requires n <= |s| && NoSpace(s[..n]) && (n < |s| ==> IsSpace(s[n]))
    ensures RunLength(s) == n
  {
    if n > 0 {
      assert s[..n][0] == s[0];
      assert s[1..][..n - 1] == s[..n][1..];
      assert n - 1 < |s| - 1 ==> s[1..][n - 1] == s[n];
      RunLengthExact(s[1..], n - 1);
    }
  }

  /** `w.split()` is `[w]` for a non-empty word without spaces. */
  lemma WordsOfWord(w: string)
    requires w != "" && NoSpace(w)
    ensures Words(w) == [w]
  {
    assert w[..|w|] == w;
    RunLengthExact(w, |w|);
    assert w[|w|..] == [];
  }

  /** Splitting words joined with single spaces gives the words back. */
  lemma {:induction false} WordsOfJoin(ws: seq<string>)
    requires forall i :: 0 <= i < |ws| ==> ws[i] != "" && NoSpace(ws[i])
    ensures Words(Join(ws, " ")) == ws
  {
    if |ws| == 1 {
      WordsOfWord(ws[0]);
    } else if |ws| > 1 {
      var w := ws[0];
      var rest := Join(ws[1..], " ");
      var s := w + " " + rest;
      assert s[..|w|] == w;
      RunLengthExact(s, |w|);
      assert s[|w|..] == " " + rest;
      assert (" " + rest)[1..] == rest;
      WordsOfJoin(ws[1..]);
    }
  }

  /** Text made of whitespace only has no words. */
  lemma {:induction false} WordsOfBlank(s: string)
    requires AllSpace(s)
    ensures Words(s) == []
  {
    if s != [] {
      WordsOfBlank(s[1..]);
    }
  }

  // ---------------------------------------------------------------- what dividir_en_chunks promises

  /** The words of each chunk, in chunk order, give back `texto.split()` exactly. */
  lemma WordChunksRoundTrip(texto: string, maxPalabras: nat)
    requires maxPalabras > 0
    ensures var chunks := WordChunks(texto, maxPalabras);
      Concat(seq(|chunks|, k requires 0 <= k < |chunks| => Words(chunks[k]))) == Words(texto)
  {
    var groups := Chunks(Words(texto), maxPalabras);
    var chunks := WordChunks(texto, maxPalabras);
    forall k | 0 <= k < |chunks|
      ensures Words(chunks[k]) == groups[k]
    {
      ChunkWords(texto, maxPalabras, k);
    }
    assert seq(|chunks|, k requires 0 <= k < |chunks| => Words(chunks[k])) == groups;
  }

  /** The words of chunk k are group k. */
  lemma ChunkWords(texto: string, maxPalabras: nat, k: nat)
    requires maxPalabras > 0 && k < |WordChunks(texto, maxPalabras)|
    ensures Words(WordChunks(texto, maxPalabras)[k]) == Chunks(Words(texto), maxPalabras)[k]
  {
    var groups := Chunks(Words(texto), maxPalabras);
    var words := Words(texto);
    ConcatMember(groups, k);
    forall i | 0 <= i < |groups[k]|
      ensures groups[k][i] != "" && NoSpace(groups[k][i])
    {
      assert groups[k][i] in groups[k];
      assert groups[k][i] in words;
    }
    WordsOfJoin(groups[k]);
  }

  /** Every element of a group is an element of the concatenation. */
  lemma {:induction false} ConcatMember<T>(xss: seq<seq<T>>, k: nat)
    requires k < |xss|
    ensures forall x :: x in xss[k] ==> x in Concat(xss)
  {
    if k > 0 {
      ConcatMember(xss[1..], k - 1);
    }
  }

  /** Every chunk holds at most `max_palabras` words, and all but the last exactly that many. */
  lemma WordChunksSizes(texto: string, maxPalabras: nat)
    requires maxPalabras > 0
    ensures var chunks := WordChunks(texto, maxPalabras);
      && (forall k :: 0 <= k < |chunks| ==> 0 < |Words(chunks[k])| <= maxPalabras)
      && (forall k :: 0 <= k < |chunks| - 1 ==> |Words(chunks[k])| == maxPalabras)
  {
    var chunks := WordChunks(texto, maxPalabras);
    forall k | 0 <= k < |chunks|
      ensures Words(chunks[k]) == Chunks(Words(texto), maxPalabras)[k]
    {
      ChunkWords(texto, maxPalabras, k);
    }
  }

  /** There are ceil(words / max_palabras) chunks, and none for blank text. */
  lemma WordChunksCount(texto: string, maxPalabras: nat)
    requires maxPalabras > 0
    ensures |WordChunks(texto, maxPalabras)| == (|Words(texto)| + maxPalabras - 1) / maxPalabras
    ensures AllSpace(texto) ==> WordChunks(texto, maxPalabras) == []
  {
    ChunksCount(Words(texto), maxPalabras);
    if AllSpace(texto) {
      WordsOfBlank(texto);
    }
  }

  // ---------------------------------------------------------------- preparar_documentos

  datatype Metadata = Metadata(source: string, filename: string, index: nat)

  /** A document as written to the output file; its random `id` is not modelled. */
  datatype Document = Document(title: string, content: string, metadata: Metadata)

  /** preparar_documentos: one document per chunk, numbered from 1 in its title and from 0 in its metadata. */
  method PrepararDocumentos(texto: string) returns (documentos: seq<Document>)
    ensures var chunks := WordChunks(texto, ChunkSize);
      && |documentos| == |chunks|
      && forall i :: 0 <= i < |documentos| ==>
           && documentos[i].title == "Fragmento " + NatToString(i + 1)
           && documentos[i].content == chunks[i]
           && documentos[i].metadata == Metadata("notion", InputFile, i)
  {
    var chunks := DividirEnChunks(texto, ChunkSize);
    documentos := [];
    var i := 0;
    while i < |chunks|
      invariant 0 <= i <= |chunks| && |documentos| == i
      invariant forall j :: 0 <= j < i ==>
        documentos[j] == Document("Fragmento " + NatToString(j + 1), chunks[j], Metadata("notion", InputFile, j))
    {
      documentos := documentos + [Document("Fragmento " + NatToString(i + 1), chunks[i], Metadata("notion", InputFile, i))];
      i := i + 1;
    }
  }
}
