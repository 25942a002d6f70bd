/**
 * app/app_api.py: the /chat endpoint. The search hits are packed into a context under a
 * character budget, the chat model answers from that context, and every hit is listed
 * as a source. The vector search and the chat completion are parameters.
 */
module RagApi {
  import opened Common
  import AzureUpload

  /** One search hit, with the fields the search selects; absent or null fields are None. */
  datatype Hit = Hit(id: Option<string>, title: Option<string>, content: Option<string>, metadata: Option<AzureUpload.Metadata>)

  /** `h.get("content") or ""`. */
  function Content(h: Hit): string
  {
    h.content.GetOr("")
  }

  /** The contents of the hits, in hit order. */
  function Contents(hits: seq<Hit>): (cs: seq<string>)
    ensures |cs| == |hits|
    ensures forall k :: 0 <= k < |hits| ==> cs[k] == Content(hits[k])
  {
    seq(|hits|, k requires 0 <= k < |hits| => Content(hits[k]))
  }

  function TotalLength(pieces: seq<string>): (n: nat)
    ensures pieces == [] ==> n == 0
  {
    if pieces == [] then 0 else |pieces[0]| + TotalLength(pieces[1..])
  }

  /** The contents from index `i` on, without the empty ones, in order. */
  function NonEmpty(contents: seq<string>, i: nat): (r: seq<string>)
    requires i <= |contents|
    ensures |r| <= |contents| - i
    decreases |contents| - i
  {
    if i == |contents| then []
    else (if contents[i] != "" then [contents[i]] else []) + NonEmpty(contents, i + 1)
  }

  /** `max(0, budget - used)`: the characters the budget still allows. */
  function Room(used: int, budget: int): nat
  {
    if budget - used > 0 then budget - used else 0
  }

  /**
   * The pieces build_context collects from content `i` on with `room` characters left:
   * empty contents are skipped, a content shorter than the room is taken whole, and the
   * scan ends with the first content the room cuts (`chunk[:room]`, nothing at all when
   * no room is left).
   */
  function Pieces(contents: seq<string>, i: nat, room: nat): seq<string>
    requires i <= |contents|
    decreases |contents| - i
  {
    if i == |contents| then []
    else if contents[i] == "" then Pieces(contents, i + 1, room)
    else if room == 0 then []
    else if |contents[i]| < room then [contents[i]] + Pieces(contents, i + 1, room - |contents[i]|)
    else [contents[i][..room]]
  }

  /** build_context: the collected pieces joined with blank lines. */
  method BuildContext(hits: seq<Hit>, budget: int) returns (context: string)
    ensures context == Join(Pieces(Contents(hits), 0, Room(0, budget)), "\n\n")
  {
    ghost var contents := Contents(hits);
    ghost var total := Pieces(contents, 0, Room(0, budget));
    var buf: seq<string> := [];
    var used := 0;
    var i := 0;
    while i < |hits|
      invariant 0 <= i <= |hits| && used >= 0
      invariant buf + Pieces(contents, i, Room(used, budget)) == total
    {
      var chunk := Content(hits[i]);
      if chunk == "" {
        i := i + 1;
        continue;
      }
      var room := if budget - used > 0 then budget - used else 0;
      var take := chunk[..if room < |chunk| then room else |chunk|];
      if take == "" {
        assert buf + [] == buf;
        break;
      }
      ghost var rest := Pieces(contents, i + 1, room - |take|);
      assert buf + ([take] + rest) == (buf + [take]) + rest;
      buf := buf + [take];
      used := used + |take|;
      if used >= budget {
        assert buf + [] == buf;
        break;
      }
      assert take == chunk && Pieces(contents, i, room) == [take] + rest;
      i := i + 1;
    }
    assert buf == total by {
      if i == |hits| {
        assert buf + [] == buf;
      }
    }
    context := Join(buf, "\n\n");
  }

  /** There are never more pieces than non-empty contents. */
  lemma {:induction false} PiecesFewer(contents: seq<string>, i: nat, room: nat)
    requires i <= |contents|
    ensures |Pieces(contents, i, room)| <= |NonEmpty(contents, i)|
    decreases |contents| - i
  {
    if i < |contents| {
      var chunk := contents[i];
      if chunk == "" {
        PiecesFewer(contents, i + 1, room);
      } else if room > 0 && |chunk| < room {
        PiecesFewer(contents, i + 1, room - |chunk|);
      }
    }
  }

  /** The pieces follow the non-empty contents in order: piece j is a non-empty prefix of the j-th non-empty content. */
  lemma {:induction false} PiecesArePrefixes(contents: seq<string>, i: nat, room: nat)
    requires i <= |contents|
    ensures var p := Pieces(contents, i, room);
      var c := NonEmpty(contents, i);
      |p| <= |c| && forall j :: 0 <= j < |p| ==> p[j] != "" && p[j] <= c[j]
    decreases |contents| - i
  {
    PiecesFewer(contents, i, room);
    if i < |contents| {
      var chunk := contents[i];
      if chunk == "" {
        PiecesArePrefixes(contents, i + 1, room);
      } else if room > 0 && |chunk| < room {
        PiecesArePrefixes(contents, i + 1, room - |chunk|);
        var rest := Pieces(contents, i + 1, room - |chunk|);
        var cs := NonEmpty(contents, i + 1);
        assert forall j :: 0 < j <= |rest| ==> ([chunk] + rest)[j] == rest[j - 1] && ([chunk] + cs)[j] == cs[j - 1];
      }
    }
  }

  /** Every piece but the last is the whole of its content: only the last one can be cut. */
  lemma {:induction false} PiecesWholeButLast(contents: seq<string>, i: nat, room: nat)
    requires i <= |contents|
    ensures var p := Pieces(contents, i, room);
      var c := NonEmpty(contents, i);
      |p| <= |c| && forall j :: 0 <= j < |p| - 1 ==> p[j] == c[j]
    decreases |contents| - i
  {
    PiecesFewer(contents, i, room);
    if i < |contents| {
      var chunk := contents[i];
      if chunk == "" {
        PiecesWholeButLast(contents, i + 1, room);
      } else if room > 0 && |chunk| < room {
        PiecesWholeButLast(contents, i + 1, room - |chunk|);
        var rest := Pieces(contents, i + 1, room - |chunk|);
        var cs := NonEmpty(contents, i + 1);
        assert forall j :: 0 < j <= |rest| ==> ([chunk] + rest)[j] == rest[j - 1] && ([chunk] + cs)[j] == cs[j - 1];
      }
    }
  }

  /** The pieces never hold more characters than the room left. */
  lemma {:induction false} PiecesWithinRoom(contents: seq<string>, i: nat, room: nat)
    requires i <= |contents|
    ensures TotalLength(Pieces(contents, i, room)) <= room
    decreases |contents| - i
  {
    if i < |contents| {
      var chunk := contents[i];
      if chunk == "" {
        PiecesWithinRoom(contents, i + 1, room);
      } else if room > 0 && |chunk| < room {
        var rest := Pieces(contents, i + 1, room - |chunk|);
        PiecesWithinRoom(contents, i + 1, room - |chunk|);
        assert ([chunk] + rest)[1..] == rest;
      } else if room > 0 {
        assert [chunk[..room]][1..] == [];
      }
    }
  }

  /** The scan stops before the non-empty contents run out only when the room is used up exactly. */
  lemma {:induction false} PiecesFillRoom(contents: seq<string>, i: nat, room: nat)
    requires i <= |contents|
    ensures |Pieces(contents, i, room)| < |NonEmpty(contents, i)| ==> TotalLength(Pieces(contents, i, room)) == room
    decreases |contents| - i
  {
    if i < |contents| {
      var chunk := contents[i];
      if chunk == "" {
        PiecesFillRoom(contents, i + 1, room);
      } else if room > 0 && |chunk| < room {
        var rest := Pieces(contents, i + 1, room - |chunk|);
        PiecesFillRoom(contents, i + 1, room - |chunk|);
        assert ([chunk] + rest)[1..] == rest;
        assert NonEmpty(contents, i) == [chunk] + NonEmpty(contents, i + 1);
      } else if room > 0 {
        assert [chunk[..room]][1..] == [];
      }
    }
  }

  /** The context never holds more characters from the hits than the budget allows. */
  lemma ContextWithinBudget(hits: seq<Hit>, budget: int)
    ensures TotalLength(Pieces(Contents(hits), 0, Room(0, budget))) <= (if budget > 0 then budget else 0)
  {
    PiecesWithinRoom(Contents(hits), 0, Room(0, budget));
  }

  /** A budget of zero or less gives an empty context. */
  lemma NoBudgetNoContext(hits: seq<Hit>, budget: int)
    requires budget <= 0
    ensures Join(Pieces(Contents(hits), 0, Room(0, budget)), "\n\n") == ""
  {
    NoRoomNoPieces(Contents(hits), 0);
  }

  /** With no room left no piece is taken. */
  lemma {:induction false} NoRoomNoPieces(contents: seq<string>, i: nat)
    requires i <= |contents|
    ensures Pieces(contents, i, 0) == []
    decreases |contents| - i
  {
    if i < |contents| && contents[i] == "" {
      NoRoomNoPieces(contents, i + 1);
    }
  }

  /** Hits with empty or missing content change nothing: the scan goes on past them. */
  lemma {:induction false} EmptyHitsSkipped(contents: seq<string>, i: nat, j: nat, room: nat)
    requires i <= j <= |contents|
    requires forall k :: i <= k < j ==> contents[k] == ""
    ensures Pieces(contents, i, room) == Pieces(contents, j, room)
    decreases j - i
  {
    if i < j {
      EmptyHitsSkipped(contents, i + 1, j, room);
    }
  }

  // ---------------------------------------------------------------- the endpoint

  /** The request body; an absent or null field is None. */
  datatype Question = Question(texto: string, topK: Option<int>, hybrid: Option<bool>, maxContextChars: Option<int>)

  /** `pregunta.top_k or 5`: absent, null or 0 give 5. */
  function TopK(q: Question): (k: int)
    ensures q.topK.None? || q.topK == Some(0) ==> k == 5
    ensures q.topK.Some? && q.topK.value != 0 ==> k == q.topK.value
  {
    if q.topK.Some? && q.topK.value != 0 then q.topK.value else 5
  }

  /** `pregunta.max_context_chars or 12000`. */
  function MaxContext(q: Question): (n: int)
    ensures q.maxContextChars.None? || q.maxContextChars == Some(0) ==> n == 12000
    ensures q.maxContextChars.Some? && q.maxContextChars.value != 0 ==> n == q.maxContextChars.value
  {
    if q.maxContextChars.Some? && q.maxContextChars.value != 0 then q.maxContextChars.value else 12000
  }

  /** `bool(pregunta.hybrid)`. */
  function Hybrid(q: Question): (b: bool)
    ensures b <==> q.hybrid == Some(true)
  {
    q.hybrid.Some? && q.hybrid.value
  }

  /** One entry of `fuentes`; a None metadata is rendered as `{}`. */
  datatype Source = Source(id: Option<string>, title: string, snippet: string, metadata: Option<AzureUpload.Metadata>)

  const SnippetLength: nat := 300

  /** The source list of chat: one entry per hit, in hit order. */
  method BuildSources(hits: seq<Hit>) returns (fuentes: seq<Source>)
    ensures |fuentes| == |hits|
    ensures forall i :: 0 <= i < |hits| ==>
      && fuentes[i].id == hits[i].id
      && fuentes[i].metadata == hits[i].metadata
      && (hits[i].title.None? ==> fuentes[i].title == "")
      && (hits[i].title.Some? ==> fuentes[i].title == hits[i].title.value)
      && fuentes[i].snippet <= Content(hits[i])
      && |fuentes[i].snippet| == (if |Content(hits[i])| < SnippetLength then |Content(hits[i])| else SnippetLength)
  {
    fuentes := [];
    var i := 0;
    while i < |hits|
      invariant 0 <= i <= |hits| && |fuentes| == i
      invariant forall j :: 0 <= j < i ==>
        && fuentes[j].id == hits[j].id
        && fuentes[j].metadata == hits[j].metadata
        && fuentes[j].title == hits[j].title.GetOr("")
        && fuentes[j].snippet <= Content(hits[j])
        && |fuentes[j].snippet| == (if |Content(hits[j])| < SnippetLength then |Content(hits[j])| else SnippetLength)
    {
      var h := hits[i];
      var content := h.content.GetOr("");
      var snippet := content[..if |content| < SnippetLength then |content| else SnippetLength];
      fuentes := fuentes + [Source(h.id, h.title.GetOr(""), snippet, h.metadata)];
      i := i + 1;
    }
  }

  datatype ChatResponse = ChatResponse(respuesta: string, fuentes: seq<Source>)

  /**
   * chat: the search runs with the defaulted `top_k` and hybrid flag, the answer is asked
   * for with the context built under the defaulted budget, and every hit is a source.
   */
  method Chat(q: Question, search: (string, int, bool) -> seq<Hit>, answer: (string, string) -> string)
    returns (response: ChatResponse)
    ensures var hits := search(q.texto, TopK(q), Hybrid(q));
      && response.respuesta == answer(q.texto, Join(Pieces(Contents(hits), 0, Room(0, MaxContext(q))), "\n\n"))
      && |response.fuentes| == |hits|
      && forall i :: 0 <= i < |hits| ==>
        && response.fuentes[i].id == hits[i].id
        && response.fuentes[i].metadata == hits[i].metadata
        && response.fuentes[i].title == hits[i].title.GetOr("")
        && response.fuentes[i].snippet <= Content(hits[i])
        && |response.fuentes[i].snippet| == (if |Content(hits[i])| < SnippetLength then |Content(hits[i])| else SnippetLength)
  {
    var topK := if q.topK.Some? && q.topK.value != 0 then q.topK.value else 5;
    var hybrid := q.hybrid.Some? && q.hybrid.value;
    var maxCtx := if q.maxContextChars.Some? && q.maxContextChars.value != 0 then q.maxContextChars.value else 12000;
    var hits := search(q.texto, topK, hybrid);
    var context := BuildContext(hits, maxCtx);
    var respuesta := answer(q.texto, context);
    var fuentes := BuildSources(hits);
    response := ChatResponse(respuesta, fuentes);
  }
}
