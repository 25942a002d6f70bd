/**
 * The remote Notion workspace the crawler reads, as a fixed in-memory value. Every
 * retrieve or list call answers either a value or an API error; a paginated listing is
 * the sequence of answers to successive cursors (the first element answers the call
 * without a cursor, element k answers the k-th `next_cursor`).
 */
module NotionWorkspace {
  import opened Common
  import opened NotionJson

  const ObjectNotFound := "object_not_found"
  const ValidationError := "validation_error"

  /** An `APIResponseError`: its `code` and its (opaque) message. */
  datatype ApiError = ApiError(code: string, message: string)

  /** What the API answers for an id it does not know. */
  const NotFound := ApiError(ObjectNotFound, ObjectNotFound)

  datatype Response<+T> = Ok(value: T) | Err(error: ApiError)

  /** One page of a listing: `results`, and `has_more`. */
  datatype Batch<+T> = Batch(results: seq<T>, hasMore: bool)

  type Listing<T> = seq<Response<Batch<T>>>

  /** A block whose children the block walker lists recursively. */
  predicate Descends(b: Block)
  {
    b.kind.Content? && b.hasChildren
  }

  datatype Workspace = Workspace(
    pages: map<Id, Response<Page>>,            // pages.retrieve
    databases: map<Id, Response<Database>>,    // databases.retrieve
    entries: map<Id, Listing<Id>>,             // databases.query: the ids of the rows
    children: map<Id, Listing<Block>>,         // blocks.children.list
    height: map<Id, nat>)                      // a bound on the height of each block subtree
  {
    function RetrievePage(id: Id): (r: Response<Page>)
      ensures r.Ok? ==> id in pages
    {
      if id in pages then pages[id] else Err(NotFound)
    }

    function RetrieveDatabase(id: Id): (r: Response<Database>)
      ensures r.Ok? ==> id in databases
    {
      if id in databases then databases[id] else Err(NotFound)
    }

    function QueryDatabase(id: Id): Listing<Id>
    {
      if id in entries then entries[id] else [Err(NotFound)]
    }

    function ListChildren(id: Id): Listing<Block>
    {
      if id in children then children[id] else [Err(NotFound)]
    }

    function Height(id: Id): nat
    {
      if id in height then height[id] else 0
    }

    /** The ids that can be retrieved as a page or as a database. */
    function Universe(): set<Id>
    {
      pages.Keys + databases.Keys
    }

    /**
     * Block trees are finite: every block the walker descends into is lower than the
     * block or page whose children list it.
     */
    predicate Valid()
    {
      forall p, k, i ::
        p in children && 0 <= k < |children[p]| && children[p][k].Ok?
        && 0 <= i < |children[p][k].value.results| && Descends(children[p][k].value.results[i])
        ==> Height(children[p][k].value.results[i].id) < Height(p)
    }
  }

  /**
   * The answer to the request with cursor number `cursor`. A cursor past the recorded
   * answers gets an empty last page.
   */
  function Fetch<T>(l: Listing<T>, cursor: nat): Response<Batch<T>>
  {
    if cursor < |l| then l[cursor] else Ok(Batch([], false))
  }

  /** Every block the walker descends into, found on any page of `id`'s children, is lower than `id`. */
  lemma ListedBlocksAreLower(ws: Workspace, id: Id, cursor: nat, b: Block)
    requires ws.Valid()
    requires Fetch(ws.ListChildren(id), cursor).Ok? && b in Fetch(ws.ListChildren(id), cursor).value.results
    requires Descends(b)
    ensures ws.Height(b.id) < ws.Height(id)
  {
    var l := ws.ListChildren(id);
    var results := Fetch(l, cursor).value.results;
    var i :| 0 <= i < |results| && results[i] == b;
    assert cursor < |l| && id in ws.children;
  }

  /** A listing read to its end: every item in page order, and the error that cut it short if any. */
  datatype Drained<T> = Drained(items: seq<T>, failure: Option<ApiError>)

  /**
   * The pagination loop: request pages from `cursor` on while `has_more` holds; a failed
   * request ends the listing, keeping the items already read.
   */
  function Drain<T>(l: Listing<T>, cursor: nat): (d: Drained<T>)
    decreases |l| - cursor
  {
    match Fetch(l, cursor)
    case Err(e) => Drained([], Some(e))
    case Ok(batch) =>
      if batch.hasMore && cursor < |l| then
        var rest := Drain(l, cursor + 1);
        Drained(batch.results + rest.items, rest.failure)
      else Drained(batch.results, None)
  }

  /**
   * A listing of pages that all succeed, with `has_more` on all but the last, is read
   * completely: every item of every page, exactly once, page after page.
   */
  lemma {:induction false} DrainComplete<T>(l: Listing<T>, cursor: nat)
    requires cursor < |l|
    requires forall k :: cursor <= k < |l| ==> l[k].Ok? && l[k].value.hasMore == (k < |l| - 1)
    ensures Drain(l, cursor) == Drained(Concat(seq(|l| - cursor, j requires 0 <= j < |l| - cursor => l[cursor + j].value.results)), None)
    decreases |l| - cursor
  {
    var pages := seq(|l| - cursor, j requires 0 <= j < |l| - cursor => l[cursor + j].value.results);
    if cursor == |l| - 1 {
      assert Concat(pages) == pages[0] + Concat(pages[1..]);
      assert pages[1..] == [];
    } else {
      DrainComplete(l, cursor + 1);
      assert pages[1..] == seq(|l| - (cursor + 1), j requires 0 <= j < |l| - (cursor + 1) => l[cursor + 1 + j].value.results);
    }
  }

  /** Three pages of two items, `has_more` true, true, false: all six items, in order. */
  lemma DrainThreePages(a: Id, b: Id, c: Id, d: Id, e: Id, f: Id)
    ensures Drain([Ok(Batch([a, b], true)), Ok(Batch([c, d], true)), Ok(Batch([e, f], false))], 0)
            == Drained([a, b, c, d, e, f], None)
  {
    var l := [Ok(Batch([a, b], true)), Ok(Batch([c, d], true)), Ok(Batch([e, f], false))];
    assert Drain(l, 2) == Drained([e, f], None);
    assert Drain(l, 1) == Drained([c, d, e, f], None);
  }

  /** A failing page ends the listing after the items already read. */
  lemma DrainStopsAtError<T>(l: Listing<T>, cursor: nat, k: nat)
    requires cursor <= k < |l| && l[k].Err?
    requires forall j :: cursor <= j < k ==> l[j].Ok? && l[j].value.hasMore
    ensures Drain(l, cursor).failure == Some(l[k].error)
    decreases k - cursor
  {
    if cursor < k {
      DrainStopsAtError(l, cursor + 1, k);
    }
  }

  datatype IdType = DatabaseType | PageType | UnknownType

  /**
   * identify_id_type: a database lookup first; on a "not found" or "validation" error,
   * a page lookup; any other error of the database lookup gives UnknownType at once.
   */
  function IdentifyIdType(ws: Workspace, id: Id): (t: IdType)
    ensures t == DatabaseType <==> ws.RetrieveDatabase(id).Ok?
    ensures t == PageType <==>
      ws.RetrieveDatabase(id).Err? && ws.RetrieveDatabase(id).error.code in {ObjectNotFound, ValidationError}
      && ws.RetrievePage(id).Ok?
    ensures ws.RetrieveDatabase(id).Err? && ws.RetrieveDatabase(id).error.code !in {ObjectNotFound, ValidationError}
      ==> t == UnknownType
  {
    match ws.RetrieveDatabase(id)
    case Ok(_) => DatabaseType
    case Err(e) =>
      if e.code != ObjectNotFound && e.code != ValidationError then UnknownType
      else if ws.RetrievePage(id).Ok? then PageType
      else UnknownType
  }
}
