/**
 * Pagination in the crawler, app/notion_scraper.py:164-214 and 235-260: walking a block's
 * children or a database's entries page by page is the same as handling every item of
 * the drained listing in order, followed by one error line if a page request failed.
 */
module NotionPagination {
  import opened Common
  import opened NotionJson
  import opened NotionWorkspace
  import opened NotionCrawlSpec

  lemma ThenAssoc(x: Run, y: Run, z: Run)
    ensures Then(x, Then(y, z)) == Then(Then(x, y), z)
  {
    assert x.lines + (y.lines + z.lines) == (x.lines + y.lines) + z.lines;
  }

  lemma ThenEmpty(p: set<Id>, x: Run)
    ensures Then(Run(p, []), x) == x
  {
    assert [] + x.lines == x.lines;
  }

  // ---------------------------------------------------------------- database entries

  lemma {:induction false} DispatchRunShift(ws: Workspace, done: set<Id>, a: seq<Id>, b: seq<Id>, k: nat, indent: nat)
    requires ws.Valid() && k <= |b|
    ensures DispatchRun(ws, done, a + b, |a| + k, indent) == DispatchRun(ws, done, b, k, indent)
    decreases |b| - k
  {
    if k < |b| {
      assert (a + b)[|a| + k] == b[k];
      var first := DispatchOne(ws, done, b[k], indent);
      DispatchRunShift(ws, first.processed, a, b, k + 1, indent);
    }
  }

  /** Entries of two consecutive pages: those of the first, then those of the second. */
  lemma {:induction false} DispatchRunAppend(ws: Workspace, done: set<Id>, a: seq<Id>, b: seq<Id>, i: nat, indent: nat)
    requires ws.Valid() && i <= |a|
    ensures var x := DispatchRun(ws, done, a, i, indent);
      DispatchRun(ws, done, a + b, i, indent) == Then(x, DispatchRun(ws, x.processed, b, 0, indent))
    decreases |a| - i
  {
    if i == |a| {
      DispatchRunShift(ws, done, a, b, 0, indent);
      ThenEmpty(done, DispatchRun(ws, done, b, 0, indent));
    } else {
      assert (a + b)[i] == a[i];
      var first := DispatchOne(ws, done, a[i], indent);
      DispatchRunAppend(ws, first.processed, a, b, i + 1, indent);
      var y := DispatchRun(ws, first.processed, a, i + 1, indent);
      ThenAssoc(first, y, DispatchRun(ws, y.processed, b, 0, indent));
    }
  }

  /** What the query loop leaves: the drained entries in order, then the error line of a failed query. */
  function DrainedEntries(ws: Workspace, done: set<Id>, db: Id, indent: nat, cursor: nat): Run
    requires ws.Valid()
  {
    var d := Drain(ws.QueryDatabase(db), cursor);
    var all := DispatchRun(ws, done, d.items, 0, indent + 2);
    match d.failure
    case Some(e) => Then(all, Run(all.processed, [Line(indent, QueryError(db, e.message))]))
    case None => all
  }

  /**
   * The query loop of process_database reads the result pages in order while `has_more`
   * holds and dispatches every entry of every page exactly once, in listing order; a
   * failed page request adds one error line after everything already dispatched.
   */
  lemma {:induction false} EntriesRunDrains(ws: Workspace, done: set<Id>, db: Id, indent: nat, cursor: nat)
    requires ws.Valid()
    ensures EntriesRun(ws, done, db, indent, cursor) == DrainedEntries(ws, done, db, indent, cursor)
    decreases |ws.QueryDatabase(db)| - cursor
  {
    var l := ws.QueryDatabase(db);
    match Fetch(l, cursor)
    case Err(e) =>
      ThenEmpty(done, Run(done, [Line(indent, QueryError(db, e.message))]));
    case Ok(batch) =>
      if batch.hasMore {
        var first := DispatchRun(ws, done, batch.results, 0, indent + 2);
        var rest := Drain(l, cursor + 1);
        EntriesRunDrains(ws, first.processed, db, indent, cursor + 1);
        DispatchRunAppend(ws, done, batch.results, rest.items, 0, indent + 2);
        var tail := DispatchRun(ws, first.processed, rest.items, 0, indent + 2);
        if rest.failure.Some? {
          ThenAssoc(first, tail, Run(tail.processed, [Line(indent, QueryError(db, rest.failure.value.message))]));
        }
      }
  }

  // ---------------------------------------------------------------- block children

  lemma {:induction false} BlocksRunShift(ws: Workspace, done: set<Id>, a: seq<Block>, b: seq<Block>, k: nat, indent: nat, bound: nat)
    requires ws.Valid() && BelowBound(ws, a + b, bound) && BelowBound(ws, b, bound) && k <= |b|
    ensures BlocksRun(ws, done, a + b, |a| + k, indent, bound) == BlocksRun(ws, done, b, k, indent, bound)
    decreases |b| - k
  {
    if k < |b| {
      assert (a + b)[|a| + k] == b[k];
      var first := BlockRun(ws, done, b[k], indent, bound);
      BlocksRunShift(ws, first.processed, a, b, k + 1, indent, bound);
    }
  }

  /** Blocks of two consecutive pages: those of the first, then those of the second. */
  lemma {:induction false} BlocksRunAppend(ws: Workspace, done: set<Id>, a: seq<Block>, b: seq<Block>, i: nat, indent: nat, bound: nat)
    requires ws.Valid() && BelowBound(ws, a, bound) && BelowBound(ws, b, bound) && i <= |a|
    ensures BelowBound(ws, a + b, bound)
    ensures var x := BlocksRun(ws, done, a, i, indent, bound);
      BlocksRun(ws, done, a + b, i, indent, bound) == Then(x, BlocksRun(ws, x.processed, b, 0, indent, bound))
    decreases |a| - i
  {
    assert forall x :: x in a + b ==> x in a || x in b;
    if i == |a| {
      BlocksRunShift(ws, done, a, b, 0, indent, bound);
      ThenEmpty(done, BlocksRun(ws, done, b, 0, indent, bound));
    } else {
      assert (a + b)[i] == a[i];
      var first := BlockRun(ws, done, a[i], indent, bound);
      BlocksRunAppend(ws, first.processed, a, b, i + 1, indent, bound);
      var y := BlocksRun(ws, first.processed, a, i + 1, indent, bound);
      ThenAssoc(first, y, BlocksRun(ws, y.processed, b, 0, indent, bound));
    }
  }

  /** Every block the walker descends into, on any page read from `cursor` on, is lower than `parent`. */
  lemma {:induction false} DrainedBlocksLower(ws: Workspace, parent: Id, cursor: nat)
    requires ws.Valid()
    ensures BelowBound(ws, Drain(ws.ListChildren(parent), cursor).items, ws.Height(parent))
    decreases |ws.ListChildren(parent)| - cursor
  {
    var l := ws.ListChildren(parent);
    BatchLower(ws, parent, cursor);
    match Fetch(l, cursor)
    case Err(_) =>
    case Ok(batch) =>
      if batch.hasMore && cursor < |l| {
        DrainedBlocksLower(ws, parent, cursor + 1);
        var items := batch.results + Drain(l, cursor + 1).items;
        assert forall x :: x in items ==> x in batch.results || x in Drain(l, cursor + 1).items;
      }
  }

  /** What the children walk leaves: the drained blocks in order, then the error line of a failed listing. */
  function DrainedBlocks(ws: Workspace, done: set<Id>, parent: Id, indent: nat, cursor: nat): Run
    requires ws.Valid()
  {
    var d := Drain(ws.ListChildren(parent), cursor);
    DrainedBlocksLower(ws, parent, cursor);
    var all := BlocksRun(ws, done, d.items, 0, indent, ws.Height(parent));
    match d.failure
    case Some(e) => Then(all, Run(all.processed, [Line(indent, ListingError(parent, e.message))]))
    case None => all
  }

  /**
   * fetch_and_process_block_children reads the pages of children in order while
   * `has_more` holds and handles every block of every page exactly once, in listing
   * order; a failed page request adds one error line and ends this listing only.
   */
  lemma {:induction false} WalkRunDrains(ws: Workspace, done: set<Id>, parent: Id, indent: nat, cursor: nat)
    requires ws.Valid()
    ensures WalkRun(ws, done, parent, indent, cursor) == DrainedBlocks(ws, done, parent, indent, cursor)
    decreases |ws.ListChildren(parent)| - cursor
  {
    var l := ws.ListChildren(parent);
    var bound := ws.Height(parent);
    DrainedBlocksLower(ws, parent, cursor);
    match Fetch(l, cursor)
    case Err(e) =>
      ThenEmpty(done, Run(done, [Line(indent, ListingError(parent, e.message))]));
    case Ok(batch) =>
      BatchLower(ws, parent, cursor);
      if batch.hasMore {
        var first := BlocksRun(ws, done, batch.results, 0, indent, bound);
        var rest := Drain(l, cursor + 1);
        DrainedBlocksLower(ws, parent, cursor + 1);
        WalkRunDrains(ws, first.processed, parent, indent, cursor + 1);
        BlocksRunAppend(ws, done, batch.results, rest.items, 0, indent, bound);
        var tail := BlocksRun(ws, first.processed, rest.items, 0, indent, bound);
        if rest.failure.Some? {
          ThenAssoc(first, tail, Run(tail.processed, [Line(indent, ListingError(parent, rest.failure.value.message))]));
        }
      }
  }
}
