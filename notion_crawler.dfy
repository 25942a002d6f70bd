/**
 * The crawler itself (app/notion_scraper.py:133-279): the set of processed ids and the
 * output lines are state that the procedures update as they go. Each method is proved
 * to leave exactly the state its function in NotionCrawlSpec describes, so everything
 * proved about those functions holds of the crawler.
 */
module NotionCrawler {
  import opened Common
  import opened NotionJson
  import opened NotionWorkspace
  import opened NotionCrawlSpec

  class Crawler {
    /** The workspace the Notion client reads. */
    const ws: Workspace
    /** `processed_ids`: pages and databases already handled. */
    var processed: set<Id>
    /** `output_lines`: everything written so far. */
    var lines: seq<string>

    /** A crawler over `ws` that starts from the ids a previous run saved, with no output yet. */
    constructor (ws: Workspace, saved: set<Id>)
      ensures this.ws == ws && processed == saved && lines == []
    {
      this.ws := ws;
      processed := saved;
      lines := [];
    }

    /**
     * The script's entry point: the root id is normalised and classified, then processed
     * at depth 0 as a database if it is one and as a page otherwise. For an id of unknown
     * kind the script tries the page first and falls back to the database only when that
     * raises; process_page catches every API error itself, so the page attempt is all
     * that happens here.
     */
    method Crawl(rootId: string)
      requires ws.Valid()
      modifies this
      ensures var r := DispatchOne(ws, old(processed), NormalizeId(rootId), 0);
        processed == r.processed && lines == old(lines) + RenderAll(r.lines)
    {
      var root := NormalizeId(rootId);
      DispatchOneCases(ws, processed, root, 0);
      var t := IdentifyIdType(ws, root);
      if t == DatabaseType {
        ProcessDatabase(root, 0);
      } else if t == PageType {
        ProcessPage(root, 0);
      } else {
        ProcessPage(root, 0);
      }
    }

    /** process_page */
    method ProcessPage(pageId: Id, indent: nat)
      requires ws.Valid()
      modifies this
      ensures var r := PageRun(ws, old(processed), pageId, indent);
        processed == r.processed && lines == old(lines) + RenderAll(r.lines)
      decreases Pending(ws, processed), 0, 0, 0
    {
      if pageId in processed {
        return;
      }
      var response := ws.RetrievePage(pageId);
      if response.Err? {
        lines := lines + [Render(Line(indent, PageError(pageId, response.error.message)))];
        processed := processed + {pageId};
        return;
      }
      var props := response.value.properties;
      var header := Line(indent, PageHeader(PageTitle(props), pageId));
      PageRunRetrieved(ws, old(processed), pageId, indent);
      lines := lines + [Render(header)];
      RenderAllSingle(old(lines), header);
      AppendProperties(props, indent);
      RenderAllExtend(old(lines), [header], PropertyLines(props, indent));
      processed := processed + {pageId};
      PendingShrinks(ws, old(processed), pageId);
      ghost var tree := WalkRun(ws, processed, pageId, indent + 2, 0);
      WalkChildren(pageId, indent + 2);
      RenderAllExtend(old(lines), [header] + PropertyLines(props, indent), tree.lines);
    }

    /** The loop of process_page that writes one `- name: value` line per property with a non-empty text. */
    method AppendProperties(props: seq<(string, PropertyValue)>, indent: nat)
      modifies this
      ensures processed == old(processed)
      ensures lines == old(lines) + RenderAll(PropertyLines(props, indent))
    {
      ghost var emitted: seq<Line> := [];
      var i := 0;
      while i < |props|
        invariant 0 <= i <= |props|
        invariant processed == old(processed)
        invariant emitted == PropertyLines(props[..i], indent)
        invariant lines == old(lines) + RenderAll(emitted)
      {
        assert props[..i + 1][..i] == props[..i];
        var value := PropertyText(props[i].1);
        if value != "" {
          var line := Line(indent, PropertyLine(props[i].0, value));
          lines := lines + [Render(line)];
          RenderAllOne(old(lines), emitted, line);
          emitted := emitted + [line];
        }
        i := i + 1;
      }
      assert props[..|props|] == props;
    }

    /** fetch_and_process_block_children: the pagination loop over a block's children. */
    method WalkChildren(blockId: Id, indent: nat)
      requires ws.Valid()
      modifies this
      ensures var r := WalkRun(ws, old(processed), blockId, indent, 0);
        processed == r.processed && lines == old(lines) + RenderAll(r.lines)
      decreases Pending(ws, processed), 1, ws.Height(blockId), 2
    {
      var listing := ws.ListChildren(blockId);
      var cursor := 0;
      ghost var target := WalkRun(ws, processed, blockId, indent, 0);
      ghost var emitted: seq<Line> := [];
      while true
        invariant old(processed) <= processed
        invariant lines == old(lines) + RenderAll(emitted)
        invariant target == Then(Run(processed, emitted), WalkRun(ws, processed, blockId, indent, cursor))
        decreases |listing| - cursor
      {
        var response := Fetch(listing, cursor);
        WalkRunFetched(ws, processed, blockId, indent, cursor);
        if response.Err? {
          var line := Line(indent, ListingError(blockId, response.error.message));
          lines := lines + [Render(line)];
          RenderAllOne(old(lines), emitted, line);
          emitted := emitted + [line];
          return;
        }
        var batch := response.value;
        PendingMonotone(ws, old(processed), processed);
        ghost var step := BlocksRun(ws, processed, batch.results, 0, indent, ws.Height(blockId));
        ProcessBlocks(batch.results, indent, ws.Height(blockId));
        RenderAllExtend(old(lines), emitted, step.lines);
        if !batch.hasMore {
          emitted := emitted + step.lines;
          return;
        }
        ThenRegroup(old(processed), emitted, step, WalkRun(ws, processed, blockId, indent, cursor + 1));
        emitted := emitted + step.lines;
        cursor := cursor + 1;
      }
    }

    /** The loop over one page of children in fetch_and_process_block_children. */
    method ProcessBlocks(blocks: seq<Block>, indent: nat, ghost bound: nat)
      requires ws.Valid()
      requires BelowBound(ws, blocks, bound)
      modifies this
      ensures var r := BlocksRun(ws, old(processed), blocks, 0, indent, bound);
        processed == r.processed && lines == old(lines) + RenderAll(r.lines)
      decreases Pending(ws, processed), 1, bound, 1
    {
      ghost var target := BlocksRun(ws, processed, blocks, 0, indent, bound);
      ghost var emitted: seq<Line> := [];
      var i := 0;
      while i < |blocks|
        invariant 0 <= i <= |blocks|
        invariant old(processed) <= processed
        invariant lines == old(lines) + RenderAll(emitted)
        invariant target == Then(Run(processed, emitted), BlocksRun(ws, processed, blocks, i, indent, bound))
      {
        BlocksRunAdvance(ws, target, processed, emitted, blocks, i, indent, bound);
        PendingMonotone(ws, old(processed), processed);
        ghost var step := BlockRun(ws, processed, blocks[i], indent, bound);
        ProcessBlock(blocks[i], indent, bound);
        RenderAllExtend(old(lines), emitted, step.lines);
        emitted := emitted + step.lines;
        i := i + 1;
      }
      assert emitted + [] == emitted;
    }

    /** The body of that loop: one block, whose subtree is lower than `bound` if the walker descends into it. */
    method ProcessBlock(block: Block, indent: nat, ghost bound: nat)
      requires ws.Valid()
      requires Descends(block) ==> ws.Height(block.id) < bound
      modifies this
      ensures var r := BlockRun(ws, old(processed), block, indent, bound);
        processed == r.processed && lines == old(lines) + RenderAll(r.lines)
      decreases Pending(ws, processed), 1, bound, 0
    {
      BlockRunCases(ws, processed, block, indent, bound);
      match block.kind {
        case ChildPage(title) =>
          var line := Line(indent, ChildPageLine(title.GetOr(Untitled), block.id));
          lines := lines + [Render(line)];
          RenderAllSingle(old(lines), line);
          ghost var sub := DispatchOne(ws, processed, block.id, indent + 2);
          DispatchOneCases(ws, processed, block.id, indent + 2);
          var t := IdentifyIdType(ws, block.id);
          if t == PageType {
            ProcessPage(block.id, indent + 2);
          } else if t == DatabaseType {
            ProcessDatabase(block.id, indent + 2);
          } else {
            ProcessPage(block.id, indent + 2);
          }
          RenderAllExtend(old(lines), [line], sub.lines);
        case ChildDatabase(title) =>
          var line := Line(indent, ChildDatabaseLine(title.GetOr(UntitledDatabase), block.id));
          lines := lines + [Render(line)];
          RenderAllSingle(old(lines), line);
          ghost var sub := DatabaseRun(ws, processed, block.id, indent + 2);
          ProcessDatabase(block.id, indent + 2);
          RenderAllExtend(old(lines), [line], sub.lines);
        case Content(_, _) =>
          var text := BlockText(block.kind);
          ghost var head: seq<Line> := [];
          if text != "" {
            var line := Line(indent, TextLine(text));
            lines := lines + [Render(line)];
            RenderAllSingle(old(lines), line);
            head := [line];
          }
          if block.hasChildren {
            ghost var sub := WalkRun(ws, processed, block.id, indent + 2, 0);
            WalkChildren(block.id, indent + 2);
            RenderAllExtend(old(lines), head, sub.lines);
          }
      }
    }

    /** process_database */
    method ProcessDatabase(databaseId: Id, indent: nat)
      requires ws.Valid()
      modifies this
      ensures var r := DatabaseRun(ws, old(processed), databaseId, indent);
        processed == r.processed && lines == old(lines) + RenderAll(r.lines)
      decreases Pending(ws, processed), 0, 0, 0
    {
      if databaseId in processed {
        return;
      }
      var response := ws.RetrieveDatabase(databaseId);
      if response.Err? {
        lines := lines + [Render(Line(indent, DatabaseError(databaseId, response.error.message)))];
        processed := processed + {databaseId};
        return;
      }
      var header := Line(indent, DatabaseHeader(DatabaseTitle(response.value), databaseId));
      lines := lines + [Render(header)];
      RenderAllSingle(old(lines), header);
      ghost var emitted := [header];
      ghost var target := DatabaseRun(ws, old(processed), databaseId, indent);
      processed := processed + {databaseId};
      PendingShrinks(ws, old(processed), databaseId);
      var listing := ws.QueryDatabase(databaseId);
      var cursor := 0;
      while true
        invariant old(processed) + {databaseId} <= processed
        invariant lines == old(lines) + RenderAll(emitted)
        invariant target == Then(Run(processed, emitted), EntriesRun(ws, processed, databaseId, indent, cursor))
        decreases |listing| - cursor
      {
        var response := Fetch(listing, cursor);
        EntriesRunFetched(ws, processed, databaseId, indent, cursor);
        if response.Err? {
          var line := Line(indent, QueryError(databaseId, response.error.message));
          lines := lines + [Render(line)];
          RenderAllOne(old(lines), emitted, line);
          emitted := emitted + [line];
          return;
        }
        var batch := response.value;
        PendingMonotone(ws, old(processed) + {databaseId}, processed);
        ghost var step := DispatchRun(ws, processed, batch.results, 0, indent + 2);
        DispatchEntries(batch.results, indent + 2);
        RenderAllExtend(old(lines), emitted, step.lines);
        if !batch.hasMore {
          emitted := emitted + step.lines;
          return;
        }
        ThenRegroup(old(processed), emitted, step, EntriesRun(ws, processed, databaseId, indent, cursor + 1));
        emitted := emitted + step.lines;
        cursor := cursor + 1;
      }
    }

    /** The loop over one page of query results in process_database. */
    method DispatchEntries(ids: seq<Id>, indent: nat)
      requires ws.Valid()
      modifies this
      ensures var r := DispatchRun(ws, old(processed), ids, 0, indent);
        processed == r.processed && lines == old(lines) + RenderAll(r.lines)
      decreases Pending(ws, processed), 1, 0, 0
    {
      ghost var target := DispatchRun(ws, processed, ids, 0, indent);
      ghost var emitted: seq<Line> := [];
      var i := 0;
      while i < |ids|
        invariant 0 <= i <= |ids|
        invariant old(processed) <= processed
        invariant lines == old(lines) + RenderAll(emitted)
        invariant target == Then(Run(processed, emitted), DispatchRun(ws, processed, ids, i, indent))
      {
        DispatchRunAdvance(ws, target, processed, emitted, ids, i, indent);
        PendingMonotone(ws, old(processed), processed);
        ghost var step := DispatchOne(ws, processed, ids[i], indent);
        Dispatch(ids[i], indent);
        RenderAllExtend(old(lines), emitted, step.lines);
        emitted := emitted + step.lines;
        i := i + 1;
      }
      assert emitted + [] == emitted;
    }

    /** The type check that precedes processing a database entry: a database, or else a page. */
    method Dispatch(id: Id, indent: nat)
      requires ws.Valid()
      modifies this
      ensures var r := DispatchOne(ws, old(processed), id, indent);
        processed == r.processed && lines == old(lines) + RenderAll(r.lines)
      decreases Pending(ws, processed), 0, 0, 1
    {
      DispatchOneCases(ws, processed, id, indent);
      var t := IdentifyIdType(ws, id);
      if t == DatabaseType {
        ProcessDatabase(id, indent);
      } else {
        ProcessPage(id, indent);
      }
    }
  }
}
