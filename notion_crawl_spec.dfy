/**
 * What the crawler's three mutually recursive procedures do (app/notion_scraper.py:133-260),
 * as functions of the workspace and of the set of ids processed so far. Each returns a
 * `Run`: the processed set afterwards, and the output lines appended, in order.
 *
 * Output lines are kept structured (`Line`), so that "a header for id n" is a fact about
 * a value rather than about how a string happens to parse; `Render` gives the exact text
 * the crawler appends.
 */
module NotionCrawlSpec {
  import opened Common
  import opened NotionJson
  import opened NotionWorkspace

  datatype Body =
    | PageHeader(title: string, id: Id)
    | PropertyLine(name: string, value: string)
    | PageError(id: Id, message: string)
    | ChildPageLine(title: string, id: Id)
    | ChildDatabaseLine(title: string, id: Id)
    | TextLine(text: string)
    | ListingError(id: Id, message: string)
    | DatabaseHeader(title: string, id: Id)
    | DatabaseError(id: Id, message: string)
    | QueryError(id: Id, message: string)

  /** An output line: its indentation in spaces, and what it says. */
  datatype Line = Line(indent: nat, body: Body)

  function BodyText(b: Body): string
  {
    match b
    case PageHeader(title, id) => "# Page: " + title + " (ID: " + id + ")"
    case PropertyLine(name, value) => "- " + name + ": " + value
    case PageError(id, m) => "[error accessing page " + id + ": " + m + "]"
    case ChildPageLine(title, id) => "## Child page: " + title + " (ID: " + id + ")"
    case ChildDatabaseLine(title, id) => "## Child database: " + title + " (ID: " + id + ")"
    case TextLine(text) => text
    case ListingError(id, m) => "[error listing children of " + id + ": " + m + "]"
    case DatabaseHeader(title, id) => "# Database: " + title + " (ID: " + id + ")"
    case DatabaseError(id, m) => "[error accessing database " + id + ": " + m + "]"
    case QueryError(id, m) => "[error querying database " + id + ": " + m + "]"
  }

  /** The string the crawler appends: `" " * indent + text`. */
  function Render(l: Line): string
  {
    Spaces(l.indent) + BodyText(l.body)
  }

  /** The strings of `ls`, in order. */
  function RenderAll(ls: seq<Line>): seq<string>
  {
    if ls == [] then [] else [Render(ls[0])] + RenderAll(ls[1..])
  }

  lemma {:induction false} RenderAllAppend(a: seq<Line>, b: seq<Line>)
    ensures RenderAll(a + b) == RenderAll(a) + RenderAll(b)
  {
    if a != [] {
      assert (a + b)[1..] == a[1..] + b;
      RenderAllAppend(a[1..], b);
    } else {
      assert a + b == b;
    }
  }

  /** Appending the strings of `a`, then those of `b`, appends the strings of `a + b`. */
  lemma RenderAllExtend(prefix: seq<string>, a: seq<Line>, b: seq<Line>)
    ensures prefix + RenderAll(a) + RenderAll(b) == prefix + RenderAll(a + b)
  {
    RenderAllAppend(a, b);
  }

  lemma RenderAllOne(prefix: seq<string>, a: seq<Line>, l: Line)
    ensures prefix + RenderAll(a) + [Render(l)] == prefix + RenderAll(a + [l])
  {
    RenderAllAppend(a, [l]);
  }

  lemma RenderAllSingle(prefix: seq<string>, l: Line)
    ensures prefix + [Render(l)] == prefix + RenderAll([l])
  {
    assert [l][1..] == [];
  }

  predicate IsHeader(l: Line)
  {
    l.body.PageHeader? || l.body.DatabaseHeader?
  }

  /** The ids that have a `# Page:` or `# Database:` header among `ls`. */
  function HeaderIds(ls: seq<Line>): set<Id>
  {
    set l | l in ls && IsHeader(l) :: l.body.id
  }

  /** No id has two headers among `ls`. */
  predicate UniqueHeaders(ls: seq<Line>)
  {
    forall i, j :: 0 <= i < j < |ls| && IsHeader(ls[i]) && IsHeader(ls[j]) ==> ls[i].body.id != ls[j].body.id
  }

  predicate IndentedFrom(ls: seq<Line>, indent: nat)
  {
    forall l :: l in ls ==> l.indent >= indent
  }

  /** The processed set after a call, and the lines the call appended. */
  datatype Run = Run(processed: set<Id>, lines: seq<Line>)

  /** `a`, then `b` started from the state `a` left. */
  function Then(a: Run, b: Run): Run
  {
    Run(b.processed, a.lines + b.lines)
  }

  /** Lines emitted so far followed by a run made of `step` then `rest`: regrouped after `step`. */
  lemma ThenRegroup(p: set<Id>, emitted: seq<Line>, step: Run, rest: Run)
    ensures Then(Run(p, emitted), Then(step, rest)) == Then(Run(step.processed, emitted + step.lines), rest)
  {
    assert emitted + (step.lines + rest.lines) == emitted + step.lines + rest.lines;
  }

  /**
   * What any call started with processed set `done` at depth `indent` guarantees: the set
   * only grows, a header is emitted only for an id that was not processed before, is
   * processed after and could be retrieved, no id gets two headers, and nothing is printed
   * left of `indent`.
   */
  predicate Sound(ws: Workspace, done: set<Id>, r: Run, indent: nat)
  {
    && done <= r.processed
    && HeaderIds(r.lines) <= r.processed - done
    && HeaderIds(r.lines) <= ws.Universe()
    && UniqueHeaders(r.lines)
    && IndentedFrom(r.lines, indent)
  }

  lemma ThenSound(ws: Workspace, done: set<Id>, a: Run, b: Run, indent: nat)
    requires Sound(ws, done, a, indent) && Sound(ws, a.processed, b, indent)
    ensures Sound(ws, done, Then(a, b), indent)
  {
    var ls := a.lines + b.lines;
    forall i, j | 0 <= i < j < |ls| && IsHeader(ls[i]) && IsHeader(ls[j])
      ensures ls[i].body.id != ls[j].body.id
    {
      if j < |a.lines| {
        assert ls[i] == a.lines[i] && ls[j] == a.lines[j];
      } else if |a.lines| <= i {
        assert ls[i] == b.lines[i - |a.lines|] && ls[j] == b.lines[j - |a.lines|];
      } else {
        assert ls[i] == a.lines[i] && ls[j] == b.lines[j - |a.lines|];
        assert ls[i].body.id in HeaderIds(a.lines);
        assert ls[j].body.id in HeaderIds(b.lines);
      }
    }
    assert HeaderIds(ls) == HeaderIds(a.lines) + HeaderIds(b.lines);
  }

  /** A sound run deeper down is sound at a shallower depth too. */
  lemma SoundShallower(ws: Workspace, done: set<Id>, r: Run, indent: nat, outer: nat)
    requires Sound(ws, done, r, indent) && outer <= indent
    ensures Sound(ws, done, r, outer)
  {
  }

  /** A header for a newly marked, retrievable id, followed by lines that are not headers. */
  lemma HeaderFirstSound(ws: Workspace, done: set<Id>, h: Line, rest: seq<Line>, indent: nat)
    requires IsHeader(h) && h.indent == indent && h.body.id !in done && h.body.id in ws.Universe()
    requires forall l :: l in rest ==> !IsHeader(l) && l.indent >= indent
    ensures Sound(ws, done, Run(done + {h.body.id}, [h] + rest), indent)
  {
    var ls := [h] + rest;
    assert forall i :: 0 < i < |ls| ==> ls[i] in rest;
    assert HeaderIds(ls) == {h.body.id};
  }

  // ---------------------------------------------------------------- termination measure

  /** The retrievable ids not processed yet: what the page and database recursion uses up. */
  function Pending(ws: Workspace, done: set<Id>): nat
  {
    |ws.Universe() - done|
  }

  lemma {:induction false} SubsetCardinality(a: set<Id>, b: set<Id>)
    requires a <= b
    ensures |a| <= |b|
    decreases |a|
  {
    if a != {} {
      var x :| x in a;
      SubsetCardinality(a - {x}, b - {x});
    }
  }

  lemma PendingMonotone(ws: Workspace, done: set<Id>, more: set<Id>)
    requires done <= more
    ensures Pending(ws, more) <= Pending(ws, done)
  {
    SubsetCardinality(ws.Universe() - more, ws.Universe() - done);
  }

  lemma PendingShrinks(ws: Workspace, done: set<Id>, id: Id)
    requires id in ws.Universe() && id !in done
    ensures Pending(ws, done + {id}) < Pending(ws, done)
  {
    assert ws.Universe() - (done + {id}) == (ws.Universe() - done) - {id};
  }

  /** Every block of `blocks` that the walker descends into is lower than `bound`. */
  predicate BelowBound(ws: Workspace, blocks: seq<Block>, bound: nat)
  {
    forall b :: b in blocks && Descends(b) ==> ws.Height(b.id) < bound
  }

  /** Each block on the page of `parent`'s children at `cursor` that the walker descends into is lower than `parent`. */
  lemma BatchLower(ws: Workspace, parent: Id, cursor: nat)
    requires ws.Valid()
    ensures var r := Fetch(ws.ListChildren(parent), cursor);
      r.Ok? ==> BelowBound(ws, r.value.results, ws.Height(parent))
  {
    var r := Fetch(ws.ListChildren(parent), cursor);
    if r.Ok? {
      forall b | b in r.value.results && Descends(b) ensures ws.Height(b.id) < ws.Height(parent) {
        ListedBlocksAreLower(ws, parent, cursor, b);
      }
    }
  }

  // ---------------------------------------------------------------- the traversal

  /** The `- name: value` lines of a page, one per property with a non-empty text, in order. */
  function PropertyLines(props: seq<(string, PropertyValue)>, indent: nat): (ls: seq<Line>)
    ensures |ls| <= |props|
    ensures forall l :: l in ls ==> l.indent == indent && l.body.PropertyLine? && l.body.value != ""
  {
    if props == [] then []
    else
      var last := props[|props| - 1];
      var value := PropertyText(last.1);
      PropertyLines(props[..|props| - 1], indent)
        + (if value != "" then [Line(indent, PropertyLine(last.0, value))] else [])
  }

  /** Adding a property at the end adds its line, if any, at the end. */
  lemma PropertyLinesAppend(props: seq<(string, PropertyValue)>, p: (string, PropertyValue), indent: nat)
    ensures PropertyLines(props + [p], indent) == PropertyLines(props, indent)
      + (if PropertyText(p.1) != "" then [Line(indent, PropertyLine(p.0, PropertyText(p.1)))] else [])
  {
    assert (props + [p])[..|props|] == props;
  }

  /** The properties whose text is non-empty, in their original order. */
  function Shown(props: seq<(string, PropertyValue)>): (r: seq<(string, PropertyValue)>)
    ensures forall q :: q in r <==> q in props && PropertyText(q.1) != ""
  {
    if props == [] then []
    else (if PropertyText(props[0].1) != "" then [props[0]] else []) + Shown(props[1..])
  }

  lemma {:induction false} ShownAppend(a: seq<(string, PropertyValue)>, b: seq<(string, PropertyValue)>)
    ensures Shown(a + b) == Shown(a) + Shown(b)
  {
    if a == [] {
      assert a + b == b;
    } else {
      assert (a + b)[1..] == a[1..] + b;
      ShownAppend(a[1..], b);
    }
  }

  /** One `- name: value` line per property, in order. */
  function LinesFor(props: seq<(string, PropertyValue)>, indent: nat): seq<Line>
  {
    seq(|props|, k requires 0 <= k < |props| => Line(indent, PropertyLine(props[k].0, PropertyText(props[k].1))))
  }

  lemma LinesForAppend(a: seq<(string, PropertyValue)>, b: seq<(string, PropertyValue)>, indent: nat)
    ensures LinesFor(a + b, indent) == LinesFor(a, indent) + LinesFor(b, indent)
  {
  }

  lemma ShownOne(p: (string, PropertyValue), indent: nat)
    ensures LinesFor(Shown([p]), indent)
      == (if PropertyText(p.1) != "" then [Line(indent, PropertyLine(p.0, PropertyText(p.1)))] else [])
  {
    assert [p][1..] == [];
  }

  /**
   * The property lines of a page are exactly one line per shown property, in the order
   * the page lists them: line k names the k-th property with a non-empty text.
   */
  lemma {:induction false} PropertyLinesAreShown(props: seq<(string, PropertyValue)>, indent: nat)
    ensures PropertyLines(props, indent) == LinesFor(Shown(props), indent)
    decreases |props|
  {
    if props != [] {
      var init, last := props[..|props| - 1], props[|props| - 1];
      assert props == init + [last];
      PropertyLinesAppend(init, last, indent);
      PropertyLinesAreShown(init, indent);
      ShownAppend(init, [last]);
      LinesForAppend(Shown(init), Shown([last]), indent);
      ShownOne(last, indent);
    }
  }

  /**
   * process_page: nothing if the id is processed already; one error line if the page
   * cannot be retrieved; otherwise the header and the property lines at `indent`, the id
   * marked processed, and then the page's block tree at `indent + 2`.
   */
  function PageRun(ws: Workspace, done: set<Id>, id: Id, indent: nat): (r: Run)
    requires ws.Valid()
    ensures done <= r.processed && id in r.processed
    ensures id in done ==> r == Run(done, [])
    ensures id !in done && ws.RetrievePage(id).Err? ==>
      r == Run(done + {id}, [Line(indent, PageError(id, ws.RetrievePage(id).error.message))])
    decreases Pending(ws, done), 0, 0, 0, 0
  {
    if id in done then Run(done, [])
    else
      match ws.RetrievePage(id)
      case Err(e) => Run(done + {id}, [Line(indent, PageError(id, e.message))])
      case Ok(page) =>
        var header := Line(indent, PageHeader(PageTitle(page.properties), id));
        var head := Run(done + {id}, [header] + PropertyLines(page.properties, indent));
        PendingShrinks(ws, done, id);
        Then(head, WalkRun(ws, done + {id}, id, indent + 2, 0))
  }

  /**
   * fetch_and_process_block_children from the page of children at `cursor` on: each
   * block in order, then the next page while `has_more` holds; a failed listing appends
   * one error line and ends this listing only.
   */
  function WalkRun(ws: Workspace, done: set<Id>, parent: Id, indent: nat, cursor: nat): (r: Run)
    requires ws.Valid()
    ensures done <= r.processed
    decreases Pending(ws, done), 1, ws.Height(parent), 1, |ws.ListChildren(parent)| - cursor
  {
    match Fetch(ws.ListChildren(parent), cursor)
    case Err(e) => Run(done, [Line(indent, ListingError(parent, e.message))])
    case Ok(batch) =>
      BatchLower(ws, parent, cursor);
      var first := BlocksRun(ws, done, batch.results, 0, indent, ws.Height(parent));
      if batch.hasMore then
        PendingMonotone(ws, done, first.processed);
        Then(first, WalkRun(ws, first.processed, parent, indent, cursor + 1))
      else first
  }

  /** The blocks of one page of a listing from position `i` on, in order. */
  function BlocksRun(ws: Workspace, done: set<Id>, blocks: seq<Block>, i: nat, indent: nat, bound: nat): (r: Run)
    requires ws.Valid()
    requires BelowBound(ws, blocks, bound) && i <= |blocks|
    ensures done <= r.processed
    decreases Pending(ws, done), 1, bound, 0, |blocks| - i
  {
    if i == |blocks| then Run(done, [])
    else
      var first := BlockRun(ws, done, blocks[i], indent, bound);
      PendingMonotone(ws, done, first.processed);
      Then(first, BlocksRun(ws, first.processed, blocks, i + 1, indent, bound))
  }

  /**
   * One block: a child page gets its line and is dispatched at `indent + 2` (as a
   * database only if it classifies as one); a child database gets its line and is
   * processed as a database; any other block appends its text if non-empty, and its
   * children are walked at `indent + 2` whenever it has some.
   */
  function BlockRun(ws: Workspace, done: set<Id>, b: Block, indent: nat, bound: nat): (r: Run)
    requires ws.Valid()
    requires Descends(b) ==> ws.Height(b.id) < bound
    ensures done <= r.processed
    decreases Pending(ws, done), 1, bound, 0, 0
  {
    match b.kind
    case ChildPage(title) =>
      var head := Run(done, [Line(indent, ChildPageLine(title.GetOr(Untitled), b.id))]);
      Then(head, DispatchOne(ws, done, b.id, indent + 2))
    case ChildDatabase(title) =>
      var head := Run(done, [Line(indent, ChildDatabaseLine(title.GetOr(UntitledDatabase), b.id))]);
      Then(head, DatabaseRun(ws, done, b.id, indent + 2))
    case Content(_, _) =>
      var text := BlockText(b.kind);
      var head := Run(done, if text != "" then [Line(indent, TextLine(text))] else []);
      if b.hasChildren then
        Then(head, WalkRun(ws, done, b.id, indent + 2, 0))
      else head
  }

  /**
   * process_database: nothing if the id is processed already; one error line if the
   * database cannot be retrieved; otherwise the header at `indent`, the id marked
   * processed, and then its entries.
   */
  function DatabaseRun(ws: Workspace, done: set<Id>, id: Id, indent: nat): (r: Run)
    requires ws.Valid()
    ensures done <= r.processed && id in r.processed
    ensures id in done ==> r == Run(done, [])
    ensures id !in done && ws.RetrieveDatabase(id).Err? ==>
      r == Run(done + {id}, [Line(indent, DatabaseError(id, ws.RetrieveDatabase(id).error.message))])
    decreases Pending(ws, done), 0, 0, 0, 0
  {
    if id in done then Run(done, [])
    else
      match ws.RetrieveDatabase(id)
      case Err(e) => Run(done + {id}, [Line(indent, DatabaseError(id, e.message))])
      case Ok(db) =>
        var header := Line(indent, DatabaseHeader(DatabaseTitle(db), id));
        PendingShrinks(ws, done, id);
        Then(Run(done + {id}, [header]), EntriesRun(ws, done + {id}, id, indent, 0))
  }

  /**
   * The query loop of process_database from the page of results at `cursor` on: each
   * entry dispatched at `indent + 2`, page after page while `has_more` holds; a failed
   * query appends one error line at `indent` and stops.
   */
  function EntriesRun(ws: Workspace, done: set<Id>, db: Id, indent: nat, cursor: nat): (r: Run)
    requires ws.Valid()
    ensures done <= r.processed
    decreases Pending(ws, done), 1, 0, 1, |ws.QueryDatabase(db)| - cursor
  {
    match Fetch(ws.QueryDatabase(db), cursor)
    case Err(e) => Run(done, [Line(indent, QueryError(db, e.message))])
    case Ok(batch) =>
      var first := DispatchRun(ws, done, batch.results, 0, indent + 2);
      if batch.hasMore then
        PendingMonotone(ws, done, first.processed);
        Then(first, EntriesRun(ws, first.processed, db, indent, cursor + 1))
      else first
  }

  /**
   * Database entries from position `i` on, in order, each to process_database if it
   * classifies as a database, else to process_page.
   */
  function DispatchRun(ws: Workspace, done: set<Id>, ids: seq<Id>, i: nat, indent: nat): (r: Run)
    requires ws.Valid() && i <= |ids|
    ensures done <= r.processed
    decreases Pending(ws, done), 1, 0, 0, |ids| - i
  {
    if i == |ids| then Run(done, [])
    else
      var first := DispatchOne(ws, done, ids[i], indent);
      PendingMonotone(ws, done, first.processed);
      Then(first, DispatchRun(ws, first.processed, ids, i + 1, indent))
  }

  /**
   * An id whose kind is checked first: processed as a database if it classifies as one,
   * and as a page otherwise (a page, and also an id of unknown kind).
   */
  function DispatchOne(ws: Workspace, done: set<Id>, id: Id, indent: nat): (r: Run)
    requires ws.Valid()
    ensures done <= r.processed && id in r.processed
    decreases Pending(ws, done), 0, 0, 0, 1
  {
    if IdentifyIdType(ws, id) == DatabaseType then DatabaseRun(ws, done, id, indent)
    else PageRun(ws, done, id, indent)
  }

  /** An id the database lookup rejects, whatever the reason, is processed as a page. */
  lemma DispatchOneCases(ws: Workspace, done: set<Id>, id: Id, indent: nat)
    requires ws.Valid()
    ensures ws.RetrieveDatabase(id).Ok? ==> DispatchOne(ws, done, id, indent) == DatabaseRun(ws, done, id, indent)
    ensures ws.RetrieveDatabase(id).Err? ==> DispatchOne(ws, done, id, indent) == PageRun(ws, done, id, indent)
  {
  }

  // ---------------------------------------------------------------- soundness of the traversal

  /** One line that is not a header. */
  lemma PlainLineSound(ws: Workspace, done: set<Id>, after: set<Id>, l: Line, indent: nat)
    requires !IsHeader(l) && l.indent >= indent && done <= after
    ensures Sound(ws, done, Run(after, [l]), indent)
  {
    assert forall m :: m in [l] ==> m == l;
  }

  lemma {:induction false} PageRunSound(ws: Workspace, done: set<Id>, id: Id, indent: nat)
    requires ws.Valid()
    ensures Sound(ws, done, PageRun(ws, done, id, indent), indent)
    decreases Pending(ws, done), 0, 0, 0, 0
  {
    if id !in done {
      match ws.RetrievePage(id)
      case Err(e) =>
        PlainLineSound(ws, done, done + {id}, Line(indent, PageError(id, e.message)), indent);
      case Ok(page) =>
        var header := Line(indent, PageHeader(PageTitle(page.properties), id));
        var head := Run(done + {id}, [header] + PropertyLines(page.properties, indent));
        HeaderFirstSound(ws, done, header, PropertyLines(page.properties, indent), indent);
        PendingShrinks(ws, done, id);
        var tree := WalkRun(ws, done + {id}, id, indent + 2, 0);
        WalkRunSound(ws, done + {id}, id, indent + 2, 0);
        SoundShallower(ws, head.processed, tree, indent + 2, indent);
        ThenSound(ws, done, head, tree, indent);
    }
  }

  lemma {:induction false} WalkRunSound(ws: Workspace, done: set<Id>, parent: Id, indent: nat, cursor: nat)
    requires ws.Valid()
    ensures Sound(ws, done, WalkRun(ws, done, parent, indent, cursor), indent)
    decreases Pending(ws, done), 1, ws.Height(parent), 1, |ws.ListChildren(parent)| - cursor
  {
    match Fetch(ws.ListChildren(parent), cursor)
    case Err(e) =>
      PlainLineSound(ws, done, done, Line(indent, ListingError(parent, e.message)), indent);
    case Ok(batch) =>
      BatchLower(ws, parent, cursor);
      var first := BlocksRun(ws, done, batch.results, 0, indent, ws.Height(parent));
      BlocksRunSound(ws, done, batch.results, 0, indent, ws.Height(parent));
      if batch.hasMore {
        PendingMonotone(ws, done, first.processed);
        WalkRunSound(ws, first.processed, parent, indent, cursor + 1);
        ThenSound(ws, done, first, WalkRun(ws, first.processed, parent, indent, cursor + 1), indent);
      }
  }

  lemma {:induction false} BlocksRunSound(ws: Workspace, done: set<Id>, blocks: seq<Block>, i: nat, indent: nat, bound: nat)
    requires ws.Valid()
    requires BelowBound(ws, blocks, bound) && i <= |blocks|
    ensures Sound(ws, done, BlocksRun(ws, done, blocks, i, indent, bound), indent)
    decreases Pending(ws, done), 1, bound, 0, |blocks| - i
  {
    if i < |blocks| {
      var first := BlockRun(ws, done, blocks[i], indent, bound);
      BlockRunSound(ws, done, blocks[i], indent, bound);
      PendingMonotone(ws, done, first.processed);
      BlocksRunSound(ws, first.processed, blocks, i + 1, indent, bound);
      ThenSound(ws, done, first, BlocksRun(ws, first.processed, blocks, i + 1, indent, bound), indent);
    }
  }

  lemma {:induction false} BlockRunSound(ws: Workspace, done: set<Id>, b: Block, indent: nat, bound: nat)
    requires ws.Valid()
    requires Descends(b) ==> ws.Height(b.id) < bound
    ensures Sound(ws, done, BlockRun(ws, done, b, indent, bound), indent)
    decreases Pending(ws, done), 1, bound, 0, 0
  {
    match b.kind
    case ChildPage(title) =>
      var head := Line(indent, ChildPageLine(title.GetOr(Untitled), b.id));
      PlainLineSound(ws, done, done, head, indent);
      var sub := DispatchOne(ws, done, b.id, indent + 2);
      DispatchOneSound(ws, done, b.id, indent + 2);
      SoundShallower(ws, done, sub, indent + 2, indent);
      ThenSound(ws, done, Run(done, [head]), sub, indent);
    case ChildDatabase(title) =>
      var head := Line(indent, ChildDatabaseLine(title.GetOr(UntitledDatabase), b.id));
      PlainLineSound(ws, done, done, head, indent);
      var sub := DatabaseRun(ws, done, b.id, indent + 2);
      DatabaseRunSound(ws, done, b.id, indent + 2);
      SoundShallower(ws, done, sub, indent + 2, indent);
      ThenSound(ws, done, Run(done, [head]), sub, indent);
    case Content(_, _) =>
      var text := BlockText(b.kind);
      var head := Run(done, if text != "" then [Line(indent, TextLine(text))] else []);
      if text != "" {
        PlainLineSound(ws, done, done, Line(indent, TextLine(text)), indent);
      }
      if b.hasChildren {
        var sub := WalkRun(ws, done, b.id, indent + 2, 0);
        WalkRunSound(ws, done, b.id, indent + 2, 0);
        SoundShallower(ws, done, sub, indent + 2, indent);
        ThenSound(ws, done, head, sub, indent);
      }
  }

  lemma {:induction false} DatabaseRunSound(ws: Workspace, done: set<Id>, id: Id, indent: nat)
    requires ws.Valid()
    ensures Sound(ws, done, DatabaseRun(ws, done, id, indent), indent)
    decreases Pending(ws, done), 0, 0, 0, 0
  {
    if id !in done {
      match ws.RetrieveDatabase(id)
      case Err(e) =>
        PlainLineSound(ws, done, done + {id}, Line(indent, DatabaseError(id, e.message)), indent);
      case Ok(db) =>
        var header := Line(indent, DatabaseHeader(DatabaseTitle(db), id));
        HeaderFirstSound(ws, done, header, [], indent);
        assert [header] + [] == [header];
        PendingShrinks(ws, done, id);
        EntriesRunSound(ws, done + {id}, id, indent, 0);
        ThenSound(ws, done, Run(done + {id}, [header]), EntriesRun(ws, done + {id}, id, indent, 0), indent);
    }
  }

  lemma {:induction false} EntriesRunSound(ws: Workspace, done: set<Id>, db: Id, indent: nat, cursor: nat)
    requires ws.Valid()
    ensures Sound(ws, done, EntriesRun(ws, done, db, indent, cursor), indent)
    decreases Pending(ws, done), 1, 0, 1, |ws.QueryDatabase(db)| - cursor
  {
    match Fetch(ws.QueryDatabase(db), cursor)
    case Err(e) =>
      PlainLineSound(ws, done, done, Line(indent, QueryError(db, e.message)), indent);
    case Ok(batch) =>
      var first := DispatchRun(ws, done, batch.results, 0, indent + 2);
      DispatchRunSound(ws, done, batch.results, 0, indent + 2);
      SoundShallower(ws, done, first, indent + 2, indent);
      if batch.hasMore {
        PendingMonotone(ws, done, first.processed);
        EntriesRunSound(ws, first.processed, db, indent, cursor + 1);
        ThenSound(ws, done, first, EntriesRun(ws, first.processed, db, indent, cursor + 1), indent);
      }
  }

  lemma {:induction false} DispatchRunSound(ws: Workspace, done: set<Id>, ids: seq<Id>, i: nat, indent: nat)
    requires ws.Valid() && i <= |ids|
    ensures Sound(ws, done, DispatchRun(ws, done, ids, i, indent), indent)
    decreases Pending(ws, done), 1, 0, 0, |ids| - i
  {
    if i < |ids| {
      var first := DispatchOne(ws, done, ids[i], indent);
      DispatchOneSound(ws, done, ids[i], indent);
      PendingMonotone(ws, done, first.processed);
      DispatchRunSound(ws, first.processed, ids, i + 1, indent);
      ThenSound(ws, done, first, DispatchRun(ws, first.processed, ids, i + 1, indent), indent);
    }
  }

  lemma {:induction false} DispatchOneSound(ws: Workspace, done: set<Id>, id: Id, indent: nat)
    requires ws.Valid()
    ensures Sound(ws, done, DispatchOne(ws, done, id, indent), indent)
    decreases Pending(ws, done), 0, 0, 0, 1
  {
    if IdentifyIdType(ws, id) == DatabaseType {
      DatabaseRunSound(ws, done, id, indent);
    } else {
      PageRunSound(ws, done, id, indent);
    }
  }

  /**
   * A whole run from the root with nothing processed yet: each id gets at most one
   * header, every id with a header is processed, the root is processed, and every
   * header names an id that the workspace can retrieve.
   */
  lemma CrawlHeadersOnce(ws: Workspace, root: Id)
    requires ws.Valid()
    ensures var r := DispatchOne(ws, {}, root, 0);
      && UniqueHeaders(r.lines)
      && root in r.processed
      && HeaderIds(r.lines) <= r.processed
      && HeaderIds(r.lines) <= ws.Universe()
  {
    DispatchOneSound(ws, {}, root, 0);
  }

  // ---------------------------------------------------------------- stepping through one page of results

  /**
   * One iteration of the loop over a page of blocks: with `emitted` written so far and
   * the blocks from `i` on still to do, doing block i leaves those from `i + 1` on.
   */
  lemma BlocksRunAdvance(ws: Workspace, target: Run, done: set<Id>, emitted: seq<Line>, blocks: seq<Block>, i: nat, indent: nat, bound: nat)
    requires ws.Valid() && BelowBound(ws, blocks, bound) && i < |blocks|
    requires target == Then(Run(done, emitted), BlocksRun(ws, done, blocks, i, indent, bound))
    ensures Descends(blocks[i]) ==> ws.Height(blocks[i].id) < bound
    ensures var step := BlockRun(ws, done, blocks[i], indent, bound);
      && done <= step.processed
      && target == Then(Run(step.processed, emitted + step.lines), BlocksRun(ws, step.processed, blocks, i + 1, indent, bound))
  {
    var step := BlockRun(ws, done, blocks[i], indent, bound);
    ThenRegroup(done, emitted, step, BlocksRun(ws, step.processed, blocks, i + 1, indent, bound));
  }

  /** The same for the loop over a page of database entries. */
  lemma DispatchRunAdvance(ws: Workspace, target: Run, done: set<Id>, emitted: seq<Line>, ids: seq<Id>, i: nat, indent: nat)
    requires ws.Valid() && i < |ids|
    requires target == Then(Run(done, emitted), DispatchRun(ws, done, ids, i, indent))
    ensures var step := DispatchOne(ws, done, ids[i], indent);
      && done <= step.processed
      && target == Then(Run(step.processed, emitted + step.lines), DispatchRun(ws, step.processed, ids, i + 1, indent))
  {
    var step := DispatchOne(ws, done, ids[i], indent);
    ThenRegroup(done, emitted, step, DispatchRun(ws, step.processed, ids, i + 1, indent));
  }

  // ---------------------------------------------------------------- one step of each function, by case

  /** A page that is retrieved: its header and property lines, then its block tree, walked after it is marked. */
  lemma PageRunRetrieved(ws: Workspace, done: set<Id>, id: Id, indent: nat)
    requires ws.Valid() && id !in done && ws.RetrievePage(id).Ok?
    ensures var props := ws.RetrievePage(id).value.properties;
      PageRun(ws, done, id, indent) ==
        Then(Run(done + {id}, [Line(indent, PageHeader(PageTitle(props), id))] + PropertyLines(props, indent)),
             WalkRun(ws, done + {id}, id, indent + 2, 0))
  {
  }

  /** A database that is retrieved: its header, then its entries, read after it is marked. */
  lemma DatabaseRunRetrieved(ws: Workspace, done: set<Id>, id: Id, indent: nat)
    requires ws.Valid() && id !in done && ws.RetrieveDatabase(id).Ok?
    ensures DatabaseRun(ws, done, id, indent) ==
      Then(Run(done + {id}, [Line(indent, DatabaseHeader(DatabaseTitle(ws.RetrieveDatabase(id).value), id))]),
           EntriesRun(ws, done + {id}, id, indent, 0))
  {
  }

  lemma WalkRunFetched(ws: Workspace, done: set<Id>, parent: Id, indent: nat, cursor: nat)
    requires ws.Valid()
    ensures var response := Fetch(ws.ListChildren(parent), cursor);
      && (response.Err? ==> WalkRun(ws, done, parent, indent, cursor) == Run(done, [Line(indent, ListingError(parent, response.error.message))]))
      && (response.Ok? ==> BelowBound(ws, response.value.results, ws.Height(parent)))
      && (response.Ok? ==>
            var first := BlocksRun(ws, done, response.value.results, 0, indent, ws.Height(parent));
            WalkRun(ws, done, parent, indent, cursor) ==
              if response.value.hasMore then Then(first, WalkRun(ws, first.processed, parent, indent, cursor + 1)) else first)
  {
    BatchLower(ws, parent, cursor);
  }

  lemma EntriesRunFetched(ws: Workspace, done: set<Id>, db: Id, indent: nat, cursor: nat)
    requires ws.Valid()
    ensures var response := Fetch(ws.QueryDatabase(db), cursor);
      && (response.Err? ==> EntriesRun(ws, done, db, indent, cursor) == Run(done, [Line(indent, QueryError(db, response.error.message))]))
      && (response.Ok? ==>
            var first := DispatchRun(ws, done, response.value.results, 0, indent + 2);
            EntriesRun(ws, done, db, indent, cursor) ==
              if response.value.hasMore then Then(first, EntriesRun(ws, first.processed, db, indent, cursor + 1)) else first)
  {
  }

  lemma BlockRunCases(ws: Workspace, done: set<Id>, b: Block, indent: nat, bound: nat)
    requires ws.Valid()
    requires Descends(b) ==> ws.Height(b.id) < bound
    ensures b.kind.ChildPage? ==>
      BlockRun(ws, done, b, indent, bound) ==
        Then(Run(done, [Line(indent, ChildPageLine(b.kind.pageTitle.GetOr(Untitled), b.id))]), DispatchOne(ws, done, b.id, indent + 2))
    ensures b.kind.ChildDatabase? ==>
      BlockRun(ws, done, b, indent, bound) ==
        Then(Run(done, [Line(indent, ChildDatabaseLine(b.kind.databaseTitle.GetOr(UntitledDatabase), b.id))]), DatabaseRun(ws, done, b.id, indent + 2))
    ensures b.kind.Content? && !b.hasChildren ==>
      BlockRun(ws, done, b, indent, bound) ==
        Run(done, if BlockText(b.kind) != "" then [Line(indent, TextLine(BlockText(b.kind)))] else [])
    ensures b.kind.Content? && b.hasChildren ==>
      BlockRun(ws, done, b, indent, bound) ==
        Then(Run(done, if BlockText(b.kind) != "" then [Line(indent, TextLine(BlockText(b.kind)))] else []), WalkRun(ws, done, b.id, indent + 2, 0))
  {
  }
}
