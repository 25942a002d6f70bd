# Notion RAG pipeline — a Dafny model

This project models the logic of a small retrieval-augmented question-answering
pipeline built on a Notion workspace. It has five parts, one per script:

- **The crawler** (`app/notion_scraper.py`). It walks a Notion workspace from a root
  page or database and writes one indented text line per page header, property, block
  text, child link and error.
  - Pages, databases and block children are read page by page (`has_more`).
  - A set of processed ids stops it from visiting a page or database twice.
- **The chunkers.**
  - `app/json_chunks.py` cuts the extracted text into groups of 800 words.
  - `app/json_chunks_embeddings.py` cuts it into overlapping windows of 500 tokens
    that step by 450.
  - Each chunk becomes a numbered document.
- **The uploader** (`app/upload_to_azure_search_notion.py`).
  - It detects the embedding dimension and decides whether the search index must be
    created or recreated.
  - It keeps only the documents whose vector has that dimension, filling in default
    metadata.
  - It uploads them in batches. The batch size halves when the service rejects a
    payload as too large.
- **The question endpoint** (`app/app_api.py`). It packs the search hits into a context
  under a character budget and lists every hit as a source.

The remote services are modelled as values or parameters:

- the Notion workspace is a fixed in-memory value (`NotionWorkspace.Workspace`);
- the search service's answers to upload requests are a script of outcomes;
- the tokenizer's decoding, the vector search and the chat model are function
  parameters.

Module layout:

| file | module | what it holds |
|---|---|---|
| common.dfy | Common | Option, `join`, `strip`, `split`, fixed-size groups, decimal rendering |
| notion_json.dfy | NotionJson | the JSON objects the crawler reads and its pure text helpers |
| notion_workspace.dfy | NotionWorkspace | the workspace, paginated listings, `identify_id_type` |
| notion_crawl_spec.dfy | NotionCrawlSpec | what each crawler procedure appends and marks, as functions, and what they guarantee |
| notion_pagination.dfy | NotionPagination | paging through a listing equals handling its drained items in order |
| notion_crawler.dfy | NotionCrawler | the crawler as a class whose state is `processed_ids` and `output_lines` |
| azure_upload.dfy | AzureUpload | dimension detection, document transformation, index decision, batch upload loop |
| token_chunks.dfy | TokenChunks | the token-window chunker and the numbered documents |
| word_chunks.dfy | WordChunks | the word chunker and its documents |
| rag_api.dfy | RagApi | `build_context` and the `/chat` endpoint |

How the crawler is modelled:

- The crawler's methods change the class state in place. Each is proved to leave exactly
  the state that the matching function in `NotionCrawlSpec` describes, so the crawl's
  properties are proved once, about those functions.
- Block recursion terminates because `Workspace.Valid()` bounds the height of every
  block subtree the walker descends into.
- Page and database recursion terminates because an id is marked processed before the
  crawler descends into it.

## Model

| member | source | states |
|---|---|---|
| Common.Chunks | app/upload_to_azure_search_notion.py:132-133 | the groups `items[i:i+size]` concatenate back to the items; each is non-empty and at most `size` long; all but the last are exactly `size` long |
| Common.ChunksCount | app/json_chunks.py:14-17 | there are ceil(len / size) groups |
| Common.Words | app/json_chunks.py:10 | `split()` yields non-empty words without whitespace |
| Common.StripEmptyIffAllSpace | app/json_chunks_embeddings.py:59-60 | `strip()` gives "" exactly when the text is all whitespace |
| Common.OrElse | app/notion_scraper.py:71 | `s or default` is `s` when `s` is non-empty and exactly `default` when `s` is empty |
| Common.Spaces | app/notion_scraper.py:143 | the indentation `" " * n` is n spaces |
| Common.NatToString | app/json_chunks.py:29 | `str(i)` is a non-empty run of decimal digits without a leading zero, and those digits spell `i` (DecimalValue) |
| NotionJson.RemoveHyphens | app/notion_scraper.py:41 | the result has no hyphen and is no longer than the input |
| NotionJson.HyphenateRoundTrip | app/notion_scraper.py:44 | removing the hyphens of the 8-4-4-4-12 layout gives the 32-character id back |
| NotionJson.HyphenatePositions | app/notion_scraper.py:44 | the layout is 36 long with hyphens exactly at 8, 13, 18 and 23 |
| NotionJson.NormalizeId | app/notion_scraper.py:40-44 | the hyphen-free form of the result is that of the input; an id whose hyphen-free form is not 32 characters long is returned unchanged, and otherwise the result is 36 long |
| NotionJson.NormalizeIdShape | app/notion_scraper.py:40-44 | a 32-character hyphen-free form gives hyphens exactly at 8, 13, 18 and 23, and removing them gives that form back; any other id is returned unchanged |
| NotionJson.NormalizeIdIdempotent | app/notion_scraper.py:40-44 | normalizing twice equals normalizing once |
| NotionJson.FlattenIsConcat | app/notion_scraper.py:46-49 | the flattened text is the parts' `plain_text` laid end to end in order, a missing one counting as "" |
| NotionJson.FlattenAppend | app/notion_scraper.py:49 | flattening distributes over concatenation of the parts |
| NotionJson.FlattenExample | app/notion_scraper.py:46-49 | "Hello ", a part without text, and "world" flatten to "Hello world" |
| NotionJson.FirstTitle | app/notion_scraper.py:69-70 | the position found is that of the first title-typed property, or the end when there is none |
| NotionJson.PageTitle | app/notion_scraper.py:67-72 | the page title is never empty, and it is "(untitled)" when no property is title-typed |
| NotionJson.PageTitleIsFirst | app/notion_scraper.py:69-71 | the title is the first title property's text, or "(untitled)" when that text is empty |
| NotionJson.DatabaseTitle | app/notion_scraper.py:74-75 | the database title is never empty; it is the flattened title whenever that is non-empty, and "(untitled database)" when it is empty |
| NotionJson.PropertyTextRules | app/notion_scraper.py:77-110 | a null payload renders as a parse-error string instead of raising; an unknown type renders as ""; select and status give the option's name, "" when missing; multi_select and people join the names, and relation the ids, with ", ", "" when missing; checkbox gives "True"/"False", "False" when missing; a date renders "start -> end" only when an end is present |
| NotionJson.BlockTextRule | app/notion_scraper.py:112-125 | a text block gives its rich-text parts' plain texts laid end to end, "" without a `rich_text` key; a child page or child database block gives "" |
| NotionWorkspace.IdentifyIdType | app/notion_scraper.py:51-65 | "database" iff the database lookup succeeds; "page" iff that lookup fails with object_not_found or validation_error and the page lookup succeeds; any other database error gives "unknown" at once |
| NotionWorkspace.DrainComplete | app/notion_scraper.py:166-214 | a listing whose pages all succeed, with `has_more` on all but the last, is read completely, every item once, page after page |
| NotionWorkspace.DrainThreePages | app/notion_scraper.py:212-214 | three pages of two items each are read as all six items, in order |
| NotionWorkspace.DrainStopsAtError | app/notion_scraper.py:168-173 | a failing page request ends the listing with that error |
| NotionWorkspace.ListedBlocksAreLower | app/notion_scraper.py:209-210 | every block the walker descends into is lower than the block whose children list it |
| NotionCrawlSpec.PropertyLines | app/notion_scraper.py:153-157 | one `- name: value` line per property with non-empty text, at the page's indent |
| NotionCrawlSpec.PropertyLinesAppend | app/notion_scraper.py:153-157 | a property added at the end adds its `- name: value` line at the end when its text is non-empty, and nothing otherwise |
| NotionCrawlSpec.Shown | app/notion_scraper.py:154-156 | the properties kept are exactly those of the page whose text is non-empty |
| NotionCrawlSpec.PropertyLinesAreShown | app/notion_scraper.py:153-157 | line k of the property lines names the k-th property with non-empty text and carries that text, and there are no other lines |
| NotionCrawlSpec.PageRun | app/notion_scraper.py:133-162 | processed ids only grow and include the page; an already processed id changes nothing; a failed retrieve adds one error line and marks the id |
| NotionCrawlSpec.DatabaseRun | app/notion_scraper.py:216-233 | processed ids only grow and include the database; an already processed id changes nothing; a failed retrieve adds one error line and marks the id |
| NotionCrawlSpec.WalkRun | app/notion_scraper.py:164-214 | walking a block's children only adds to the processed ids |
| NotionCrawlSpec.BlocksRun | app/notion_scraper.py:175-210 | the blocks of a page of children only add to the processed ids |
| NotionCrawlSpec.BlockRun | app/notion_scraper.py:176-210 | one block only adds to the processed ids |
| NotionCrawlSpec.EntriesRun | app/notion_scraper.py:235-260 | the query loop only adds to the processed ids |
| NotionCrawlSpec.DispatchRun | app/notion_scraper.py:246-256 | the entries of a page of results only add to the processed ids |
| NotionCrawlSpec.DispatchOne | app/notion_scraper.py:251-256 | a dispatched id is processed afterwards, and the set only grows |
| NotionCrawlSpec.DispatchOneCases | app/notion_scraper.py:252-256 | an id the database lookup accepts goes to process_database; any other id, unknown included, goes to process_page |
| NotionCrawlSpec.PageRunSound | app/notion_scraper.py:133-162 | process_page emits headers only for ids it newly marks and that can be retrieved, never two headers for one id, and nothing left of its indent |
| NotionCrawlSpec.DatabaseRunSound | app/notion_scraper.py:216-260 | the same for process_database |
| NotionCrawlSpec.WalkRunSound | app/notion_scraper.py:164-214 | the same for the children walk |
| NotionCrawlSpec.BlocksRunSound | app/notion_scraper.py:175-211 | the same for one page of children |
| NotionCrawlSpec.BlockRunSound | app/notion_scraper.py:176-210 | the same for one block, whose nested calls are indented two further |
| NotionCrawlSpec.EntriesRunSound | app/notion_scraper.py:235-260 | the same for the query loop |
| NotionCrawlSpec.DispatchRunSound | app/notion_scraper.py:246-256 | the same for one page of database entries |
| NotionCrawlSpec.DispatchOneSound | app/notion_scraper.py:251-256 | the same for one classified id |
| NotionCrawlSpec.CrawlHeadersOnce | app/notion_scraper.py:135-159 | a crawl from an empty processed set gives each id at most one `# Page:` or `# Database:` header; every header id is processed and retrievable, and so is the root |
| NotionPagination.EntriesRunDrains | app/notion_scraper.py:235-260 | the query loop dispatches every entry of every page once, in listing order, and a failed query adds one error line after them |
| NotionPagination.WalkRunDrains | app/notion_scraper.py:164-214 | the children walk handles every block of every page once, in listing order, and a failed listing adds one error line and ends that listing only |
| NotionCrawler.Crawler.constructor | app/notion_scraper.py:29-35 | the crawler starts from the saved processed ids and no output lines |
| NotionCrawler.Crawler.Crawl | app/notion_scraper.py:266-279 | the normalized root is processed as a database if it is one and as a page otherwise; the new state is that of DispatchOne |
| NotionCrawler.Crawler.ProcessPage | app/notion_scraper.py:133-162 | the processed set and the appended lines are exactly PageRun's |
| NotionCrawler.Crawler.AppendProperties | app/notion_scraper.py:153-157 | the appended lines are exactly the rendered PropertyLines; the processed set is unchanged |
| NotionCrawler.Crawler.WalkChildren | app/notion_scraper.py:164-214 | the processed set and the appended lines are exactly WalkRun's from the first cursor |
| NotionCrawler.Crawler.ProcessBlocks | app/notion_scraper.py:175-211 | the processed set and the appended lines are exactly BlocksRun's |
| NotionCrawler.Crawler.ProcessBlock | app/notion_scraper.py:176-210 | the processed set and the appended lines are exactly BlockRun's |
| NotionCrawler.Crawler.ProcessDatabase | app/notion_scraper.py:216-260 | the processed set and the appended lines are exactly DatabaseRun's |
| NotionCrawler.Crawler.DispatchEntries | app/notion_scraper.py:246-256 | the processed set and the appended lines are exactly DispatchRun's |
| NotionCrawler.Crawler.Dispatch | app/notion_scraper.py:251-256 | the processed set and the appended lines are exactly DispatchOne's |
| AzureUpload.Vector | app/upload_to_azure_search_notion.py:107 | the vector is `embedding` when that is truthy and `contentVector` otherwise |
| AzureUpload.VectorLength | app/upload_to_azure_search_notion.py:36-37 | a document has a vector length iff its vector is a non-empty list, and then it is that list's positive length |
| AzureUpload.DetectEmbeddingDim | app/upload_to_azure_search_notion.py:31-39 | None (the ValueError) iff no document has a non-empty vector list; otherwise the positive length of the first document that has one |
| AzureUpload.Transform | app/upload_to_azure_search_notion.py:105-122 | a present title, content, source or filename is copied and a missing one becomes "", "", "notion" or the file's name; index is copied, else chunk_index, else 0; id and vector are copied |
| AzureUpload.Kept | app/upload_to_azure_search_notion.py:104-110 | the kept documents are no more than the input and all have a vector of the expected length |
| AzureUpload.LoadAndTransformDocuments | app/upload_to_azure_search_notion.py:97-128 | the result is the transform of exactly the kept documents, in order, and kept plus skipped is the input count |
| AzureUpload.KeptAppend | app/upload_to_azure_search_notion.py:104-124 | filtering keeps order: the kept documents of a concatenation are those of each part in turn |
| AzureUpload.KeptExactly | app/upload_to_azure_search_notion.py:108-110 | a document is kept iff it is an input document whose vector has the expected length |
| AzureUpload.KeptAll | app/upload_to_azure_search_notion.py:108-110 | when every vector has the expected length, nothing is skipped |
| AzureUpload.TransformedDimension | app/upload_to_azure_search_notion.py:108-117 | every transformed vector has the expected dimension |
| AzureUpload.EnsureIndexAction | app/upload_to_azure_search_notion.py:50-63 | create iff there is no index; recreate iff its dimension is known and differs; keep iff it is unknown or equal |
| AzureUpload.EnsureIndexCompatible | app/upload_to_azure_search_notion.py:52-94 | afterwards an index exists whose dimension is the data's or unknown; a compatible index is left as it was, and a missing or mismatched one is replaced by an index of the data's dimension |
| AzureUpload.ChunkIter | app/upload_to_azure_search_notion.py:130-133 | a zero size raises (None) and a negative one yields nothing; otherwise the chunks concatenate back to the items and all but the last have exactly `size` items |
| AzureUpload.UploadInBatches | app/upload_to_azure_search_notion.py:135-171 | no documents means no request; each request sends `documents[i:min(i+batch_size,total)]` and follows from the previous answer; it ends with all documents done, a re-raised error, or no answer left |
| AzureUpload.AttemptEffect | app/upload_to_azure_search_notion.py:147-171 | success advances the cursor; too large halves the batch (floored, at least 1) or skips one document at size 1; 429, 502, 503 and transport errors retry unchanged; anything else is raised |
| AzureUpload.TraceMonotone | app/upload_to_azure_search_notion.py:142-162 | the cursor never moves back and the batch size never grows past the initial one |
| AzureUpload.TraceMovesOn | app/upload_to_azure_search_notion.py:144-161 | after a batch is uploaded or skipped, every later request starts at or after its end |
| AzureUpload.NoDocumentTwice | app/upload_to_azure_search_notion.py:144-161 | no document is in two uploaded or skipped batches |
| AzureUpload.TraceSteps | app/upload_to_azure_search_notion.py:145-162 | every batch is non-empty and within bounds; a skip covers exactly one document; a halving shrinks the size and keeps the cursor |
| AzureUpload.TraceCovers | app/upload_to_azure_search_notion.py:144-162 | every document before a request's cursor was in an earlier uploaded or skipped batch |
| AzureUpload.DoneCoversAll | app/upload_to_azure_search_notion.py:144-171 | when the loop finishes, every document was uploaded or skipped |
| TokenChunks.NonBlank | app/json_chunks_embeddings.py:59-61 | no kept chunk is empty and there are no more chunks than windows |
| TokenChunks.ChunkText | app/json_chunks_embeddings.py:51-63 | chunk_text returns the stripped, non-blank decoded windows of step `chunk_size - overlap`, in window order |
| TokenChunks.ChunkWindows | app/json_chunks_embeddings.py:54-63 | the loop appends exactly the non-blank texts of the windows from start 0 |
| TokenChunks.OffsetIsMultiple | app/json_chunks_embeddings.py:62 | window k starts at k times the step |
| TokenChunks.WindowShape | app/json_chunks_embeddings.py:56-58 | window k exists iff its start is below the token count, and it is `tokens[start:start+chunk_size]` |
| TokenChunks.WindowSizes | app/json_chunks_embeddings.py:57-58 | every window has at most `chunk_size` tokens and, for a positive size, at least one |
| TokenChunks.WindowsCover | app/json_chunks_embeddings.py:56-62 | with a non-negative overlap every token lies in some window |
| TokenChunks.WindowsOverlap | app/json_chunks_embeddings.py:56-62 | consecutive windows share `overlap` tokens, fewer where the tokens run out |
| TokenChunks.NoTokensNoChunks | app/json_chunks_embeddings.py:56 | no tokens give no chunks |
| TokenChunks.NonBlankAppend | app/json_chunks_embeddings.py:59-61 | dropping blank windows keeps window order |
| TokenChunks.NonBlankOne | app/json_chunks_embeddings.py:59-61 | a window gives a chunk iff its decoded text is not all whitespace, and the chunk is that text stripped |
| TokenChunks.StartStalls | app/json_chunks_embeddings.py:56-62 | with `chunk_size <= overlap`, `start` never becomes positive, so the loop never ends on a non-empty token list |
| TokenChunks.BuildDocuments | app/json_chunks_embeddings.py:84-96 | document i holds chunk i, its embedding, source "notion" and chunk_index i |
| TokenChunks.UploadKeepsNumbering | app/json_chunks_embeddings.py:88-96 | when every embedding has the detected dimension, the uploader keeps every chunk document; uploaded document i has content chunk i, title "", and metadata "notion", the file name and index i |
| WordChunks.DividirEnChunks | app/json_chunks.py:9-20 | the loop returns the word groups of size `max_palabras`, each joined with single spaces |
| WordChunks.WordsOfJoin | app/json_chunks.py:17 | splitting words joined with single spaces gives the words back |
| WordChunks.WordChunksRoundTrip | app/json_chunks.py:10-17 | the chunks' words, in chunk order, are exactly `texto.split()` |
| WordChunks.ChunkWords | app/json_chunks.py:15-17 | the words of chunk k are group k |
| WordChunks.WordChunksSizes | app/json_chunks.py:15-16 | every chunk has between 1 and `max_palabras` words, and all but the last have exactly `max_palabras` |
| WordChunks.WordChunksCount | app/json_chunks.py:14-17 | there are ceil(words / max_palabras) chunks, and none for blank text |
| WordChunks.SliceStepStalls | app/json_chunks.py:14-16 | with `max_palabras == 0` any non-empty word list, and with a negative size one no longer than `-max_palabras`, is left as it was, so the loop never ends |
| WordChunks.SliceStepNegative | app/json_chunks.py:15-16 | with a negative `max_palabras` one step leaves at most `-max_palabras` words |
| WordChunks.PrepararDocumentos | app/json_chunks.py:22-39 | one document per chunk; document i has title "Fragmento {i+1}", content chunk i, and metadata "notion", the input file and index i |
| RagApi.BuildContext | app/app_api.py:93-108 | the context is the collected pieces joined with blank lines |
| RagApi.PiecesFewer | app/app_api.py:97-107 | there are no more pieces than non-empty contents |
| RagApi.PiecesArePrefixes | app/app_api.py:97-107 | piece j is a non-empty prefix of the j-th non-empty content, in hit order |
| RagApi.PiecesWholeButLast | app/app_api.py:101-107 | every piece but the last is its whole content: only the last can be cut |
| RagApi.PiecesWithinRoom | app/app_api.py:101-107 | the pieces hold at most the room the budget leaves |
| RagApi.PiecesFillRoom | app/app_api.py:101-107 | the scan stops before the non-empty contents run out only when the budget is used up exactly |
| RagApi.ContextWithinBudget | app/app_api.py:96-107 | the pieces hold at most max(0, budget) characters |
| RagApi.NoBudgetNoContext | app/app_api.py:101-108 | a budget of zero or less gives the empty context |
| RagApi.EmptyHitsSkipped | app/app_api.py:98-100 | hits with empty or missing content are passed over without ending the scan |
| RagApi.TopK | app/app_api.py:131 | `top_k` is 5 when absent, null or 0 and the given value otherwise |
| RagApi.Hybrid | app/app_api.py:132 | the hybrid flag holds iff it was given as true |
| RagApi.MaxContext | app/app_api.py:133 | the budget is 12000 when absent, null or 0 and the given value otherwise |
| RagApi.BuildSources | app/app_api.py:138-144 | one source per hit in hit order, with its id and metadata, its title or "", and the first 300 characters of its content |
| RagApi.Chat | app/app_api.py:127-146 | the search runs with the defaulted settings; the answer is asked for with the context built under the defaulted budget; there is one source per hit, in hit order, with the hit's id, metadata and title ("" when missing) and the first 300 characters of its content |

## Left out

- Every call to the Notion API, Azure AI Search, Azure OpenAI and tiktoken. The
  workspace is a value, the upload answers are a list, and the decoder, search and
  chat model are parameters. Embedding generation and tokenization happen outside the
  model, whose inputs are the resulting vectors and token lists.
- File I/O: reading and writing `processed_ids.json`, the output text, and the chunk
  and document JSON files. Loading `.env`, the environment checks, `print`/`log`, and
  the `time.sleep` backoff are also left out.
- `uuid.uuid4()` document ids. They are given as parameters (TokenChunks.BuildDocuments)
  or omitted (WordChunks.PrepararDocumentos).
- The root fallback of the crawler's main block (app/notion_scraper.py:280-284). It
  runs only if `process_page` raises something other than an API error, which the model
  has no way to do.
- Python's `str()` of a number property. It is carried as a given string
  (`NumberValue.shown`).
- Error message texts. They are opaque strings.
- `current_index_vector_dim` and the index schema built in `ensure_index`. The existing
  index is reduced to its vector dimension, None when it cannot be read.
- The FastAPI application, CORS, the pydantic models, and the HTTP 500 wrapper around
  `chat`.
- JSON `null` versus a missing key in the uploader's metadata. An explicit null
  `source`, `filename` or `index` is read as missing, so it gets the default where
  Python would keep null.
- The elements of a vector list are modelled as numbers. A list of other values
  counts as a list of that length, which is what the length check sees.
- AzureUpload.UploadInBatches: requires `initial_batch_size >= 1`, so both 0 and
  negative sizes are excluded. With 0 the source sends empty batches forever. With a
  negative size `end` falls below `i`: Python's slice counts a negative end from the
  back, and a successful upload moves the cursor backwards. The service's answers are a finite list, and when they
  run out the model stops with OutOfAnswers, which the source has no counterpart for.
- TokenChunks.ChunkText: requires `overlap < chunk_size`, since otherwise the source
  loops forever on a non-empty token list (TokenChunks.StartStalls); with no tokens it
  returns [] at once. `chunk_size` is a nat, so Python's slicing
  with a negative end is not modelled.
- WordChunks.DividirEnChunks: requires `max_palabras > 0`, since otherwise the source
  loops forever on text with at least one word (WordChunks.SliceStepStalls); blank text
  gives [] at once.
- JSON `null` for the `plain_text` of a rich-text part, the `name` of a named option or
  person, and the `id` of a relation. The model reads each as missing and uses "".
  Python differs for some of them:
  - A null select or status `name` comes back as None. The crawler skips it just as it
    skips "".
  - A null element in a multi_select, people or relation join raises a TypeError, and
    extract_property_text renders it as a parse-error text.
  - A null `plain_text` raises in flatten_rich_text. Within a property that gives the
    parse-error text.
  - In a page title or block text the same raise is caught nowhere. This covers
    process_page, and the entry loop of process_database, which reads each entry's
    title (app/notion_scraper.py:248). The exception reaches the main block.
  - If the root was classified as a page or a database, the script then ends before
    writing the output and processed-id files (app/notion_scraper.py:286-291).
  - Only an unknown root reaches the fallback at app/notion_scraper.py:278-284.
  - The Notion API does not send these nulls.
- JSON `null` for the `title` of a child_page or child_database block. The model reads
  it as missing and writes "(untitled)" or "(untitled database)". Python's `.get`
  returns None there, so the line reads `## Child page: None (ID: …)` or
  `## Child database: None (ID: …)` (app/notion_scraper.py:182, 197).
- A date payload without `start`. The model's date always has a start string.
  Python's `d.get("start", "")` gives "" when there is no end. With an end, the
  f-string gives "None -> end" (app/notion_scraper.py:99).
- The crawler has no linked-database handling, and an id that classifies as unknown is
  processed as a page, not skipped.
