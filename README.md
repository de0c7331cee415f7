# sqlite-mcp virtual tables, modelled in Dafny

This project models the SQLite virtual-table layer of the sqlite-mcp
extension (`src/sqlite-mcp.c`). That layer sits between SQLite's pull-based
cursor protocol (xBestIndex, xFilter, xNext, xEof, xColumn, xRowid, xClose)
and a tool-protocol client. It has four cursor families:

- **`mcp_list_tools`, streaming** (`StreamTools`). Each xFilter opens a
  stream of tool descriptors. Each step polls the stream once, waiting at most
  100 ms. Each TOOL chunk is one row. An ERROR, DONE or unknown chunk ends the
  scan, and so does no chunk at all.
- **`mcp_call_tool`, streaming** (`CallToolStream`). Its planner accepts a
  function-style argument or equalities on both hidden columns. xFilter starts
  a streamed call and waits up to 5000 ms for the first chunk; later steps wait
  up to 1000 ms. Each TEXT chunk is a row. Only DONE or no chunk at all ends the
  scan.
- **`mcp_list_tools_respond`, cached** (`CachedTools`). The first successful xFilter
  fetches the tool list once and copies it into a per-table temporary table.
  After that, every scan reads that table through a prepared SELECT.
- **`mcp_call_tool_respond`, uncached** (`FreshResults`). Each xFilter makes
  one blocking call. The rows are the content items of the reply, read by
  index. Its planner binds the last equality on each hidden column.

**How the model is built.** Each cursor family has two parts:

- A pure `Cursor` datatype, plus the functions that say what xFilter and xNext
  do to it, given what the collaborator returned.
- A class with the C struct's fields. Its methods update those fields, and
  their contracts tie the new state to those functions.

The lemmas are stated over the functions. They cover the rows a whole scan
reads, when a plan is accepted and what xFilter then receives, when the tool
list is fetched, and which stream handles are released.

**The collaborator.** The tool-protocol client (`McpClient.Client`) is
scripted. It holds queues of replies and stream scripts, hands out fresh
positive stream ids, and keeps ghost logs of fetches, calls, polls and
releases. The JSON helpers on the other side of the foreign interface are
pure functions in `McpClient.JsonParser`. The SQLite connection used by the
cache is `CachedTools.Database`: a temporary table, plus a script of result
codes for the statements it runs.

**Where the model follows the code rather than the documented intent:**

- The cached table stores an absent descriptor field as `''` (`%Q` of `""`).
  So its columns show an empty string where the streaming table shows NULL.
- In the streaming call, an ERROR chunk does not end the scan. It yields a
  row whose text is NULL and leaves the rowid unchanged.
- Streams are released only by xClose, never when they run out.
- The check after the insert loop (`src/sqlite-mcp.c:825-828`) can never fire.
  The loop runs at least once and returns on the first failure.
- A freshly opened streaming cursor is zero-filled, so it has eof 0. A freshly
  opened `mcp_call_tool_respond` cursor has eof 1.
- The streaming call's planner handles function-style constraints. SQLite only
  produces them for a module with xFindFunction, and this module's is 0. The
  model keeps the branch as written.
- A collaborator failure ends the scan quietly with SQLITE_OK: the query
  returns no rows rather than an error. This covers a NULL or `{"error"...`
  reply to the cached table's fetch (`src/sqlite-mcp.c:744-757`), an ERROR
  chunk in the streaming tool list (`src/sqlite-mcp.c:262-266`) and a NULL
  reply in `mcp_call_tool_respond` (`src/sqlite-mcp.c:1052-1056`).

## Model

| member | source | states |
|---|---|---|
| SqliteHost.TwoArgumentPlan | src/sqlite-mcp.c:600-607 | a plan that hands over exactly two usable constraints as argvIndex 1 and 2 passes SQLite's usage check, and xFilter receives their two values in that order |
| SqliteHost.ArgvCountOfNone | src/sqlite-mcp.c:1156-1160 | a plan that writes no argvIndex hands xFilter no arguments |
| StreamTools.ToolsStreamCursor.NextImpl | src/sqlite-mcp.c:223-282 | drops the current data, then polls the stream once with a 100 ms bound; a TOOL chunk becomes the row and adds exactly 1 to rowid; anything else, or no chunk, sets eof and leaves rowid alone |
| StreamTools.ToolsStreamCursor.Next | src/sqlite-mcp.c:284-286 | xNext is one NextImpl step |
| StreamTools.ToolsStreamCursor.FilterAsWritten | src/sqlite-mcp.c:196-221 | a stream id of 0 gives SQLITE_ERROR with eof; otherwise rowid 0, eof 0, then the first poll; the previous stream id is overwritten without release; in handle terms, it holds `HeldAfter(old id, Filter(new id), false)` and releases nothing |
| StreamTools.ToolsStreamCursor.Filter | src/sqlite-mcp.c:196-221 | the same, after releasing the stream the cursor already held (exactly its id, if positive); it holds `HeldAfter(old id, Filter(new id), true)` and releases exactly `ReleasedBy` of that call, the facts `CorrectedConservesHandles` sums over a lifetime |
| StreamTools.ToolsStreamCursor.Close | src/sqlite-mcp.c:180-194 | releases the stream exactly once iff stream_id > 0, whether or not it was exhausted; the cursor then holds no stream (`HeldAfter(h, Close) == 0`) |
| StreamTools.ToolsStreamCursor.Open | src/sqlite-mcp.c:172-178 | a zero-filled cursor: no stream, no data, eof 0, rowid 0 |
| StreamTools.ToolsStreamCursor.Eof | src/sqlite-mcp.c:288-291 | xEof reports eof, and it is true exactly when the host reads no further row from the cursor, whatever the stream still holds |
| StreamTools.ToolsStreamCursor.Rowid | src/sqlite-mcp.c:334-338 | xRowid returns the cursor's rowid, which `QueryReadsLeadingTools` shows is k + 1 on row k |
| StreamTools.ToolsStreamCursor.Column | src/sqlite-mcp.c:293-332 | xColumn returns the field of column iCol of tool entry 0 of the current data; NULL without data, outside columns 0..5, or for an absent or empty field (whole-query form: `QueryColumnsAreToolFields`) |
| StreamTools.BestIndex | src/sqlite-mcp.c:340-343 | cost 10 whatever the constraints; idxNum and usage untouched |
| StreamTools.QueryColumnsAreToolFields | src/sqlite-mcp.c:293-332 | in a whole query, column i of row k is field i (name, title, description, inputSchema, outputSchema, annotations) of entry 0 of the k-th leading TOOL chunk; it is NULL when that chunk has no data, the field is absent or empty, or i is not 0..5 |
| StreamTools.ScanFollowsToolRun | src/sqlite-mcp.c:223-282 | from a live cursor, the scan yields one row per leading TOOL chunk, carrying its data, with rowids counting up by one |
| StreamTools.QueryReadsLeadingTools | src/sqlite-mcp.c:196-282 | a whole query reads nothing when the stream id is 0, and otherwise exactly the stream's leading TOOL chunks with rowids 1, 2, ... |
| StreamHandles.CorrectedConservesHandles | src/sqlite-mcp.c:180-221 | with release on re-filter, the handles released plus the one still held are exactly the handles issued |
| StreamHandles.CorrectedReleasesEachHandleOnce | src/sqlite-mcp.c:180-194 | when the positive ids issued are strictly increasing (failed starts with id 0 allowed anywhere), a corrected cursor that is finally closed releases every handle it was issued exactly once |
| StreamHandles.FreshIdsIssuedOnce | src/sqlite-mcp.c:206 | when positive ids are strictly increasing and failed starts (id 0) may come anywhere, each positive id is issued at most once |
| StreamHandles.RefilterLeaksAsWritten | src/sqlite-mcp.c:206 | as written, filter, re-filter, close issues {1, 2} and releases only {2} |
| CallToolStream.BestIndex | src/sqlite-mcp.c:573-621 | idxNum 1 and cost 100 iff a usable function-style constraint exists or usable equalities bind both column 1 and column 2, otherwise idxNum 0 and cost 1000000; each constraint's usage is UsageAt, unusable ones untouched |
| CallToolStream.ConsumedConstraintsAreOmitted | src/sqlite-mcp.c:586-607 | a constraint gets a positive argvIndex iff it is a usable function-style constraint or a usable equality on a hidden column; exactly those are omitted; unusable ones stay unused |
| CallToolStream.TableValuedCallPlan | src/sqlite-mcp.c:577-613 | with one usable equality per hidden column and no function-style constraint, the plan is accepted, passes SQLite's check, and xFilter receives (tool name, arguments) |
| CallToolStream.FunctionThenEqualitiesLeavesAGap | src/sqlite-mcp.c:588-604 | a function-style constraint followed by both equalities gets argvIndex 1, 3, 4, which SQLite's usage check rejects |
| CallToolStream.RepeatedEqualityIsRefused | src/sqlite-mcp.c:596-612 | two usable equalities on the same hidden column with no function-style constraint before them both get argvIndex 1 (or both 2), a usage SQLite refuses |
| CallToolStream.CallStreamCursor.Receive | src/sqlite-mcp.c:483-511 | no chunk or DONE sets eof; a TEXT chunk with data becomes the text and adds 1 to rowid; any other chunk changes nothing |
| CallToolStream.CallStreamCursor.FilterAsWritten | src/sqlite-mcp.c:440-515 | idxNum 0, fewer than two values, or a NULL value gives SQLITE_ERROR with eof and no call; a stream id of 0 gives SQLITE_ERROR; otherwise rowid 0, eof 0, one 5000 ms poll; the old stream and text are kept; it holds `HeldAfter(old id, c, false)` and releases nothing, where c is Filter(Some(new id)) when the stream was started and Filter(None) when the arguments were rejected |
| CallToolStream.CallStreamCursor.Filter | src/sqlite-mcp.c:440-515 | the same, after releasing the held stream and dropping the held text; it holds `HeldAfter(old id, c, true)` and releases exactly `ReleasedBy(old id, c, true)` |
| CallToolStream.CallStreamCursor.Next | src/sqlite-mcp.c:517-544 | drops the text, then polls once with a 1000 ms bound |
| CallToolStream.CallStreamCursor.Close | src/sqlite-mcp.c:425-438 | releases the stream exactly once iff stream_id > 0; the cursor then holds no stream |
| CallToolStream.CallStreamCursor.Open | src/sqlite-mcp.c:417-423 | a zero-filled cursor |
| CallToolStream.CallStreamCursor.Eof | src/sqlite-mcp.c:546-549 | xEof reports eof, and it is true exactly when the host reads no further row from the cursor, whatever the stream still holds |
| CallToolStream.CallStreamCursor.Rowid | src/sqlite-mcp.c:567-571 | xRowid returns the cursor's rowid, the count of TEXT chunks with data received so far (`QueryReadsLiveRun`) |
| CallToolStream.CallStreamCursor.Column | src/sqlite-mcp.c:551-565 | xColumn returns the current text for column 0, and NULL for column 0 without text and for every other column |
| CallToolStream.LiveLength | src/sqlite-mcp.c:497-500 | the number of polls before the first DONE or timeout: every earlier poll is live, and the one at that position ends the scan |
| CallToolStream.ScanFollowsLiveRun | src/sqlite-mcp.c:517-544 | from a live cursor, every poll before the first DONE or timeout is one row: a TEXT chunk's data, or NULL for any other chunk (ERROR included); rowid counts the TEXT chunks so far |
| CallToolStream.QueryReadsLiveRun | src/sqlite-mcp.c:440-544 | a whole query through the corrected xFilter (which reads the same rows as the source's on a cursor holding no text, such as a fresh one) reads nothing on rejected arguments or a failed start, and otherwise one row per poll before the first DONE or timeout |
| CallToolStream.RefilterShowsStaleTextAsWritten | src/sqlite-mcp.c:505-508 | as written, re-filtering a cursor that holds text "A", when the first new chunk is an ERROR, leaves a live row whose column 0 is still "A" |
| CallToolStream.RefilterStartsWithoutText | src/sqlite-mcp.c:505-508 | after the corrected filter, the cursor holds text only if the first new chunk is TEXT, and then it holds that chunk's text |
| CachedTools.FirstScanShowsToolList | src/sqlite-mcp.c:726-848 | in both versions, the xFilter that creates a clean cache and succeeds reads one row per tool of the reply it fetched, in order; column i of row k is tool k's field i ('' when absent), and columns past the sixth are NULL |
| CachedTools.SnapshotScanShowsTools | src/sqlite-mcp.c:834-848 | a successful SELECT over a table holding exactly the tool list reads those rows and fields, and nothing else |
| CachedTools.Snapshot | src/sqlite-mcp.c:786-806 | the rows the population inserts: row k has the six columns in the table's declared order, column j being tool k's field j, '' when absent |
| CachedTools.Database.ExecInsert | src/sqlite-mcp.c:795-806 | one INSERT: appends the row on success, and changes nothing but the result script on failure |
| CachedTools.ToolsTable.InsertTools | src/sqlite-mcp.c:786-823 | the insert loop equals InsertAll over the snapshot: one INSERT per tool, stopping at the first failure |
| CachedTools.ToolsCursor.FilterAsWritten | src/sqlite-mcp.c:726-848 | fetches only while table_created is 0; NULL, {"error"...}, zero tools or a failed CREATE/INSERT gives eof with table_created still 0; on success it sets table_created; then it prepares the SELECT and steps once, with eof iff no row |
| CachedTools.ToolsCursor.Filter | src/sqlite-mcp.c:726-848 | the same, but a population that fails part-way rolls its inserted rows back |
| CachedTools.ToolsCursor.Next | src/sqlite-mcp.c:850-861 | steps the statement and sets eof iff the step gave no row; with no statement it sets eof |
| CachedTools.ToolsCursor.Close | src/sqlite-mcp.c:717-724 | finalizes the statement |
| CachedTools.ToolsCursor.Open | src/sqlite-mcp.c:709-715 | a zero-filled cursor |
| CachedTools.ToolsCursor.Eof | src/sqlite-mcp.c:863-866 | xEof reports eof, and it is true exactly when the host reads no further row from the cursor |
| CachedTools.ToolsCursor.Rowid | src/sqlite-mcp.c:890-893 | xRowid returns 0 for every row |
| CachedTools.ToolsCursor.Column | src/sqlite-mcp.c:868-888 | xColumn returns field i of the statement's current row; NULL without a statement, at eof, or past the row's six columns (whole-query form: `QueryReadsTable`) |
| CachedTools.ToolsTable.Disconnect | src/sqlite-mcp.c:688-707 | drops the temporary table iff table_created is set; otherwise the connection is unchanged |
| CachedTools.ToolsTable.Connect | src/sqlite-mcp.c:668-686 | table_created starts at 0 |
| CachedTools.BestIndex | src/sqlite-mcp.c:895-898 | cost 1000 whatever the constraints |
| CachedTools.ScanReadsRowsFrom | src/sqlite-mcp.c:850-888 | a statement standing on row j is read from row j to the last, one cursor state per row |
| CachedTools.QueryReadsTable | src/sqlite-mcp.c:832-848 | the query half succeeds iff the prepare succeeds on an existing table; its scan then reads exactly the table's rows, each column giving the stored field; on failure the scan is empty |
| CachedTools.InsertAllAppends | src/sqlite-mcp.c:786-823 | the insert loop appends a prefix of the rows to the table, and all of them when it succeeds |
| CachedTools.CreatedOnlyAfterEveryInsert | src/sqlite-mcp.c:740-830 | table_created goes from 0 to 1 only in a filter that fetched a non-error reply with tools and inserted every tool's row after the rows already present |
| CachedTools.CorrectedPopulatesOnce | src/sqlite-mcp.c:740-830 | with rollback, the table holds no leftover rows while table_created is 0; the filter that sets it leaves exactly the fetched tool list |
| CachedTools.CreatedTableIsStable | src/sqlite-mcp.c:739-848 | once created, xFilter neither fetches nor changes the table, whatever the client would reply |
| CachedTools.CreationIsFinal | src/sqlite-mcp.c:739-830 | over any run of filters, once one sets table_created every later one sees the same rows and none fetches; only filters up to the first success fetch |
| CachedTools.CreatedRunKeepsTable | src/sqlite-mcp.c:739-848 | a run that starts on a created table fetches nothing and keeps its rows |
| CachedTools.PartialPopulationDuplicatesAsWritten | src/sqlite-mcp.c:786-822 | as written, a second INSERT that fails and then a clean retry leave three rows for a two-tool list, the first tool twice |
| CachedTools.PartialPopulationRolledBack | src/sqlite-mcp.c:786-822 | with rollback, the same failure and retry leave exactly the two tools |
| FreshResults.LastEq | src/sqlite-mcp.c:1131-1144 | the last usable equality on a column among the first n constraints, or -1 when there is none |
| FreshResults.BestIndex | src/sqlite-mcp.c:1124-1163 | idxNum 1 and cost 100 iff usable equalities bind column 1 and column 2, the last of each getting argvIndex 1 and 2 with omit; otherwise idxNum 0, cost 1000 and no usage written |
| FreshResults.PlanIsWellFormed | src/sqlite-mcp.c:1146-1160 | the planner's usage always passes SQLite's check; on an accepted plan xFilter receives the values of the last equality on tool_name and on arguments, in that order; on a rejected one it receives nothing |
| FreshResults.AcceptsIffBothBound | src/sqlite-mcp.c:1131-1146 | the plan is accepted iff some usable equality binds each hidden column |
| FreshResults.ResultsTable.Connect | src/sqlite-mcp.c:947-978 | with at least five arguments, arguments 3 and 4 are stored as the tool name and arguments; otherwise neither is stored |
| FreshResults.PlannedArgumentsResolve | src/sqlite-mcp.c:1025-1042 | with the host passing the planned argv: a complete stored pair is used as is; otherwise an accepted plan calls with the values of the last usable equalities on tool_name and arguments, and only when both are non-NULL; a rejected plan passes no values, so the call is refused |
| FreshResults.ResultsCursor.Filter | src/sqlite-mcp.c:1006-1075 | releases the previous reply; unresolved arguments give SQLITE_ERROR with eof and no call; otherwise one fresh call; a NULL reply or zero items give eof with SQLITE_OK; otherwise index 0 and eof 0 |
| FreshResults.ResultsCursor.Next | src/sqlite-mcp.c:1077-1086 | advances the index, and sets eof once the index reaches the content count |
| FreshResults.ResultsCursor.Open | src/sqlite-mcp.c:988-995 | a fresh cursor is zero-filled but already at eof |
| FreshResults.ResultsCursor.Eof | src/sqlite-mcp.c:1088-1091 | xEof reports eof, and on a cursor that is at eof or on an item (`Valid`, kept by `ValidIsKept`) it is true exactly when the host reads no further row |
| FreshResults.ResultsCursor.Rowid | src/sqlite-mcp.c:1118-1122 | xRowid returns the item index plus one |
| FreshResults.ResultsCursor.Column | src/sqlite-mcp.c:1093-1116 | xColumn returns the text of the current content item for column 0, NULL when the reply is missing, the index is past the items, or the text is absent or empty; every other column is NULL (whole-query form: `QueryReadsEveryItem`) |
| FreshResults.ResultsCursor.Close | src/sqlite-mcp.c:997-1004 | releases the reply |
| FreshResults.ValidIsKept | src/sqlite-mcp.c:988-1086 | xOpen, xFilter and xNext keep the cursor either at eof or on an item of a held reply |
| FreshResults.ScanReadsItemsFrom | src/sqlite-mcp.c:1077-1086 | from a cursor on item j, the scan reads items j to the last, one cursor state each |
| FreshResults.QueryReadsEveryItem | src/sqlite-mcp.c:1006-1122 | a whole query with arguments and a reply of n items reads exactly n rows; row k has rowid k + 1 and shows item k's text, NULL when absent or empty; unresolved arguments, a failed call or an empty reply read none, and only unresolved arguments give SQLITE_ERROR |

## Left out

- `src/lib.rs` is not part of this model. It is the network client: its transports, its background runtime and its global client. `McpClient.Client` stands in for it as a scripted oracle.
- The JSON helpers (`mcp_parse_tools_json`, `mcp_get_tool_field`, `mcp_parse_call_result_json`, `mcp_get_call_result_text`) are uninterpreted functions in `McpClient.JsonParser`. Their parsing is not modelled.
- `mcp_stream_wait` is not modelled as a real wait. It returns the next scripted chunk, and an exhausted script stands for a timeout. Its timeout is recorded but has no effect.
- The scalar functions (`mcp_version`, `mcp_connect`, `mcp_tools_json`, `mcp_call_tool_json`) and `sqlite3_mcp_init` only forward to the client or register the modules. They are not modelled.
- SQL text is not modelled: `sqlite3_mprintf`, `%Q` quoting and the per-table name of the temporary table. The statements are the `CachedTools` functions `CreateTable`, `InsertRow`, `DropTable` and `Prepare`.
- A prepared statement reads the rows the table held when it was prepared. That is faithful here, because no insert happens once any scan has prepared its SELECT.
- Memory allocation and release are not modelled: `sqlite3_malloc`/`sqlite3_free`, `mcp_free_string`, `mcp_stream_free_result` and the out-of-memory paths. The model keeps stream handles only, in the client's ghost log of releases.
- `sqlite3_declare_vtab`, the module tables, xConnect/xDisconnect of the three tables that only allocate and free, and the debug output are left out. They carry no behaviour.
- `mcp_stream_next` is declared in the source but never called, so it is left out.
- Rowids are unbounded integers. The source's 64-bit `sqlite_int64` cannot overflow at any row count a stream can reach.
- The planners model `estimatedCost` as an integer. Every value the source writes (10, 100, 1000, 1000000) is exact.
- The cached table and the streaming list are not related to each other. They read the tool list through two independent replies.

## Findings

| source | as written | input that shows it | evidently intended | confidence | as-written member | corrected member |
|---|---|---|---|---|---|---|
| src/sqlite-mcp.c:206 | xFilter stores the new stream id over the old one without calling `mcp_stream_cleanup`. SQLite re-filters a cursor whenever the table is the inner loop of a join, so every stream but the last leaks. | filter (id 1), filter again (id 2), close: ids 1 and 2 issued, only 2 released | release the held stream before starting a new one | not executed | StreamHandles.RefilterLeaksAsWritten | StreamHandles.CorrectedReleasesEachHandleOnce |
| src/sqlite-mcp.c:481-508 | The streaming call's xFilter has the same leak. It also keeps the previous scan's `current_text`, so when the first chunk of the new stream is not TEXT, the first row shows the old scan's text. | cursor holding text "A", re-filtered, first new chunk ERROR: column 0 is "A" | drop the held stream and text before starting the new call | not executed | CallToolStream.RefilterShowsStaleTextAsWritten | CallToolStream.RefilterStartsWithoutText |
| src/sqlite-mcp.c:786-822 | A failed INSERT returns with the rows already inserted still in the temporary table, and `table_created` still 0. The retry's CREATE IF NOT EXISTS keeps them and appends the whole list again. | two tools, second INSERT fails, then a clean retry: the table holds a, a, b | a failed population leaves no rows behind (one transaction, rolled back on failure) | not executed | CachedTools.PartialPopulationDuplicatesAsWritten | CachedTools.PartialPopulationRolledBack |
