/**
 * The cached tool-list table (mcp_list_tools_respond): the first successful xFilter
 * fetches the whole tool list once, copies it into a temporary table, and
 * marks the table created; every scan, that one and all later ones, then
 * reads the temporary table through an ordinary prepared statement.
 */
module CachedTools {
  import opened Wrappers
  import opened SqliteHost
  import opened McpClient

  /** The one cost the planner reports, whatever the constraints. */
  const PLAN_COST := 1000

  /** A row of the temporary table: name, title, description, inputSchema, outputSchema, annotations. */
  type Row = seq<string>

  /** A descriptor field as it is inserted: an absent field becomes the empty string. */
  function FieldText(p: JsonParser, json: string, i: nat, f: ToolField): string
  {
    p.toolField(json, i, f).GetOr("")
  }

  /** The row inserted for tool i of the reply. */
  function ToolRow(p: JsonParser, json: string, i: nat): Row
  {
    [FieldText(p, json, i, Name), FieldText(p, json, i, Title), FieldText(p, json, i, Description),
     FieldText(p, json, i, InputSchema), FieldText(p, json, i, OutputSchema), FieldText(p, json, i, Annotations)]
  }

  /** Reference: the rows of the whole tool list, in the reply's order. */
  function Snapshot(p: JsonParser, json: string): (rows: seq<Row>)
    ensures forall i, j :: 0 <= i < |rows| && 0 <= j < |TOOL_COLUMNS| ==>
      |rows[i]| == |TOOL_COLUMNS| && rows[i][j] == FieldText(p, json, i, TOOL_COLUMNS[j])
  {
    seq(p.toolCount(json), (i: int) requires 0 <= i => ToolRow(p, json, i))
  }

  // ---------------------------------------------------------------------------
  // The database connection, as far as the cache uses it

  /**
   * The temporary table (None while it does not exist) and the result codes
   * the next statements will return; once the script is exhausted every
   * statement succeeds. A statement that fails changes nothing.
   */
  datatype Store = Store(table: Option<seq<Row>>, rcs: seq<int>)

  /** The result code of the next statement. */
  function NextRc(rcs: seq<int>): int
  {
    if |rcs| == 0 then SQLITE_OK else rcs[0]
  }

  /** CREATE TEMP TABLE IF NOT EXISTS: an existing table keeps its rows. */
  function CreateTable(s: Store): (Store, int)
  {
    var rc := NextRc(s.rcs);
    if rc != SQLITE_OK then (s.(rcs := Tail(s.rcs)), rc)
    else (Store(if s.table.None? then Some([]) else s.table, Tail(s.rcs)), SQLITE_OK)
  }

  /** INSERT of one row; it fails on a missing table. */
  function InsertRow(s: Store, row: Row): (Store, int)
  {
    var rc := NextRc(s.rcs);
    if rc != SQLITE_OK then (s.(rcs := Tail(s.rcs)), rc)
    else if s.table.None? then (s.(rcs := Tail(s.rcs)), SQLITE_ERROR)
    else (Store(Some(s.table.value + [row]), Tail(s.rcs)), SQLITE_OK)
  }

  /** The insert loop: one INSERT per row, stopping at the first failure. */
  function InsertAll(s: Store, rows: seq<Row>): (Store, int)
    decreases |rows|
  {
    if |rows| == 0 then (s, SQLITE_OK)
    else
      var (s1, rc) := InsertRow(s, rows[0]);
      if rc != SQLITE_OK then (s1, rc) else InsertAll(s1, rows[1..])
  }

  /** DROP TABLE IF EXISTS. */
  function DropTable(s: Store): (Store, int)
  {
    var rc := NextRc(s.rcs);
    if rc != SQLITE_OK then (s.(rcs := Tail(s.rcs)), rc)
    else (Store(None, Tail(s.rcs)), SQLITE_OK)
  }

  /**
   * A prepared SELECT * over the table: the rows it was prepared on, and how
   * many times it has been stepped.
   */
  datatype Stmt = Stmt(rows: seq<Row>, stepped: nat)

  /** sqlite3_prepare_v2 of the SELECT: no statement if it fails or the table is missing. */
  function Prepare(s: Store): (Store, int, Option<Stmt>)
  {
    var rc := NextRc(s.rcs);
    if rc != SQLITE_OK then (s.(rcs := Tail(s.rcs)), rc, None)
    else if s.table.None? then (s.(rcs := Tail(s.rcs)), SQLITE_ERROR, None)
    else (s.(rcs := Tail(s.rcs)), SQLITE_OK, Some(Stmt(s.table.value, 0)))
  }

  /** sqlite3_step: ROW while rows remain, DONE after. */
  function StepRc(st: Stmt): int
  {
    if st.stepped < |st.rows| then SQLITE_ROW else SQLITE_DONE
  }

  /** The row the statement stands on, if any. */
  function CurrentRow(st: Stmt): Option<Row>
  {
    if 1 <= st.stepped <= |st.rows| then Some(st.rows[st.stepped - 1]) else None
  }

  /** The connection the table was declared on. */
  class Database {
    var table: Option<seq<Row>>
    var rcs: seq<int>

    function State(): Store
      reads this
    {
      Store(table, rcs)
    }

    constructor (rcs: seq<int>)
      ensures State() == Store(None, rcs)
    {
      table := None;
      this.rcs := rcs;
    }

    method ExecCreate() returns (rc: int)
      modifies this
      ensures (State(), rc) == CreateTable(old(State()))
    {
      rc := NextRc(rcs);
      rcs := Tail(rcs);
      if rc == SQLITE_OK && table.None? {
        table := Some([]);
      }
    }

    method ExecInsert(row: Row) returns (rc: int)
      modifies this
      ensures (State(), rc) == InsertRow(old(State()), row)
    {
      rc := NextRc(rcs);
      rcs := Tail(rcs);
      if rc == SQLITE_OK {
        if table.None? {
          rc := SQLITE_ERROR;
        } else {
          table := Some(table.value + [row]);
        }
      }
    }

    method ExecDrop() returns (rc: int)
      modifies this
      ensures (State(), rc) == DropTable(old(State()))
    {
      rc := NextRc(rcs);
      rcs := Tail(rcs);
      if rc == SQLITE_OK {
        table := None;
      }
    }

    method PrepareSelect() returns (rc: int, stmt: Option<Stmt>)
      modifies this
      ensures (State(), rc, stmt) == Prepare(old(State()))
    {
      rc := NextRc(rcs);
      rcs := Tail(rcs);
      stmt := None;
      if rc == SQLITE_OK {
        if table.None? {
          rc := SQLITE_ERROR;
        } else {
          stmt := Some(Stmt(table.value, 0));
        }
      }
    }

    /** ROLLBACK TO a savepoint taken when the table held `saved`. */
    method RollbackTo(saved: Option<seq<Row>>)
      modifies this`table
      ensures table == saved
    {
      table := saved;
    }
  }

  // ---------------------------------------------------------------------------
  // The cursor

  /** The fields of an mcp_tools_cursor. */
  datatype Cursor = Cursor(stmt: Option<Stmt>, eof: bool)

  /** xOpen: a zero-filled cursor. */
  const OPENED := Cursor(None, false)

  /** A cursor that ends the scan before it starts. */
  const EXHAUSTED := Cursor(None, true)

  /** What one xFilter leaves behind. */
  datatype Outcome = Outcome(created: bool, store: Store, cursor: Cursor, rc: int)

  /** The query half of xFilter: prepare the SELECT and step onto its first row. */
  function Query(created: bool, s: Store): Outcome
  {
    var (s1, rc, stmt) := Prepare(s);
    if rc != SQLITE_OK then Outcome(created, s1, EXHAUSTED, rc)
    else Outcome(created, s1, Cursor(Some(stmt.value.(stepped := 1)), StepRc(stmt.value) != SQLITE_ROW), SQLITE_OK)
  }

  /**
   * xFilter given the table_created flag, the connection, and the reply the
   * list fetch would return. As the source writes it (corrected false), the
   * rows of a population that failed part-way stay in the table; corrected,
   * they are rolled back.
   */
  function FilterSpec(p: JsonParser, created: bool, s: Store, reply: Option<string>, corrected: bool): Outcome
  {
    if created then Query(true, s)
    else if reply.None? || StartsWithErrorKey(reply.value) then Outcome(false, s, EXHAUSTED, SQLITE_OK)
    else
      var (s1, rc1) := CreateTable(s);
      if rc1 != SQLITE_OK then Outcome(false, s1, EXHAUSTED, rc1)
      else if p.toolCount(reply.value) == 0 then Outcome(false, s1, EXHAUSTED, SQLITE_OK)
      else
        var (s2, rc2) := InsertAll(s1, Snapshot(p, reply.value));
        if rc2 != SQLITE_OK then
          Outcome(false, if corrected then s2.(table := s1.table) else s2, EXHAUSTED, rc2)
        else Query(true, s2)
  }

  /** xNext: step the statement; without one the scan is over. */
  function Advance(c: Cursor): Cursor
  {
    if c.stmt.None? then c.(eof := true)
    else c.(stmt := Some(c.stmt.value.(stepped := c.stmt.value.stepped + 1)), eof := StepRc(c.stmt.value) != SQLITE_ROW)
  }

  /** xColumn: NULL without a statement or at eof, otherwise the current row's field. */
  function ColumnValue(c: Cursor, i: int): Option<string>
  {
    if c.stmt.None? || c.eof then None
    else
      var row := CurrentRow(c.stmt.value);
      if row.Some? && 0 <= i < |row.value| then Some(row.value[i]) else None
  }

  /** How many more steps a scan from c can take. */
  function Remaining(c: Cursor): nat
  {
    if c.eof then 0
    else if c.stmt.None? || c.stmt.value.stepped > |c.stmt.value.rows| then 1
    else |c.stmt.value.rows| - c.stmt.value.stepped + 2
  }

  /** The cursor states at which the host reads a row, stepping from c until eof. */
  function Scan(c: Cursor): seq<Cursor>
    decreases Remaining(c)
  {
    if c.eof then [] else [c] + Scan(Advance(c))
  }

  /**
   * A statement stepped j times, standing on its j-th row or past the end, is
   * read from that row onwards: row k of the scan is row j - 1 + k of the table.
   */
  lemma {:induction false} ScanReadsRowsFrom(rows: seq<Row>, j: nat)
    requires 1 <= j <= |rows| + 1
    ensures var scan := Scan(Cursor(Some(Stmt(rows, j)), j > |rows|));
      && |scan| == |rows| - j + 1
      && forall k :: 0 <= k < |scan| ==>
           && !scan[k].eof && scan[k].stmt.Some?
           && CurrentRow(scan[k].stmt.value) == Some(rows[j - 1 + k])
    decreases |rows| + 1 - j
  {
    var c := Cursor(Some(Stmt(rows, j)), j > |rows|);
    if j <= |rows| {
      assert Advance(c) == Cursor(Some(Stmt(rows, j + 1)), j + 1 > |rows|);
      ScanReadsRowsFrom(rows, j + 1);
      var scan := Scan(c);
      assert scan == [c] + Scan(Advance(c));
      forall k | 0 <= k < |scan|
        ensures !scan[k].eof && scan[k].stmt.Some? && CurrentRow(scan[k].stmt.value) == Some(rows[j - 1 + k])
      {
        if k > 0 {
          assert scan[k] == Scan(Advance(c))[k - 1];
        }
      }
    }
  }

  /** Every scan the query half starts reads exactly the table's rows, in order. */
  lemma QueryReadsTable(created: bool, s: Store)
    ensures var o := Query(created, s);
      && o.created == created && o.store.table == s.table
      && (o.rc == SQLITE_OK <==> NextRc(s.rcs) == SQLITE_OK && s.table.Some?)
      && (o.rc != SQLITE_OK ==> Scan(o.cursor) == [])
      && (o.rc == SQLITE_OK ==>
            var scan := Scan(o.cursor);
            && |scan| == |s.table.value|
            && forall k, i :: 0 <= k < |scan| && 0 <= i < |s.table.value[k]| ==>
                 ColumnValue(scan[k], i) == Some(s.table.value[k][i]))
  {
    var o := Query(created, s);
    if o.rc == SQLITE_OK {
      ScanReadsRowsFrom(s.table.value, 1);
    }
  }

  /** The insert loop appends the rows it manages to insert, and all of them when it succeeds. */
  lemma {:induction false} InsertAllAppends(s: Store, rows: seq<Row>)
    requires s.table.Some?
    ensures var (s1, rc) := InsertAll(s, rows);
      && s1.table.Some?
      && (exists n :: 0 <= n <= |rows| && s1.table.value == s.table.value + rows[..n])
      && (rc == SQLITE_OK ==> s1.table.value == s.table.value + rows)
    decreases |rows|
  {
    if |rows| > 0 {
      var (s1, rc) := InsertRow(s, rows[0]);
      if rc == SQLITE_OK {
        InsertAllAppends(s1, rows[1..]);
        var (s2, rc2) := InsertAll(s1, rows[1..]);
        var n :| 0 <= n <= |rows[1..]| && s2.table.value == s1.table.value + rows[1..][..n];
        assert s2.table.value == s.table.value + rows[..n + 1] by {
          assert rows[..n + 1] == [rows[0]] + rows[1..][..n];
        }
        if rc2 == SQLITE_OK {
          assert rows == [rows[0]] + rows[1..];
        }
      } else {
        assert rows[..0] == [];
      }
    } else {
      assert rows[..0] == [];
    }
  }

  /** No rows are left over from a failed population, and no scan has been prepared. */
  predicate Clean(created: bool, s: Store)
  {
    !created ==> s.table.None? || s.table == Some([])
  }

  /**
   * The corrected xFilter keeps the cache clean, and the filter that first
   * marks the table created leaves in it exactly the rows of the reply it
   * fetched, which its own scan then reads.
   */
  lemma CorrectedPopulatesOnce(p: JsonParser, created: bool, s: Store, reply: Option<string>)
    requires Clean(created, s)
    ensures var o := FilterSpec(p, created, s, reply, true);
      && Clean(o.created, o.store)
      && (created ==> o.created && o.store.table == s.table)
      && (!created && o.created ==>
            && reply.Some? && !StartsWithErrorKey(reply.value)
            && o.store.table == Some(Snapshot(p, reply.value)))
  {
    if !created && reply.Some? && !StartsWithErrorKey(reply.value) {
      var (s1, rc1) := CreateTable(s);
      if rc1 == SQLITE_OK && p.toolCount(reply.value) != 0 {
        InsertAllAppends(s1, Snapshot(p, reply.value));
        var (s2, rc2) := InsertAll(s1, Snapshot(p, reply.value));
        if rc2 == SQLITE_OK {
          assert s1.table == Some([]);
          assert [] + Snapshot(p, reply.value) == Snapshot(p, reply.value);
          QueryReadsTable(true, s2);
        }
      }
    }
  }

  /**
   * Once the table is created, xFilter neither fetches nor changes the cache:
   * every scan reads the same rows, whatever the collaborator would now reply.
   */
  lemma CreatedTableIsStable(p: JsonParser, s: Store, reply1: Option<string>, reply2: Option<string>, corrected: bool)
    ensures var o := FilterSpec(p, true, s, reply1, corrected);
      && o == FilterSpec(p, true, s, reply2, corrected)
      && o.created && o.store.table == s.table
      && (o.rc == SQLITE_OK ==> |Scan(o.cursor)| == |s.table.value|)
  {
    QueryReadsTable(true, s);
  }

  /**
   * In both versions the table is marked created only by a filter that
   * fetched a non-error reply with tools and inserted every one of them,
   * after whatever rows the table already held.
   */
  lemma CreatedOnlyAfterEveryInsert(p: JsonParser, s: Store, reply: Option<string>, corrected: bool)
    ensures var o := FilterSpec(p, false, s, reply, corrected);
      o.created ==>
        && reply.Some? && !StartsWithErrorKey(reply.value) && p.toolCount(reply.value) > 0
        && o.store.table == Some(s.table.GetOr([]) + Snapshot(p, reply.value))
  {
    var o := FilterSpec(p, false, s, reply, corrected);
    if o.created {
      var (s1, rc1) := CreateTable(s);
      InsertAllAppends(s1, Snapshot(p, reply.value));
      var (s2, rc2) := InsertAll(s1, Snapshot(p, reply.value));
      QueryReadsTable(true, s2);
    }
  }

  /**
   * What the filter that creates the cache shows, starting from a clean one:
   * one row per tool of the reply it fetched, in order, whose column i is tool
   * k's field i ('' when absent), and no column beyond the sixth.
   */
  lemma FirstScanShowsToolList(p: JsonParser, s: Store, json: string, corrected: bool)
    requires Clean(false, s)
    ensures var o := FilterSpec(p, false, s, Some(json), corrected);
      o.created && o.rc == SQLITE_OK ==>
        var scan := Scan(o.cursor);
        && |scan| == p.toolCount(json)
        && (forall k, i :: 0 <= k < |scan| && 0 <= i < |TOOL_COLUMNS| ==>
              ColumnValue(scan[k], i) == Some(FieldText(p, json, k, TOOL_COLUMNS[i])))
        && (forall k, i :: 0 <= k < |scan| && !(0 <= i < |TOOL_COLUMNS|) ==> ColumnValue(scan[k], i) == None)
  {
    var o := FilterSpec(p, false, s, Some(json), corrected);
    if o.created && o.rc == SQLITE_OK {
      CreatedOnlyAfterEveryInsert(p, s, Some(json), corrected);
      var (s1, rc1) := CreateTable(s);
      var (s2, rc2) := InsertAll(s1, Snapshot(p, json));
      assert o == Query(true, s2);
      QueryReadsTable(true, s2);
      assert s2.table == Some(Snapshot(p, json)) by {
        assert s.table.GetOr([]) == [];
        assert [] + Snapshot(p, json) == Snapshot(p, json);
      }
      SnapshotScanShowsTools(p, json, s2);
    }
  }

  /** A query over a table holding exactly the tool list reads the tools' fields. */
  lemma SnapshotScanShowsTools(p: JsonParser, json: string, s: Store)
    requires s.table == Some(Snapshot(p, json))
    ensures var o := Query(true, s);
      o.rc == SQLITE_OK ==>
        var scan := Scan(o.cursor);
        && |scan| == p.toolCount(json)
        && (forall k, i :: 0 <= k < |scan| && 0 <= i < |TOOL_COLUMNS| ==>
              ColumnValue(scan[k], i) == Some(FieldText(p, json, k, TOOL_COLUMNS[i])))
        && (forall k, i :: 0 <= k < |scan| && !(0 <= i < |TOOL_COLUMNS|) ==> ColumnValue(scan[k], i) == None)
  {
    var o := Query(true, s);
    if o.rc == SQLITE_OK {
      var rows := Snapshot(p, json);
      QueryReadsTable(true, s);
      ScanReadsRowsFrom(rows, 1);
      var scan := Scan(o.cursor);
      forall k, i | 0 <= k < |scan| && 0 <= i < |TOOL_COLUMNS|
        ensures ColumnValue(scan[k], i) == Some(FieldText(p, json, k, TOOL_COLUMNS[i]))
      {
        assert rows[k] == ToolRow(p, json, k);
      }
      forall k, i | 0 <= k < |scan| && !(0 <= i < |TOOL_COLUMNS|)
        ensures ColumnValue(scan[k], i) == None
      {
        assert rows[k] == ToolRow(p, json, k);
      }
    }
  }

  /**
   * Successive xFilter calls on one table: each fetches the next reply only
   * while the table is not created.
   */
  function Filters(p: JsonParser, created: bool, s: Store, replies: seq<Option<string>>, n: nat, corrected: bool): seq<Outcome>
    decreases n
  {
    if n == 0 then []
    else
      var o := FilterSpec(p, created, s, Head(replies), corrected);
      [o] + Filters(p, o.created, o.store, if created then replies else Tail(replies), n - 1, corrected)
  }

  /** How many of n successive xFilter calls fetch the tool list. */
  function Fetches(p: JsonParser, created: bool, s: Store, replies: seq<Option<string>>, n: nat, corrected: bool): nat
    decreases n
  {
    if n == 0 then 0
    else
      var o := FilterSpec(p, created, s, Head(replies), corrected);
      (if created then 0 else 1) + Fetches(p, o.created, o.store, if created then replies else Tail(replies), n - 1, corrected)
  }

  /**
   * Over any run of filters, once one marks the table created every later one
   * finds it created with the same rows, and none of them fetches: only the
   * filters up to the first success fetch, so at most one fetch succeeds.
   */
  lemma {:induction false} CreationIsFinal(p: JsonParser, created: bool, s: Store, replies: seq<Option<string>>, n: nat, corrected: bool)
    ensures var run := Filters(p, created, s, replies, n, corrected);
      && |run| == n
      && (forall j, k :: 0 <= j < k < n && run[j].created ==>
            run[k].created && run[k].store.table == run[j].store.table)
      && (created ==> Fetches(p, created, s, replies, n, corrected) == 0)
      && (forall k :: 0 <= k < n && run[k].created ==> Fetches(p, created, s, replies, n, corrected) <= k + 1)
    decreases n
  {
    if n > 0 {
      var o := FilterSpec(p, created, s, Head(replies), corrected);
      var rest := if created then replies else Tail(replies);
      CreationIsFinal(p, o.created, o.store, rest, n - 1, corrected);
      var run := Filters(p, created, s, replies, n, corrected);
      assert run == [o] + Filters(p, o.created, o.store, rest, n - 1, corrected);
      if o.created {
        CreatedTableIsStable(p, o.store, None, None, corrected);
        CreatedRunKeepsTable(p, o.store, rest, n - 1, corrected);
      }
      if created {
        CreatedTableIsStable(p, s, Head(replies), None, corrected);
      }
      forall j, k | 0 <= j < k < n && run[j].created
        ensures run[k].created && run[k].store.table == run[j].store.table
      {
        if j == 0 {
          assert run[k] == Filters(p, o.created, o.store, rest, n - 1, corrected)[k - 1];
        } else {
          assert run[j] == Filters(p, o.created, o.store, rest, n - 1, corrected)[j - 1];
          assert run[k] == Filters(p, o.created, o.store, rest, n - 1, corrected)[k - 1];
        }
      }
      forall k | 0 <= k < n && run[k].created
        ensures Fetches(p, created, s, replies, n, corrected) <= k + 1
      {
        if k > 0 {
          assert run[k] == Filters(p, o.created, o.store, rest, n - 1, corrected)[k - 1];
        }
      }
    }
  }

  /** A run that starts on a created table keeps its rows in every outcome. */
  lemma {:induction false} CreatedRunKeepsTable(p: JsonParser, s: Store, replies: seq<Option<string>>, n: nat, corrected: bool)
    ensures var run := Filters(p, true, s, replies, n, corrected);
      && |run| == n
      && Fetches(p, true, s, replies, n, corrected) == 0
      && forall k :: 0 <= k < n ==> run[k].created && run[k].store.table == s.table
    decreases n
  {
    if n > 0 {
      var o := FilterSpec(p, true, s, Head(replies), corrected);
      CreatedTableIsStable(p, s, Head(replies), None, corrected);
      CreatedRunKeepsTable(p, o.store, replies, n - 1, corrected);
      var run := Filters(p, true, s, replies, n, corrected);
      forall k | 0 <= k < n
        ensures run[k].created && run[k].store.table == s.table
      {
        if k > 0 {
          assert run[k] == Filters(p, o.created, o.store, replies, n - 1, corrected)[k - 1];
        }
      }
    }
  }

  /** The tool list the duplication example fetches: two tools, "a" and "b", with only a name. */
  function TwoTools(): JsonParser
  {
    JsonParser(
      json => 2,
      (json, i, f) => if f == Name then Some(if i == 0 then "a" else "b") else None,
      json => 0,
      (json, i) => None)
  }

  /**
   * As written, a population whose second INSERT fails leaves tool "a" in the
   * table; the retry appends the whole list after it, so the table created
   * on the retry holds three rows for a two-tool list.
   */
  lemma PartialPopulationDuplicatesAsWritten()
    ensures var p := TwoTools();
            var first := FilterSpec(p, false, Store(None, [SQLITE_OK, SQLITE_OK, SQLITE_ERROR]), Some("[]"), false);
            var second := FilterSpec(p, first.created, first.store, Some("[]"), false);
      && first.rc == SQLITE_ERROR && !first.created
      && second.rc == SQLITE_OK && second.created
      && p.toolCount("[]") == 2
      && |second.store.table.value| == 3
      && second.store.table.value[0] == second.store.table.value[1]
  {
    var p := TwoTools();
    var a, b := ToolRow(p, "[]", 0), ToolRow(p, "[]", 1);
    assert Snapshot(p, "[]") == [a, b];
    FailingPopulation(a, b);
    RetriedPopulation([a], a, b);
  }

  /** The population the duplication examples start with: the second of two INSERTs fails. */
  lemma FailingPopulation(a: Row, b: Row)
    ensures CreateTable(Store(None, [SQLITE_OK, SQLITE_OK, SQLITE_ERROR])) == (Store(Some([]), [SQLITE_OK, SQLITE_ERROR]), SQLITE_OK)
    ensures InsertAll(Store(Some([]), [SQLITE_OK, SQLITE_ERROR]), [a, b]) == (Store(Some([a]), []), SQLITE_ERROR)
  {
    assert [SQLITE_OK, SQLITE_OK, SQLITE_ERROR][1..] == [SQLITE_OK, SQLITE_ERROR];
    assert [SQLITE_OK, SQLITE_ERROR][1..] == [SQLITE_ERROR];
    assert [SQLITE_ERROR][1..] == [];
    assert [] + [a] == [a];
    assert InsertRow(Store(Some([]), [SQLITE_OK, SQLITE_ERROR]), a) == (Store(Some([a]), [SQLITE_ERROR]), SQLITE_OK);
    assert InsertRow(Store(Some([a]), [SQLITE_ERROR]), b) == (Store(Some([a]), []), SQLITE_ERROR);
    assert [a, b][1..] == [b];
  }

  /** A retry in which every statement succeeds appends both rows to whatever the table held. */
  lemma RetriedPopulation(held: seq<Row>, a: Row, b: Row)
    ensures CreateTable(Store(Some(held), [])) == (Store(Some(held), []), SQLITE_OK)
    ensures InsertAll(Store(Some(held), []), [a, b]) == (Store(Some(held + [a, b]), []), SQLITE_OK)
  {
    assert InsertRow(Store(Some(held), []), a) == (Store(Some(held + [a]), []), SQLITE_OK);
    assert InsertRow(Store(Some(held + [a]), []), b) == (Store(Some(held + [a] + [b]), []), SQLITE_OK);
    assert [a, b][1..] == [b];
    assert [b][1..] == [];
    assert InsertAll(Store(Some(held + [a] + [b]), []), []) == (Store(Some(held + [a] + [b]), []), SQLITE_OK);
    assert InsertAll(Store(Some(held + [a]), []), [b]) == (Store(Some(held + [a] + [b]), []), SQLITE_OK);
    assert InsertAll(Store(Some(held), []), [a, b]) == InsertAll(Store(Some(held + [a]), []), [b]);
    assert held + [a] + [b] == held + [a, b];
  }

  /** The same failure, corrected: the retry's table holds the two tools once each. */
  lemma PartialPopulationRolledBack()
    ensures var p := TwoTools();
            var first := FilterSpec(p, false, Store(None, [SQLITE_OK, SQLITE_OK, SQLITE_ERROR]), Some("[]"), true);
            var second := FilterSpec(p, first.created, first.store, Some("[]"), true);
      && first.rc == SQLITE_ERROR && !first.created
      && second.rc == SQLITE_OK && second.created
      && second.store.table == Some(Snapshot(p, "[]"))
  {
    var p := TwoTools();
    var a, b := ToolRow(p, "[]", 0), ToolRow(p, "[]", 1);
    assert Snapshot(p, "[]") == [a, b];
    FailingPopulation(a, b);
    RetriedPopulation([], a, b);
    assert [] + [a, b] == [a, b];
  }

  // ---------------------------------------------------------------------------
  // The table and its cursor

  /** mcp_tools_best_index: one plan, a full scan, whatever the constraints; the usage is left alone. */
  method BestIndex(info: IndexInfo) returns (rc: int)
    modifies info
    ensures rc == SQLITE_OK && info.estimatedCost == PLAN_COST && info.idxNum == old(info.idxNum)
  {
    info.estimatedCost := PLAN_COST;
    rc := SQLITE_OK;
  }

  /** An mcp_tools_vtab. */
  class ToolsTable {
    const db: Database
    var tableCreated: bool

    /** xConnect. */
    constructor Connect(db: Database)
      ensures this.db == db && !tableCreated
    {
      this.db := db;
      tableCreated := false;
    }

    /** The insert loop of xFilter: one INSERT per tool, stopping at the first failure. */
    method InsertTools(p: JsonParser, json: string) returns (rc: int)
      modifies db
      ensures (db.State(), rc) == InsertAll(old(db.State()), Snapshot(p, json))
    {
      var rows := Snapshot(p, json);
      rc := SQLITE_OK;
      for i := 0 to p.toolCount(json)
        invariant rc == SQLITE_OK
        invariant InsertAll(old(db.State()), rows) == InsertAll(db.State(), rows[i..])
      {
        var name := p.toolField(json, i, Name);
        var title := p.toolField(json, i, Title);
        var description := p.toolField(json, i, Description);
        var inputSchema := p.toolField(json, i, InputSchema);
        var outputSchema := p.toolField(json, i, OutputSchema);
        var annotations := p.toolField(json, i, Annotations);
        var row := [name.GetOr(""), title.GetOr(""), description.GetOr(""),
                    inputSchema.GetOr(""), outputSchema.GetOr(""), annotations.GetOr("")];
        assert row == rows[i..][0];
        assert rows[i..][1..] == rows[i + 1..];
        ghost var before := db.State();
        rc := db.ExecInsert(row);
        assert InsertAll(before, rows[i..]) ==
          if rc != SQLITE_OK then (db.State(), rc) else InsertAll(db.State(), rows[i + 1..]);
        if rc != SQLITE_OK {
          return;
        }
      }
      assert rows[|rows|..] == [];
    }

    /** xDisconnect: drops the temporary table if this table marked it created. */
    method Disconnect() returns (rc: int)
      modifies db
      ensures rc == SQLITE_OK
      ensures tableCreated ==> db.State() == DropTable(old(db.State())).0
      ensures !tableCreated ==> db.State() == old(db.State())
    {
      if tableCreated {
        var dropRc := db.ExecDrop();
      }
      rc := SQLITE_OK;
    }
  }

  /** An mcp_tools_cursor of a ToolsTable. */
  class ToolsCursor {
    const table: ToolsTable
    var stmt: Option<Stmt>
    var eof: bool

    function State(): Cursor
      reads this
    {
      Cursor(stmt, eof)
    }

    /** xEof. */
    function Eof(): (b: bool)
      reads this
      ensures Scan(State()) == [] <==> b
    {
      eof
    }

    /** xRowid: every row reports 0. */
    function Rowid(): int
    {
      0
    }

    /** xColumn. */
    function Column(i: int): Option<string>
      reads this
    {
      ColumnValue(State(), i)
    }

    /** xOpen. */
    constructor Open(table: ToolsTable)
      ensures this.table == table && State() == OPENED
    {
      this.table := table;
      stmt := None;
      eof := false;
    }

    /** The query half of xFilter. */
    method RunQuery() returns (rc: int)
      modifies this, table.db
      ensures var o := Query(table.tableCreated, old(table.db.State()));
        State() == o.cursor && table.db.State() == o.store && rc == o.rc
    {
      var prepared;
      rc, prepared := table.db.PrepareSelect();
      if rc != SQLITE_OK {
        stmt := None;
        eof := true;
        return;
      }
      var first := StepRc(prepared.value);
      stmt := Some(prepared.value.(stepped := 1));
      eof := first != SQLITE_ROW;
      rc := SQLITE_OK;
    }

    /** Both versions of xFilter; `corrected` rolls a failed population back. */
    method FilterWith(client: Client, corrected: bool) returns (rc: int)
      requires table.db != client as object
      modifies this, table, table.db, client`listReplies, client`fetches
      ensures var o := FilterSpec(client.parser, old(table.tableCreated), old(table.db.State()),
                                  Head(old(client.listReplies)), corrected);
        && State() == o.cursor && table.tableCreated == o.created && table.db.State() == o.store && rc == o.rc
      ensures old(table.tableCreated) ==>
        client.listReplies == old(client.listReplies) && client.fetches == old(client.fetches)
      ensures !old(table.tableCreated) ==>
        client.listReplies == Tail(old(client.listReplies)) && client.fetches == old(client.fetches) + 1
    {
      stmt := None;
      if !table.tableCreated {
        var result := client.ListToolsJson();
        if result.None? || StartsWithErrorKey(result.value) {
          eof := true;
          return SQLITE_OK;
        }
        var json := result.value;
        rc := table.db.ExecCreate();
        if rc != SQLITE_OK {
          eof := true;
          return;
        }
        var toolCount := client.parser.toolCount(json);
        if toolCount == 0 {
          eof := true;
          return SQLITE_OK;
        }
        var saved := table.db.table;
        rc := table.InsertTools(client.parser, json);
        if rc != SQLITE_OK {
          if corrected {
            table.db.RollbackTo(saved);
          }
          eof := true;
          return;
        }
        table.tableCreated := true;
      }
      rc := RunQuery();
    }

    /** xFilter as the source writes it: a failed population leaves its rows behind. */
    method FilterAsWritten(client: Client) returns (rc: int)
      requires table.db != client as object
      modifies this, table, table.db, client`listReplies, client`fetches
      ensures var o := FilterSpec(client.parser, old(table.tableCreated), old(table.db.State()),
                                  Head(old(client.listReplies)), false);
        && State() == o.cursor && table.tableCreated == o.created && table.db.State() == o.store && rc == o.rc
      ensures old(table.tableCreated) ==>
        client.listReplies == old(client.listReplies) && client.fetches == old(client.fetches)
      ensures !old(table.tableCreated) ==>
        client.listReplies == Tail(old(client.listReplies)) && client.fetches == old(client.fetches) + 1
    {
      rc := FilterWith(client, false);
    }

    /** xFilter, rolling back the rows of a population that failed part-way. */
    method Filter(client: Client) returns (rc: int)
      requires table.db != client as object
      modifies this, table, table.db, client`listReplies, client`fetches
      ensures var o := FilterSpec(client.parser, old(table.tableCreated), old(table.db.State()),
                                  Head(old(client.listReplies)), true);
        && State() == o.cursor && table.tableCreated == o.created && table.db.State() == o.store && rc == o.rc
      ensures old(table.tableCreated) ==>
        client.listReplies == old(client.listReplies) && client.fetches == old(client.fetches)
      ensures !old(table.tableCreated) ==>
        client.listReplies == Tail(old(client.listReplies)) && client.fetches == old(client.fetches) + 1
    {
      rc := FilterWith(client, true);
    }

    /** xNext. */
    method Next() returns (rc: int)
      modifies this
      ensures rc == SQLITE_OK && State() == Advance(old(State()))
    {
      if stmt.Some? {
        var stepRc := StepRc(stmt.value);
        stmt := Some(stmt.value.(stepped := stmt.value.stepped + 1));
        eof := stepRc != SQLITE_ROW;
      } else {
        eof := true;
      }
      rc := SQLITE_OK;
    }

    /** xClose: finalizes the statement. */
    method Close()
      modifies this
      ensures stmt.None?
    {
      stmt := None;
    }
  }
}
