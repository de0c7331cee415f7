/**
 * The uncached call table (mcp_call_tool_respond): every xFilter makes one
 * fresh, blocking tool call and keeps the whole JSON reply; the rows are
 * the reply's content items, read one by one by index.
 */
module FreshResults {
  import opened Wrappers
  import opened SqliteHost
  import opened McpClient

  const TOOL_NAME_COLUMN := 1
  const ARGUMENTS_COLUMN := 2
  const PLAN_COST := 100
  const REJECTED_COST := 1000

  // ---------------------------------------------------------------------------
  // xBestIndex

  /** The last usable equality on column col among the first n constraints, or -1. */
  function LastEq(cs: seq<Constraint>, n: int, col: int): (i: int)
    requires 0 <= n <= |cs|
    ensures -1 <= i < n
    ensures i >= 0 ==> IsEqOn(cs[i], col) && forall j :: i < j < n ==> !IsEqOn(cs[j], col)
    ensures i < 0 ==> forall j :: 0 <= j < n ==> !IsEqOn(cs[j], col)
  {
    if n == 0 then -1
    else if IsEqOn(cs[n - 1], col) then n - 1
    else LastEq(cs, n - 1, col)
  }

  /** The plan is valid when both hidden columns are bound by a usable equality. */
  predicate Accepts(cs: seq<Constraint>)
  {
    LastEq(cs, |cs|, TOOL_NAME_COLUMN) >= 0 && LastEq(cs, |cs|, ARGUMENTS_COLUMN) >= 0
  }

  /**
   * The usage written for constraint i, prior being what it held before: on
   * an accepted plan the last equality on each hidden column is handed over
   * (tool name first) and omitted; nothing else is touched.
   */
  function UsageAt(cs: seq<Constraint>, i: int, prior: ConstraintUsage): ConstraintUsage
    requires 0 <= i < |cs|
  {
    if !Accepts(cs) then prior
    else if i == LastEq(cs, |cs|, TOOL_NAME_COLUMN) then ConstraintUsage(1, true)
    else if i == LastEq(cs, |cs|, ARGUMENTS_COLUMN) then ConstraintUsage(2, true)
    else prior
  }

  /** The whole usage array the planner leaves, starting from SQLite's zeroed one. */
  function PlannedUsage(cs: seq<Constraint>): seq<ConstraintUsage>
  {
    seq(|cs|, i requires 0 <= i < |cs| => UsageAt(cs, i, UNUSED))
  }

  /** mcp_results_best_index. */
  method BestIndex(info: IndexInfo) returns (rc: int)
    requires info.Valid()
    modifies info, info.aConstraintUsage
    ensures rc == SQLITE_OK
    ensures info.idxNum == (if Accepts(info.aConstraint) then 1 else 0)
    ensures info.estimatedCost == (if Accepts(info.aConstraint) then PLAN_COST else REJECTED_COST)
    ensures forall i :: 0 <= i < |info.aConstraint| ==>
      info.aConstraintUsage[i] == UsageAt(info.aConstraint, i, old(info.aConstraintUsage[i]))
  {
    var cs := info.aConstraint;
    var toolNameIdx, argumentsIdx := -1, -1;
    for i := 0 to |cs|
      invariant toolNameIdx == LastEq(cs, i, TOOL_NAME_COLUMN)
      invariant argumentsIdx == LastEq(cs, i, ARGUMENTS_COLUMN)
    {
      if cs[i].usable && cs[i].op == SQLITE_INDEX_CONSTRAINT_EQ {
        if cs[i].iColumn == TOOL_NAME_COLUMN {
          toolNameIdx := i;
        } else if cs[i].iColumn == ARGUMENTS_COLUMN {
          argumentsIdx := i;
        }
      }
    }
    if toolNameIdx >= 0 && argumentsIdx >= 0 {
      info.aConstraintUsage[toolNameIdx] := ConstraintUsage(1, true);
      info.aConstraintUsage[argumentsIdx] := ConstraintUsage(2, true);
      info.idxNum := 1;
      info.estimatedCost := PLAN_COST;
    } else {
      info.idxNum := 0;
      info.estimatedCost := REJECTED_COST;
    }
    rc := SQLITE_OK;
  }

  /**
   * Whatever the constraints, SQLite accepts the planner's usage. On an
   * accepted plan xFilter receives exactly the values of the last equality on
   * tool_name and on arguments, in that order; on a rejected one it receives
   * nothing.
   */
  lemma PlanIsWellFormed(cs: seq<Constraint>, values: seq<Option<string>>)
    requires |values| == |cs|
    ensures WellFormedUsage(cs, PlannedUsage(cs))
    ensures Accepts(cs) ==>
      HostArgv(PlannedUsage(cs), values) ==
        [values[LastEq(cs, |cs|, TOOL_NAME_COLUMN)], values[LastEq(cs, |cs|, ARGUMENTS_COLUMN)]]
    ensures !Accepts(cs) ==> HostArgv(PlannedUsage(cs), values) == []
  {
    var u := PlannedUsage(cs);
    if Accepts(cs) {
      TwoArgumentPlan(cs, u, values, LastEq(cs, |cs|, TOOL_NAME_COLUMN), LastEq(cs, |cs|, ARGUMENTS_COLUMN));
    } else {
      ArgvCountOfNone(u);
    }
  }

  /** The plan is accepted exactly when some usable equality binds each hidden column. */
  lemma AcceptsIffBothBound(cs: seq<Constraint>)
    ensures Accepts(cs) <==>
      (exists t :: 0 <= t < |cs| && IsEqOn(cs[t], TOOL_NAME_COLUMN)) &&
      (exists a :: 0 <= a < |cs| && IsEqOn(cs[a], ARGUMENTS_COLUMN))
  {
    if Accepts(cs) {
      assert IsEqOn(cs[LastEq(cs, |cs|, TOOL_NAME_COLUMN)], TOOL_NAME_COLUMN);
      assert IsEqOn(cs[LastEq(cs, |cs|, ARGUMENTS_COLUMN)], ARGUMENTS_COLUMN);
    }
  }

  // ---------------------------------------------------------------------------
  // The cursor

  /** The fields of an mcp_results_cursor. */
  datatype Cursor = Cursor(jsonResult: Option<string>, contentCount: nat, currentIndex: nat, eof: bool)

  /** xOpen: zero-filled, but already at eof. */
  const OPENED := Cursor(None, 0, 0, true)

  /**
   * The tool name and arguments xFilter uses: the pair stored at connect time
   * unless one of them is missing, in which case the first two filter values
   * replace both, when there are two.
   */
  function ResolveArgs(toolName: Option<string>, arguments: Option<string>, argv: seq<Option<string>>): (r: Option<(string, string)>)
  {
    var (t, a) := if (toolName.None? || arguments.None?) && |argv| >= 2 then (argv[0], argv[1]) else (toolName, arguments);
    if t.None? || a.None? then None else Some((t.value, a.value))
  }

  /**
   * The pair a query calls with, when the host passes the values of the
   * planned argv: a complete stored pair is used as is; otherwise an accepted
   * plan supplies the values of the last equalities on tool_name and
   * arguments, resolving iff both are non-NULL, and a rejected plan passes
   * nothing, so the call is refused.
   */
  lemma PlannedArgumentsResolve(cs: seq<Constraint>, values: seq<Option<string>>,
                                toolName: Option<string>, arguments: Option<string>)
    requires |values| == |cs|
    ensures var r := ResolveArgs(toolName, arguments, HostArgv(PlannedUsage(cs), values));
      && (toolName.Some? && arguments.Some? ==> r == Some((toolName.value, arguments.value)))
      && ((toolName.None? || arguments.None?) && Accepts(cs) ==>
            var t := values[LastEq(cs, |cs|, TOOL_NAME_COLUMN)];
            var a := values[LastEq(cs, |cs|, ARGUMENTS_COLUMN)];
            r == if t.Some? && a.Some? then Some((t.value, a.value)) else None)
      && ((toolName.None? || arguments.None?) && !Accepts(cs) ==> r == None)
  {
    PlanIsWellFormed(cs, values);
  }

  /**
   * xFilter, given the resolved arguments and the reply the call would
   * return: the previous reply is released first; missing arguments are an
   * error; a failed call or a reply without content ends the scan at once.
   */
  function AfterFilter(p: JsonParser, c: Cursor, args: Option<(string, string)>, reply: Option<string>): (Cursor, int)
  {
    if args.None? then (c.(jsonResult := None, eof := true), SQLITE_ERROR)
    else if reply.None? then (c.(jsonResult := None, eof := true), SQLITE_OK)
    else
      var n := p.contentCount(reply.value);
      if n == 0 then (c.(jsonResult := reply, contentCount := 0, eof := true), SQLITE_OK)
      else (Cursor(reply, n, 0, false), SQLITE_OK)
  }

  /** xNext. */
  function Advance(c: Cursor): Cursor
  {
    c.(currentIndex := c.currentIndex + 1, eof := c.eof || c.currentIndex + 1 >= c.contentCount)
  }

  /** xColumn: the text column is the current item's text, NULL when absent or empty. */
  function ColumnValue(p: JsonParser, c: Cursor, i: int): Option<string>
  {
    if i == 0 && c.jsonResult.Some? && c.currentIndex < c.contentCount then
      var text := p.contentText(c.jsonResult.value, c.currentIndex);
      if text.Some? && |text.value| > 0 then text else None
    else None
  }

  /** xRowid: the item's position, counted from 1. */
  function RowidOf(c: Cursor): int
  {
    c.currentIndex + 1
  }

  /** A cursor that is not at eof stands on one of the reply's items. */
  predicate Valid(c: Cursor)
  {
    !c.eof ==> c.jsonResult.Some? && c.currentIndex < c.contentCount
  }

  /** xOpen, xFilter and xNext keep the cursor valid. */
  lemma ValidIsKept(p: JsonParser, c: Cursor, args: Option<(string, string)>, reply: Option<string>)
    ensures Valid(OPENED)
    ensures Valid(c) ==> Valid(AfterFilter(p, c, args, reply).0) && Valid(Advance(c))
  {
  }

  /** How many more steps a scan from c can take. */
  function Remaining(c: Cursor): nat
  {
    if c.eof then 0 else if c.currentIndex < c.contentCount then c.contentCount - c.currentIndex else 0
  }

  /** The cursor states at which the host reads a row, stepping from a valid c until eof. */
  function Scan(c: Cursor): seq<Cursor>
    requires Valid(c)
    decreases Remaining(c)
  {
    if c.eof then [] else [c] + Scan(Advance(c))
  }

  /** From a valid cursor standing on item j, the scan reads items j, j + 1, ... up to the last. */
  lemma {:induction false} ScanReadsItemsFrom(c: Cursor)
    requires Valid(c) && !c.eof
    ensures var rows := Scan(c);
      && |rows| == c.contentCount - c.currentIndex
      && forall k :: 0 <= k < |rows| ==> rows[k] == c.(currentIndex := c.currentIndex + k)
    decreases Remaining(c)
  {
    var d := Advance(c);
    if !d.eof {
      ScanReadsItemsFrom(d);
      var rows := Scan(c);
      forall k | 0 <= k < |rows|
        ensures rows[k] == c.(currentIndex := c.currentIndex + k)
      {
        if k > 0 {
          assert rows[k] == Scan(d)[k - 1];
        }
      }
    }
  }

  /**
   * A whole query: with arguments and a reply holding n content items the
   * host reads n rows, row k showing item k's text under rowid k + 1; with
   * missing arguments, a failed call or an empty reply it reads none.
   */
  lemma QueryReadsEveryItem(p: JsonParser, c: Cursor, args: Option<(string, string)>, reply: Option<string>)
    requires Valid(c)
    ensures var (d, rc) := AfterFilter(p, c, args, reply);
      && (rc == SQLITE_ERROR <==> args.None?)
      && Valid(d)
      && (args.None? || reply.None? ==> Scan(d) == [])
      && (args.Some? && reply.Some? ==>
            var rows := Scan(d);
            && |rows| == p.contentCount(reply.value)
            && forall k :: 0 <= k < |rows| ==>
                 && RowidOf(rows[k]) == k + 1
                 && ColumnValue(p, rows[k], 0) ==
                      (var text := p.contentText(reply.value, k); if text.Some? && |text.value| > 0 then text else None))
  {
    var (d, rc) := AfterFilter(p, c, args, reply);
    if args.Some? && reply.Some? && p.contentCount(reply.value) > 0 {
      ScanReadsItemsFrom(d);
    }
  }

  // ---------------------------------------------------------------------------
  // The table and its cursor

  /** An mcp_results_vtab. */
  class ResultsTable {
    var toolName: Option<string>
    var arguments: Option<string>

    /** xConnect: module arguments, when there are two, are kept as the call's name and arguments. */
    constructor Connect(argv: seq<string>)
      ensures |argv| >= 5 ==> toolName == Some(argv[3]) && arguments == Some(argv[4])
      ensures |argv| < 5 ==> toolName.None? && arguments.None?
    {
      if |argv| >= 5 {
        toolName := Some(argv[3]);
        arguments := Some(argv[4]);
      } else {
        toolName := None;
        arguments := None;
      }
    }
  }

  /** An mcp_results_cursor of a ResultsTable. */
  class ResultsCursor {
    const table: ResultsTable
    var jsonResult: Option<string>
    var contentCount: nat
    var currentIndex: nat
    var eof: bool

    function State(): Cursor
      reads this
    {
      Cursor(jsonResult, contentCount, currentIndex, eof)
    }

    /** xEof. */
    function Eof(): (b: bool)
      reads this
      ensures Valid(State()) ==> (Scan(State()) == [] <==> b)
    {
      eof
    }

    /** xRowid. */
    function Rowid(): int
      reads this
    {
      RowidOf(State())
    }

    /** xColumn. */
    function Column(p: JsonParser, i: int): Option<string>
      reads this
    {
      ColumnValue(p, State(), i)
    }

    /** xOpen. */
    constructor Open(table: ResultsTable)
      ensures this.table == table && State() == OPENED
    {
      this.table := table;
      jsonResult, contentCount, currentIndex, eof := None, 0, 0, true;
    }

    /** xFilter: one fresh call per scan. */
    method Filter(client: Client, argv: seq<Option<string>>) returns (rc: int)
      modifies this, client`callReplies, client`calls
      ensures var args := ResolveArgs(table.toolName, table.arguments, argv);
        && (State(), rc) == AfterFilter(client.parser, old(State()), args, Head(old(client.callReplies)))
        && (args.None? ==> client.callReplies == old(client.callReplies) && client.calls == old(client.calls))
        && (args.Some? ==> client.callReplies == Tail(old(client.callReplies))
                           && client.calls == old(client.calls) + [args.value])
    {
      jsonResult := None;
      var toolName, arguments := table.toolName, table.arguments;
      if toolName.None? || arguments.None? {
        if |argv| >= 2 {
          toolName, arguments := argv[0], argv[1];
        }
      }
      if toolName.None? || arguments.None? {
        eof := true;
        return SQLITE_ERROR;
      }
      jsonResult := client.CallToolJson(toolName.value, arguments.value);
      if jsonResult.None? {
        eof := true;
        return SQLITE_OK;
      }
      contentCount := client.parser.contentCount(jsonResult.value);
      if contentCount == 0 {
        eof := true;
        return SQLITE_OK;
      }
      currentIndex := 0;
      eof := false;
      rc := SQLITE_OK;
    }

    /** xNext. */
    method Next() returns (rc: int)
      modifies this
      ensures rc == SQLITE_OK && State() == Advance(old(State()))
    {
      currentIndex := currentIndex + 1;
      if currentIndex >= contentCount {
        eof := true;
      }
      rc := SQLITE_OK;
    }

    /** xClose: releases the reply. */
    method Close()
      modifies this
      ensures jsonResult.None?
    {
      jsonResult := None;
    }
  }
}
