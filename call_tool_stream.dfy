/**
 * The streaming tool-call table (mcp_call_tool): a keyed table whose hidden
 * columns tool_name (1) and arguments (2) must be bound at plan time. xFilter
 * starts a streamed call and waits up to 5000 ms for its first chunk; every
 * later step waits up to 1000 ms. Only DONE or a timeout ends the scan.
 */
module CallToolStream {
  import opened Wrappers
  import opened SqliteHost
  import opened McpClient
  import StreamHandles

  const FIRST_POLL_TIMEOUT_MS := 5000
  const NEXT_POLL_TIMEOUT_MS := 1000

  const PLAN_COST := 100
  const REJECTED_COST := 1000000

  const TOOL_NAME_COLUMN := 1
  const ARGUMENTS_COLUMN := 2

  // ---------------------------------------------------------------------------
  // xBestIndex

  /** A usable function-style constraint. */
  predicate IsFunctionArg(k: Constraint)
  {
    k.usable && k.op == SQLITE_INDEX_CONSTRAINT_FUNCTION
  }

  /** Some constraint before position n is a usable function-style one. */
  predicate FunctionBefore(cs: seq<Constraint>, n: int)
  {
    exists j :: 0 <= j < n && j < |cs| && IsFunctionArg(cs[j])
  }

  /** Some constraint before position n is a usable equality on column col. */
  predicate EqBefore(cs: seq<Constraint>, n: int, col: int)
  {
    exists j :: 0 <= j < n && j < |cs| && IsEqOn(cs[j], col)
  }

  /** The plan is valid when a function-style constraint or both hidden columns are bound. */
  predicate Accepts(cs: seq<Constraint>)
  {
    FunctionBefore(cs, |cs|) || (EqBefore(cs, |cs|, TOOL_NAME_COLUMN) && EqBefore(cs, |cs|, ARGUMENTS_COLUMN))
  }

  /**
   * The usage written for constraint i, prior being what it held before: an
   * equality's argvIndex is shifted by two when a function-style constraint
   * came earlier in the array; anything not consumed is left alone.
   */
  function UsageAt(cs: seq<Constraint>, i: int, prior: ConstraintUsage): ConstraintUsage
    requires 0 <= i < |cs|
  {
    if IsFunctionArg(cs[i]) then ConstraintUsage(1, true)
    else if IsEqOn(cs[i], TOOL_NAME_COLUMN) then ConstraintUsage(if FunctionBefore(cs, i) then 3 else 1, true)
    else if IsEqOn(cs[i], ARGUMENTS_COLUMN) then ConstraintUsage(if FunctionBefore(cs, i) then 4 else 2, true)
    else prior
  }

  /** The whole usage array the planner leaves, starting from SQLite's zeroed one. */
  function PlannedUsage(cs: seq<Constraint>): seq<ConstraintUsage>
  {
    seq(|cs|, i requires 0 <= i < |cs| => UsageAt(cs, i, UNUSED))
  }

  /** mcp_call_tool_stream_best_index. */
  method BestIndex(info: IndexInfo) returns (rc: int)
    requires info.Valid()
    modifies info, info.aConstraintUsage
    ensures rc == SQLITE_OK
    ensures info.idxNum == (if Accepts(info.aConstraint) then 1 else 0)
    ensures info.estimatedCost == (if Accepts(info.aConstraint) then PLAN_COST else REJECTED_COST)
    ensures forall i :: 0 <= i < |info.aConstraint| ==>
      info.aConstraintUsage[i] == UsageAt(info.aConstraint, i, old(info.aConstraintUsage[i]))
  {
    var cs := info.aConstraint;
    var usage := info.aConstraintUsage;
    var hasToolName, hasArguments, hasFunction := false, false, false;
    for i := 0 to |cs|
      invariant hasFunction == FunctionBefore(cs, i)
      invariant hasToolName == EqBefore(cs, i, TOOL_NAME_COLUMN)
      invariant hasArguments == EqBefore(cs, i, ARGUMENTS_COLUMN)
      invariant forall j :: 0 <= j < i ==> usage[j] == UsageAt(cs, j, old(usage[j]))
      invariant forall j :: i <= j < |cs| ==> usage[j] == old(usage[j])
    {
      if !cs[i].usable {
        continue;
      }
      if cs[i].op == SQLITE_INDEX_CONSTRAINT_FUNCTION {
        hasFunction := true;
        usage[i] := ConstraintUsage(1, true);
        continue;
      }
      if cs[i].op == SQLITE_INDEX_CONSTRAINT_EQ {
        if cs[i].iColumn == TOOL_NAME_COLUMN {
          hasToolName := true;
          usage[i] := ConstraintUsage(if hasFunction then 3 else 1, true);
        } else if cs[i].iColumn == ARGUMENTS_COLUMN {
          hasArguments := true;
          usage[i] := ConstraintUsage(if hasFunction then 4 else 2, true);
        }
      }
    }
    if hasFunction || (hasToolName && hasArguments) {
      info.estimatedCost := PLAN_COST;
      info.idxNum := 1;
    } else {
      info.estimatedCost := REJECTED_COST;
      info.idxNum := 0;
    }
    rc := SQLITE_OK;
  }

  /** Every constraint the planner consumes is omitted from SQLite's own re-check, and only those. */
  lemma ConsumedConstraintsAreOmitted(cs: seq<Constraint>, i: int)
    requires 0 <= i < |cs|
    ensures PlannedUsage(cs)[i].argvIndex > 0 <==>
      IsFunctionArg(cs[i]) || IsEqOn(cs[i], TOOL_NAME_COLUMN) || IsEqOn(cs[i], ARGUMENTS_COLUMN)
    ensures PlannedUsage(cs)[i].omit <==> PlannedUsage(cs)[i].argvIndex > 0
    ensures !cs[i].usable ==> PlannedUsage(cs)[i] == UNUSED
  {
  }

  /**
   * The table-valued call mcp_call_tool(name, args): exactly one usable
   * equality on each hidden column and no function-style constraint. The plan
   * is accepted, SQLite accepts its usage, and xFilter receives the tool name
   * and the arguments, in that order.
   */
  lemma TableValuedCallPlan(cs: seq<Constraint>, values: seq<Option<string>>, t: int, a: int)
    requires |values| == |cs| && 0 <= t < |cs| && 0 <= a < |cs|
    requires IsEqOn(cs[t], TOOL_NAME_COLUMN) && IsEqOn(cs[a], ARGUMENTS_COLUMN)
    requires forall i :: 0 <= i < |cs| ==> !IsFunctionArg(cs[i])
    requires forall i :: 0 <= i < |cs| && i != t ==> !IsEqOn(cs[i], TOOL_NAME_COLUMN)
    requires forall i :: 0 <= i < |cs| && i != a ==> !IsEqOn(cs[i], ARGUMENTS_COLUMN)
    ensures Accepts(cs)
    ensures WellFormedUsage(cs, PlannedUsage(cs))
    ensures HostArgv(PlannedUsage(cs), values) == [values[t], values[a]]
  {
    var u := PlannedUsage(cs);
    assert !FunctionBefore(cs, t) && !FunctionBefore(cs, a);
    assert u[t] == ConstraintUsage(1, true) && u[a] == ConstraintUsage(2, true);
    forall i | 0 <= i < |u| && i != t && i != a
      ensures u[i].argvIndex <= 0
    {
      assert u[i] == UNUSED;
    }
    TwoArgumentPlan(cs, u, values, t, a);
  }

  /**
   * A function-style constraint followed by equalities on both hidden columns
   * gets argvIndex 1, 3 and 4: SQLite refuses that usage (2 is never handed out).
   */
  lemma FunctionThenEqualitiesLeavesAGap()
    ensures var cs := [Constraint(0, SQLITE_INDEX_CONSTRAINT_FUNCTION, true),
                       Constraint(TOOL_NAME_COLUMN, SQLITE_INDEX_CONSTRAINT_EQ, true),
                       Constraint(ARGUMENTS_COLUMN, SQLITE_INDEX_CONSTRAINT_EQ, true)];
      && Accepts(cs)
      && PlannedUsage(cs) == [ConstraintUsage(1, true), ConstraintUsage(3, true), ConstraintUsage(4, true)]
      && !WellFormedUsage(cs, PlannedUsage(cs))
  {
    var cs := [Constraint(0, SQLITE_INDEX_CONSTRAINT_FUNCTION, true),
               Constraint(TOOL_NAME_COLUMN, SQLITE_INDEX_CONSTRAINT_EQ, true),
               Constraint(ARGUMENTS_COLUMN, SQLITE_INDEX_CONSTRAINT_EQ, true)];
    assert IsFunctionArg(cs[0]);
    assert FunctionBefore(cs, 1) && FunctionBefore(cs, 2);
    var u := PlannedUsage(cs);
    assert u == [ConstraintUsage(1, true), ConstraintUsage(3, true), ConstraintUsage(4, true)];
    assert ArgvCount(u) == 3 by {
      assert u[..2][..1][..0] == [];
      assert ArgvCount(u[..2][..1]) == 1;
      assert ArgvCount(u[..2]) == 2;
    }
    assert u[2].argvIndex > ArgvCount(u);
  }

  /**
   * Two usable equalities on the same hidden column, with no function-style
   * constraint before them (as in `WHERE tool_name = ? AND tool_name = ?`),
   * get the same argvIndex: SQLite refuses that usage.
   */
  lemma RepeatedEqualityIsRefused(cs: seq<Constraint>, i: int, j: int, col: int)
    requires 0 <= i < j < |cs| && (col == TOOL_NAME_COLUMN || col == ARGUMENTS_COLUMN)
    requires IsEqOn(cs[i], col) && IsEqOn(cs[j], col) && !FunctionBefore(cs, j)
    ensures PlannedUsage(cs)[i].argvIndex == PlannedUsage(cs)[j].argvIndex == col
    ensures !WellFormedUsage(cs, PlannedUsage(cs))
  {
    var u := PlannedUsage(cs);
    assert u[i].argvIndex == col && u[j].argvIndex == col;
  }

  // ---------------------------------------------------------------------------
  // The cursor

  /** The fields of an mcp_call_tool_stream_cursor. */
  datatype Cursor = Cursor(streamId: nat, currentText: Option<string>, eof: bool, rowid: int)

  /** xOpen: a zero-filled cursor. */
  const OPENED := Cursor(0, None, false, 0)

  /** Only DONE or no chunk at all ends the scan. */
  predicate EndsScan(r: Poll)
  {
    r.None? || r.value.resultType == STREAM_TYPE_DONE
  }

  /** A TEXT chunk that carries data. */
  predicate IsText(r: Poll)
  {
    r.Some? && r.value.resultType == STREAM_TYPE_TEXT && r.value.data.Some?
  }

  /** The text a poll leaves in the row: the chunk's data for TEXT, NULL for anything else. */
  function RowText(r: Poll): Option<string>
  {
    if IsText(r) then r.value.data else None
  }

  /** What both xFilter and xNext do with the result of a poll. */
  function Deliver(c: Cursor, r: Poll): Cursor
  {
    if EndsScan(r) then c.(eof := true)
    else if IsText(r) then c.(currentText := r.value.data, rowid := c.rowid + 1)
    else c
  }

  /** xNext given the result of its poll: drop the current text, then deliver. */
  function Step(c: Cursor, r: Poll): Cursor
  {
    Deliver(c.(currentText := None), r)
  }

  /** xFilter's argument checks: a valid plan and two non-NULL values. */
  predicate ArgsOk(idxNum: int, argv: seq<Option<string>>)
  {
    idxNum != 0 && |argv| >= 2 && argv[0].Some? && argv[1].Some?
  }

  /**
   * xFilter as the source writes it, given the id the initialiser returned
   * and the first poll's result. The text of an earlier scan is kept.
   */
  function AfterFilterAsWritten(c: Cursor, idxNum: int, argv: seq<Option<string>>, id: nat, first: Poll): Cursor
  {
    if !ArgsOk(idxNum, argv) then c.(eof := true)
    else if id == 0 then c.(streamId := 0, eof := true)
    else Deliver(c.(streamId := id, rowid := 0, eof := false), first)
  }

  /** The corrected xFilter: an earlier scan's stream and text are dropped first. */
  function AfterFilter(c: Cursor, idxNum: int, argv: seq<Option<string>>, id: nat, first: Poll): Cursor
  {
    AfterFilterAsWritten(c.(streamId := 0, currentText := None), idxNum, argv, id, first)
  }

  /** xColumn: column 0 is the current text; everything else is NULL. */
  function ColumnValue(c: Cursor, iCol: int): Option<string>
  {
    if iCol == 0 then c.currentText else None
  }

  /** The cursor states at which the host reads a row, starting from c, with `polls` left in the stream. */
  function Scan(c: Cursor, polls: seq<Poll>): seq<Cursor>
    decreases |polls| + (if c.eof then 0 else 1)
  {
    if c.eof then [] else [c] + Scan(Step(c, Head(polls)), Tail(polls))
  }

  /** Reference: how many polls come before the first DONE or timeout. */
  function LiveLength(polls: seq<Poll>): (n: nat)
    ensures n <= |polls|
    ensures n < |polls| ==> EndsScan(polls[n])
    ensures forall k :: 0 <= k < n ==> !EndsScan(polls[k])
  {
    if |polls| == 0 || EndsScan(polls[0]) then 0 else 1 + LiveLength(polls[1..])
  }

  /** Reference: how many of the polls bring a TEXT chunk with data. */
  function TextCount(polls: seq<Poll>): nat
  {
    if |polls| == 0 then 0 else (if IsText(polls[0]) then 1 else 0) + TextCount(polls[1..])
  }

  /**
   * From a live cursor, every poll before the first DONE or timeout is one
   * row: a TEXT chunk's data, or NULL for any other chunk (ERROR included);
   * the rowid counts the TEXT chunks so far.
   */
  lemma {:induction false} ScanFollowsLiveRun(c: Cursor, polls: seq<Poll>)
    requires !c.eof
    ensures var rows := Scan(Step(c, Head(polls)), Tail(polls));
      && |rows| == LiveLength(polls)
      && forall k :: 0 <= k < |rows| ==>
           rows[k] == Cursor(c.streamId, RowText(polls[k]), false, c.rowid + TextCount(polls[..k + 1]))
    decreases |polls|
  {
    if |polls| > 0 && !EndsScan(polls[0]) {
      var d := Step(c, polls[0]);
      ScanFollowsLiveRun(d, polls[1..]);
      assert Tail(polls) == polls[1..];
      var rows := Scan(d, polls[1..]);
      forall k | 0 <= k < |rows|
        ensures rows[k] == Cursor(c.streamId, RowText(polls[k]), false, c.rowid + TextCount(polls[..k + 1]))
      {
        assert polls[..k + 1][1..] == polls[1..][..k];
        if k > 0 {
          assert rows[k] == Scan(Step(d, Head(polls[1..])), Tail(polls[1..]))[k - 1];
          assert polls[1..][..k - 1 + 1] == polls[1..][..k];
        }
      }
    }
  }

  /**
   * A whole query through the corrected xFilter: with bad arguments or a
   * failed initialisation the host reads nothing; otherwise it reads one row
   * per poll before the first DONE or timeout, the first poll included. On a
   * cursor holding no text, such as a freshly opened one, the source's xFilter
   * reads the same rows.
   */
  lemma QueryReadsLiveRun(c: Cursor, idxNum: int, argv: seq<Option<string>>, id: nat, script: seq<Poll>)
    ensures c.currentText.None? ==>
      Scan(AfterFilterAsWritten(c, idxNum, argv, id, Head(script)), Tail(script)) ==
      Scan(AfterFilter(c, idxNum, argv, id, Head(script)), Tail(script))
    ensures var rows := Scan(AfterFilter(c, idxNum, argv, id, Head(script)), Tail(script));
      && (!ArgsOk(idxNum, argv) || id == 0 ==> rows == [])
      && (ArgsOk(idxNum, argv) && id > 0 ==>
            && |rows| == LiveLength(script)
            && forall k :: 0 <= k < |rows| ==>
                 rows[k] == Cursor(id, RowText(script[k]), false, TextCount(script[..k + 1])))
  {
    if ArgsOk(idxNum, argv) && id > 0 {
      ScanFollowsLiveRun(Cursor(id, None, false, 0), script);
    }
  }

  /**
   * As written, a second xFilter whose first chunk is not TEXT keeps the
   * previous scan's text: the host reads "A" again as the first row.
   */
  lemma RefilterShowsStaleTextAsWritten()
    ensures var c := Cursor(1, Some("A"), false, 1);
            var d := AfterFilterAsWritten(c, 1, [Some("t"), Some("{}")], 2, Some(Chunk(STREAM_TYPE_ERROR, None)));
            !d.eof && ColumnValue(d, 0) == Some("A")
  {
  }

  /** The corrected xFilter never shows an earlier scan's text. */
  lemma RefilterStartsWithoutText(c: Cursor, idxNum: int, argv: seq<Option<string>>, id: nat, first: Poll)
    ensures var d := AfterFilter(c, idxNum, argv, id, first);
            d.currentText.Some? ==> ArgsOk(idxNum, argv) && id > 0 && IsText(first) && d.currentText == first.value.data
  {
  }

  /** An mcp_call_tool_stream_cursor over a collaborator's stream. */
  class CallStreamCursor {
    var streamId: nat
    var currentText: Option<string>
    var eof: bool
    var rowid: int

    function State(): Cursor
      reads this
    {
      Cursor(streamId, currentText, eof, rowid)
    }

    /** xEof. */
    function Eof(): (b: bool)
      reads this
      ensures forall polls :: Scan(State(), polls) == [] <==> b
    {
      eof
    }

    /** xRowid. */
    function Rowid(): int
      reads this
    {
      rowid
    }

    /** xColumn. */
    function Column(iCol: int): Option<string>
      reads this
    {
      ColumnValue(State(), iCol)
    }

    /** xOpen. */
    constructor Open()
      ensures State() == OPENED
    {
      streamId, currentText, eof, rowid := 0, None, false, 0;
    }

    /** Interprets the result of one poll (shared by xFilter and xNext). */
    method Receive(result: Poll)
      modifies this
      ensures State() == Deliver(old(State()), result)
    {
      if result.None? {
        eof := true;
        return;
      }
      if result.value.resultType == STREAM_TYPE_DONE {
        eof := true;
        return;
      }
      if result.value.resultType == STREAM_TYPE_TEXT && result.value.data.Some? {
        currentText := result.value.data;
        rowid := rowid + 1;
      }
    }

    /** The checks and the stream start common to both versions of xFilter. */
    method Start(client: Client, idxNum: int, argv: seq<Option<string>>) returns (rc: int)
      modifies this, client`streamScripts, client`lastId, client`live, client`waits, client`streamCalls
      ensures State() == AfterFilterAsWritten(old(State()), idxNum, argv, old(client.NextId()),
                                              Head(FirstScript(old(client.streamScripts))))
      ensures !ArgsOk(idxNum, argv) ==>
        && rc == SQLITE_ERROR
        && client.streamScripts == old(client.streamScripts) && client.lastId == old(client.lastId)
        && client.live == old(client.live) && client.waits == old(client.waits)
        && client.streamCalls == old(client.streamCalls)
      ensures ArgsOk(idxNum, argv) ==>
        var id := old(client.NextId());
        var script := FirstScript(old(client.streamScripts));
        && rc == (if id == 0 then SQLITE_ERROR else SQLITE_OK)
        && client.streamCalls == old(client.streamCalls) + [(argv[0].value, argv[1].value)]
        && client.streamScripts == Tail(old(client.streamScripts))
        && (id > 0 ==> client.lastId == id && client.live == old(client.live)[id := Tail(script)]
                       && client.waits == old(client.waits) + [(id, FIRST_POLL_TIMEOUT_MS)])
        && (id == 0 ==> client.lastId == old(client.lastId) && client.live == old(client.live)
                        && client.waits == old(client.waits))
    {
      if idxNum == 0 {
        eof := true;
        return SQLITE_ERROR;
      }
      if |argv| < 2 {
        eof := true;
        return SQLITE_ERROR;
      }
      var toolName, arguments := argv[0], argv[1];
      if toolName.None? || arguments.None? {
        eof := true;
        return SQLITE_ERROR;
      }
      streamId := client.CallToolInit(toolName.value, arguments.value);
      if streamId == 0 {
        eof := true;
        return SQLITE_ERROR;
      }
      rowid := 0;
      eof := false;
      var result := client.StreamWait(streamId, FIRST_POLL_TIMEOUT_MS);
      Receive(result);
      rc := SQLITE_OK;
    }

    /** xFilter as the source writes it: an earlier stream and text are overwritten, not released. */
    method FilterAsWritten(client: Client, idxNum: int, argv: seq<Option<string>>) returns (rc: int)
      modifies this, client`streamScripts, client`lastId, client`live, client`waits, client`streamCalls
      ensures var call := StreamHandles.Filter(if ArgsOk(idxNum, argv) then Some(old(client.NextId())) else None);
        && streamId == StreamHandles.HeldAfter(old(streamId), call, false)
        && client.cleanups == old(client.cleanups) + StreamHandles.ReleasedBy(old(streamId), call, false)
      ensures State() == AfterFilterAsWritten(old(State()), idxNum, argv, old(client.NextId()),
                                              Head(FirstScript(old(client.streamScripts))))
      ensures !ArgsOk(idxNum, argv) ==>
        && rc == SQLITE_ERROR
        && client.streamScripts == old(client.streamScripts) && client.lastId == old(client.lastId)
        && client.live == old(client.live) && client.waits == old(client.waits)
        && client.streamCalls == old(client.streamCalls)
      ensures ArgsOk(idxNum, argv) ==>
        var id := old(client.NextId());
        var script := FirstScript(old(client.streamScripts));
        && rc == (if id == 0 then SQLITE_ERROR else SQLITE_OK)
        && client.streamCalls == old(client.streamCalls) + [(argv[0].value, argv[1].value)]
        && client.streamScripts == Tail(old(client.streamScripts))
        && (id > 0 ==> client.lastId == id && client.live == old(client.live)[id := Tail(script)]
                       && client.waits == old(client.waits) + [(id, FIRST_POLL_TIMEOUT_MS)])
        && (id == 0 ==> client.lastId == old(client.lastId) && client.live == old(client.live)
                        && client.waits == old(client.waits))
    {
      rc := Start(client, idxNum, argv);
    }

    /** xFilter, releasing an earlier scan's stream and text before anything else. */
    method Filter(client: Client, idxNum: int, argv: seq<Option<string>>) returns (rc: int)
      modifies this, client`streamScripts, client`lastId, client`live, client`waits, client`streamCalls,
               client`cleanups
      ensures var call := StreamHandles.Filter(if ArgsOk(idxNum, argv) then Some(old(client.NextId())) else None);
        && streamId == StreamHandles.HeldAfter(old(streamId), call, true)
        && client.cleanups == old(client.cleanups) + StreamHandles.ReleasedBy(old(streamId), call, true)
      ensures State() == AfterFilter(old(State()), idxNum, argv, old(client.NextId()),
                                     Head(FirstScript(old(client.streamScripts))))
      ensures var kept := if old(streamId) > 0 then old(client.live) - {old(streamId)} else old(client.live);
        !ArgsOk(idxNum, argv) ==>
        && rc == SQLITE_ERROR
        && client.streamScripts == old(client.streamScripts) && client.lastId == old(client.lastId)
        && client.live == kept && client.waits == old(client.waits)
        && client.streamCalls == old(client.streamCalls)
      ensures var kept := if old(streamId) > 0 then old(client.live) - {old(streamId)} else old(client.live);
        ArgsOk(idxNum, argv) ==>
        var id := old(client.NextId());
        var script := FirstScript(old(client.streamScripts));
        && rc == (if id == 0 then SQLITE_ERROR else SQLITE_OK)
        && client.streamCalls == old(client.streamCalls) + [(argv[0].value, argv[1].value)]
        && client.streamScripts == Tail(old(client.streamScripts))
        && (id > 0 ==> client.lastId == id && client.live == kept[id := Tail(script)]
                       && client.waits == old(client.waits) + [(id, FIRST_POLL_TIMEOUT_MS)])
        && (id == 0 ==> client.lastId == old(client.lastId) && client.live == kept
                        && client.waits == old(client.waits))
    {
      if streamId > 0 {
        client.StreamCleanup(streamId);
      }
      streamId := 0;
      currentText := None;
      rc := Start(client, idxNum, argv);
    }

    /** xNext: drop the current text and poll once with the shorter bound. */
    method Next(client: Client) returns (rc: int)
      modifies this, client`live, client`waits
      ensures rc == SQLITE_OK
      ensures State() == Step(old(State()), PollOf(old(client.live), streamId))
      ensures client.live == AfterPoll(old(client.live), streamId)
      ensures client.waits == old(client.waits) + [(streamId, NEXT_POLL_TIMEOUT_MS)]
    {
      currentText := None;
      var result := client.StreamWait(streamId, NEXT_POLL_TIMEOUT_MS);
      Receive(result);
      rc := SQLITE_OK;
    }

    /**
     * xClose: releases the stream, if the cursor holds one, whether or not it
     * was exhausted. The cursor is freed, so it holds no stream afterwards.
     */
    method Close(client: Client)
      modifies this`streamId, client`live, client`cleanups
      ensures streamId == StreamHandles.HeldAfter(old(streamId), StreamHandles.Close, true)
      ensures client.cleanups == old(client.cleanups) + StreamHandles.ReleasedBy(old(streamId), StreamHandles.Close, true)
      ensures client.live == if old(streamId) > 0 then old(client.live) - {old(streamId)} else old(client.live)
    {
      if streamId > 0 {
        client.StreamCleanup(streamId);
      }
      streamId := 0;
    }
  }
}
