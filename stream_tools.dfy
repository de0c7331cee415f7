/**
 * The streaming tool-list table (mcp_list_tools): every xFilter opens a
 * fresh stream, and every step polls it once with a 100 ms bound. A TOOL
 * chunk is one row; an ERROR or DONE chunk, a chunk of unknown type, or no
 * chunk at all ends the scan.
 */
module StreamTools {
  import opened Wrappers
  import opened SqliteHost
  import opened McpClient
  import StreamHandles

  /** The bound of every poll, in milliseconds. */
  const POLL_TIMEOUT_MS := 100

  /** The one cost the planner reports, whatever the constraints. */
  const PLAN_COST := 10

  /** The fields of an mcp_stream_cursor. */
  datatype Cursor = Cursor(streamId: nat, currentData: Option<string>, eof: bool, rowid: int)

  /** xOpen: a zero-filled cursor. */
  const OPENED := Cursor(0, None, false, 0)

  /** A poll yields a row exactly when it brings a TOOL chunk. */
  predicate YieldsRow(r: Poll)
  {
    r.Some? && r.value.resultType == STREAM_TYPE_TOOL
  }

  /**
   * One step of mcp_stream_next_impl given the result r of its poll: the
   * previous data is dropped, a TOOL chunk becomes the current row, anything
   * else ends the scan.
   */
  function Advance(c: Cursor, r: Poll): Cursor
  {
    if YieldsRow(r) then c.(currentData := r.value.data, rowid := c.rowid + 1)
    else c.(currentData := None, eof := true)
  }

  /** xFilter up to its first poll: keep the new stream id, then fail on 0 or reset the position. */
  function Start(c: Cursor, id: nat): Cursor
  {
    if id == 0 then c.(streamId := 0, eof := true)
    else c.(streamId := id, rowid := 0, eof := false)
  }

  /** xFilter, given the id the initialiser returned and the result of the first poll. */
  function AfterFilter(c: Cursor, id: nat, first: Poll): Cursor
  {
    if id == 0 then Start(c, id) else Advance(Start(c, id), first)
  }

  /** The descriptor field shown in column iCol. */
  function FieldOfColumn(iCol: int): Option<ToolField>
  {
    if 0 <= iCol < |TOOL_COLUMNS| then Some(TOOL_COLUMNS[iCol]) else None
  }

  /** xColumn: the field of the current tool, NULL when absent or empty. */
  function ColumnValue(p: JsonParser, c: Cursor, iCol: int): Option<string>
  {
    if c.currentData.None? || FieldOfColumn(iCol).None? then None
    else
      var v := p.toolField(c.currentData.value, 0, FieldOfColumn(iCol).value);
      if v.Some? && |v.value| > 0 then v else None
  }

  /**
   * The cursor states at which the host reads a row, starting from c, when
   * the stream has `polls` left to deliver (an exhausted stream times out).
   */
  function Scan(c: Cursor, polls: seq<Poll>): seq<Cursor>
    decreases |polls| + (if c.eof then 0 else 1)
  {
    if c.eof then [] else [c] + Scan(Advance(c, Head(polls)), Tail(polls))
  }

  /** Reference: the data of the TOOL chunks a stream delivers before anything else. */
  function ToolRun(polls: seq<Poll>): seq<Option<string>>
  {
    if |polls| == 0 || !YieldsRow(polls[0]) then [] else [polls[0].value.data] + ToolRun(polls[1..])
  }

  /**
   * From a live cursor, polling `polls` yields one row per leading TOOL chunk,
   * carrying that chunk's data, with rowids counting up by one.
   */
  lemma {:induction false} ScanFollowsToolRun(c: Cursor, polls: seq<Poll>)
    requires !c.eof
    ensures var rows := Scan(Advance(c, Head(polls)), Tail(polls));
      && |rows| == |ToolRun(polls)|
      && forall k :: 0 <= k < |rows| ==> rows[k] == Cursor(c.streamId, ToolRun(polls)[k], false, c.rowid + k + 1)
    decreases |polls|
  {
    if |polls| > 0 && YieldsRow(polls[0]) {
      var d := Advance(c, polls[0]);
      ScanFollowsToolRun(d, polls[1..]);
      assert Tail(polls) == polls[1..];
    }
  }

  /**
   * A whole query: xFilter opens stream id, whose chunks are `script`, and the
   * host steps until eof. With id 0 it reads nothing; otherwise it reads exactly
   * the leading TOOL chunks, with rowids 1, 2, ...
   */
  lemma QueryReadsLeadingTools(c: Cursor, id: nat, script: seq<Poll>)
    ensures var rows := Scan(AfterFilter(c, id, Head(script)), Tail(script));
      && (id == 0 ==> rows == [])
      && (id > 0 ==>
            && |rows| == |ToolRun(script)|
            && forall k :: 0 <= k < |rows| ==> rows[k] == Cursor(id, ToolRun(script)[k], false, k + 1))
  {
    if id > 0 {
      ScanFollowsToolRun(Start(c, id), script);
    }
  }

  /**
   * What a whole query shows: column iCol of its row k is column iCol's field
   * (in the table's declared order) of entry 0 of the k-th leading TOOL chunk,
   * and NULL when that chunk has no data, the field is absent or empty, or
   * there is no such column.
   */
  lemma QueryColumnsAreToolFields(p: JsonParser, c: Cursor, id: nat, script: seq<Poll>, k: nat, iCol: int)
    requires id > 0 && k < |ToolRun(script)|
    ensures var rows := Scan(AfterFilter(c, id, Head(script)), Tail(script));
      && k < |rows|
      && ColumnValue(p, rows[k], iCol) ==
           if ToolRun(script)[k].None? || !(0 <= iCol < |TOOL_COLUMNS|) then None
           else
             var v := p.toolField(ToolRun(script)[k].value, 0, TOOL_COLUMNS[iCol]);
             if v.Some? && v.value != "" then v else None
  {
    QueryReadsLeadingTools(c, id, script);
  }

  /** mcp_stream_best_index: a cheap full scan, whatever the constraints; the usage is left alone. */
  method BestIndex(info: IndexInfo) returns (rc: int)
    modifies info
    ensures rc == SQLITE_OK && info.estimatedCost == PLAN_COST && info.idxNum == old(info.idxNum)
  {
    info.estimatedCost := PLAN_COST;
    rc := SQLITE_OK;
  }

  /** An mcp_stream_cursor over a collaborator's stream. */
  class ToolsStreamCursor {
    var streamId: nat
    var currentData: Option<string>
    var eof: bool
    var rowid: int

    function State(): Cursor
      reads this
    {
      Cursor(streamId, currentData, eof, rowid)
    }

    /** xEof. */
    function Eof(): (b: bool)
      reads this
      ensures forall polls :: Scan(State(), polls) == [] <==> b
    {
      eof
    }

    /** xRowid. */
    function Rowid(): int
      reads this
    {
      rowid
    }

    /** xColumn, with the collaborator's field extractor. */
    function Column(p: JsonParser, iCol: int): Option<string>
      reads this
    {
      ColumnValue(p, State(), iCol)
    }

    /** xOpen. */
    constructor Open()
      ensures State() == OPENED
    {
      streamId, currentData, eof, rowid := 0, None, false, 0;
    }

    /** mcp_stream_next_impl: drop the current data, poll once, interpret the result. */
    method NextImpl(client: Client) returns (rc: int)
      modifies this, client`live, client`waits
      ensures rc == SQLITE_OK
      ensures State() == Advance(old(State()), PollOf(old(client.live), streamId))
      ensures client.live == AfterPoll(old(client.live), streamId)
      ensures client.waits == old(client.waits) + [(streamId, POLL_TIMEOUT_MS)]
    {
      currentData := None;
      var result := client.StreamWait(streamId, POLL_TIMEOUT_MS);
      if result.None? {
        eof := true;
        return SQLITE_OK;
      }
      if result.value.resultType == STREAM_TYPE_TOOL {
        currentData := result.value.data;
        rowid := rowid + 1;
      } else {
        // ERROR, DONE or an unknown type
        eof := true;
      }
      rc := SQLITE_OK;
    }

    /** xNext. */
    method Next(client: Client) returns (rc: int)
      modifies this, client`live, client`waits
      ensures rc == SQLITE_OK
      ensures State() == Advance(old(State()), PollOf(old(client.live), streamId))
      ensures client.live == AfterPoll(old(client.live), streamId)
      ensures client.waits == old(client.waits) + [(streamId, POLL_TIMEOUT_MS)]
    {
      rc := NextImpl(client);
    }

    /**
     * xFilter as the source writes it: the new stream id overwrites the old
     * one, whose stream is never released.
     */
    method FilterAsWritten(client: Client) returns (rc: int)
      modifies this, client`streamScripts, client`lastId, client`live, client`waits
      ensures var call := StreamHandles.Filter(Some(old(client.NextId())));
        && streamId == StreamHandles.HeldAfter(old(streamId), call, false)
        && client.cleanups == old(client.cleanups) + StreamHandles.ReleasedBy(old(streamId), call, false)
      ensures var id := old(client.NextId());
              var script := FirstScript(old(client.streamScripts));
        && State() == AfterFilter(old(State()), id, Head(script))
        && rc == (if id == 0 then SQLITE_ERROR else SQLITE_OK)
        && client.streamScripts == Tail(old(client.streamScripts))
        && (id > 0 ==> client.lastId == id && client.live == old(client.live)[id := Tail(script)]
                       && client.waits == old(client.waits) + [(id, POLL_TIMEOUT_MS)])
        && (id == 0 ==> client.lastId == old(client.lastId) && client.live == old(client.live)
                        && client.waits == old(client.waits))
    {
      streamId := client.ListToolsInit();
      if streamId == 0 {
        eof := true;
        return SQLITE_ERROR;
      }
      rowid := 0;
      eof := false;
      rc := NextImpl(client);
    }

    /**
     * xFilter, releasing the stream of an earlier scan of this cursor before
     * it opens a new one.
     */
    method Filter(client: Client) returns (rc: int)
      modifies this, client`streamScripts, client`lastId, client`live, client`waits, client`cleanups
      ensures var call := StreamHandles.Filter(Some(old(client.NextId())));
        && streamId == StreamHandles.HeldAfter(old(streamId), call, true)
        && client.cleanups == old(client.cleanups) + StreamHandles.ReleasedBy(old(streamId), call, true)
      ensures var id := old(client.NextId());
              var script := FirstScript(old(client.streamScripts));
              var kept := if old(streamId) > 0 then old(client.live) - {old(streamId)} else old(client.live);
        && State() == AfterFilter(old(State()), id, Head(script))
        && rc == (if id == 0 then SQLITE_ERROR else SQLITE_OK)
        && client.streamScripts == Tail(old(client.streamScripts))
        && (id > 0 ==> client.lastId == id && client.live == kept[id := Tail(script)]
                       && client.waits == old(client.waits) + [(id, POLL_TIMEOUT_MS)])
        && (id == 0 ==> client.lastId == old(client.lastId) && client.live == kept
                        && client.waits == old(client.waits))
    {
      if streamId > 0 {
        client.StreamCleanup(streamId);
      }
      streamId := client.ListToolsInit();
      if streamId == 0 {
        eof := true;
        return SQLITE_ERROR;
      }
      rowid := 0;
      eof := false;
      rc := NextImpl(client);
    }

    /**
     * xClose: releases the stream, if the cursor holds one, whether or not it
     * was exhausted. The cursor is freed, so it holds no stream afterwards.
     */
    method Close(client: Client)
      modifies this`streamId, client`live, client`cleanups
      ensures streamId == StreamHandles.HeldAfter(old(streamId), StreamHandles.Close, true)
      ensures client.cleanups == old(client.cleanups) + StreamHandles.ReleasedBy(old(streamId), StreamHandles.Close, true)
      ensures client.live == if old(streamId) > 0 then old(client.live) - {old(streamId)} else old(client.live)
    {
      if streamId > 0 {
        client.StreamCleanup(streamId);
      }
      streamId := 0;
    }
  }
}
