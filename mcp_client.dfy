/**
 * The tool-protocol collaborator the adapter calls through its foreign
 * interface. Its behaviour is not part of the model: a Client is a scripted
 * stand-in that hands out, in order, the replies it was given, and keeps
 * ghost logs of every fetch, call, poll and stream release, so that the
 * cursors' contracts can say how they use it.
 */
module McpClient {
  import opened Wrappers

  /** StreamResult.result_type tags. */
  const STREAM_TYPE_TOOL := 0
  const STREAM_TYPE_TEXT := 1
  const STREAM_TYPE_ERROR := 2
  const STREAM_TYPE_DONE := 3

  /** One StreamResult: its type tag and its (possibly NULL) data. */
  datatype Chunk = Chunk(resultType: int, data: Option<string>)

  /** What one mcp_stream_wait returns: a chunk, or NULL when nothing came within the timeout. */
  type Poll = Option<Chunk>

  /** The first entry of a queue of NULL-able replies; an exhausted queue answers NULL. */
  function Head<T>(q: seq<Option<T>>): Option<T>
  {
    if |q| == 0 then None else q[0]
  }

  /** A queue with its first entry consumed. */
  function Tail<T>(q: seq<T>): seq<T>
  {
    if |q| == 0 then [] else q[1..]
  }

  /** The six descriptor fields mcp_get_tool_field is asked for. */
  datatype ToolField = Name | Title | Description | InputSchema | OutputSchema | Annotations

  /** The columns of both tool-list tables, in their declared order. */
  const TOOL_COLUMNS: seq<ToolField> := [Name, Title, Description, InputSchema, OutputSchema, Annotations]

  /**
   * The JSON helpers implemented on the other side of the foreign interface,
   * as the pure functions they are from the adapter's point of view:
   * mcp_parse_tools_json, mcp_get_tool_field, mcp_parse_call_result_json and
   * mcp_get_call_result_text.
   */
  datatype JsonParser = JsonParser(
    toolCount: string -> nat,
    toolField: (string, nat, ToolField) -> Option<string>,
    contentCount: string -> nat,
    contentText: (string, nat) -> Option<string>)

  /** The error test of the cached tool list: the reply's first eight characters are {"error". */
  predicate StartsWithErrorKey(s: string)
  {
    |s| >= 8 && s[..8] == "{\"error\""
  }

  /** What a poll of stream id returns, given the chunks each live stream still holds. */
  function PollOf(live: map<nat, seq<Poll>>, id: nat): Poll
  {
    if id in live then Head(live[id]) else None
  }

  /** The live streams after a poll of stream id. */
  function AfterPoll(live: map<nat, seq<Poll>>, id: nat): map<nat, seq<Poll>>
  {
    if id in live then live[id := Tail(live[id])] else live
  }

  /** The chunks a freshly initialised stream will deliver, given the queued stream scripts. */
  function FirstScript(scripts: seq<Option<seq<Poll>>>): seq<Poll>
  {
    if |scripts| > 0 && scripts[0].Some? then scripts[0].value else []
  }

  class Client {
    const parser: JsonParser
    /** Successive replies of mcp_list_tools_json (NULL once exhausted). */
    var listReplies: seq<Option<string>>
    /** Successive replies of mcp_call_tool_json (NULL once exhausted). */
    var callReplies: seq<Option<string>>
    /** Successive stream initialisations: None makes the init return 0. */
    var streamScripts: seq<Option<seq<Poll>>>
    /** The last stream id handed out; ids are positive and never reused. */
    var lastId: nat
    /** The chunks every open stream has still to deliver. */
    var live: map<nat, seq<Poll>>

    ghost var fetches: nat
    ghost var calls: seq<(string, string)>
    ghost var streamCalls: seq<(string, string)>
    ghost var waits: seq<(nat, nat)>
    ghost var cleanups: multiset<nat>

    constructor (parser: JsonParser, listReplies: seq<Option<string>>, callReplies: seq<Option<string>>,
                 streamScripts: seq<Option<seq<Poll>>>)
      ensures this.parser == parser && this.listReplies == listReplies && this.callReplies == callReplies
      ensures this.streamScripts == streamScripts && lastId == 0 && live == map[]
      ensures fetches == 0 && calls == [] && streamCalls == [] && waits == [] && cleanups == multiset{}
    {
      this.parser := parser;
      this.listReplies := listReplies;
      this.callReplies := callReplies;
      this.streamScripts := streamScripts;
      lastId := 0;
      live := map[];
      fetches := 0;
      calls := [];
      streamCalls := [];
      waits := [];
      cleanups := multiset{};
    }

    /** The id the next stream initialisation returns: a fresh positive id, or 0 on failure. */
    function NextId(): nat
      reads this
    {
      if |streamScripts| > 0 && streamScripts[0].Some? then lastId + 1 else 0
    }

    /** mcp_list_tools_json: one full fetch of the tool list. */
    method ListToolsJson() returns (r: Option<string>)
      modifies this`listReplies, this`fetches
      ensures r == Head(old(listReplies)) && listReplies == Tail(old(listReplies))
      ensures fetches == old(fetches) + 1
    {
      r := Head(listReplies);
      listReplies := Tail(listReplies);
      fetches := fetches + 1;
    }

    /** mcp_call_tool_json: one tool call, answered in full. */
    method CallToolJson(name: string, arguments: string) returns (r: Option<string>)
      modifies this`callReplies, this`calls
      ensures r == Head(old(callReplies)) && callReplies == Tail(old(callReplies))
      ensures calls == old(calls) + [(name, arguments)]
    {
      r := Head(callReplies);
      callReplies := Tail(callReplies);
      calls := calls + [(name, arguments)];
    }

    /** Opens the next scripted stream; shared by both stream initialisers. */
    method InitStream() returns (id: nat)
      modifies this`streamScripts, this`lastId, this`live
      ensures id == old(NextId()) && streamScripts == Tail(old(streamScripts))
      ensures id > 0 ==> lastId == id && live == old(live)[id := FirstScript(old(streamScripts))]
      ensures id == 0 ==> lastId == old(lastId) && live == old(live)
    {
      id := NextId();
      if id > 0 {
        live := live[id := FirstScript(streamScripts)];
        lastId := id;
      }
      streamScripts := Tail(streamScripts);
    }

    /** mcp_list_tools_init. */
    method ListToolsInit() returns (id: nat)
      modifies this`streamScripts, this`lastId, this`live
      ensures id == old(NextId()) && streamScripts == Tail(old(streamScripts))
      ensures id > 0 ==> lastId == id && live == old(live)[id := FirstScript(old(streamScripts))]
      ensures id == 0 ==> lastId == old(lastId) && live == old(live)
    {
      id := InitStream();
    }

    /** mcp_call_tool_init. */
    method CallToolInit(name: string, arguments: string) returns (id: nat)
      modifies this`streamScripts, this`lastId, this`live, this`streamCalls
      ensures id == old(NextId()) && streamScripts == Tail(old(streamScripts))
      ensures id > 0 ==> lastId == id && live == old(live)[id := FirstScript(old(streamScripts))]
      ensures id == 0 ==> lastId == old(lastId) && live == old(live)
      ensures streamCalls == old(streamCalls) + [(name, arguments)]
    {
      id := InitStream();
      streamCalls := streamCalls + [(name, arguments)];
    }

    /** mcp_stream_wait: the stream's next chunk, or NULL when none arrives within timeoutMs. */
    method StreamWait(id: nat, timeoutMs: nat) returns (r: Poll)
      modifies this`live, this`waits
      ensures r == PollOf(old(live), id) && live == AfterPoll(old(live), id)
      ensures waits == old(waits) + [(id, timeoutMs)]
    {
      r := PollOf(live, id);
      live := AfterPoll(live, id);
      waits := waits + [(id, timeoutMs)];
    }

    /** mcp_stream_cleanup: releases a stream handle. */
    method StreamCleanup(id: nat)
      modifies this`live, this`cleanups
      ensures live == old(live) - {id} && cleanups == old(cleanups) + multiset{id}
    {
      live := live - {id};
      cleanups := cleanups + multiset{id};
    }
  }
}
