/** The in-memory trace log: typed records appended by the `log_*`
    functions, filtered by kind, cleared, serialised and summarised. */
module Telemetry {
  import opened Wrappers
  import Text
  import Json

  /** A timestamp, kept abstract: its ISO form and its `%H:%M:%S` form. */
  datatype Time = Time(iso: string, clock: string)

  datatype RecordKind = ReactStepKind | ToolCallKind | NodeEntryKind | NodeExitKind

  /** The `RecordType` value of each kind. */
  function KindName(k: RecordKind): string {
    match k
    case ReactStepKind => "react_step"
    case ToolCallKind => "tool_call"
    case NodeEntryKind => "node_entry"
    case NodeExitKind => "node_exit"
  }

  datatype Record =
    | ReactStep(time: Time, stepType: string, content: string, metadata: map<string, Json.Json>)
    | ToolCallRecord(time: Time, toolName: string, arguments: map<string, Json.Json>, result: Json.Json, durationMs: real)
    | NodeEntry(time: Time, nodeName: string, query: string, iterationCount: int)
    | NodeExit(time: Time, nodeName: string, finalAnswer: Option<string>)

  function KindOf(r: Record): RecordKind {
    match r
    case ReactStep(_, _, _, _) => ReactStepKind
    case ToolCallRecord(_, _, _, _, _) => ToolCallKind
    case NodeEntry(_, _, _, _) => NodeEntryKind
    case NodeExit(_, _, _) => NodeExitKind
  }

  /** The records of kind `k`, in log order. */
  function OfKind(rs: seq<Record>, k: RecordKind): (r: seq<Record>)
    ensures |r| <= |rs|
  {
    if |rs| == 0 then [] else (if KindOf(rs[0]) == k then [rs[0]] else []) + OfKind(rs[1..], k)
  }

  lemma {:induction false} OfKindMember(rs: seq<Record>, k: RecordKind, x: Record)
    ensures x in OfKind(rs, k) <==> x in rs && KindOf(x) == k
  {
    if |rs| > 0 {
      OfKindMember(rs[1..], k, x);
      assert x in rs <==> x == rs[0] || x in rs[1..];
    }
  }

  lemma {:induction false} OfKindAppend(a: seq<Record>, b: seq<Record>, k: RecordKind)
    ensures OfKind(a + b, k) == OfKind(a, k) + OfKind(b, k)
  {
    if |a| == 0 {
      assert a + b == b;
    } else {
      var h := if KindOf(a[0]) == k then [a[0]] else [];
      assert (a + b)[0] == a[0];
      assert (a + b)[1..] == a[1..] + b;
      OfKindAppend(a[1..], b, k);
      calc {
        OfKind(a + b, k);
        h + OfKind(a[1..] + b, k);
        h + (OfKind(a[1..], k) + OfKind(b, k));
        (h + OfKind(a[1..], k)) + OfKind(b, k);
      }
    }
  }

  /** Logging a record adds it to the view of its own kind, at the end, and
      leaves the views of the other kinds as they were. */
  lemma LoggedRecordViews(rs: seq<Record>, x: Record, k: RecordKind)
    ensures OfKind(rs + [x], k) == OfKind(rs, k) + (if KindOf(x) == k then [x] else [])
  {
    OfKindAppend(rs, [x], k);
    assert [x][1..] == [];
  }

  // ---------------------------------------------------------------------
  // Serialisation

  /** The fields of a record other than `timestamp` and `record_type`. */
  function Fields(r: Record): map<string, Json.Json> {
    match r
    case ReactStep(_, st, c, m) =>
      map["step_type" := Json.JStr(st), "content" := Json.JStr(c), "metadata" := Json.JObj(m)]
    case ToolCallRecord(_, name, args, res, ms) =>
      map["tool_name" := Json.JStr(name), "arguments" := Json.JObj(args), "result" := res,
          "duration_ms" := Json.JNum(ms)]
    case NodeEntry(_, name, q, n) =>
      map["node_name" := Json.JStr(name), "query" := Json.JStr(q), "iteration_count" := Json.JNum(n as real)]
    case NodeExit(_, name, a) =>
      map["node_name" := Json.JStr(name), "final_answer" := if a.Some? then Json.JStr(a.value) else Json.JNull]
  }

  /** `TraceRecord.to_dict` */
  function ToDict(r: Record): map<string, Json.Json> {
    map["timestamp" := Json.JStr(r.time.iso), "type" := Json.JStr(KindName(KindOf(r)))] + Fields(r)
  }

  /** The dictionary holds the timestamp, the kind under "type" and every other
      field under its own name, and no "record_type" key. */
  lemma ToDictShape(r: Record)
    ensures ToDict(r).Keys == {"timestamp", "type"} + Fields(r).Keys
    ensures ToDict(r)["timestamp"] == Json.JStr(r.time.iso)
    ensures ToDict(r)["type"] == Json.JStr(KindName(KindOf(r)))
    ensures forall f :: f in Fields(r) ==> ToDict(r)[f] == Fields(r)[f]
    ensures "record_type" !in ToDict(r)
  {
  }

  // ---------------------------------------------------------------------
  // The summary

  const Header: string := "\n=== Agent Execution Trace ==="

  /** One summary line; `show` renders the arguments of a tool call. */
  function Line(r: Record, show: map<string, Json.Json> -> string): string {
    var t := "[" + r.time.clock + "] ";
    match r
    case ReactStep(_, st, c, _) => t + Text.Upper(st) + ": " + Text.Take(c, 150)
    case ToolCallRecord(_, name, args, _, _) => t + "TOOL: " + name + "(" + show(args) + ")"
    case NodeEntry(_, name, _, _) => t + "ENTER: " + name
    case NodeExit(_, name, _) => t + "EXIT: " + name
  }

  function Lines(rs: seq<Record>, show: map<string, Json.Json> -> string): (r: seq<string>)
    ensures |r| == |rs| && forall i :: 0 <= i < |rs| ==> r[i] == Line(rs[i], show)
  {
    seq(|rs|, i requires 0 <= i < |rs| => Line(rs[i], show))
  }

  /** `format_trace_summary` over the records `rs`. */
  function Summary(rs: seq<Record>, show: map<string, Json.Json> -> string): string {
    if |rs| == 0 then "No trace data" else Text.Join([Header] + Lines(rs, show), "\n")
  }

  /** The summary is the header followed by one line per record in log order:
      logging a record adds exactly its line at the end. */
  lemma SummaryAppend(rs: seq<Record>, x: Record, show: map<string, Json.Json> -> string)
    ensures |rs| == 0 ==> Summary(rs + [x], show) == Header + "\n" + Line(x, show)
    ensures |rs| > 0 ==> Summary(rs + [x], show) == Summary(rs, show) + "\n" + Line(x, show)
  {
    var lines := Lines(rs + [x], show);
    var init := [Header] + Lines(rs, show);
    assert lines == Lines(rs, show) + [Line(x, show)];
    var parts := [Header] + lines;
    assert parts == init + [Line(x, show)];
    assert parts[..|parts| - 1] == init;
    assert Text.Join(parts, "\n") == Text.Join(init, "\n") + "\n" + Line(x, show);
    if |rs| == 0 {
      assert init == [Header];
    }
  }

  /** A non-empty log's summary opens with the header. */
  lemma {:induction false} SummaryStartsWithHeader(rs: seq<Record>, show: map<string, Json.Json> -> string)
    requires |rs| > 0
    ensures Text.StartsWith(Summary(rs, show), Header)
    decreases |rs|
  {
    if |rs| == 1 {
      assert Summary(rs, show) == Header + "\n" + Line(rs[0], show) by {
        SummaryAppend([], rs[0], show);
        assert [] + [rs[0]] == rs;
      }
    } else {
      var pre := rs[..|rs| - 1];
      SummaryStartsWithHeader(pre, show);
      SummaryAppend(pre, rs[|rs| - 1], show);
      assert pre + [rs[|rs| - 1]] == rs;
    }
  }

  // ---------------------------------------------------------------------
  // The log

  /** `_trace_log` */
  class TraceLog {
    var records: seq<Record>

    constructor()
      ensures records == []
    {
      records := [];
    }

    /** `log_react_step`: absent or empty metadata is stored as an empty map. */
    method LogReactStep(time: Time, stepType: string, content: string, metadata: Option<map<string, Json.Json>>)
      modifies this
      ensures records == old(records) + [ReactStep(time, stepType, content, metadata.GetOr(map[]))]
    {
      var m := if metadata.Some? then metadata.value else map[];
      records := records + [ReactStep(time, stepType, content, m)];
    }

    /** `log_tool_call` */
    method LogToolCall(time: Time, toolName: string, arguments: map<string, Json.Json>, result: Json.Json, durationMs: real)
      modifies this
      ensures records == old(records) + [ToolCallRecord(time, toolName, arguments, result, durationMs)]
    {
      records := records + [ToolCallRecord(time, toolName, arguments, result, durationMs)];
    }

    /** `log_node_entry`: the state's query cut to 50 characters ("" when
        absent) and its iteration count (0 when absent). */
    method LogNodeEntry(time: Time, nodeName: string, query: Option<string>, iterationCount: Option<int>)
      modifies this
      ensures records == old(records) + [NodeEntry(time, nodeName, Text.Take(query.GetOr(""), 50), iterationCount.GetOr(0))]
      ensures |records[|records| - 1].query| <= 50
    {
      var q := if query.Some? then query.value else "";
      var n := if iterationCount.Some? then iterationCount.value else 0;
      records := records + [NodeEntry(time, nodeName, Text.Take(q, 50), n)];
    }

    /** `log_node_exit` */
    method LogNodeExit(time: Time, nodeName: string, finalAnswer: Option<string>)
      modifies this
      ensures records == old(records) + [NodeExit(time, nodeName, finalAnswer)]
    {
      records := records + [NodeExit(time, nodeName, finalAnswer)];
    }

    /** `get_trace`: a copy; being a value, later changes to either side do not
        reach the other. */
    method GetTrace() returns (copy: seq<Record>)
      ensures copy == records
    {
      copy := records;
    }

    /** `get_trace_dicts` */
    function GetTraceDicts(): (r: seq<map<string, Json.Json>>)
      reads this
      ensures |r| == |records| && forall i :: 0 <= i < |r| ==> r[i] == ToDict(records[i])
    {
      seq(|records|, i reads this requires 0 <= i < |records| => ToDict(records[i]))
    }

    /** `get_react_steps` */
    function GetReactSteps(): (r: seq<Record>)
      reads this
      ensures forall x :: x in r <==> x in records && x.ReactStep?
    {
      OfKindMembers(records, ReactStepKind);
      OfKind(records, ReactStepKind)
    }

    /** `get_tool_calls` */
    function GetToolCalls(): (r: seq<Record>)
      reads this
      ensures forall x :: x in r <==> x in records && x.ToolCallRecord?
    {
      OfKindMembers(records, ToolCallKind);
      OfKind(records, ToolCallKind)
    }

    /** `get_node_entries` */
    function GetNodeEntries(): (r: seq<Record>)
      reads this
      ensures forall x :: x in r <==> x in records && x.NodeEntry?
    {
      OfKindMembers(records, NodeEntryKind);
      OfKind(records, NodeEntryKind)
    }

    /** `clear_trace` */
    method ClearTrace()
      modifies this
      ensures records == []
    {
      records := [];
    }

    /** `format_trace_summary` */
    method FormatTraceSummary(show: map<string, Json.Json> -> string) returns (s: string)
      ensures s == Summary(records, show)
    {
      if |records| == 0 {
        return "No trace data";
      }
      var lines := [Header];
      for i := 0 to |records|
        invariant lines == [Header] + Lines(records[..i], show)
      {
        lines := lines + [Line(records[i], show)];
      }
      assert records[..|records|] == records;
      s := Text.Join(lines, "\n");
    }
  }

  lemma OfKindMembers(rs: seq<Record>, k: RecordKind)
    ensures forall x :: x in OfKind(rs, k) <==> x in rs && KindOf(x) == k
  {
    forall x ensures x in OfKind(rs, k) <==> x in rs && KindOf(x) == k {
      OfKindMember(rs, k, x);
    }
  }
}
