/** The tools the agent may call, their schemas, and the lazily loaded search index. */
module Registry {
  import opened Wrappers
  import Json
  import Ingest

  /** The callables behind the tool names. */
  datatype Tool = SafeCalculate | ListEvents | CreateEvent | ClearEvents | RagSearch | SendSlackMessage

  /** `tools`: name to callable. */
  const Tools: map<string, Tool> := map[
    "safe_calculate" := SafeCalculate,
    "list_events" := ListEvents,
    "create_event" := CreateEvent,
    "clear_events" := ClearEvents,
    "rag_search" := RagSearch,
    "send_slack_message" := SendSlackMessage
  ]

  datatype ParamType = TString | TNumber

  /** One declared parameter (its description text is not modelled). */
  datatype Param = Param(name: string, kind: ParamType)

  /** One function schema of `tool_definitions`; `required` is absent where the
      schema omits the key. */
  datatype Definition = Definition(name: string, properties: seq<Param>, required: Option<seq<string>>)

  /** `tool_definitions`, in order. */
  const ToolDefinitions: seq<Definition> := [
    Definition("safe_calculate", [Param("expr", TString)], Some(["expr"])),
    Definition("list_events", [Param("start_date", TString), Param("end_date", TString)], None),
    Definition("create_event",
      [Param("title", TString), Param("start_time", TString), Param("duration_minutes", TNumber)],
      Some(["title", "start_time", "duration_minutes"])),
    Definition("clear_events", [], Some([])),
    Definition("rag_search", [Param("query", TString), Param("k", TNumber)], Some(["query"])),
    Definition("send_slack_message", [Param("text", TString), Param("channel", TString)], Some(["text"]))
  ]

  function DefinedNames(defs: seq<Definition>): set<string> {
    set d | d in defs :: d.name
  }

  function PropertyNames(d: Definition): set<string> {
    set p | p in d.properties :: p.name
  }

  /** The tool names, in schema order. */
  const ToolNames: seq<string> :=
    ["safe_calculate", "list_events", "create_event", "clear_events", "rag_search", "send_slack_message"]

  /** Every tool has exactly one schema and every schema names a tool. */
  lemma ToolsMatchDefinitions()
    ensures Tools.Keys == DefinedNames(ToolDefinitions)
    ensures |ToolDefinitions| == |ToolNames|
    ensures forall i :: 0 <= i < |ToolNames| ==> ToolDefinitions[i].name == ToolNames[i]
  {
    assert forall i :: 0 <= i < 6 ==> ToolDefinitions[i].name == ToolNames[i];
    assert DefinedNames(ToolDefinitions) == set n | n in ToolNames;
    assert Tools.Keys == set n | n in ToolNames;
  }

  /** Six tools, no name defined twice. */
  lemma SixDistinctTools()
    ensures |Tools| == 6
    ensures forall i, j :: 0 <= i < j < |ToolDefinitions| ==> ToolDefinitions[i].name != ToolDefinitions[j].name
  {
    ToolCount();
    ToolsMatchDefinitions();
    ToolNamesDistinct();
  }

  lemma ToolNamesDistinct()
    ensures forall i, j :: 0 <= i < j < |ToolNames| ==> ToolNames[i] != ToolNames[j]
  {
    assert ToolNames[0][0] == 's' && ToolNames[1][0] == 'l' && ToolNames[2][1] == 'r';
    assert ToolNames[3][1] == 'l' && ToolNames[4][0] == 'r' && ToolNames[5][1] == 'e';
  }

  /** The six keys of the tool table are different strings. */
  lemma ToolCount()
    ensures |Tools.Keys| == 6
  {
    var k2 := {"safe_calculate", "list_events"};
    assert "safe_calculate"[0] != "list_events"[0];
    var k4 := k2 + {"create_event", "clear_events"};
    assert "create_event"[1] != "clear_events"[1];
    assert "create_event"[0] !in {'s', 'l'} && "clear_events"[0] !in {'s', 'l'};
    var k6 := k4 + {"rag_search", "send_slack_message"};
    assert "rag_search"[0] != "send_slack_message"[0];
    assert "rag_search"[0] !in {'s', 'l', 'c'};
    assert "send_slack_message"[1] !in {'a', 'i', 'r', 'l'};
    assert Tools.Keys == k6;
  }

  /** Every required parameter is a declared one. */
  lemma RequiredAreDeclared()
    ensures forall d, r :: d in ToolDefinitions && d.required.Some? && r in d.required.value ==> r in PropertyNames(d)
  {
    forall d, r | d in ToolDefinitions && d.required.Some? && r in d.required.value
      ensures r in PropertyNames(d)
    {
      var i :| 0 <= i < |ToolDefinitions| && ToolDefinitions[i] == d;
      assert 0 <= i < 6;
      if i == 0 {
        assert d.properties[0].name == r;
      } else if i == 2 {
        assert r == "title" || r == "start_time" || r == "duration_minutes";
        assert d.properties[0].name == "title" && d.properties[1].name == "start_time";
        assert d.properties[2].name == "duration_minutes";
      } else if i == 4 {
        assert d.properties[0].name == r;
      } else if i == 5 {
        assert d.properties[0].name == r;
      }
    }
  }

  /** `load_tools`: the static table and its schemas, one schema per tool. */
  function LoadTools(): (r: (map<string, Tool>, seq<Definition>))
    ensures r.0.Keys == DefinedNames(r.1) && |r.0| == |r.1| == 6
  {
    ToolsMatchDefinitions();
    SixDistinctTools();
    (Tools, ToolDefinitions)
  }

  /** The embedding vectors of the search index. */
  datatype Index = Index(vectors: seq<seq<real>>)

  /** The module globals `_index`/`_chunks`: filled on the first call, reused after. */
  class IndexCache {
    var index: Option<Index>
    var chunks: seq<Ingest.Chunk>
    /** How many times the files were read. */
    ghost var loads: nat

    ghost predicate Valid()
      reads this
    {
      (index.None? <==> loads == 0) && loads <= 1
    }

    constructor()
      ensures Valid() && index.None? && chunks == []
    {
      index := None;
      chunks := [];
      loads := 0;
    }

    /** `load_index_and_chunks`: `load` reads the index and chunk files. */
    method Load(load: () -> (Index, seq<Ingest.Chunk>)) returns (idx: Index, cs: seq<Ingest.Chunk>)
      requires Valid()
      modifies this
      ensures Valid() && loads == 1
      ensures old(index).None? ==> (idx, cs) == load() && index == Some(idx) && chunks == cs
      ensures old(index).Some? ==> idx == old(index).value && cs == old(chunks) && unchanged(this)
    {
      if index.None? {
        var pair := load();
        index := Some(pair.0);
        chunks := pair.1;
        loads := loads + 1;
      }
      return index.value, chunks;
    }
  }

  /** The default `k` of `rag_search`. */
  const DefaultK: int := 5

  /** The lean payload of one search hit: its source and content only. */
  function Hit(c: Ingest.Chunk): Json.Json {
    Json.JObj(map["source" := Json.JStr(c.source), "content" := Json.JStr(c.content)])
  }

  /** The result of `rag_search` for the chunks retrieval returned. */
  function Hits(results: seq<Ingest.Chunk>): (r: Json.Json)
    ensures r.JArr? && |r.items| == |results|
  {
    Json.JArr(seq(|results|, i requires 0 <= i < |results| => Hit(results[i])))
  }

  /** One entry per retrieved chunk, in retrieval order, carrying exactly the
      keys "source" and "content" with that chunk's values. */
  lemma HitsShape(results: seq<Ingest.Chunk>)
    ensures forall i :: 0 <= i < |results| ==>
      Hits(results).items[i].JObj? &&
      Hits(results).items[i].fields.Keys == {"source", "content"} &&
      Hits(results).items[i].fields["source"] == Json.JStr(results[i].source) &&
      Hits(results).items[i].fields["content"] == Json.JStr(results[i].content)
  {
  }

  /** `rag_search`: loads the index through the cache, retrieves `k` chunks
      (5 when the call leaves it out) and projects them. */
  method RagSearchTool(cache: IndexCache, query: string, k: Option<int>,
                       load: () -> (Index, seq<Ingest.Chunk>),
                       retrieve: (string, Index, seq<Ingest.Chunk>, int) -> seq<Ingest.Chunk>)
    returns (r: Json.Json)
    requires cache.Valid()
    modifies cache
    ensures cache.Valid() && cache.index.Some?
    ensures old(cache.index).Some? ==> unchanged(cache)
    ensures old(cache.index).None? ==> (cache.index.value, cache.chunks) == load()
    ensures r == Hits(retrieve(query, cache.index.value, cache.chunks, k.GetOr(DefaultK)))
  {
    var idx, cs := cache.Load(load);
    r := Hits(retrieve(query, idx, cs, k.GetOr(DefaultK)));
  }
}
