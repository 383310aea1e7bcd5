/** The compiled agent graph: a fixed pipeline initialize, guard, tool,
    finalize, threading one state through the nodes. */
module Graph {
  import opened Wrappers
  import Text
  import Json
  import Policy
  import S = State
  import N = Nodes
  import Ingest
  import Registry
  import Config

  datatype Node = Start | Initialize | Guard | Tool | Finalize | End

  /** The nodes added to the graph. */
  const Registered: set<Node> := {Finalize, Tool, Initialize, Guard}

  /** The edges added to the graph: one successor per node, none conditional. */
  const Edges: map<Node, Node> :=
    map[Start := Initialize, Initialize := Guard, Guard := Tool, Tool := Finalize, Finalize := End]

  /** The nodes reached from `n` by following at most `fuel` edges. */
  function Walk(n: Node, fuel: nat): (path: seq<Node>)
    ensures |path| <= fuel
    ensures |path| > 0 ==> n in Edges && path[0] == Edges[n]
    ensures forall i :: 0 <= i < |path| - 1 ==> path[i] in Edges && path[i + 1] == Edges[path[i]]
    decreases fuel
  {
    if fuel == 0 || n !in Edges then [] else [Edges[n]] + Walk(Edges[n], fuel - 1)
  }

  /** A run visits every registered node exactly once, in the order
      initialize, guard, tool, finalize, and then ends: END has no successor. */
  lemma FixedPipeline()
    ensures Walk(Start, 5) == [Initialize, Guard, Tool, Finalize, End]
    ensures End !in Edges
    ensures forall n :: n in Registered <==> n in Walk(Start, 5)[..4]
    ensures Walk(Start, 5)[4] == End
  {
    assert Walk(Finalize, 1) == [End];
    assert Walk(Start, 5)[..4] == [Initialize, Guard, Tool, Finalize];
  }

  /** What a run returns, as the graph is wired: the guard's answer is handed
      to the tool node, and finalize runs unless the tool node raised. */
  function Pipeline(query: string, env: Policy.Env, o: N.ToolOracles): (S.State, N.NodeOutcome) {
    var guarded := N.GuardEffect(S.BuildInitialState(query), env);
    var (t, out) := N.ToolResult(o, guarded);
    if out.Completed? then (N.FinalizeEffect(t), out) else (t, out)
  }

  /** `graph.invoke`: the nodes in the order of the edges. `visited` lists the
      nodes that ran. */
  method Invoke(run: N.Run, env: Policy.Env, o: N.ToolOracles) returns (outcome: N.NodeOutcome, visited: seq<Node>)
    modifies run
    ensures (run.state, outcome) == Pipeline(old(run.state).query, env, o)
    ensures visited == if outcome.Completed? then Walk(Start, 4) else Walk(Start, 3)
  {
    WalkPrefixes();
    run.InitializeNode();
    run.GuardNode(env);
    visited := [Initialize, Guard];
    outcome := run.ToolNode(o);
    visited := visited + [Tool];
    assert visited == [Initialize, Guard, Tool];
    if outcome.Completed? {
      run.FinalizeNode();
      visited := visited + [Finalize];
      assert visited == [Initialize, Guard, Tool, Finalize];
    }
  }

  lemma WalkPrefixes()
    ensures Walk(Start, 3) == [Initialize, Guard, Tool]
    ensures Walk(Start, 4) == [Initialize, Guard, Tool, Finalize]
  {
    assert Walk(Tool, 1) == [Finalize];
    assert Walk(Guard, 1) == [Tool];
  }

  /** A completed run counts exactly one iteration, keeps the query, records
      only tool-node calls, and returns its answer masked: the tool node's
      answer through `mask_pii` with one assistant message, or the empty
      answer with none. */
  lemma CompletedRun(query: string, env: Policy.Env, o: N.ToolOracles)
    requires Pipeline(query, env, o).1.Completed?
    ensures var t := Pipeline(query, env, o).0;
      var a := N.ToolResult(o, N.GuardEffect(S.BuildInitialState(query), env)).0.finalAnswer.value;
      t.iterationCount == 1 && t.query == query &&
      (forall j :: 0 <= j < |t.toolCalls| ==> N.Recorded(o, t.toolCalls[j], j)) &&
      t.retrievedChunks == [] && t.citations == [] &&
      (a != "" ==> t.finalAnswer == Some(Policy.Masked(a)) && t.messages == [S.Message("assistant", Policy.Masked(a))]) &&
      (a == "" ==> t.finalAnswer == Some("") && t.messages == [])
  {
    var s0 := S.BuildInitialState(query);
    var g := N.GuardEffect(s0, env);
    N.GuardEffectRefusal(s0, env);
    N.ToolResultRecords(o, g);
    N.ToolResultAnswer(o, g);
  }

  // ---------------------------------------------------------------------
  // The refusal is lost: guard_router is not wired

  /** The tool node's outcome does not depend on the answer already present. */
  lemma ToolResultIgnoresAnswer(o: N.ToolOracles, s: S.State, answer: Option<string>)
    ensures N.ToolResult(o, s.(finalAnswer := answer)).1 == N.ToolResult(o, s).1
    ensures N.ToolResult(o, s).1.Completed? ==>
      N.ToolResult(o, s.(finalAnswer := answer)).0 == N.ToolResult(o, s).0
  {
    assert N.ToolLoop(o, s.(finalAnswer := answer)) == N.ToolLoop(o, s);
  }

  /** As wired, the guard has no effect on a completed run: the run returns
      exactly what it returns with the guard node removed, refusal or not. */
  lemma GuardOverwritten(query: string, env: Policy.Env, o: N.ToolOracles)
    requires Pipeline(query, env, o).1.Completed?
    ensures var s0 := S.BuildInitialState(query);
      var (t, out) := N.ToolResult(o, s0);
      Pipeline(query, env, o) == (N.FinalizeEffect(t), out)
  {
    var s0 := S.BuildInitialState(query);
    N.GuardEffectRefusal(s0, env);
    if Policy.Refusal(query).Some? {
      var answer := Some(Policy.RefusalResponse(Policy.CategoryName(Policy.Refusal(query).value)));
      ToolResultIgnoresAnswer(o, s0, answer);
    }
  }

  /** The completion service that answers every turn with empty content and no
      tool calls, and a synthesis that returns nothing. */
  function Silent(): N.ToolOracles {
    N.ToolOracles(
      (turns: seq<string>) => N.Completion(None, []),
      (k: nat, name: string, args: Json.Json) => Err(""),
      (v: Json.Json) => "",
      (calls: seq<S.ToolCall>) => "")
  }

  /** The discrepancy on a concrete run: "Can I sue my employer?" is refused by
      the guard, yet the run ends with an empty answer instead of the legal
      refusal. */
  lemma RefusedQueryLosesRefusal(env: Policy.Env)
    ensures Policy.Refusal("Can I sue my employer?") == Some(Policy.Legal)
    ensures Pipeline("Can I sue my employer?", env, Silent()).1.Completed?
    ensures Pipeline("Can I sue my employer?", env, Silent()).0.finalAnswer == Some("")
  {
    var q := "Can I sue my employer?";
    assert Text.OccursAt("sue", Text.Lower(q), 6);
    Text.OccursFromWitness("sue", Text.Lower(q), 6);
    Policy.SueRefusedAsLegal(q);
  }

  // ---------------------------------------------------------------------
  // The pipeline with guard_router wired after the guard

  /** Every refusal template has text, so a refused state is never blank. */
  lemma RefusalNotBlank(reason: string)
    ensures !S.Blank(Some(Policy.RefusalResponse(reason)))
  {
    var r := Policy.RefusalResponse(reason);
    assert r[..9] == "I cannot ";
    assert r[0] == 'I';
    Text.StripEmptyIff(r);
  }

  /** The run as intended: after the guard, `guard_router` picks the next node.
      A present answer goes straight to finalize; otherwise the router follows
      `reply`, the completion service's routing decision. The node it picks is
      followed by finalize, as the tool node is in the shipped graph; the rag
      node works with the chunks `retrieved` and the generated `answer`. */
  function RoutedPipeline(query: string, env: Policy.Env, o: N.ToolOracles, reply: string,
                          retrieved: seq<Ingest.Chunk>, answer: string): (S.State, N.NodeOutcome) {
    var guarded := N.GuardEffect(S.BuildInitialState(query), env);
    match N.GuardRouter(guarded, reply)
    case Finalize => (N.FinalizeEffect(guarded), N.Completed)
    case Rag => (N.FinalizeEffect(N.RagEffect(guarded, retrieved, answer)), N.Completed)
    case Tool =>
      var (t, out) := N.ToolResult(o, guarded);
      if out.Completed? then (N.FinalizeEffect(t), out) else (t, out)
  }

  /** With routing, a refused query ends with its category's refusal (masked),
      no tool calls and no iteration, whatever the reply. Any other query goes
      where the reply sends it: "tool" runs as the shipped graph does,
      "rag" answers from the retrieved chunks, and anything else finalizes the
      fresh state at once. */
  lemma RoutedRefusalKept(query: string, env: Policy.Env, o: N.ToolOracles, reply: string,
                          retrieved: seq<Ingest.Chunk>, answer: string)
    ensures Policy.Refusal(query).Some? ==>
      var t := RoutedPipeline(query, env, o, reply, retrieved, answer).0;
      var refusal := Policy.RefusalResponse(Policy.CategoryName(Policy.Refusal(query).value));
      t.finalAnswer == Some(Policy.Masked(refusal)) && t.toolCalls == [] && t.iterationCount == 0 &&
      t.messages == [S.Message("assistant", Policy.Masked(refusal))]
    ensures Policy.Refusal(query).None? ==>
      var s0 := S.BuildInitialState(query);
      var r := RoutedPipeline(query, env, o, reply, retrieved, answer);
      (N.ParseDecision(reply) == N.Tool ==> r == Pipeline(query, env, o)) &&
      (N.ParseDecision(reply) == N.Rag ==> r == (N.FinalizeEffect(N.RagEffect(s0, retrieved, answer)), N.Completed)) &&
      (N.ParseDecision(reply) == N.Finalize ==> r == (N.FinalizeEffect(s0), N.Completed))
  {
    var s0 := S.BuildInitialState(query);
    N.GuardEffectRefusal(s0, env);
    S.InitialAnswerBlank(query);
    if Policy.Refusal(query).Some? {
      var refusal := Policy.RefusalResponse(Policy.CategoryName(Policy.Refusal(query).value));
      RefusalNotBlank(Policy.CategoryName(Policy.Refusal(query).value));
      assert refusal != "";
    } else {
      N.RouterBelowCeiling(s0, reply);
    }
  }

  /** `graph.invoke` with `guard_router` wired after the guard: `reply` is the
      completion service's routing decision, and the rag node retrieves through
      the cache with the given oracles. `retrieved` is what it retrieved, or
      nothing when another node ran. */
  method InvokeRouted(run: N.Run, env: Policy.Env, o: N.ToolOracles, reply: string,
                      cache: Registry.IndexCache,
                      load: () -> (Registry.Index, seq<Ingest.Chunk>),
                      retrieve: (string, Registry.Index, seq<Ingest.Chunk>, int) -> seq<Ingest.Chunk>,
                      generate: (string, seq<Ingest.Chunk>) -> string)
    returns (outcome: N.NodeOutcome, retrieved: seq<Ingest.Chunk>)
    requires cache.Valid()
    modifies run, cache
    ensures cache.Valid()
    ensures var guarded := N.GuardEffect(S.BuildInitialState(old(run.state).query), env);
      (run.state, outcome) == RoutedPipeline(old(run.state).query, env, o, reply, retrieved,
                                             generate(guarded.query, retrieved))
    ensures var guarded := N.GuardEffect(S.BuildInitialState(old(run.state).query), env);
      N.GuardRouter(guarded, reply) == N.Rag ==>
        cache.index.Some? && retrieved == retrieve(guarded.query, cache.index.value, cache.chunks, Config.TopK)
  {
    run.InitializeNode();
    run.GuardNode(env);
    retrieved := [];
    match N.GuardRouter(run.state, reply)
    case Finalize =>
      run.FinalizeNode();
      outcome := N.Completed;
    case Rag =>
      retrieved := run.RagNode(cache, load, retrieve, generate);
      run.FinalizeNode();
      outcome := N.Completed;
    case Tool =>
      outcome := run.ToolNode(o);
      if outcome.Completed? {
        run.FinalizeNode();
      }
  }
}
