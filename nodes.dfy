/** The graph nodes: each reads the run's state and updates it in place. The
    completion service, retrieval, tool bodies and answer synthesis are oracles
    passed in as function values. */
module Nodes {
  import opened Wrappers
  import Config
  import Text
  import Json
  import Ingest
  import Policy
  import Registry
  import S = State

  // ---------------------------------------------------------------------
  // Routing decisions

  datatype Route = Rag | Tool | Finalize

  /** The node name a route stands for. */
  function RouteName(r: Route): string {
    match r
    case Rag => "rag"
    case Tool => "tool"
    case Finalize => "finalize"
  }

  /** The fail-safe check on the router's reply: the stripped, lower-cased reply
      must name a node, anything else finalizes. */
  function ParseDecision(reply: string): Route {
    var d := Text.Lower(Text.Strip(reply));
    if d == "rag" then Rag else if d == "tool" then Tool else Finalize
  }

  /** `router`, given what the completion service replies. */
  function Router(s: S.State, reply: string): Route {
    if s.iterationCount > Config.MaxNodeIterations then Finalize else ParseDecision(reply)
  }

  /** `guard_router`: an answer already present (a refusal) goes straight to finalize. */
  function GuardRouter(s: S.State, reply: string): Route {
    if !S.Blank(s.finalAnswer) then Finalize else Router(s, reply)
  }

  /** A reply is obeyed exactly when it names a node; every other reply finalizes. */
  lemma ParseDecisionIff(reply: string, r: Route)
    ensures ParseDecision(reply) == r <==>
      Text.Lower(Text.Strip(reply)) == RouteName(r) ||
      (r == Finalize && Text.Lower(Text.Strip(reply)) !in {"rag", "tool", "finalize"})
  {
  }

  /** Past the iteration ceiling the reply does not matter. */
  lemma RouterCeiling(s: S.State, reply1: string, reply2: string)
    requires s.iterationCount > Config.MaxNodeIterations
    ensures Router(s, reply1) == Router(s, reply2) == Finalize
  {
  }

  /** Below the ceiling the router follows the reply's check. */
  lemma RouterBelowCeiling(s: S.State, reply: string)
    requires s.iterationCount <= Config.MaxNodeIterations
    ensures Router(s, reply) == ParseDecision(reply)
  {
  }

  /** `guard_router` finalizes exactly when an answer is present or the router finalizes. */
  lemma GuardRouterIff(s: S.State, reply: string)
    ensures GuardRouter(s, reply) == Finalize <==> !S.Blank(s.finalAnswer) || Router(s, reply) == Finalize
    ensures S.Blank(s.finalAnswer) ==> GuardRouter(s, reply) == Router(s, reply)
  {
  }

  /** A fresh state always defers to the router. */
  lemma FreshStateDefers(query: string, reply: string)
    ensures GuardRouter(S.BuildInitialState(query), reply) == Router(S.BuildInitialState(query), reply)
  {
    S.InitialAnswerBlank(query);
  }

  // ---------------------------------------------------------------------
  // Guard node

  /** The state after `guard_node`. */
  function GuardEffect(s: S.State, env: Policy.Env): S.State {
    var g := Policy.Guarded<Ingest.Chunk>(s.query, None, None, env);
    if g.passed then s
    else
      var q := if g.maskedQuery.Some? && g.maskedQuery.value != "" && g.maskedQuery.value != s.query
               then g.maskedQuery.value else s.query;
      s.(finalAnswer := g.message, query := q)
  }

  /** The guard node only ever records a refusal: the answer becomes the
      category's template, the query stays as it was, and a query that is not
      refused leaves the state untouched (its masked form is not stored). */
  lemma GuardEffectRefusal(s: S.State, env: Policy.Env)
    ensures Policy.Refusal(s.query).None? ==> GuardEffect(s, env) == s
    ensures Policy.Refusal(s.query).Some? ==>
      GuardEffect(s, env) ==
        s.(finalAnswer := Some(Policy.RefusalResponse(Policy.CategoryName(Policy.Refusal(s.query).value))))
  {
  }

  // ---------------------------------------------------------------------
  // RAG node

  /** The sources of the chunks, in order. */
  function Sources(chunks: seq<Ingest.Chunk>): (r: seq<string>)
    ensures |r| == |chunks| && forall i :: 0 <= i < |chunks| ==> r[i] == chunks[i].source
  {
    seq(|chunks|, i requires 0 <= i < |chunks| => chunks[i].source)
  }

  /** `list(set(xs))`, taking the values in order of first occurrence. */
  function Distinct(xs: seq<string>): (r: seq<string>)
    ensures (set x | x in r) == (set x | x in xs)
    ensures forall i, j :: 0 <= i < j < |r| ==> r[i] != r[j]
    decreases |xs|
  {
    if |xs| == 0 then []
    else
      var pre := xs[..|xs| - 1];
      var d := Distinct(pre);
      var x := xs[|xs| - 1];
      assert xs == pre + [x];
      assert (set y | y in xs) == (set y | y in pre) + {x};
      if x in d then d
      else
        assert (set y | y in d + [x]) == (set y | y in d) + {x};
        d + [x]
  }

  /** The state after `rag_node`, given the retrieved chunks and the answer
      the completion service would generate from them. */
  function RagEffect(s: S.State, retrieved: seq<Ingest.Chunk>, answer: string): S.State {
    if Policy.Grounding(s.query, retrieved).Some? then
      s.(finalAnswer := Some(Policy.GroundingError), retrievedChunks := retrieved, citations := [])
    else
      s.(retrievedChunks := retrieved, finalAnswer := Some(answer),
         citations := Distinct(Sources(retrieved)),
         toolCalls := s.toolCalls + [S.ToolCall("rag", Json.JStr(s.query), Json.JStr(answer))],
         iterationCount := s.iterationCount + 1)
  }

  /** Without retrieved chunks a factual query records the grounding error,
      clears the citations, appends no record and does not count an iteration. */
  lemma RagGroundingFailure(s: S.State, answer: string)
    requires Policy.FactualIntent(s.query)
    ensures var t := RagEffect(s, [], answer);
      t.finalAnswer == Some(Policy.GroundingError) && t.citations == [] && t.retrievedChunks == [] &&
      t.toolCalls == s.toolCalls && t.iterationCount == s.iterationCount && t.query == s.query
  {
  }

  /** Otherwise the citations are the distinct sources of the retrieved chunks,
      exactly one "rag" record is appended, and one iteration is counted. */
  lemma RagSuccess(s: S.State, retrieved: seq<Ingest.Chunk>, answer: string)
    requires |retrieved| > 0 || !Policy.FactualIntent(s.query)
    ensures var t := RagEffect(s, retrieved, answer);
      (set c | c in t.citations) == (set i | 0 <= i < |retrieved| :: retrieved[i].source) &&
      (forall i, j :: 0 <= i < j < |t.citations| ==> t.citations[i] != t.citations[j]) &&
      t.toolCalls == s.toolCalls + [S.ToolCall("rag", Json.JStr(s.query), Json.JStr(answer))] &&
      t.iterationCount == s.iterationCount + 1 && t.finalAnswer == Some(answer) &&
      t.retrievedChunks == retrieved
  {
    var src := Sources(retrieved);
    assert (set x | x in src) == (set i | 0 <= i < |retrieved| :: retrieved[i].source) by {
      forall x | x in src ensures x in (set i | 0 <= i < |retrieved| :: retrieved[i].source) {
        var i :| 0 <= i < |src| && src[i] == x;
      }
    }
  }

  // ---------------------------------------------------------------------
  // Tool node: the bounded ReAct loop

  /** A tool call proposed by the completion service; `arguments` is absent when
      its argument string is not valid JSON. */
  datatype Proposed = Proposed(name: string, arguments: Option<Json.Json>)

  /** One reply of the completion service. */
  datatype Completion = Completion(content: Option<string>, calls: seq<Proposed>)

  /** Exceptions that escape the tool node. */
  datatype Raised = JsonDecodeError | KeyError(key: string)

  /** The outside world of the tool node. `respond` answers the user turns sent
      so far (after the fixed system prompt); `invoke` runs the k-th tool call of
      the node and returns its result or the text of the exception it raised;
      `show` renders a value into the scratchpad; `synthesize` writes an answer
      from the tool calls. */
  datatype ToolOracles = ToolOracles(
    respond: seq<string> -> Completion,
    invoke: (nat, string, Json.Json) -> Result<Json.Json, string>,
    show: Json.Json -> string,
    synthesize: seq<S.ToolCall> -> string)

  /** The loop's variables: the user turns sent, the scratchpad, the records and
      the number of tool invocations so far. */
  datatype Scratch = Scratch(turns: seq<string>, pad: string, records: seq<S.ToolCall>, invoked: nat)

  datatype Failure = Failure(error: Raised, at: Scratch)

  datatype NodeOutcome = Completed | Raise(error: Raised)

  function UserTurn(query: string, pad: string): string {
    "Question: " + query + "\nThought:" + pad
  }

  /** What a tool call leaves as its result: its value, or its error text prefixed "Error: ". */
  function Observed(r: Result<Json.Json, string>): Json.Json {
    if r.Ok? then r.value else Json.JStr("Error: " + r.error)
  }

  function Observation(o: ToolOracles, name: string, args: Json.Json, result: Json.Json): string {
    "\nAction: " + name + "\nAction Input: " + o.show(args) + "\nObservation: " + o.show(result) + "\nThought:"
  }

  /** One proposed call: decoding its arguments and looking up its tool may
      raise; the tool itself is guarded and always yields a record. */
  function CallStep(o: ToolOracles, p: Proposed, sc: Scratch): Result<Scratch, Failure> {
    if p.arguments.None? then Err(Failure(JsonDecodeError, sc))
    else if p.name !in Registry.Tools then Err(Failure(KeyError(p.name), sc))
    else
      var args := p.arguments.value;
      var res := Observed(o.invoke(sc.invoked, p.name, args));
      Ok(Scratch(sc.turns, sc.pad + Observation(o, p.name, args, res),
                 sc.records + [S.ToolCall(p.name, args, res)], sc.invoked + 1))
  }

  /** The calls `calls[i..]` of one reply, in order. */
  function CallsFrom(o: ToolOracles, calls: seq<Proposed>, i: nat, sc: Scratch): Result<Scratch, Failure>
    requires i <= |calls|
    decreases |calls| - i
  {
    if i == |calls| then Ok(sc)
    else
      var r := CallStep(o, calls[i], sc);
      if r.Err? then r else CallsFrom(o, calls, i + 1, r.value)
  }

  /** Hops `hop..MaxToolHops` of the loop: the answer, if a reply without tool
      calls ended it, and the variables at the end. */
  function HopsFrom(o: ToolOracles, query: string, hop: nat, sc: Scratch): Result<(Option<string>, Scratch), Failure>
    decreases Config.MaxToolHops - hop
  {
    if hop >= Config.MaxToolHops then Ok((None, sc))
    else
      var turns := sc.turns + [UserTurn(query, sc.pad)];
      var c := o.respond(turns);
      if |c.calls| == 0 then Ok((Some(Text.Strip(c.content.GetOr(""))), sc.(turns := turns)))
      else
        var r := CallsFrom(o, c.calls, 0, sc.(turns := turns));
        if r.Err? then Err(r.error) else HopsFrom(o, query, hop + 1, r.value)
  }

  /** A hop whose reply proposes no call ends the loop with the stripped content. */
  lemma HopAnswered(o: ToolOracles, query: string, hop: nat, sc: Scratch)
    requires hop < Config.MaxToolHops
    requires o.respond(sc.turns + [UserTurn(query, sc.pad)]).calls == []
    ensures var turns := sc.turns + [UserTurn(query, sc.pad)];
      HopsFrom(o, query, hop, sc) == Ok((Some(Text.Strip(o.respond(turns).content.GetOr(""))), sc.(turns := turns)))
  {
  }

  /** A hop whose reply proposes calls runs them, then the next hop. */
  lemma HopCalled(o: ToolOracles, query: string, hop: nat, sc: Scratch)
    requires hop < Config.MaxToolHops
    requires o.respond(sc.turns + [UserTurn(query, sc.pad)]).calls != []
    ensures var turns := sc.turns + [UserTurn(query, sc.pad)];
      var r := CallsFrom(o, o.respond(turns).calls, 0, sc.(turns := turns));
      HopsFrom(o, query, hop, sc) == if r.Err? then Err(r.error) else HopsFrom(o, query, hop + 1, r.value)
  {
  }

  /** One hop of the loop, for the method that runs it. */
  lemma HopUnfold(o: ToolOracles, query: string, hop: nat, sc: Scratch)
    requires hop < Config.MaxToolHops
    ensures var turns := sc.turns + [UserTurn(query, sc.pad)];
      var c := o.respond(turns);
      var r := CallsFrom(o, c.calls, 0, sc.(turns := turns));
      HopsFrom(o, query, hop, sc) ==
        if |c.calls| == 0 then Ok((Some(Text.Strip(c.content.GetOr(""))), sc.(turns := turns)))
        else if r.Err? then Err(r.error) else HopsFrom(o, query, hop + 1, r.value)
  {
  }

  /** The whole loop, started from the state's records. */
  function ToolLoop(o: ToolOracles, s: S.State): Result<(Option<string>, Scratch), Failure> {
    HopsFrom(o, s.query, 0, Scratch([], "", s.toolCalls, 0))
  }

  /** The state after `tool_node` and whether an exception escaped it. An empty
      or missing answer is synthesised from every record. A raise leaves the
      records appended before it in place and nothing else changed. */
  function ToolResult(o: ToolOracles, s: S.State): (S.State, NodeOutcome) {
    var r := ToolLoop(o, s);
    if r.Err? then (s.(toolCalls := r.error.at.records), Raise(r.error.error))
    else
      var a := r.value.0;
      var records := r.value.1.records;
      var answer := if a.None? || a.value == "" then o.synthesize(records) else a.value;
      (s.(toolCalls := records, finalAnswer := Some(answer), iterationCount := s.iterationCount + 1), Completed)
  }

  /** `ToolResult` when the loop raised, for the method that runs it. */
  lemma ToolResultRaised(o: ToolOracles, s: S.State)
    requires ToolLoop(o, s).Err?
    ensures ToolResult(o, s) == (s.(toolCalls := ToolLoop(o, s).error.at.records), Raise(ToolLoop(o, s).error.error))
  {
  }

  /** `ToolResult` when the loop ended, for the method that runs it. */
  lemma ToolResultCompleted(o: ToolOracles, s: S.State, answer: Option<string>, sc: Scratch)
    requires ToolLoop(o, s) == Ok((answer, sc))
    ensures var a := if answer.None? || answer.value == "" then o.synthesize(sc.records) else answer.value;
      ToolResult(o, s) == (s.(toolCalls := sc.records, finalAnswer := Some(a), iterationCount := s.iterationCount + 1), Completed)
  {
  }

  // Properties of the loop

  /** `rec` is the record of the node's `k`-th tool invocation: a known tool
      with the result that invocation observed. */
  ghost predicate Recorded(o: ToolOracles, rec: S.ToolCall, k: int) {
    k >= 0 && rec.name in Registry.Tools && rec.result == Observed(o.invoke(k as nat, rec.name, rec.arguments))
  }

  /** The records start with `r0`, followed by one record per invocation so far. */
  ghost predicate Extends(o: ToolOracles, r0: seq<S.ToolCall>, sc: Scratch) {
    |sc.records| == |r0| + sc.invoked && sc.records[..|r0|] == r0 &&
    forall j :: |r0| <= j < |sc.records| ==> Recorded(o, sc.records[j], j - |r0|)
  }

  /** The calls of one reply send no turn and add one record per call made;
      a raise stops before the call that raised. */
  lemma {:induction false} CallsFromTurns(o: ToolOracles, calls: seq<Proposed>, i: nat, sc: Scratch)
    requires i <= |calls|
    ensures var r := CallsFrom(o, calls, i, sc);
      r.Ok? ==> r.value.turns == sc.turns && |r.value.records| == |sc.records| + |calls| - i
    ensures var r := CallsFrom(o, calls, i, sc);
      r.Err? ==> r.error.at.turns == sc.turns && |r.error.at.records| < |sc.records| + |calls| - i
    decreases |calls| - i
  {
    if i < |calls| {
      var st := CallStep(o, calls[i], sc);
      if st.Ok? {
        CallsFromTurns(o, calls, i + 1, st.value);
      }
    }
  }

  /** Calls keep the records' shape; a `KeyError` names an unknown tool. */
  lemma {:induction false} CallsFromExtends(o: ToolOracles, r0: seq<S.ToolCall>, calls: seq<Proposed>, i: nat, sc: Scratch)
    requires i <= |calls| && Extends(o, r0, sc)
    ensures var r := CallsFrom(o, calls, i, sc);
      r.Ok? ==> Extends(o, r0, r.value)
    ensures var r := CallsFrom(o, calls, i, sc);
      r.Err? ==> Extends(o, r0, r.error.at) && (r.error.error.KeyError? ==> r.error.error.key !in Registry.Tools)
    decreases |calls| - i
  {
    if i < |calls| {
      var st := CallStep(o, calls[i], sc);
      if st.Ok? {
        var n := st.value;
        assert n.records[..|r0|] == sc.records[..|r0|];
        forall j | |r0| <= j < |n.records|
          ensures Recorded(o, n.records[j], j - |r0|)
        {
          if j < |sc.records| {
            assert n.records[j] == sc.records[j];
          }
        }
        CallsFromExtends(o, r0, calls, i + 1, n);
      }
    }
  }

  /** The completion service's reply once the first `n` turns were sent. */
  function Reply(o: ToolOracles, turns: seq<string>, n: nat): Completion
    requires n <= |turns|
  {
    o.respond(turns[..n])
  }

  /** Number of tool calls proposed by the replies to the first `n` turns. */
  function ProposedCount(o: ToolOracles, turns: seq<string>, n: nat): nat
    requires n <= |turns|
  {
    if n == 0 then 0 else ProposedCount(o, turns, n - 1) + |Reply(o, turns, n).calls|
  }

  lemma {:induction false} ProposedCountPrefix(o: ToolOracles, t1: seq<string>, t2: seq<string>, n: nat)
    requires t1 <= t2 && n <= |t1|
    ensures ProposedCount(o, t1, n) == ProposedCount(o, t2, n)
  {
    if n > 0 {
      ProposedCountPrefix(o, t1, t2, n - 1);
      assert t1[..n] == t2[..n];
    }
  }

  /** The replies to turns `from + 1` through `to` all proposed tool calls. */
  ghost predicate AllProposed(o: ToolOracles, turns: seq<string>, from: nat, to: nat)
    requires to <= |turns|
  {
    forall n :: from < n <= to ==> |Reply(o, turns, n).calls| > 0
  }

  /** The loop sends at most MAX_TOOL_HOPS turns, one per hop, and keeps the
      turns already sent; it ends early only with an answer. */
  lemma {:induction false} HopsFromTurns(o: ToolOracles, query: string, hop: nat, sc: Scratch)
    requires hop <= Config.MaxToolHops && |sc.turns| == hop
    ensures var r := HopsFrom(o, query, hop, sc);
      r.Ok? ==> sc.turns <= r.value.1.turns && |r.value.1.turns| <= Config.MaxToolHops &&
                (r.value.0.Some? ==> |r.value.1.turns| > hop) &&
                (r.value.0.None? ==> |r.value.1.turns| == Config.MaxToolHops)
    ensures var r := HopsFrom(o, query, hop, sc);
      r.Err? ==> sc.turns <= r.error.at.turns && hop < |r.error.at.turns| <= Config.MaxToolHops
    decreases Config.MaxToolHops - hop
  {
    if hop < Config.MaxToolHops {
      var turns := sc.turns + [UserTurn(query, sc.pad)];
      var c := o.respond(turns);
      if |c.calls| > 0 {
        CallsFromTurns(o, c.calls, 0, sc.(turns := turns));
        var r := CallsFrom(o, c.calls, 0, sc.(turns := turns));
        if r.Ok? {
          HopsFromTurns(o, query, hop + 1, r.value);
        }
      }
    }
  }

  /** The earlier records are kept and every new record is the observed result
      of an invocation of a known tool; an escaping `KeyError` names an
      unknown tool. */
  lemma {:induction false} HopsFromExtends(o: ToolOracles, query: string, hop: nat, sc: Scratch, r0: seq<S.ToolCall>)
    requires Extends(o, r0, sc)
    ensures var r := HopsFrom(o, query, hop, sc);
      r.Ok? ==> Extends(o, r0, r.value.1)
    ensures var r := HopsFrom(o, query, hop, sc);
      r.Err? ==> Extends(o, r0, r.error.at) && (r.error.error.KeyError? ==> r.error.error.key !in Registry.Tools)
    decreases Config.MaxToolHops - hop
  {
    if hop < Config.MaxToolHops {
      var turns := sc.turns + [UserTurn(query, sc.pad)];
      var c := o.respond(turns);
      if |c.calls| > 0 {
        CallsFromExtends(o, r0, c.calls, 0, sc.(turns := turns));
        var r := CallsFrom(o, c.calls, 0, sc.(turns := turns));
        if r.Ok? {
          HopsFromExtends(o, query, hop + 1, r.value, r0);
        }
      }
    }
  }

  /** The loop ends with an answer exactly at the first reply without tool
      calls, and that answer is the reply's stripped content; it ends without
      one only when every reply proposed calls. */
  lemma {:induction false} HopsFromAnswer(o: ToolOracles, query: string, hop: nat, sc: Scratch)
    requires hop <= Config.MaxToolHops && |sc.turns| == hop
    ensures var r := HopsFrom(o, query, hop, sc);
      r.Ok? && r.value.0.Some? ==>
        |r.value.1.turns| > hop &&
        Reply(o, r.value.1.turns, |r.value.1.turns|).calls == [] &&
        r.value.0.value == Text.Strip(Reply(o, r.value.1.turns, |r.value.1.turns|).content.GetOr("")) &&
        AllProposed(o, r.value.1.turns, hop, |r.value.1.turns| - 1)
    ensures var r := HopsFrom(o, query, hop, sc);
      r.Ok? && r.value.0.None? ==> AllProposed(o, r.value.1.turns, hop, |r.value.1.turns|)
    decreases Config.MaxToolHops - hop
  {
    HopsFromTurns(o, query, hop, sc);
    if hop < Config.MaxToolHops {
      var turns := sc.turns + [UserTurn(query, sc.pad)];
      var c := o.respond(turns);
      assert turns[..hop + 1] == turns;
      if |c.calls| == 0 {
        HopAnswered(o, query, hop, sc);
        assert Reply(o, turns, hop + 1) == c;
        assert HopsFrom(o, query, hop, sc).value.1.turns == turns;
      } else {
        var r := CallsFrom(o, c.calls, 0, sc.(turns := turns));
        CallsFromTurns(o, c.calls, 0, sc.(turns := turns));
        HopCalled(o, query, hop, sc);
        if r.Ok? {
          HopsFromAnswer(o, query, hop + 1, r.value);
          HopsFromTurns(o, query, hop + 1, r.value);
          var res := HopsFrom(o, query, hop + 1, r.value);
          if res.Ok? {
            var e := res.value.1;
            assert e.turns[..hop + 1] == turns;
            assert Reply(o, e.turns, hop + 1) == c;
          }
          assert HopsFrom(o, query, hop, sc) == res;
        }
      }
    }
  }

  /** One record is appended per tool call proposed by the replies that
      preceded the answer (by every reply when there is none). */
  lemma {:induction false} HopsFromCount(o: ToolOracles, query: string, hop: nat, sc: Scratch)
    requires hop <= Config.MaxToolHops && |sc.turns| == hop
    ensures var r := HopsFrom(o, query, hop, sc);
      r.Ok? ==>
        var e := r.value.1;
        var last := if r.value.0.Some? then |e.turns| - 1 else |e.turns|;
        hop <= last <= |e.turns| &&
        |e.records| == |sc.records| + ProposedCount(o, e.turns, last) - ProposedCount(o, e.turns, hop)
    decreases Config.MaxToolHops - hop
  {
    HopsFromTurns(o, query, hop, sc);
    if hop < Config.MaxToolHops {
      var turns := sc.turns + [UserTurn(query, sc.pad)];
      var c := o.respond(turns);
      if |c.calls| == 0 {
        HopAnswered(o, query, hop, sc);
      } else {
        var r := CallsFrom(o, c.calls, 0, sc.(turns := turns));
        CallsFromTurns(o, c.calls, 0, sc.(turns := turns));
        HopCalled(o, query, hop, sc);
        if r.Ok? {
          HopsFromCount(o, query, hop + 1, r.value);
          HopsFromTurns(o, query, hop + 1, r.value);
          var res := HopsFrom(o, query, hop + 1, r.value);
          if res.Ok? {
            var e := res.value.1;
            assert e.turns[..hop + 1] == turns;
            assert Reply(o, e.turns, hop + 1) == c;
            assert ProposedCount(o, e.turns, hop + 1) == ProposedCount(o, e.turns, hop) + |c.calls|;
            var last := if res.value.0.Some? then |e.turns| - 1 else |e.turns|;
            assert |e.records| == |sc.records| + ProposedCount(o, e.turns, last) - ProposedCount(o, e.turns, hop);
          }
          assert HopsFrom(o, query, hop, sc) == res;
        }
      }
    }
  }

  /** `tool_node` keeps the earlier records, and each new record is a known
      tool's observed result, whether or not an exception escaped. */
  lemma ToolResultRecords(o: ToolOracles, s: S.State)
    ensures var t := ToolResult(o, s).0;
      |t.toolCalls| >= |s.toolCalls| && t.toolCalls[..|s.toolCalls|] == s.toolCalls &&
      forall j :: |s.toolCalls| <= j < |t.toolCalls| ==> Recorded(o, t.toolCalls[j], j - |s.toolCalls|)
  {
    var sc := Scratch([], "", s.toolCalls, 0);
    assert Extends(o, s.toolCalls, sc);
    HopsFromExtends(o, s.query, 0, sc, s.toolCalls);
  }

  /** A completed node counts one iteration and answers with the loop's answer,
      or with the synthesis over all records when the loop's answer is missing
      or empty; a raise leaves the answer and the count as they were. Nothing
      but the records, the answer and the count changes. */
  lemma ToolResultAnswer(o: ToolOracles, s: S.State)
    ensures var (t, out) := ToolResult(o, s);
      t.query == s.query && t.messages == s.messages && t.citations == s.citations &&
      t.retrievedChunks == s.retrievedChunks &&
      (out.Completed? <==> ToolLoop(o, s).Ok?) &&
      (out.Raise? ==> t.iterationCount == s.iterationCount && t.finalAnswer == s.finalAnswer &&
                      out.error == ToolLoop(o, s).error.error)
    ensures var (t, out) := ToolResult(o, s);
      out.Completed? ==>
        var a := ToolLoop(o, s).value.0;
        t.iterationCount == s.iterationCount + 1 &&
        (a.None? || a == Some("") ==> t.finalAnswer == Some(o.synthesize(t.toolCalls))) &&
        (a.Some? && a != Some("") ==> t.finalAnswer == a)
  {
  }

  // ---------------------------------------------------------------------
  // Finalize node

  /** The state after `finalize_node`. */
  function FinalizeEffect(s: S.State): S.State {
    if s.finalAnswer.Some? && s.finalAnswer.value != "" then
      var m := Policy.Masked(s.finalAnswer.value);
      s.(finalAnswer := Some(m), messages := s.messages + [S.Message("assistant", m)])
    else s
  }

  /** Finalize masks a non-empty answer and appends exactly one assistant
      message carrying it; with no answer it changes nothing. */
  lemma FinalizeSpec(s: S.State)
    ensures s.finalAnswer.Some? && s.finalAnswer.value != "" ==>
      var t := FinalizeEffect(s);
      t.finalAnswer == Some(Policy.Masked(s.finalAnswer.value)) &&
      |t.messages| == |s.messages| + 1 && t.messages[..|s.messages|] == s.messages &&
      t.messages[|s.messages|] == S.Message("assistant", t.finalAnswer.value) &&
      t.toolCalls == s.toolCalls && t.iterationCount == s.iterationCount && t.query == s.query
    ensures !(s.finalAnswer.Some? && s.finalAnswer.value != "") ==> FinalizeEffect(s) == s
  {
  }

  // ---------------------------------------------------------------------
  // The state object and the node methods

  /** The state dictionary that the nodes update in place. */
  class Run {
    var state: S.State

    constructor(s: S.State)
      ensures state == s
    {
      state := s;
    }

    /** `initialize_node`: keeps only the query. */
    method InitializeNode()
      modifies this
      ensures state == S.BuildInitialState(old(state).query)
    {
      state := S.BuildInitialState(state.query);
    }

    /** `guard_node`: applies the guards without chunks or paths. */
    method GuardNode(env: Policy.Env)
      modifies this
      ensures state == GuardEffect(old(state), env)
    {
      var g := Policy.ApplyGuards<Ingest.Chunk>(state.query, None, None, env);
      if !g.passed {
        state := state.(finalAnswer := g.message);
        if g.maskedQuery.Some? && g.maskedQuery.value != "" && g.maskedQuery.value != state.query {
          state := state.(query := g.maskedQuery.value);
        }
      }
    }

    /** `rag_node`: retrieval through the cached index, the grounding check,
        then the generated answer. */
    method RagNode(cache: Registry.IndexCache,
                   load: () -> (Registry.Index, seq<Ingest.Chunk>),
                   retrieve: (string, Registry.Index, seq<Ingest.Chunk>, int) -> seq<Ingest.Chunk>,
                   generate: (string, seq<Ingest.Chunk>) -> string)
      returns (retrieved: seq<Ingest.Chunk>)
      requires cache.Valid()
      modifies this, cache
      ensures cache.Valid() && cache.index.Some?
      ensures retrieved == retrieve(old(state).query, cache.index.value, cache.chunks, Config.TopK)
      ensures state == RagEffect(old(state), retrieved, generate(old(state).query, retrieved))
    {
      var index, chunks := cache.Load(load);
      var query := state.query;
      retrieved := retrieve(query, index, chunks, Config.TopK);
      var grounded, error := Policy.CheckGroundingRequired(query, retrieved);
      if !grounded && error.Some? {
        state := state.(finalAnswer := error, retrievedChunks := retrieved, citations := []);
        return;
      }
      var answer := generate(query, retrieved);
      state := state.(retrievedChunks := retrieved, finalAnswer := Some(answer),
                      citations := Distinct(Sources(retrieved)));
      state := state.(toolCalls := state.toolCalls + [S.ToolCall("rag", Json.JStr(query), Json.JStr(answer))]);
      state := state.(iterationCount := state.iterationCount + 1);
    }

    /** The calls of one reply, in order: each appends its record to the state
        and its observation to the scratchpad, or raises. */
    method RunCalls(o: ToolOracles, calls: seq<Proposed>, turns: seq<string>, pad: string, invoked: nat)
      returns (r: Result<(string, nat), Raised>)
      modifies this
      ensures state == old(state).(toolCalls := state.toolCalls)
      ensures var res := CallsFrom(o, calls, 0, Scratch(turns, pad, old(state).toolCalls, invoked));
        (r.Ok? <==> res.Ok?) &&
        (r.Ok? ==> res.value == Scratch(turns, r.value.0, state.toolCalls, r.value.1)) &&
        (r.Err? ==> r.error == res.error.error && state.toolCalls == res.error.at.records)
    {
      var p' := pad;
      var n := invoked;
      var i := 0;
      while i < |calls|
        invariant i <= |calls|
        invariant state == old(state).(toolCalls := state.toolCalls)
        invariant CallsFrom(o, calls, i, Scratch(turns, p', state.toolCalls, n))
               == CallsFrom(o, calls, 0, Scratch(turns, pad, old(state).toolCalls, invoked))
      {
        var p := calls[i];
        if p.arguments.None? {
          return Err(JsonDecodeError);
        }
        if p.name !in Registry.Tools {
          return Err(KeyError(p.name));
        }
        var args := p.arguments.value;
        var result := Observed(o.invoke(n, p.name, args));
        state := state.(toolCalls := state.toolCalls + [S.ToolCall(p.name, args, result)]);
        p' := p' + Observation(o, p.name, args, result);
        n := n + 1;
        i := i + 1;
      }
      return Ok((p', n));
    }

    /** `tool_node`: up to MAX_TOOL_HOPS rounds of completion and tool calls. */
    method ToolNode(o: ToolOracles) returns (outcome: NodeOutcome)
      modifies this
      ensures (state, outcome) == ToolResult(o, old(state))
    {
      var query := state.query;
      var start := Scratch([], "", state.toolCalls, 0);
      var turns: seq<string> := [];
      var pad := "";
      var invoked: nat := 0;
      var answer: Option<string> := None;
      var hop: nat := 0;
      var done := false;
      while hop < Config.MaxToolHops && !done
        invariant hop <= Config.MaxToolHops
        invariant state == old(state).(toolCalls := state.toolCalls)
        invariant !done ==> answer.None?
        invariant !done ==> HopsFrom(o, query, hop, Scratch(turns, pad, state.toolCalls, invoked)) == ToolLoop(o, old(state))
        invariant done ==> ToolLoop(o, old(state)) == Ok((answer, Scratch(turns, pad, state.toolCalls, invoked)))
        decreases Config.MaxToolHops - hop, if done then 0 else 1
      {
        HopUnfold(o, query, hop, Scratch(turns, pad, state.toolCalls, invoked));
        turns := turns + [UserTurn(query, pad)];
        var c := o.respond(turns);
        if |c.calls| == 0 {
          answer := Some(Text.Strip(c.content.GetOr("")));
          done := true;
        } else {
          var r := RunCalls(o, c.calls, turns, pad, invoked);
          if r.Err? {
            assert ToolLoop(o, old(state)).Err? && ToolLoop(o, old(state)).error.error == r.error &&
                   ToolLoop(o, old(state)).error.at.records == state.toolCalls;
            ToolResultRaised(o, old(state));
            return Raise(r.error);
          }
          pad, invoked := r.value.0, r.value.1;
          hop := hop + 1;
        }
      }
      assert ToolLoop(o, old(state)) == Ok((answer, Scratch(turns, pad, state.toolCalls, invoked)));
      ToolResultCompleted(o, old(state), answer, Scratch(turns, pad, state.toolCalls, invoked));
      var final := if answer.None? || answer.value == "" then o.synthesize(state.toolCalls) else answer.value;
      state := state.(finalAnswer := Some(final), iterationCount := state.iterationCount + 1);
      return Completed;
    }

    /** `finalize_node`: the one place where the outgoing answer is masked. */
    method FinalizeNode()
      modifies this
      ensures state == FinalizeEffect(old(state))
    {
      if state.finalAnswer.Some? && state.finalAnswer.value != "" {
        var masked := Policy.MaskPii(state.finalAnswer.value);
        state := state.(finalAnswer := Some(masked), messages := state.messages + [S.Message("assistant", masked)]);
      }
    }
  }
}
