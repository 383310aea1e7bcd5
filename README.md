# mini-agent core in Dafny

This project models the core of mini-agent, a small question-answering agent. A
query goes through a fixed graph of nodes: initialize, guard, tool, finalize.
The guard node refuses legal, medical, financial and document-generation requests.
The tool node runs a bounded loop. In each hop it asks a completion service for a
reply, and it calls the tools that the reply proposes. The finalize node masks
personal data (emails, SSNs, phone numbers, card numbers) in the outgoing answer.
The model also covers these parts:

- the guards and policies: the refusal table, PII masking, the sandbox check on
  file paths, the grounding check, the refusal templates and `apply_guards`;
- document chunking for retrieval;
- the tool registry and the cached index;
- the calculator tool, with its operator allow-list and its range bound;
- the mock calendar store;
- the in-memory trace log.

Each source file has a module of its own:

- `Wrappers`, `Text` and `Json` hold shared vocabulary;
- `Paths` and `Pii` hold the path-resolution and regular-expression parts of
  `policy.py`.

The state that the nodes update in place is a `Nodes.Run` object. The event store
is a `Calendar.Calendar` object, and the trace log is a `Telemetry.TraceLog`
object. Each method on these objects is proved equal to a specification function.
The properties the source promises are then proved about those functions.

The completion service, the tools' bodies, retrieval, file loading and
non-integral powers are not modelled. They enter as function-valued parameters,
called oracles here.

## Model

| member | source | states |
|---|---|---|
| State.BuildInitialState | src/graph/state.py:22-31 | a new state holds only the query; every list is empty, the answer is the empty string (not None) and the iteration count is 0 |
| State.InitialAnswerBlank | src/graph/state.py:22-31 | a fresh state's answer is blank yet present |
| Policy.CheckRefusePatterns | src/guards/policy.py:31-48 | the loop returns the category of the first pattern of the table that matches the lower-cased query; the flag is true exactly when a category is returned |
| Policy.FirstRefusalIff | src/guards/policy.py:11-17 | the category is `c` exactly when c's pattern matches and no earlier pattern does |
| Policy.FirstRefusalNoneIff | src/guards/policy.py:41-48 | no refusal exactly when no pattern of the table matches |
| Policy.SueRefusedAsLegal | src/guards/policy.py:12 | any query containing "sue" in any case is refused as legal, because legal is tried first |
| Policy.OnSameLineIff | src/guards/policy.py:14-15 | `.*y` matches exactly when `y` occurs with no line break before it |
| Policy.FollowsSound | src/guards/policy.py:14-15 | a match of `x.*y` found by the scan has an occurrence of x followed on the same line by y |
| Policy.FollowsComplete | src/guards/policy.py:14-15 | any occurrence of x followed on the same line by y makes `x.*y` match |
| Policy.FollowsIff | src/guards/policy.py:14-15 | `re.search("x.*y")` succeeds exactly when x is followed by y on the same line |
| Policy.MaskPii | src/guards/policy.py:51-72 | the loop over the four patterns yields the four substitution passes applied in table order |
| Policy.MaskWithNoMatch | src/guards/policy.py:63-67 | passes whose pattern matches nowhere leave the text unchanged |
| Policy.MaskedNoPii | src/guards/policy.py:51-72 | text without PII is returned unchanged |
| Policy.MaskedPassOrder | src/guards/policy.py:20-25 | masking is the email pass, then SSN, then phone, then card |
| Policy.CheckGroundingRequired | src/guards/policy.py:105-136 | grounding fails exactly for a factual query with no retrieved chunks; the flag is true exactly when there is no error |
| Policy.RefusalResponse | src/guards/policy.py:139-176 | every refusal begins "I cannot " |
| Policy.RefusalUnknownReason | src/guards/policy.py:173-174 | an unknown reason gets the generic refusal text |
| Policy.SandboxCanonical | src/guards/policy.py:28 | the sandbox directory, once resolved, is a canonical path |
| Policy.SandboxShape | src/guards/policy.py:28 | the sandbox is the normalised project root followed by data/sandbox |
| Policy.ValidateFilePathVerdict | src/guards/policy.py:75-102 | a path is accepted exactly when it has no NUL and its resolved form lies under the resolved sandbox; the error is absent exactly when it is accepted, and a rejection names the path and the sandbox |
| Policy.EtcPasswdRejected | src/guards/policy.py:75-102 | "/etc/passwd" is rejected whatever the project root |
| Policy.ResolveEtcPasswd | src/guards/policy.py:87 | an absolute path resolves independently of the working directory |
| Policy.SandboxFileAccepted | src/guards/policy.py:87-94 | a plain file name directly inside the sandbox is accepted |
| Policy.ParentEscapeRejected | src/guards/policy.py:87-98 | `sandbox/../name` escapes the sandbox and is rejected |
| Policy.RenderResolves | src/guards/policy.py:87-88 | the string of a resolved path is absolute and resolves to itself |
| Policy.SplitRender | src/guards/policy.py:87-88 | splitting a rendered path gives back its components after the root |
| Policy.SplitRenderOne | src/guards/policy.py:87 | "/name" splits into the root and name |
| Policy.SplitPlain | src/guards/policy.py:87 | a plain name splits into itself |
| Policy.NormalizeLeadingEmpty | src/guards/policy.py:87 | a leading root component does not change the normal form |
| Policy.ApplyGuards | src/guards/policy.py:179-229 | the method returns the guard verdict: refusal first, then grounding (when chunks are given), then the first invalid file path (when paths are given) |
| Policy.FirstPathErrorIff | src/guards/policy.py:220-226 | no path error exactly when every path validates; otherwise the error is that of the first invalid path |
| Policy.GuardedRefusal | src/guards/policy.py:201-206 | a refused query fails the guards with its category's refusal and nothing else |
| Policy.GuardedPassIff | src/guards/policy.py:179-229 | the guards pass exactly when the query is not refused, is grounded when chunks are given, and every given path validates |
| Paths.SlashIndex | src/guards/policy.py:87 | the index found is the first '/' of the string, or its length when there is none |
| Paths.Split | src/guards/policy.py:87 | splitting gives at least one component |
| Paths.SplitJoin | src/guards/policy.py:87 | splitting `a/b` splits each side |
| Paths.SlashIndexPrefix | src/guards/policy.py:87 | the first '/' of a concatenation is in the first part or else in the second |
| Paths.SplitNoSlash | src/guards/policy.py:87 | no component contains '/' |
| Paths.NormalizeCanonical | src/guards/policy.py:87-88 | normalising slash-free components gives a canonical path (no empty, "." or ".." components) |
| Paths.CanonicalFixed | src/guards/policy.py:87-88 | a canonical path is its own normal form |
| Paths.ResolveCanonical | src/guards/policy.py:87-88 | resolving is idempotent: its result is canonical and normalises to itself |
| Paths.NormalizeAppendPlain | src/guards/policy.py:87 | appending a plain component appends it to the resolved path |
| Paths.NormalizeAppendParent | src/guards/policy.py:87 | appending ".." drops the last resolved component (and stays at the root) |
| Pii.RunEnd | src/guards/policy.py:21 | a character-class run ends at the first character outside the class |
| Pii.TldTry | src/guards/policy.py:21 | a top-level-domain match has at least two letters and at most the run tried |
| Pii.DomainTry | src/guards/policy.py:21 | a domain match ends within the text and after its start |
| Pii.EmailAt | src/guards/policy.py:21 | an email match ends within the text, after its start |
| Pii.MatchAt | src/guards/policy.py:20-25 | a match of any pattern is non-empty and within the text |
| Pii.MatchStart | src/guards/policy.py:20-25 | no match starts with '[', so a token is never re-matched from its start |
| Pii.FixedMatchChars | src/guards/policy.py:22-24 | SSN, phone and card matches consist of digits, '-' and '.' only |
| Pii.TokenFormat | src/guards/policy.py:67 | each replacement is `[REDACTED_` + the upper-cased type name + `]` |
| Pii.TokenChars | src/guards/policy.py:67 | no replacement contains '@', a digit, '-' or '.' |
| Pii.PlaceholderOpaque | src/guards/policy.py:63-67 | a later pass never matches across a token put in by an earlier pass |
| Pii.SubstituteNoMatch | src/guards/policy.py:67 | with no match the substitution copies the text |
| Pii.SubstituteUnchangedIff | src/guards/policy.py:64-67 | a pass changes the text exactly when its pattern matches somewhere |
| Pii.SubstituteFirstMatch | src/guards/policy.py:67 | the text before the first match is kept and the match is replaced by the token |
| Ingest.WindowsFrom | src/rag/ingest.py:33-38 | every chunk carries the document's source and at most `size` characters |
| Ingest.ChunkContent | src/rag/ingest.py:33-38 | a zero step is range()'s error, a negative step yields no chunks, otherwise the windows every `size - overlap` characters |
| Ingest.ChunkDocuments | src/rag/ingest.py:21-30 | the loop returns the guard's error or every document's chunks in document order |
| Ingest.ConfiguredChunking | src/config.py:21-22 | with the configured 500/50 chunking never fails |
| Ingest.WindowAt | src/rag/ingest.py:35-36 | the k-th chunk starts at k times the step and takes `size` characters or the rest |
| Ingest.WindowCount | src/rag/ingest.py:35 | the number of chunks is the number of starts below the length; there are none only for empty content |
| Ingest.WindowLengths | src/rag/ingest.py:36 | every chunk has exactly `size` characters unless it reaches the end |
| Ingest.WindowsCover | src/rag/ingest.py:35-36 | when the step is at most the size, every character lies in some chunk |
| Ingest.AdjacentOverlap | src/rag/ingest.py:35-36 | consecutive full chunks share exactly `overlap` characters |
| Ingest.EqualSizeSlipsPastGuard | src/rag/ingest.py:22-23 | equal size and overlap pass the guard and fail with range()'s zero-step error |
| Ingest.ChunkDocumentsCheckedErrors | src/rag/ingest.py:22-23 | the corrected guard rejects exactly `size <= overlap` with its own message and agrees with the code everywhere else |
| Ingest.AllWindowsAppend | src/rag/ingest.py:25-29 | the chunks of concatenated document lists are the concatenated chunks |
| Registry.ToolsMatchDefinitions | src/graph/registry.py:27-153 | every tool has exactly one schema and every schema names a tool, in order |
| Registry.SixDistinctTools | src/graph/registry.py:27-34 | there are six tools and no schema name repeats |
| Registry.RequiredAreDeclared | src/graph/registry.py:35-153 | every required parameter of a schema is one of its declared properties |
| Registry.LoadTools | src/graph/registry.py:156-158 | the returned tool table and schemas name the same six tools |
| Registry.IndexCache.constructor | src/graph/registry.py:6-7 | the cache starts empty |
| Registry.IndexCache.Load | src/graph/registry.py:10-16 | the first call loads once and stores the index and chunks; later calls return them without loading |
| Registry.Hits | src/graph/registry.py:19-24 | the result is a list with one entry per retrieved chunk |
| Registry.HitsShape | src/graph/registry.py:24 | each entry has exactly the keys source and content, with that chunk's values, in retrieval order |
| Registry.RagSearchTool | src/graph/registry.py:10-24 | the tool retrieves `k` chunks (5 when `k` is not given) and returns their lean payload; a filled cache is used unchanged, an empty one is filled from one load |
| Nodes.ParseDecisionIff | src/graph/nodes.py:150-157 | a reply is obeyed exactly when its stripped, lower-cased form is "rag" or "tool"; anything else finalizes |
| Nodes.RouterCeiling | src/graph/nodes.py:48-54 | past MAX_NODE_ITERATIONS the router finalizes whatever the reply |
| Nodes.RouterBelowCeiling | src/graph/nodes.py:48-54 | below the ceiling the router follows the checked reply |
| Nodes.GuardRouterIff | src/graph/nodes.py:41-45 | guard_router finalizes exactly when an answer is present or the router finalizes |
| Nodes.FreshStateDefers | src/graph/nodes.py:41-45 | a fresh state (empty answer) always defers to the router |
| Nodes.GuardEffectRefusal | src/graph/nodes.py:27-38 | a query that is not refused leaves the state unchanged; a refused one gets its category's refusal as the answer |
| Nodes.Sources | src/graph/nodes.py:203-211 | the sources of the chunks, one per chunk, in order |
| Nodes.Distinct | src/graph/nodes.py:203-211 | citations hold each source once and exactly the sources present |
| Nodes.RagGroundingFailure | src/graph/nodes.py:192-200 | no chunks for a factual query records the grounding error, clears the citations, adds no record and counts no iteration |
| Nodes.RagSuccess | src/graph/nodes.py:203-211 | otherwise citations are the distinct sources, one "rag" record is appended and one iteration is counted |
| Nodes.CallsFromTurns | src/graph/nodes.py:278-299 | the calls of one reply send no turn and append one record per call made; a raise stops before the call that raised |
| Nodes.CallsFromExtends | src/graph/nodes.py:281-294 | calls keep earlier records; a KeyError names a tool that is not registered |
| Nodes.ProposedCountPrefix | src/graph/nodes.py:259-299 | the calls proposed by the first n replies depend only on the first n turns |
| Nodes.HopsFromTurns | src/graph/nodes.py:259-299 | the loop sends at most MAX_TOOL_HOPS turns and ends early only with an answer |
| Nodes.HopsFromExtends | src/graph/nodes.py:259-299 | earlier records are kept and each new record is a registered tool's observed result |
| Nodes.HopsFromAnswer | src/graph/nodes.py:259-277 | the answer is the stripped content of the first reply without tool calls; there is none only when every reply proposed calls |
| Nodes.HopsFromCount | src/graph/nodes.py:278-299 | one record is appended per call proposed before the answer |
| Nodes.ToolResultRecords | src/graph/nodes.py:233-307 | tool_node keeps earlier records, and every new record is a registered tool's observed result, whether or not it raised |
| Nodes.ToolResultAnswer | src/graph/nodes.py:301-305 | a completed node counts one iteration and answers with the loop's answer, or the synthesis over all records when that answer is missing or empty; a raise changes only the records |
| Nodes.FinalizeSpec | src/graph/nodes.py:310-320 | a non-empty answer is masked and one assistant message carrying it is appended; otherwise nothing changes |
| Nodes.Run.constructor | src/graph/state.py:12-19 | the run holds the given state |
| Nodes.Run.InitializeNode | src/graph/nodes.py:21-24 | the state becomes the initial state of its query |
| Nodes.Run.GuardNode | src/graph/nodes.py:27-38 | the state becomes the guard's effect |
| Nodes.Run.RagNode | src/graph/nodes.py:185-211 | retrieval goes through the cache with TOP_K; the state becomes the rag effect of what was retrieved and generated |
| Nodes.Run.RunCalls | src/graph/nodes.py:278-299 | the calls of one reply update the records and scratchpad exactly as the call steps say, and nothing else |
| Nodes.Run.ToolNode | src/graph/nodes.py:233-307 | the loop's state and outcome are those of the tool-node specification |
| Nodes.Run.FinalizeNode | src/graph/nodes.py:310-320 | the state becomes the finalize effect |
| Nodes.ParseDecision | src/graph/nodes.py:150-157 | the reference definition of the router's fail-safe check; Nodes.ParseDecisionIff states it |
| Nodes.Router | src/graph/nodes.py:48-54 | the reference definition of `router` given the service's reply; Nodes.RouterCeiling and Nodes.RouterBelowCeiling state it |
| Nodes.GuardRouter | src/graph/nodes.py:41-45 | the reference definition of `guard_router`; Nodes.GuardRouterIff states it |
| Nodes.GuardEffect | src/graph/nodes.py:27-38 | the reference definition of the guard node's effect; Nodes.GuardEffectRefusal states it |
| Nodes.RagEffect | src/graph/nodes.py:185-211 | the reference definition of the rag node's effect; Nodes.RagGroundingFailure and Nodes.RagSuccess state it |
| Nodes.CallStep | src/graph/nodes.py:280-299 | the reference definition of one proposed call: a bad argument string or an unknown tool raises, a registered tool always yields a record |
| Nodes.CallsFrom | src/graph/nodes.py:279-299 | the reference definition of the calls of one reply; Nodes.CallsFromTurns and Nodes.CallsFromExtends state it |
| Nodes.HopsFrom | src/graph/nodes.py:259-299 | the reference definition of the hops of the tool loop; Nodes.HopsFromTurns, Nodes.HopsFromExtends, Nodes.HopsFromAnswer and Nodes.HopsFromCount state it |
| Nodes.ToolLoop | src/graph/nodes.py:253-299 | the tool loop started from the state's records and an empty scratchpad |
| Nodes.ToolResult | src/graph/nodes.py:233-307 | the reference definition of the tool node's effect; Nodes.ToolResultRecords and Nodes.ToolResultAnswer state it |
| Nodes.FinalizeEffect | src/graph/nodes.py:310-320 | the reference definition of the finalize node's effect; Nodes.FinalizeSpec states it |
| Policy.FirstRefusal | src/guards/policy.py:41-48 | the first row of the refusal table, from a given row on, whose pattern matches; Policy.FirstRefusalIff states it |
| Policy.Refusal | src/guards/policy.py:31-48 | the category a query is refused for; Policy.CheckRefusePatterns computes it and Policy.FirstRefusalNoneIff states it |
| Policy.Masked | src/guards/policy.py:51-72 | the reference definition of `mask_pii`; Policy.MaskedNoPii and Policy.MaskedPassOrder state it |
| Policy.Grounding | src/guards/policy.py:105-136 | the reference definition of the grounding check; Policy.CheckGroundingRequired states it |
| Policy.ValidateFilePath | src/guards/policy.py:75-102 | the reference definition of the sandbox check; Policy.ValidateFilePathVerdict states it |
| Policy.Guarded | src/guards/policy.py:179-229 | the reference definition of `apply_guards`; Policy.ApplyGuards computes it |
| Pii.Substitute | src/guards/policy.py:67 | the reference definition of one `re.sub` pass; Pii.SubstituteNoMatch, Pii.SubstituteUnchangedIff and Pii.SubstituteFirstMatch state it |
| Paths.Resolve | src/guards/policy.py:87-88 | lexical `Path.resolve()`; Paths.ResolveCanonical states it |
| Calendar.Listed | src/tools/calendar_mock.py:26-49 | the reference definition of `list_events`; Calendar.ListedSpec states it |
| Ingest.ChunkDocumentsResult | src/rag/ingest.py:21-38 | the reference definition of `chunk_documents` as written; Ingest.ChunkDocuments computes it |
| Telemetry.ToDict | src/observability/telemetry.py:25-32 | the reference definition of `to_dict`; Telemetry.ToDictShape states it |
| Telemetry.Summary | src/observability/telemetry.py:168-187 | the reference definition of `format_trace_summary`; Telemetry.SummaryAppend and Telemetry.SummaryStartsWithHeader state it |
| Graph.Pipeline | src/graph/build_graph.py:14-23 | the run as wired: guard, then tool, then finalize unless the tool node raised; Graph.Invoke computes it |
| Graph.RoutedPipeline | src/graph/nodes.py:41-54 | the run with guard_router after the guard; Graph.RoutedRefusalKept states it |
| Graph.Walk | src/graph/build_graph.py:19-23 | a walk follows at most `fuel` edges: its first node is the successor of the start, and each later node is the successor of the one before |
| Graph.FixedPipeline | src/graph/build_graph.py:14-23 | a run visits initialize, guard, tool, finalize once each and then ends; those are the registered nodes |
| Graph.Invoke | src/graph/build_graph.py:14-23 | invoking runs the nodes along the edges; finalize is skipped only when the tool node raised |
| Graph.CompletedRun | src/graph/build_graph.py:19-23 | a completed run counts one iteration, keeps the query, records only tool calls, and returns the tool answer masked |
| Graph.ToolResultIgnoresAnswer | src/graph/nodes.py:301-305 | the tool node's result does not depend on the answer already present |
| Graph.GuardOverwritten | src/graph/build_graph.py:21 | as wired, a completed run returns the same as a run without the guard node |
| Graph.RefusedQueryLosesRefusal | src/graph/build_graph.py:21 | "Can I sue my employer?" is refused as legal, yet the run ends with an empty answer |
| Graph.RefusalNotBlank | src/guards/policy.py:139-176 | no refusal is blank |
| Graph.RoutedRefusalKept | src/graph/nodes.py:41-54 | with guard_router wired, a refused query ends with its masked refusal, no tool calls and no iteration, whatever the reply; any other query goes where the checked reply sends it: "tool" runs as the shipped graph does, "rag" finalizes the rag effect of the retrieved chunks, anything else finalizes the fresh state |
| Graph.InvokeRouted | src/graph/nodes.py:41-45 | running the nodes with guard_router after the guard gives the routed pipeline's state and outcome; on the rag route the chunks are retrieved through the cache with TOP_K |
| Calendar.Load | src/tools/calendar_mock.py:11-18 | a missing or malformed store reads as no events |
| Calendar.UpperLimit | src/tools/calendar_mock.py:32-43 | a bound whose text contains 'T' is exact; any other bound (a date-only string, or a time after a space) extends to the last minute of its day |
| Calendar.Select | src/tools/calendar_mock.py:45-48 | the filter never grows the list |
| Calendar.InsertPerm | src/tools/calendar_mock.py:49 | insertion adds exactly the event |
| Calendar.SortPerm | src/tools/calendar_mock.py:49 | the sort is a permutation |
| Calendar.SelectMember | src/tools/calendar_mock.py:45-48 | an event is kept exactly when it is stored and passes the filter |
| Calendar.SelectAppend | src/tools/calendar_mock.py:45-48 | the filter of concatenated lists is the concatenated filters |
| Calendar.InsertSorted | src/tools/calendar_mock.py:49 | insertion keeps the list sorted by start |
| Calendar.InsertStable | src/tools/calendar_mock.py:49 | an inserted event goes after the events with its start |
| Calendar.SortSorted | src/tools/calendar_mock.py:49 | the result is sorted by start |
| Calendar.SortStable | src/tools/calendar_mock.py:49 | events with the same start keep their stored order |
| Calendar.ListedSpec | src/tools/calendar_mock.py:26-49 | list_events returns exactly the stored events whose start is in the inclusive range, each as often as stored, sorted by start and stable |
| Calendar.ListedUnbounded | src/tools/calendar_mock.py:26-49 | without bounds every stored event is listed |
| Calendar.SelectAll | src/tools/calendar_mock.py:45-48 | a filter accepting everything keeps the list |
| Calendar.DateOnlyEndCoversDay | src/tools/calendar_mock.py:38-41 | an end without 'T' admits every event of that day, and a midnight end with 'T' admits only those at midnight |
| Calendar.Calendar.constructor | src/tools/calendar_mock.py:11-18 | the store holds the given file |
| Calendar.Calendar.ListEvents | src/tools/calendar_mock.py:26-49 | the result is sorted and a permutation of the stored events in range |
| Calendar.Calendar.CreateEvent | src/tools/calendar_mock.py:60-85 | an unparsable start returns the ISO-format error and changes nothing; otherwise the event with end = start + duration (60 minutes when no duration is given) is appended, stored and returned |
| Calendar.Calendar.ClearEvents | src/tools/calendar_mock.py:88-90 | the store becomes an empty list |
| Calendar.CreatedIsListed | src/tools/calendar_mock.py:60-85 | after a creation an unbounded listing has exactly one more event, the new one |
| Calculator.PowNatNonZero | src/tools/calculator.py:13 | a non-zero base to a natural power is non-zero |
| Calculator.Power | src/tools/calculator.py:13 | integral exponents are exact; a negative integral power fails exactly for base 0 |
| Calculator.Eval | src/tools/calculator.py:17-28 | a successful evaluation used only numbers and allowed operators |
| Calculator.SafeCalculate | src/tools/calculator.py:31-48 | every error starts with "Invalid expression: "; a result has magnitude at most 1e9 and came from an allowed tree |
| Calculator.UnsupportedRoot | src/tools/calculator.py:22-28 | an operator outside the allow-list fails as unsupported whatever its operands |
| Calculator.LeftErrorFirst | src/tools/calculator.py:23-25 | a failing left operand decides the error |
| Calculator.PowerIrrelevant | src/tools/calculator.py:7-14 | without `**` the result is exact arithmetic, whatever the floating power |
| Calculator.DoubleNegation | src/tools/calculator.py:20-22 | negating twice gives back the value |
| Calculator.Examples | src/tools/calculator.py:31-48 | 2+3*4 is 14, (2+3)*4 is 20, -(5+2) is -7, 2**3 is 8, and 10/0 is a division-by-zero error |
| Calculator.RangeRejected | src/tools/calculator.py:44-45 | a result beyond 1e9 in magnitude is reported out of range |
| Calculator.BoundInclusive | src/tools/calculator.py:44-45 | exactly 1e9 in magnitude passes; just beyond it fails |
| Telemetry.OfKind | src/observability/telemetry.py:148-160 | a filtered view is no longer than the log |
| Telemetry.OfKindMember | src/observability/telemetry.py:148-160 | a record is in a kind's view exactly when it is logged and of that kind |
| Telemetry.OfKindAppend | src/observability/telemetry.py:148-160 | the view of a concatenated log is the concatenated views |
| Telemetry.LoggedRecordViews | src/observability/telemetry.py:75-132 | logging a record adds it at the end of its kind's view and leaves the other views as they were |
| Telemetry.OfKindMembers | src/observability/telemetry.py:148-160 | membership of every view, for all records at once |
| Telemetry.ToDictShape | src/observability/telemetry.py:25-32 | the dictionary holds the timestamp, the kind under "type" and every field under its own name, and no "record_type" |
| Telemetry.Lines | src/observability/telemetry.py:174-186 | one summary line per record, in log order |
| Telemetry.SummaryAppend | src/observability/telemetry.py:168-187 | logging a record adds exactly its line at the end of the summary |
| Telemetry.SummaryStartsWithHeader | src/observability/telemetry.py:170-173 | a non-empty log's summary opens with the header |
| Telemetry.TraceLog.constructor | src/observability/telemetry.py:71-72 | the log starts empty |
| Telemetry.TraceLog.LogReactStep | src/observability/telemetry.py:75-83 | one react-step record is appended; missing metadata is stored as an empty map |
| Telemetry.TraceLog.LogToolCall | src/observability/telemetry.py:97-106 | one tool-call record is appended |
| Telemetry.TraceLog.LogNodeEntry | src/observability/telemetry.py:111-119 | one node-entry record is appended with the query cut to 50 characters ("" if absent) and the count (0 if absent) |
| Telemetry.TraceLog.LogNodeExit | src/observability/telemetry.py:125-132 | one node-exit record is appended |
| Telemetry.TraceLog.GetTrace | src/observability/telemetry.py:138-140 | the copy equals the log |
| Telemetry.TraceLog.GetTraceDicts | src/observability/telemetry.py:143-145 | one dictionary per record, in order |
| Telemetry.TraceLog.GetReactSteps | src/observability/telemetry.py:148-150 | exactly the logged react steps |
| Telemetry.TraceLog.GetToolCalls | src/observability/telemetry.py:153-155 | exactly the logged tool calls |
| Telemetry.TraceLog.GetNodeEntries | src/observability/telemetry.py:158-160 | exactly the logged node entries |
| Telemetry.TraceLog.ClearTrace | src/observability/telemetry.py:163-165 | the log becomes empty |
| Telemetry.TraceLog.FormatTraceSummary | src/observability/telemetry.py:168-187 | the loop builds the summary of the log: "No trace data" when it is empty, else the header and one line per record |

## Left out

- Logging calls, timestamps and `datetime.now()` are not modelled. A timestamp is an opaque value passed in.
- The completion service, the prompts and the system message are not modelled. Each reply is an oracle of the turns sent so far. A router reply with `None` content is not modelled, because replies are strings.
- Tool bodies are not modelled. The tool loop calls them through an `invoke` oracle whose error results stand for caught exceptions. The Slack tool is not modelled at all.
- Retrieval, embeddings, index building and the loading of documents, the index and the chunk files are not modelled. Each enters as an oracle. The calendar's JSON file is the `StoreFile` value.
- Paths.Resolve: symbolic links are not followed. Resolution is lexical and the working directory is a parameter.
- Text.Lower / Text.Upper: only ASCII case mapping is modelled, and Unicode case folding is not modelled. `\b` and `\d` are also ASCII only. Stripping (Text.Strip, Text.TrimLeft, Text.TrimRight) uses the full `str.isspace` set, not only ASCII whitespace.
- Calendar: ISO parsing is not modelled. Times are whole minutes since an epoch, and `start` is absent when the text does not parse. Bounds therefore have minute precision. The source sorts by the ISO string; the model sorts by the time it denotes.
- Calculator: numbers are exact reals. Floating-point rounding, `round(result, 6)` and integer-versus-float division are not modelled. Non-integral powers go through an oracle. Division by zero uses the message "division by zero". Parsing is done by `ast.parse` and enters as a parsed tree or its error.
- Nodes.Distinct: `list(set(...))` has no defined order. The model takes first-occurrence order, and its contract states only the set and the absence of duplicates.
- Nodes.ToolResultAnswer: a node that raised is described only by its kept records (Nodes.ToolResultRecords), not by its scratchpad text.
- Graph.Walk: walks are bounded by a fuel argument. The graph has no cycle, so five steps reach END.
- Graph.RoutedPipeline: the routed run routes once, after the guard, and the chosen node is followed by finalize. There is no loop back from the tool or rag node to the router, because the shipped graph has neither the rag node nor any conditional edge. The router's reply is a parameter standing for the completion service, and the rag node's chunks and answer are parameters standing for retrieval and generation.
- Config: the environment overrides of the constants are not modelled. Chunking takes the size and the overlap as parameters, and Ingest.ConfiguredChunking applies the defaults.

## Findings

| source | as written | input that shows it | evidently intended | confidence | as-written member | corrected member |
|---|---|---|---|---|---|---|
| src/rag/ingest.py:22-23 | the guard rejects only `CHUNK_SIZE < CHUNK_OVERLAP` | size 50, overlap 50, any document: `range(0, n, 0)` raises "range() arg 3 must not be zero" instead of the guard's message | reject `size <= overlap`, as the message "must be greater than" says | not executed | Ingest.EqualSizeSlipsPastGuard | Ingest.ChunkDocumentsCheckedErrors |
| src/graph/build_graph.py:21 | guard is wired straight to tool, so `guard_router` is never used and the tool node overwrites the guard's refusal (src/graph/nodes.py:304) | "Can I sue my employer?" with a completion service that returns empty content: the answer is "" rather than the legal refusal, although tests/test_graph.py:90-107 expects a refusal with no tool calls | after guard, a present answer goes straight to finalize | not executed | Graph.RefusedQueryLosesRefusal | Graph.RoutedRefusalKept |
