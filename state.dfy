/** The record threaded through the agent graph. */
module State {
  import opened Wrappers
  import Json
  import Ingest
  import Text

  /** One executed tool call (its timestamp is not modelled). */
  datatype ToolCall = ToolCall(name: string, arguments: Json.Json, result: Json.Json)

  /** A chat message. */
  datatype Message = Message(role: string, content: string)

  /** The agent state. `finalAnswer` is optional because the routing rules tell
      a missing answer from an empty one. */
  datatype State = State(
    query: string,
    retrievedChunks: seq<Ingest.Chunk>,
    finalAnswer: Option<string>,
    citations: seq<string>,
    messages: seq<Message>,
    toolCalls: seq<ToolCall>,
    iterationCount: int)

  /** An answer that routing treats as absent: missing, or only whitespace. */
  predicate Blank(answer: Option<string>) {
    answer.None? || Text.Strip(answer.value) == ""
  }

  /** `build_initial_state`: the query with every collection empty, an empty
      (not missing) answer and no iterations. */
  function BuildInitialState(query: string): (s: State)
    ensures s.query == query
    ensures s.retrievedChunks == [] && s.citations == [] && s.messages == [] && s.toolCalls == []
    ensures s.finalAnswer == Some("") && s.iterationCount == 0
  {
    State(query, [], Some(""), [], [], [], 0)
  }

  /** A fresh state carries a blank answer, so it is never taken for an answered one. */
  lemma InitialAnswerBlank(query: string)
    ensures Blank(BuildInitialState(query).finalAnswer)
    ensures BuildInitialState(query).finalAnswer != None
  {
    assert Text.TrimLeft("") == "";
  }
}
