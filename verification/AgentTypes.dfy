/**
 The values an agent run is made of: transcript steps, model messages, published events and the run
 record kept in Postgres and mirrored in Firestore.
 */
module AgentTypes {
  import opened Wrappers

  type ExecId = nat
  type SandboxId = nat

  datatype Status = Running | Completed | Failed | Cancelled

  datatype StepKind = Assistant | ToolCall | ToolResult

  /** One row of agent_steps, without its keys and creation time. */
  datatype Step = Step(kind: StepKind, name: Option<string>, content: string)

  /** A tool_use block; `input` is the JSON text of the input object. */
  datatype ToolUse = ToolUse(id: string, name: string, input: string)

  /** A content block of a model reply; blocks of every other type are `Opaque`. */
  datatype Block = Text(text: string) | Use(use: ToolUse) | Opaque

  datatype Answer = Answer(toolUseId: string, content: string, isError: bool)

  /** A message of the conversation: the user's prompt, a model reply, or the user message holding tool results. */
  datatype Message =
    | Prompt(text: string)
    | Reply(content: seq<Block>)
    | Answers(answers: seq<Answer>)

  datatype Event =
    | RunStarted(prompt: string)
    | AssistantText(text: string)
    | ToolCalled(name: string, input: string)
    | ToolAnswered(name: string, output: string, isError: bool)
    | RunCompleted
    | RunFailed(error: string)
    | RunCancelled
    | StreamEnd

  /** The three fields `finishRun` writes to both stores. */
  datatype Finish = Finish(status: Status, error: Option<string>, finishedAt: nat)

  /** The mutable fields of agent_runs, and of the mirrored agentRuns document. */
  datatype Record = Record(
    status: Status,
    error: Option<string>,
    finishedAt: Option<nat>,
    sandboxId: Option<SandboxId>)
  {
    function With(f: Finish): Record {
      this.(status := f.status, error := f.error, finishedAt := Some(f.finishedAt))
    }

    /** The record's status, error and finishedAt are the ones `f` carries. */
    predicate Shows(f: Finish) {
      status == f.status && error == f.error && finishedAt == Some(f.finishedAt)
    }
  }

  /** The tool uses of a reply, in order. */
  function Uses(content: seq<Block>): seq<ToolUse> {
    if content == [] then []
    else
      var last := content[|content| - 1];
      var rest := Uses(content[..|content| - 1]);
      if last.Use? then rest + [last.use] else rest
  }
}
