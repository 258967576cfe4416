/**
 One call of AgentLoopService.execute as a state machine.

 JavaScript runs without interruption from one `await` to the next. A `Core` is an executor stopped
 at an await: a program counter naming the operation awaited, and the local variables of `execute`
 and `runLoop`. `Resume` takes what the awaited operation settled with and runs to the next await.
 */
module Executor {
  import opened Wrappers
  import opened AgentTypes
  import Decimal

  /** The operation awaited. `StepPg`, `StepMirror` and `StepEmit` are `recordStep` and the publish after it. */
  datatype Pc =
    | Lookup
    | SandboxCreate
    | SandboxPg
    | SandboxMirror
    | EmitStarted
    | CountSteps
    | CheckCancel
    | CallModel
    | StepPg(at: nat, step: Step, event: Event)
    | StepMirror(at: nat, step: Step, event: Event)
    | StepEmit(event: Event)
    | RunTool
    | FinishPg(status: Status, error: Option<string>)
    | FinishMirror(finish: Finish)
    | EmitTerminal(status: Status, error: Option<string>)
    | Kill
    | EmitEnd
    | DeleteCancel
    | Returned
    | Threw
    | Crashed
  {
    /** The executor still has an operation to wait for. */
    predicate Live() { !Returned? && !Threw? && !Crashed? }
  }

  datatype Core = Core(
    pc: Pc,
    prompt: string,
    maxIterations: nat,
    index: nat,
    iteration: nat,
    messages: seq<Message>,
    todo: seq<Block>,
    toolUses: seq<ToolUse>,
    answers: seq<Answer>,
    toolStop: bool,
    sandbox: Option<SandboxId>,
    caught: Option<string>,
    rethrow: bool)

  /** What an awaited operation settles with. `Stamped` carries the date `finishRun` took before its first write. */
  datatype Outcome =
    | Rejected(message: string)
    | Resolved
    | Stamped(now: nat)
    | Found(status: Option<Status>)
    | Obtained(sandboxId: SandboxId)
    | Counted(n: nat)
    | Flag(present: bool)
    | Replied(blocks: seq<Block>, toolStop: bool)
    | Output(content: string, isError: bool)

  /** Whether `o` is a way the operation at `pc` can settle. */
  predicate Fits(pc: Pc, o: Outcome) {
    pc.Live() &&
    (o.Rejected? ||
     match pc
     case Lookup => o.Found?
     case SandboxCreate => o.Obtained?
     case CountSteps => o.Counted?
     case CheckCancel => o.Flag?
     case CallModel => o.Replied?
     case RunTool => o.Output?
     case FinishPg(_, _) => o.Stamped?
     case _ => o.Resolved?)
  }

  function Begin(prompt: string, maxIterations: nat): Core {
    Core(Lookup, prompt, maxIterations, 0, 0, [], [], [], [], false, None, None, false)
  }

  function IterationLimitMessage(maxIterations: nat): string {
    "Agent exceeded the maximum of " + Decimal.Digits(maxIterations) + " iterations"
  }

  /** The `finally` block: kill the sandbox if one was obtained, then publish the end marker. */
  function EnterFinally(c: Core): Core {
    c.(pc := if c.sandbox.Some? then Kill else EmitEnd)
  }

  /** An exception: the `catch` block takes the first one, and lets one of its own fall through to `finally`. */
  function Throw(c: Core, message: string): Core {
    if c.caught.None? then c.(pc := FinishPg(Failed, Some(message)), caught := Some(message))
    else EnterFinally(c.(rethrow := true))
  }

  /** `recordStep(runId, stepIndex++, step)` and the publish that follows it. */
  function RecordStep(c: Core, step: Step, event: Event): Core {
    c.(pc := StepPg(c.index, step, event), index := c.index + 1)
  }

  /** The condition of the outer `for` loop. */
  function LoopHead(c: Core): Core {
    if c.iteration < c.maxIterations then c.(pc := CheckCancel)
    else Throw(c, IterationLimitMessage(c.maxIterations))
  }

  /** The loop over `toolUses`, whose position is the number of results collected. */
  function NextTool(c: Core): Core {
    if |c.answers| < |c.toolUses| then
      var use := c.toolUses[|c.answers|];
      RecordStep(c, Step(ToolCall, Some(use.name), use.input), ToolCalled(use.name, use.input))
    else
      LoopHead(c.(messages := c.messages + [Answers(c.answers)], iteration := c.iteration + 1))
  }

  /** After the loop over the reply's blocks. */
  function AfterContent(c: Core): Core {
    if !c.toolStop || c.toolUses == [] then c.(pc := FinishPg(Completed, None))
    else NextTool(c.(answers := []))
  }

  /** The loop over the reply's blocks, of which `todo` are left. */
  function Scan(c: Core): Core
    decreases |c.todo|
  {
    if c.todo == [] then AfterContent(c)
    else
      var rest := c.(todo := c.todo[1..]);
      match c.todo[0]
      case Text(t) => RecordStep(rest, Step(Assistant, None, t), AssistantText(t))
      case Use(u) => Scan(rest.(toolUses := c.toolUses + [u]))
      case Opaque => Scan(rest)
  }

  /** What follows the publish of a step's event. */
  function AfterStep(c: Core, event: Event): Core {
    match event
    case ToolCalled(_, _) => c.(pc := RunTool)
    case ToolAnswered(_, output, isError) =>
      if |c.answers| < |c.toolUses| then
        NextTool(c.(answers := c.answers + [Answer(c.toolUses[|c.answers|].id, output, isError)]))
      else NextTool(c)
    case _ => Scan(c)
  }

  /** The tool's output becomes a TOOL_RESULT step. */
  function AfterTool(c: Core, content: string, isError: bool): Core {
    if |c.answers| < |c.toolUses| then
      var name := c.toolUses[|c.answers|].name;
      RecordStep(c, Step(ToolResult, Some(name), content), ToolAnswered(name, content, isError))
    else NextTool(c)
  }

  /** From the settled await to the next one. */
  function Resume(c: Core, o: Outcome): Core
    requires Fits(c.pc, o)
  {
    if o.Rejected? then
      if c.pc.Lookup? || c.pc.EmitEnd? || c.pc.DeleteCancel? then c.(pc := Threw)
      else if c.pc.Kill? then c.(pc := EmitEnd)
      else Throw(c, o.message)
    else
      match c.pc
      case Lookup => c.(pc := if o.status == Some(Running) then SandboxCreate else Returned)
      case SandboxCreate => c.(pc := SandboxPg, sandbox := Some(o.sandboxId))
      case SandboxPg => c.(pc := SandboxMirror)
      case SandboxMirror => c.(pc := EmitStarted)
      case EmitStarted => c.(pc := CountSteps, messages := [Prompt(c.prompt)])
      case CountSteps => LoopHead(c.(index := o.n, iteration := 0))
      case CheckCancel => c.(pc := if o.present then FinishPg(Cancelled, None) else CallModel)
      case CallModel =>
        Scan(c.(messages := c.messages + [Reply(o.blocks)], todo := o.blocks, toolUses := [],
                answers := [], toolStop := o.toolStop))
      case StepPg(at, step, event) => c.(pc := StepMirror(at, step, event))
      case StepMirror(_, _, event) => c.(pc := StepEmit(event))
      case StepEmit(event) => AfterStep(c, event)
      case RunTool => AfterTool(c, o.content, o.isError)
      case FinishPg(status, error) => c.(pc := FinishMirror(Finish(status, error, o.now)))
      case FinishMirror(f) => c.(pc := EmitTerminal(f.status, f.error))
      case EmitTerminal(_, _) => EnterFinally(c)
      case Kill => c.(pc := EmitEnd)
      case EmitEnd => c.(pc := DeleteCancel)
      case DeleteCancel => c.(pc := if c.rethrow then Threw else Returned)
  }

  /** The terminal event that names a status. */
  function TerminalEvent(status: Status, error: Option<string>): Event {
    match status
    case Completed => RunCompleted
    case Cancelled => RunCancelled
    case _ => RunFailed(if error.Some? then error.value else "")
  }

  /**
   What an executor has made happen so far. The program does not keep this: it is the history the
   properties are about. `written` are its rows, the first at index `base`; `sent` its publishes;
   `finish` its last finishRun write applied to Postgres, and `lag` that the mirror does not have it yet.
   */
  datatype Journal = Journal(
    base: nat,
    written: seq<Step>,
    sent: seq<Event>,
    calls: nat,
    tools: nat,
    kills: nat,
    killed: bool,
    finish: Option<Finish>,
    lag: bool,
    sandboxLag: bool,
    sawCancel: bool)

  const BLANK := Journal(0, [], [], 0, 0, 0, false, None, false, false, false)

  /** The history after the operation at `c.pc` settled with `o`; `applied` says whether it took effect. */
  function Noted(c: Core, j: Journal, o: Outcome, applied: bool, now: nat): Journal {
    match c.pc
    case SandboxPg => if applied then j.(sandboxLag := true) else j
    case SandboxMirror => if applied then j.(sandboxLag := false) else j
    case EmitStarted => if applied then j.(sent := j.sent + [RunStarted(c.prompt)]) else j
    case CountSteps => if o.Counted? then j.(base := o.n) else j
    case CheckCancel => if o == Flag(true) then j.(sawCancel := true) else j
    case CallModel => j.(calls := j.calls + 1)
    case StepPg(_, step, _) => if applied then j.(written := j.written + [step]) else j
    case StepEmit(event) => if applied then j.(sent := j.sent + [event]) else j
    case RunTool => j.(tools := j.tools + 1)
    case FinishPg(status, error) =>
      if applied then j.(finish := Some(Finish(status, error, now)), lag := true) else j
    case FinishMirror(_) => if applied then j.(lag := false) else j
    case EmitTerminal(status, error) => if applied then j.(sent := j.sent + [TerminalEvent(status, error)]) else j
    case Kill => j.(kills := j.kills + 1, killed := applied)
    case EmitEnd => if applied then j.(sent := j.sent + [StreamEnd]) else j
    case _ => j
  }

  datatype Exec = Exec(core: Core, journal: Journal)

  /**
   A settled operation: a resolved one took effect, a rejected publish did not (a rejected write may have),
   and a resolved finishRun write carries the date it stamped.
   */
  predicate Settles(c: Core, o: Outcome, applied: bool, now: nat) {
    && Fits(c.pc, o)
    && (!o.Rejected? ==> applied)
    && (o.Rejected? && (c.pc.EmitStarted? || c.pc.StepEmit? || c.pc.EmitTerminal? || c.pc.EmitEnd?) ==> !applied)
    && (o.Stamped? ==> o.now == now)
  }

  function Advance(e: Exec, o: Outcome, applied: bool, now: nat): Exec
    requires Settles(e.core, o, applied, now)
  {
    Exec(Resume(e.core, o), Noted(e.core, e.journal, o, applied, now))
  }
}
