/**
 AgentLoopService as it is written: `execute`, `runLoop`, `finishRun`, `recordStep` and `setRunSandbox`, with their
 loops and try/catch/finally. Every method is proved to leave the program where the ghost executor is, so the loops
 take exactly the path of the program counter. An exception is a `Some` result.
 */
module AgentLoop {
  import opened Wrappers
  import opened AgentTypes
  import opened Executor
  import opened ExecutorInvariants
  import opened ExecutorHistory
  import opened RunProtocol
  import opened RunTheorems
  import opened AgentBackend

  /** The executor is in the `try` block, which has thrown nothing. */
  predicate Trying(c: Core, sandbox: SandboxId) {
    c.caught.None? && !c.rethrow && c.sandbox == Some(sandbox)
  }

  /** The executor entered the `catch` block with `message`. */
  predicate Catching(c: Core, sandbox: Option<SandboxId>, message: string) {
    c.pc == FinishPg(Failed, Some(message)) && c.caught == Some(message) && !c.rethrow && c.sandbox == sandbox
  }

  lemma {:induction false} ScanIgnoresPc(c: Core, pc: Pc)
    ensures Scan(c.(pc := pc)) == Scan(c)
    decreases |c.todo|
  {
    if c.todo != [] {
      var rest := c.(todo := c.todo[1..]);
      match c.todo[0]
      case Text(t) =>
      case Use(u) => ScanIgnoresPc(rest.(toolUses := c.toolUses + [u]), pc);
      case Opaque => ScanIgnoresPc(rest, pc);
    }
  }

  lemma UsesSnoc(content: seq<Block>, i: nat)
    requires i < |content|
    ensures Uses(content[..i + 1]) ==
      if content[i].Use? then Uses(content[..i]) + [content[i].use] else Uses(content[..i])
  {
    assert content[..i + 1][..i] == content[..i];
  }

  /** A text block: `Scan` stops to record it, and goes on behind it. */
  lemma ScanText(c: Core)
    requires c.todo != [] && c.todo[0].Text?
    ensures var text := c.todo[0].text;
      && Scan(c).pc == StepPg(c.index, Step(Assistant, None, text), AssistantText(text))
      && AfterStep(Scan(c).(pc := StepEmit(AssistantText(text))), AssistantText(text))
         == Scan(c.(todo := c.todo[1..], index := c.index + 1))
  {
    var next := c.(todo := c.todo[1..], index := c.index + 1);
    ScanIgnoresPc(next, StepEmit(AssistantText(c.todo[0].text)));
  }

  lemma NextToolIgnoresPc(c: Core, pc: Pc)
    ensures NextTool(c.(pc := pc)) == NextTool(c)
  {
  }

  /** A tool's output: it is recorded, collected, and the loop over the tool uses goes on. */
  lemma ToolStep(c: Core, content: string, isError: bool)
    requires |c.answers| < |c.toolUses|
    ensures var use := c.toolUses[|c.answers|];
      var event := ToolAnswered(use.name, content, isError);
      && AfterTool(c, content, isError).pc == StepPg(c.index, Step(ToolResult, Some(use.name), content), event)
      && AfterStep(AfterTool(c, content, isError).(pc := StepEmit(event)), event)
         == NextTool(c.(index := c.index + 1, answers := c.answers + [Answer(use.id, content, isError)]))
  {
    var use := c.toolUses[|c.answers|];
    NextToolIgnoresPc(c.(index := c.index + 1, answers := c.answers + [Answer(use.id, content, isError)]),
                      StepEmit(ToolAnswered(use.name, content, isError)));
  }

  /** The executor at block `i` of the reply. */
  function At(c: Core, content: seq<Block>, i: nat, index: nat, toolUses: seq<ToolUse>): Core
    requires i <= |content|
  {
    c.(todo := content[i..], index := index, toolUses := toolUses)
  }

  /** The next block is taken: a text leads on by way of its recording, everything else directly. */
  lemma AtNext(c: Core, content: seq<Block>, i: nat, index: nat, toolUses: seq<ToolUse>)
    requires i < |content|
    ensures var x := At(c, content, i, index, toolUses);
      && x.todo != [] && x.todo[0] == content[i]
      && x.(todo := x.todo[1..], index := index + 1) == At(c, content, i + 1, index + 1, toolUses)
      && (content[i].Opaque? ==> Scan(x) == Scan(At(c, content, i + 1, index, toolUses)))
      && (content[i].Use? ==> Scan(x) == Scan(At(c, content, i + 1, index, toolUses + [content[i].use])))
  {
    var x := At(c, content, i, index, toolUses);
    assert x.todo[0] == content[i] && x.todo[1..] == content[i + 1..];
  }

  /** Two executors that differ in their place go on to the same. */
  lemma SameBut(c: Core, d: Core, thrown: Option<string>)
    requires d == c.(pc := d.pc)
    ensures thrown.Some? ==> Throw(d, thrown.value) == Throw(c, thrown.value)
    ensures forall pc :: d.(pc := pc) == c.(pc := pc)
  {
  }

  class AgentLoopService {
    const backend: Backend
    const maxIterations: nat

    constructor (backend: Backend, maxIterations: nat)
      ensures this.backend == backend && this.maxIterations == maxIterations
    {
      this.backend, this.maxIterations := backend, maxIterations;
    }

    method RecordStep(index: nat, step: Step, ghost event: Event) returns (thrown: Option<string>)
      requires backend.Valid() && backend.self.core.pc == StepPg(index, step, event)
      modifies backend
      ensures backend.Valid() && old(backend.trace) <= backend.trace
      ensures var c := old(backend.self.core);
        backend.self.core == match thrown
                             case None => c.(pc := StepEmit(event))
                             case Some(m) => Throw(c, m)
    {
      var created := backend.CreateStep(index, step);
      if created.Rejected? {
        return Some(created.message);
      }
      ghost var c := backend.self.core;
      var added := backend.AddStep(index, step);
      thrown := if added.Rejected? then Some(added.message) else None;
      SameBut(old(backend.self.core), c, thrown);
    }

    method SetRunSandbox(sandbox: SandboxId) returns (thrown: Option<string>)
      requires backend.Valid() && backend.self.core.pc.SandboxPg? && Trying(backend.self.core, sandbox)
      modifies backend
      ensures backend.Valid() && old(backend.trace) <= backend.trace
      ensures var c := old(backend.self.core);
        backend.self.core == match thrown
                             case None => c.(pc := EmitStarted)
                             case Some(m) => Throw(c, m)
    {
      var stored := backend.UpdateRunSandbox(sandbox);
      if stored.Rejected? {
        return Some(stored.message);
      }
      ghost var c := backend.self.core;
      var mirrored := backend.MirrorSandbox(sandbox);
      thrown := if mirrored.Rejected? then Some(mirrored.message) else None;
      SameBut(old(backend.self.core), c, thrown);
    }

    method FinishRun(status: Status, error: Option<string>) returns (thrown: Option<string>)
      requires backend.Valid() && backend.self.core.pc == FinishPg(status, error)
      modifies backend
      ensures backend.Valid() && old(backend.trace) <= backend.trace
      ensures thrown.Some? ==> SomeRejected(old(backend.trace), backend.trace, backend.id, thrown.value)
      ensures var c := old(backend.self.core);
        backend.self.core == match thrown
                             case None => c.(pc := EmitTerminal(status, error))
                             case Some(m) => Throw(c, m)
    {
      var stored := backend.UpdateRunFinish(status, error);
      if stored.Rejected? {
        return Some(stored.message);
      }
      ghost var between := backend.trace;
      ghost var c := backend.self.core;
      assert c == old(backend.self.core).(pc := FinishMirror(Finish(status, error, stored.now)));
      thrown := MirrorRun(Finish(status, error, stored.now));
      SameBut(old(backend.self.core), c, thrown);
      if thrown.Some? {
        RejectedStill(old(backend.trace), between, backend.trace, backend.trace, backend.id, thrown.value);
      }
    }

    /** The second write of `finishRun`. */
    method MirrorRun(finish: Finish) returns (thrown: Option<string>)
      requires backend.Valid() && backend.self.core.pc == FinishMirror(finish)
      modifies backend
      ensures backend.Valid() && old(backend.trace) <= backend.trace
      ensures thrown.Some? ==> SomeRejected(old(backend.trace), backend.trace, backend.id, thrown.value)
      ensures var c := old(backend.self.core);
        backend.self.core == match thrown
                             case None => c.(pc := EmitTerminal(finish.status, finish.error))
                             case Some(m) => Throw(c, m)
    {
      var mirrored := backend.MirrorFinish(finish);
      return if mirrored.Rejected? then Some(mirrored.message) else None;
    }

    /** `finishRun`, then the terminal event: how every way out of the loop ends, and the catch block. */
    method FinishAndTell(status: Status, error: Option<string>, event: Event) returns (thrown: Option<string>)
      requires backend.Valid() && backend.self.core.pc == FinishPg(status, error) && Reports(event, status, error)
      modifies backend
      ensures backend.Valid() && old(backend.trace) <= backend.trace
      ensures thrown.Some? ==> SomeRejected(old(backend.trace), backend.trace, backend.id, thrown.value)
      ensures var c := old(backend.self.core);
        backend.self.core == match thrown
                             case None => EnterFinally(c)
                             case Some(m) => Throw(c, m)
    {
      thrown := FinishRun(status, error);
      if thrown.None? {
        ghost var between, c := backend.trace, backend.self.core;
        thrown := Tell(status, error, event);
        SameBut(old(backend.self.core), c, thrown);
        if thrown.Some? {
          RejectedStill(old(backend.trace), between, backend.trace, backend.trace, backend.id, thrown.value);
        }
      }
    }

    /** The publish of a terminal event. */
    method Tell(status: Status, error: Option<string>, event: Event) returns (thrown: Option<string>)
      requires backend.Valid() && backend.self.core.pc == EmitTerminal(status, error) && Reports(event, status, error)
      modifies backend
      ensures backend.Valid() && old(backend.trace) <= backend.trace
      ensures thrown.Some? ==> SomeRejected(old(backend.trace), backend.trace, backend.id, thrown.value)
      ensures var c := old(backend.self.core);
        backend.self.core == match thrown
                             case None => EnterFinally(c)
                             case Some(m) => Throw(c, m)
    {
      var told := backend.Publish(event);
      return if told.Rejected? then Some(told.message) else None;
    }

    /** `recordStep` and the publish of the step's event, the pair every step of the loop makes. */
    method RecordAndEmit(index: nat, step: Step, event: Event) returns (thrown: Option<string>)
      requires backend.Valid() && backend.self.core.pc == StepPg(index, step, event)
      modifies backend
      ensures backend.Valid() && old(backend.trace) <= backend.trace
      ensures var c := old(backend.self.core);
        backend.self.core == match thrown
                             case None => AfterStep(c.(pc := StepEmit(event)), event)
                             case Some(m) => Throw(c, m)
    {
      thrown := RecordStep(index, step, event);
      if thrown.None? {
        var told := backend.Publish(event);
        if told.Rejected? {
          thrown := Some(told.message);
        }
      }
    }

    /** One text block of a reply. */
    method RecordText(text: string, stepIndex: nat, ghost x: Core) returns (thrown: Option<string>)
      requires backend.Valid() && x.caught.None? && x.index == stepIndex && x.todo != [] && x.todo[0] == Text(text)
      requires backend.self.core == Scan(x)
      modifies backend
      ensures backend.Valid() && old(backend.trace) <= backend.trace
      ensures thrown.None? ==> backend.self.core == Scan(x.(todo := x.todo[1..], index := stepIndex + 1))
      ensures thrown.Some? && !x.rethrow ==> Catching(backend.self.core, x.sandbox, thrown.value)
    {
      ScanText(x);
      thrown := RecordAndEmit(stepIndex, Step(Assistant, None, text), AssistantText(text));
    }

    /** The loop over the blocks of a reply. */
    method RecordTexts(content: seq<Block>, stepIndex: nat, ghost c: Core)
      returns (thrown: Option<string>, nextIndex: nat, toolUses: seq<ToolUse>)
      requires backend.Valid() && c.caught.None? && c.index == stepIndex && c.todo == content && c.toolUses == []
      requires backend.self.core == Scan(c)
      modifies backend
      ensures backend.Valid() && old(backend.trace) <= backend.trace
      ensures thrown.None? ==>
        && toolUses == Uses(content)
        && backend.self.core == AfterContent(c.(todo := [], index := nextIndex, toolUses := toolUses))
      ensures thrown.Some? && !c.rethrow ==> Catching(backend.self.core, c.sandbox, thrown.value)
    {
      thrown, nextIndex, toolUses := None, stepIndex, [];
      assert c == At(c, content, 0, nextIndex, toolUses);
      for i := 0 to |content|
        invariant backend.Valid() && old(backend.trace) <= backend.trace && thrown.None?
        invariant toolUses == Uses(content[..i])
        invariant backend.self.core == Scan(At(c, content, i, nextIndex, toolUses))
      {
        ghost var x := At(c, content, i, nextIndex, toolUses);
        UsesSnoc(content, i);
        AtNext(c, content, i, nextIndex, toolUses);
        match content[i]
        case Text(text) =>
          thrown := RecordText(text, nextIndex, x);
          if thrown.Some? {
            return;
          }
          nextIndex := nextIndex + 1;
        case Use(use) =>
          toolUses := toolUses + [use];
        case Opaque =>
      }
      assert content[..|content|] == content;
    }

    /** The call of a tool use. */
    method RecordCall(use: ToolUse, stepIndex: nat, ghost c: Core) returns (thrown: Option<string>)
      requires backend.Valid() && c.caught.None? && c.index == stepIndex
      requires |c.answers| < |c.toolUses| && use == c.toolUses[|c.answers|]
      requires backend.self.core == NextTool(c)
      modifies backend
      ensures backend.Valid() && old(backend.trace) <= backend.trace
      ensures thrown.None? ==> backend.self.core == c.(index := stepIndex + 1, pc := RunTool)
      ensures thrown.Some? && !c.rethrow ==> Catching(backend.self.core, c.sandbox, thrown.value)
    {
      thrown := RecordAndEmit(stepIndex, Step(ToolCall, Some(use.name), use.input), ToolCalled(use.name, use.input));
    }

    /** One turn of the loop over the tool uses: the call, the tool, its result. */
    method UseTool(use: ToolUse, stepIndex: nat, ghost c: Core) returns (thrown: Option<string>, result: Answer)
      requires backend.Valid() && c.caught.None? && c.index == stepIndex
      requires |c.answers| < |c.toolUses| && use == c.toolUses[|c.answers|]
      requires backend.self.core == NextTool(c)
      modifies backend
      ensures backend.Valid() && old(backend.trace) <= backend.trace
      ensures thrown.None? ==>
        backend.self.core == NextTool(c.(index := stepIndex + 2, answers := c.answers + [result]))
      ensures thrown.Some? && !c.rethrow ==> Catching(backend.self.core, c.sandbox, thrown.value)
    {
      result := Answer(use.id, "", false);
      thrown := RecordCall(use, stepIndex, c);
      if thrown.None? {
        thrown, result := RunAndRecord(use, stepIndex + 1, c.(index := stepIndex + 1, pc := RunTool));
      }
    }

    /** `tools.execute` and the recording of its result. */
    method RunAndRecord(use: ToolUse, stepIndex: nat, ghost c: Core) returns (thrown: Option<string>, result: Answer)
      requires backend.Valid() && c.caught.None? && c.index == stepIndex && c.pc.RunTool?
      requires |c.answers| < |c.toolUses| && use == c.toolUses[|c.answers|]
      requires backend.self.core == c
      modifies backend
      ensures backend.Valid() && old(backend.trace) <= backend.trace
      ensures thrown.None? ==>
        backend.self.core == NextTool(c.(index := stepIndex + 1, answers := c.answers + [result]))
      ensures thrown.Some? && !c.rethrow ==> Catching(backend.self.core, c.sandbox, thrown.value)
    {
      result := Answer(use.id, "", false);
      var output := backend.RunTool(use);
      if output.Rejected? {
        thrown := Some(output.message);
        return;
      }
      result := Answer(use.id, output.content, output.isError);
      thrown := RecordResult(use, stepIndex, result, c);
    }

    /** The result of a tool use. */
    method RecordResult(use: ToolUse, stepIndex: nat, result: Answer, ghost c: Core) returns (thrown: Option<string>)
      requires backend.Valid() && c.caught.None? && c.index == stepIndex
      requires |c.answers| < |c.toolUses| && use == c.toolUses[|c.answers|] && result.toolUseId == use.id
      requires backend.self.core == AfterTool(c, result.content, result.isError)
      modifies backend
      ensures backend.Valid() && old(backend.trace) <= backend.trace
      ensures thrown.None? ==>
        backend.self.core == NextTool(c.(index := stepIndex + 1, answers := c.answers + [result]))
      ensures thrown.Some? && !c.rethrow ==> Catching(backend.self.core, c.sandbox, thrown.value)
    {
      ToolStep(c, result.content, result.isError);
      thrown := RecordAndEmit(stepIndex, Step(ToolResult, Some(use.name), result.content),
                              ToolAnswered(use.name, result.content, result.isError));
    }

    /** The loop over the tool uses of a reply. */
    method UseTools(toolUses: seq<ToolUse>, stepIndex: nat, ghost c: Core)
      returns (thrown: Option<string>, nextIndex: nat, results: seq<Answer>)
      requires backend.Valid() && c.caught.None? && c.index == stepIndex && c.answers == [] && c.toolUses == toolUses
      requires backend.self.core == NextTool(c)
      modifies backend
      ensures backend.Valid() && old(backend.trace) <= backend.trace
      ensures thrown.None? ==>
        && |results| == |toolUses|
        && backend.self.core == NextTool(c.(index := nextIndex, answers := results))
      ensures thrown.Some? && !c.rethrow ==> Catching(backend.self.core, c.sandbox, thrown.value)
    {
      thrown, nextIndex, results := None, stepIndex, [];
      assert c == c.(index := nextIndex, answers := results);
      for i := 0 to |toolUses|
        invariant backend.Valid() && old(backend.trace) <= backend.trace && thrown.None?
        invariant |results| == i
        invariant backend.self.core == NextTool(c.(index := nextIndex, answers := results))
      {
        var result;
        thrown, result := UseTool(toolUses[i], nextIndex, c.(index := nextIndex, answers := results));
        if thrown.Some? {
          return;
        }
        nextIndex, results := nextIndex + 2, results + [result];
      }
    }

    /** What follows the loop over the blocks: the run is completed, or the tools are used and the round ends. */
    method FollowReply(toolStop: bool, toolUses: seq<ToolUse>, messages: seq<Message>, stepIndex: nat,
                       ghost c: Core, ghost sandbox: SandboxId)
      returns (thrown: Option<string>, ended: bool, next: seq<Message>, nextIndex: nat, ghost d: Core)
      requires backend.Valid() && backend.self.core == AfterContent(c) && Trying(c, sandbox) && c.answers == []
      requires c.messages == messages && c.index == stepIndex && c.maxIterations == maxIterations
      requires c.toolStop == toolStop && c.toolUses == toolUses
      modifies backend
      ensures backend.Valid() && old(backend.trace) <= backend.trace
      ensures thrown.Some? ==> Catching(backend.self.core, Some(sandbox), thrown.value)
      ensures thrown.None? && ended ==> backend.self.core.pc.Kill? && Trying(backend.self.core, sandbox)
      ensures thrown.None? && !ended ==>
        && Trying(d, sandbox) && d.messages == next && d.index == nextIndex && d.maxIterations == maxIterations
        && d.iteration == c.iteration + 1
        && backend.self.core == LoopHead(d)
    {
      ended, next, nextIndex, d := true, messages, stepIndex, c;
      if !toolStop || toolUses == [] {
        thrown := FinishAndTell(Completed, None, RunCompleted);
        return;
      }
      var results;
      thrown, nextIndex, results := UseTools(toolUses, stepIndex, c);
      ended, next := false, messages + [Answers(results)];
      d := c.(index := nextIndex, answers := results, messages := next, iteration := c.iteration + 1);
    }

    /** The body of the loop after the cancellation check: one model call and the work on its reply. */
    method Round(messages: seq<Message>, stepIndex: nat, ghost c: Core, ghost sandbox: SandboxId)
      returns (thrown: Option<string>, ended: bool, next: seq<Message>, nextIndex: nat, ghost d: Core)
      requires backend.Valid() && backend.self.core == c && c.pc.CallModel? && Trying(c, sandbox)
      requires c.messages == messages && c.index == stepIndex && c.maxIterations == maxIterations
      modifies backend
      ensures backend.Valid() && old(backend.trace) <= backend.trace
      ensures thrown.Some? ==> Catching(backend.self.core, Some(sandbox), thrown.value)
      ensures thrown.None? && ended ==> backend.self.core.pc.Kill? && Trying(backend.self.core, sandbox)
      ensures thrown.None? && !ended ==>
        && Trying(d, sandbox) && d.messages == next && d.index == nextIndex && d.maxIterations == maxIterations
        && d.iteration == c.iteration + 1
        && backend.self.core == LoopHead(d)
    {
      ended, next, nextIndex, d := true, messages, stepIndex, c;
      var response := backend.CallModel(messages);
      if response.Rejected? {
        thrown := Some(response.message);
        return;
      }
      next := messages + [Reply(response.blocks)];
      d := c.(messages := next, todo := response.blocks, toolUses := [], answers := [], toolStop := response.toolStop);
      var toolUses;
      thrown, nextIndex, toolUses := RecordTexts(response.blocks, stepIndex, d);
      if thrown.Some? {
        return;
      }
      d := d.(todo := [], index := nextIndex, toolUses := toolUses);
      thrown, ended, next, nextIndex, d := FollowReply(response.toolStop, toolUses, next, nextIndex, d, sandbox);
    }

    /** One turn of the loop: the cancellation check, then a round. */
    method Iterate(messages: seq<Message>, stepIndex: nat, ghost c: Core, ghost sandbox: SandboxId)
      returns (thrown: Option<string>, ended: bool, next: seq<Message>, nextIndex: nat, ghost d: Core)
      requires backend.Valid() && backend.self.core == LoopHead(c) && Trying(c, sandbox) && c.iteration < maxIterations
      requires c.messages == messages && c.index == stepIndex && c.maxIterations == maxIterations
      modifies backend
      ensures backend.Valid() && old(backend.trace) <= backend.trace
      ensures thrown.Some? ==> Catching(backend.self.core, Some(sandbox), thrown.value)
      ensures thrown.None? && ended ==> backend.self.core.pc.Kill? && Trying(backend.self.core, sandbox)
      ensures thrown.None? && !ended ==>
        && Trying(d, sandbox) && d.messages == next && d.index == nextIndex && d.maxIterations == maxIterations
        && d.iteration == c.iteration + 1
        && backend.self.core == LoopHead(d)
    {
      ended, next, nextIndex, d := true, messages, stepIndex, c;
      var cancelled := backend.KeyExists();
      if cancelled.Rejected? {
        thrown := Some(cancelled.message);
        return;
      }
      if cancelled.present {
        thrown := FinishAndTell(Cancelled, None, RunCancelled);
        return;
      }
      thrown, ended, next, nextIndex, d := Round(messages, stepIndex, backend.self.core, sandbox);
    }

    /** What `runLoop` does before its loop: publish run_started, start the conversation, count the steps stored. */
    method OpenRun(prompt: string, ghost sandbox: SandboxId)
      returns (thrown: Option<string>, stepIndex: nat, ghost c: Core)
      requires backend.Valid() && backend.self.core.pc.EmitStarted? && Trying(backend.self.core, sandbox)
      requires backend.self.core.prompt == prompt && backend.self.core.maxIterations == maxIterations
      modifies backend
      ensures backend.Valid() && old(backend.trace) <= backend.trace
      ensures match thrown
        case None =>
          && Trying(c, sandbox) && c.index == stepIndex && c.messages == [Prompt(prompt)]
          && c.iteration == 0 && c.maxIterations == maxIterations
          && backend.self.core == LoopHead(c)
        case Some(m) => Catching(backend.self.core, Some(sandbox), m)
    {
      stepIndex, c := 0, backend.self.core;
      var started := backend.Publish(RunStarted(prompt));
      if started.Rejected? {
        thrown := Some(started.message);
        return;
      }
      ghost var published := backend.self.core;
      assert published == c.(pc := CountSteps, messages := [Prompt(prompt)]);
      var counted := backend.CountRows();
      if counted.Rejected? {
        thrown := Some(counted.message);
        return;
      }
      thrown, stepIndex := None, counted.n;
      c := c.(pc := CountSteps, messages := [Prompt(prompt)], index := stepIndex, iteration := 0);
    }

    /** `runLoop`: the bounded loop of model calls. */
    method RunLoop(prompt: string, ghost sandbox: SandboxId) returns (thrown: Option<string>)
      requires backend.Valid() && backend.self.core.pc.EmitStarted? && Trying(backend.self.core, sandbox)
      requires backend.self.core.prompt == prompt && backend.self.core.maxIterations == maxIterations
      modifies backend
      ensures backend.Valid() && old(backend.trace) <= backend.trace
      ensures match thrown
        case None => backend.self.core.pc.Kill? && Trying(backend.self.core, sandbox)
        case Some(m) => Catching(backend.self.core, Some(sandbox), m)
    {
      var messages := [Prompt(prompt)];
      var stepIndex;
      ghost var c;
      thrown, stepIndex, c := OpenRun(prompt, sandbox);
      if thrown.Some? {
        return;
      }
      for iteration := 0 to maxIterations
        invariant backend.Valid() && old(backend.trace) <= backend.trace
        invariant Trying(c, sandbox) && c.index == stepIndex && c.messages == messages
        invariant c.iteration == iteration && c.maxIterations == maxIterations
        invariant backend.self.core == LoopHead(c)
      {
        var ended;
        thrown, ended, messages, stepIndex, c := Iterate(messages, stepIndex, c, sandbox);
        if thrown.Some? || ended {
          return;
        }
      }
      return Some(IterationLimitMessage(maxIterations));
    }

    /** The `try` block of `execute`. */
    method Try(prompt: string) returns (thrown: Option<string>, sandbox: Option<SandboxId>)
      requires backend.Valid() && backend.self.core == Begin(prompt, maxIterations).(pc := SandboxCreate)
      modifies backend
      ensures backend.Valid() && old(backend.trace) <= backend.trace && backend.self.core.sandbox == sandbox
      ensures match thrown
        case None => backend.self.core.pc.Kill? && sandbox.Some? && Trying(backend.self.core, sandbox.value)
        case Some(m) => Catching(backend.self.core, sandbox, m)
    {
      sandbox := None;
      var created := backend.CreateSandbox();
      if created.Rejected? {
        thrown := Some(created.message);
        return;
      }
      sandbox := Some(created.sandboxId);
      thrown := SetRunSandbox(created.sandboxId);
      if thrown.None? {
        thrown := RunLoop(prompt, created.sandboxId);
      }
    }

    /** Publishing the end marker and deleting the cancel key. */
    method EndStream(pending: Option<string>) returns (thrown: Option<string>)
      requires backend.Valid() && backend.self.core.pc.EmitEnd? && (backend.self.core.rethrow <==> pending.Some?)
      modifies backend
      ensures backend.Valid() && old(backend.trace) <= backend.trace
      ensures thrown.Some? ==>
        thrown == pending || SomeRejected(old(backend.trace), backend.trace, backend.id, thrown.value)
      ensures if thrown.None? then backend.self.core.pc.Returned? else backend.self.core.pc.Threw?
    {
      var ended := backend.Publish(StreamEnd);
      if ended.Rejected? {
        return Some(ended.message);
      }
      ghost var between := backend.trace;
      thrown := ForgetCancellation(pending);
      if thrown.Some? && thrown != pending {
        RejectedStill(old(backend.trace), between, backend.trace, backend.trace, backend.id, thrown.value);
      }
    }

    /** Deleting the cancel key; then the pending exception, if there is one, goes on. */
    method ForgetCancellation(pending: Option<string>) returns (thrown: Option<string>)
      requires backend.Valid() && backend.self.core.pc.DeleteCancel? && (backend.self.core.rethrow <==> pending.Some?)
      modifies backend
      ensures backend.Valid() && old(backend.trace) <= backend.trace
      ensures thrown.Some? ==>
        thrown == pending || SomeRejected(old(backend.trace), backend.trace, backend.id, thrown.value)
      ensures if thrown.None? then backend.self.core.pc.Returned? else backend.self.core.pc.Threw?
    {
      var deleted := backend.DeleteKey();
      return if deleted.Rejected? then Some(deleted.message) else pending;
    }

    /** The `finally` block of `execute`: an exception of its own replaces the pending one. */
    method Finally(sandbox: Option<SandboxId>, pending: Option<string>) returns (thrown: Option<string>)
      requires backend.Valid() && backend.self.core.sandbox == sandbox
      requires backend.self.core.pc == if sandbox.Some? then Kill else EmitEnd
      requires backend.self.core.rethrow <==> pending.Some?
      modifies backend
      ensures backend.Valid() && old(backend.trace) <= backend.trace
      ensures thrown.Some? ==>
        thrown == pending || SomeRejected(old(backend.trace), backend.trace, backend.id, thrown.value)
      ensures if thrown.None? then backend.self.core.pc.Returned? else backend.self.core.pc.Threw?
    {
      if sandbox.Some? {
        var killed := backend.KillSandbox(sandbox.value);
      }
      ghost var between := backend.trace;
      thrown := EndStream(pending);
      if thrown.Some? && thrown != pending {
        RejectedStill(old(backend.trace), between, backend.trace, backend.trace, backend.id, thrown.value);
      }
    }

    /** `execute`: look the run up and, when it is RUNNING, try the loop, catch, and finally. */
    method Execute(prompt: string) returns (thrown: Option<string>)
      requires backend.Valid() && backend.self == Exec(Begin(prompt, maxIterations), BLANK)
      modifies backend
      ensures backend.Valid() && old(backend.trace) <= backend.trace && Reachable(backend.Whole())
      ensures forall i: nat :: i in backend.rows <==> i < |backend.rows|
      ensures thrown.Some? ==> SomeRejected(old(backend.trace), backend.trace, backend.id, thrown.value)
      ensures if thrown.None? then backend.self.core.pc.Returned? else backend.self.core.pc.Threw?
    {
      var found := backend.FindRun();
      if found.Rejected? {
        IndicesAreDense(backend.Whole());
        return Some(found.message);
      }
      if found.status != Some(Running) {
        IndicesAreDense(backend.Whole());
        return None;
      }
      var error, sandbox := Try(prompt);
      ghost var tried := backend.trace;
      thrown := CatchFinally(error, sandbox);
      if thrown.Some? {
        RejectedStill(old(backend.trace), tried, backend.trace, backend.trace, backend.id, thrown.value);
      }
      IndicesAreDense(backend.Whole());
    }

    /** The `catch` and `finally` blocks of `execute`; what `catch` throws is pending in `finally`. */
    method CatchFinally(error: Option<string>, sandbox: Option<SandboxId>) returns (thrown: Option<string>)
      requires backend.Valid() && backend.self.core.sandbox == sandbox
      requires match error
               case None => backend.self.core.pc.Kill? && sandbox.Some? && Trying(backend.self.core, sandbox.value)
               case Some(m) => Catching(backend.self.core, sandbox, m)
      modifies backend
      ensures backend.Valid() && old(backend.trace) <= backend.trace
      ensures thrown.Some? ==> SomeRejected(old(backend.trace), backend.trace, backend.id, thrown.value)
      ensures if thrown.None? then backend.self.core.pc.Returned? else backend.self.core.pc.Threw?
    {
      var pending: Option<string> := None;
      if error.Some? {
        pending := FinishAndTell(Failed, error, RunFailed(error.value));
      }
      ghost var caught := backend.trace;
      thrown := Finally(sandbox, pending);
      if thrown.Some? && thrown == pending {
        RejectedStill(old(backend.trace), old(backend.trace), caught, backend.trace, backend.id, thrown.value);
      } else if thrown.Some? {
        RejectedStill(old(backend.trace), caught, backend.trace, backend.trace, backend.id, thrown.value);
      }
    }
  }
}
