/**
 What every executor keeps, whatever its operations settle with: the shape of the conversation, that its
 rows are exactly the rendering of that conversation, the order of its publishes, the status it writes
 last, and its use of its sandbox. None of this depends on what other executors do.
 */
module ExecutorInvariants {
  import opened Wrappers
  import opened AgentTypes
  import opened Executor

  predicate BeforeLoop(pc: Pc) {
    pc.Lookup? || pc.SandboxCreate? || pc.SandboxPg? || pc.SandboxMirror? || pc.EmitStarted? || pc.CountSteps?
  }

  predicate AtHead(pc: Pc) { pc.CheckCancel? || pc.CallModel? }

  predicate InRound(pc: Pc) { pc.StepPg? || pc.StepMirror? || pc.StepEmit? || pc.RunTool? }

  predicate Finishing(pc: Pc) { pc.FinishPg? || pc.FinishMirror? || pc.EmitTerminal? }

  predicate Closing(pc: Pc) { pc.Kill? || pc.EmitEnd? || pc.DeleteCancel? }

  // ----- the conversation -----

  /** The answers carry the ids of the tool uses, in order. */
  predicate AnsweredSoFar(uses: seq<ToolUse>, answers: seq<Answer>) {
    |answers| <= |uses| && forall i :: 0 <= i < |answers| ==> answers[i].toolUseId == uses[i].id
  }

  /** A prompt followed by rounds of a reply that asks for tools and the answers to it. */
  predicate Rounds(prompt: string, m: seq<Message>) {
    if |m| <= 1 then m == [Prompt(prompt)]
    else
      var reply, answers := m[|m| - 2], m[|m| - 1];
      && reply.Reply? && answers.Answers?
      && Uses(reply.content) != []
      && |answers.answers| == |Uses(reply.content)|
      && AnsweredSoFar(Uses(reply.content), answers.answers)
      && Rounds(prompt, m[..|m| - 2])
  }

  /** The executor is in the middle of a round: rounds, then the reply being worked on. */
  predicate Replying(c: Core) {
    && |c.messages| == 2 * c.iteration + 2
    && c.messages[|c.messages| - 1].Reply?
    && Rounds(c.prompt, c.messages[..|c.messages| - 1])
    && c.iteration < c.maxIterations
  }

  function Content(c: Core): seq<Block>
    requires Replying(c)
  {
    c.messages[|c.messages| - 1].content
  }

  /** How many of the reply's blocks the loop has taken. */
  predicate Scanned(c: Core, content: seq<Block>) {
    && |c.todo| <= |content|
    && c.todo == content[|content| - |c.todo|..]
    && c.toolUses == Uses(content[..|content| - |c.todo|])
    && c.answers == []
  }

  predicate UsingTools(c: Core, content: seq<Block>) {
    && c.todo == []
    && c.toolStop
    && c.toolUses == Uses(content)
    && AnsweredSoFar(c.toolUses, c.answers)
  }

  /** The step and event of `pc` are the ones the program is due to record. */
  predicate Due(c: Core, content: seq<Block>, step: Step, event: Event) {
    match event
    case AssistantText(t) =>
      && Scanned(c, content) && |c.todo| < |content|
      && content[|content| - |c.todo| - 1] == Text(t)
      && step == Step(Assistant, None, t)
    case ToolCalled(name, input) =>
      && UsingTools(c, content) && |c.answers| < |c.toolUses|
      && c.toolUses[|c.answers|].name == name && c.toolUses[|c.answers|].input == input
      && step == Step(ToolCall, Some(name), input)
    case ToolAnswered(name, output, _) =>
      && UsingTools(c, content) && |c.answers| < |c.toolUses|
      && c.toolUses[|c.answers|].name == name
      && step == Step(ToolResult, Some(name), output)
    case _ => false
  }

  /** The step an event announces. */
  function StepOf(event: Event): Step {
    match event
    case AssistantText(t) => Step(Assistant, None, t)
    case ToolCalled(name, input) => Step(ToolCall, Some(name), input)
    case ToolAnswered(name, output, _) => Step(ToolResult, Some(name), output)
    case _ => Step(Assistant, None, "")
  }

  predicate Conversation(c: Core) {
    && (BeforeLoop(c.pc) ==> c.messages == if c.pc.CountSteps? then [Prompt(c.prompt)] else [])
    && (AtHead(c.pc) ==>
          && |c.messages| == 2 * c.iteration + 1
          && Rounds(c.prompt, c.messages)
          && c.iteration < c.maxIterations)
    && (InRound(c.pc) ==>
          && Replying(c)
          && match c.pc
             case StepPg(_, step, event) => Due(c, Content(c), step, event)
             case StepMirror(_, step, event) => Due(c, Content(c), step, event)
             case StepEmit(event) => Due(c, Content(c), StepOf(event), event)
             case _ => UsingTools(c, Content(c)) && |c.answers| < |c.toolUses|)
  }

  /** The last reply is one the loop ends on. */
  predicate EndsOnReply(c: Core) {
    && |c.messages| >= 2
    && c.messages[|c.messages| - 1].Reply?
    && Rounds(c.prompt, c.messages[..|c.messages| - 1])
    && (!c.toolStop || Uses(c.messages[|c.messages| - 1].content) == [])
  }

  // ----- the rendering of a conversation as steps -----

  function Texts(content: seq<Block>): seq<Step> {
    if content == [] then []
    else
      var last := content[|content| - 1];
      var rest := Texts(content[..|content| - 1]);
      if last.Text? then rest + [Step(Assistant, None, last.text)] else rest
  }

  function CallStep(u: ToolUse): Step { Step(ToolCall, Some(u.name), u.input) }

  function ResultStep(u: ToolUse, output: string): Step { Step(ToolResult, Some(u.name), output) }

  /** A TOOL_CALL and a TOOL_RESULT for each tool use answered. */
  function Pairs(uses: seq<ToolUse>, answers: seq<Answer>): seq<Step>
    requires |answers| <= |uses|
  {
    if answers == [] then []
    else
      var k := |answers| - 1;
      Pairs(uses, answers[..k]) + [CallStep(uses[k]), ResultStep(uses[k], answers[k].content)]
  }

  /** The transcript of a conversation: each reply's texts, then its calls with their results. */
  function Render(m: seq<Message>): seq<Step> {
    if |m| <= 1 then []
    else
      var last := m[|m| - 1];
      match last
      case Prompt(_) => Render(m[..|m| - 1])
      case Reply(content) => Render(m[..|m| - 1]) + Texts(content)
      case Answers(answers) =>
        var before := m[|m| - 2];
        if before.Reply? && |answers| <= |Uses(before.content)| then
          Render(m[..|m| - 2]) + Texts(before.content) + Pairs(Uses(before.content), answers)
        else Render(m[..|m| - 1])
  }

  /** The rows an executor in its loop has written. */
  function Transcript(c: Core): seq<Step>
    requires Conversation(c) && (AtHead(c.pc) || InRound(c.pc))
  {
    if AtHead(c.pc) then Render(c.messages)
    else
      var content := Content(c);
      var before := Render(c.messages[..|c.messages| - 1]);
      if c.pc.StepPg? then before + Part(c, content, c.pc.event)
      else if c.pc.StepMirror? then before + Part(c, content, c.pc.event) + [StepOf(c.pc.event)]
      else if c.pc.StepEmit? then before + Part(c, content, c.pc.event) + [StepOf(c.pc.event)]
      else before + Texts(content) + Pairs(c.toolUses, c.answers) + [CallStep(c.toolUses[|c.answers|])]
  }

  /** The steps of the reply at hand recorded before the one `event` announces. */
  function Part(c: Core, content: seq<Block>, event: Event): seq<Step>
    requires Due(c, content, StepOf(event), event)
  {
    if event.AssistantText? then Texts(content[..|content| - |c.todo| - 1])
    else if event.ToolCalled? then Texts(content) + Pairs(c.toolUses, c.answers)
    else Texts(content) + Pairs(c.toolUses, c.answers) + [CallStep(c.toolUses[|c.answers|])]
  }

  // ----- keeping them -----

  lemma SplitLast<T>(s: seq<T>, n: nat)
    requires n < |s|
    ensures s[..n + 1][..n] == s[..n] && s[..n + 1][n] == s[n]
  {
  }

  /** `d` is a good state to resume in when `steps` are the rows written so far. */
  predicate Follows(d: Core, steps: seq<Step>) {
    && Conversation(d)
    && (AtHead(d.pc) || InRound(d.pc) ==> Transcript(d) == steps)
    && (d.pc.FinishPg? && d.pc.status.Completed? ==> EndsOnReply(d) && Render(d.messages) == steps)
  }

  /** The rows of the rounds before the reply at hand. */
  function Before(c: Core): seq<Step>
    requires Replying(c)
  {
    Render(c.messages[..|c.messages| - 1])
  }

  /** An executor about to record a due step is in a good state. */
  lemma RecordFollows(d: Core)
    requires d.pc.StepPg? && Replying(d) && Due(d, Content(d), d.pc.step, d.pc.event)
    ensures Follows(d, Before(d) + Part(d, Content(d), d.pc.event))
  {
  }

  /** `LoopHead` enters the next iteration or throws. */
  lemma LoopThrows(c: Core)
    requires c.caught.None? && c.iteration >= c.maxIterations
    ensures Follows(LoopHead(c), Render(c.messages))
  {
  }

  lemma LoopHeadKeeps(c: Core)
    requires c.caught.None?
    requires |c.messages| == 2 * c.iteration + 1 && Rounds(c.prompt, c.messages)
    ensures Follows(LoopHead(c), Render(c.messages))
  {
    if c.iteration < c.maxIterations {
      AtHeadFollows(c.(pc := CheckCancel));
    } else {
      LoopThrows(c);
    }
  }

  lemma AtHeadFollows(c: Core)
    requires c.pc.CheckCancel? && c.iteration < c.maxIterations
    requires |c.messages| == 2 * c.iteration + 1 && Rounds(c.prompt, c.messages)
    ensures Follows(c, Render(c.messages))
  {
  }

  /** `NextTool` records the next call. */
  lemma NextCallKeeps(c: Core)
    requires Replying(c) && UsingTools(c, Content(c)) && |c.answers| < |c.toolUses|
    ensures Follows(NextTool(c), Before(c) + Texts(Content(c)) + Pairs(c.toolUses, c.answers))
  {
    NextCallIsDue(c);
    RecordFollows(NextTool(c));
    var texts, pairs := Texts(Content(c)), Pairs(c.toolUses, c.answers);
    assert Before(c) + (texts + pairs) == Before(c) + texts + pairs;
  }

  lemma NextCallIsDue(c: Core)
    requires Replying(c) && UsingTools(c, Content(c)) && |c.answers| < |c.toolUses|
    ensures var d := NextTool(c);
      && d.pc.StepPg? && Replying(d) && Content(d) == Content(c) && Before(d) == Before(c)
      && Due(d, Content(d), d.pc.step, d.pc.event)
      && Part(d, Content(d), d.pc.event) == Texts(Content(c)) + Pairs(c.toolUses, c.answers)
  {
    var use, d := c.toolUses[|c.answers|], NextTool(c);
    assert d.pc == StepPg(c.index, CallStep(use), ToolCalled(use.name, use.input));
    assert Replying(d) && Content(d) == Content(c);
  }

  /** `NextTool` closes the round. */
  lemma CloseRoundKeeps(c: Core)
    requires c.caught.None? && Replying(c) && UsingTools(c, Content(c)) && c.toolUses != []
    requires |c.answers| == |c.toolUses|
    ensures Follows(NextTool(c), Before(c) + Texts(Content(c)) + Pairs(c.toolUses, c.answers))
  {
    var m := c.messages + [Answers(c.answers)];
    assert m[..|m| - 2] == c.messages[..|c.messages| - 1];
    var d := c.(messages := m, iteration := c.iteration + 1);
    assert Rounds(c.prompt, m);
    LoopHeadKeeps(d);
  }

  /** `NextTool` records the next call, or closes the round. */
  lemma NextToolKeeps(c: Core)
    requires c.caught.None? && Replying(c) && UsingTools(c, Content(c)) && c.toolUses != []
    ensures Follows(NextTool(c), Before(c) + Texts(Content(c)) + Pairs(c.toolUses, c.answers))
  {
    if |c.answers| < |c.toolUses| {
      NextCallKeeps(c);
    } else {
      CloseRoundKeeps(c);
    }
  }

  /** `AfterContent` enters the tool loop, or completes. */
  lemma AfterContentKeeps(c: Core)
    requires c.caught.None? && Replying(c) && c.todo == [] && Scanned(c, Content(c))
    ensures Follows(AfterContent(c), Before(c) + Texts(Content(c)))
  {
    assert Content(c)[..|Content(c)|] == Content(c);
    if c.toolStop && c.toolUses != [] {
      NextToolKeeps(c.(answers := []));
      var steps := Before(c) + Texts(Content(c));
      assert steps + [] == steps;
    } else {
      CompletionKeeps(c);
    }
  }

  /** The reply did not ask for tools. */
  lemma CompletionKeeps(c: Core)
    requires Replying(c) && (!c.toolStop || Uses(Content(c)) == [])
    ensures Follows(c.(pc := FinishPg(Completed, None)), Before(c) + Texts(Content(c)))
  {
    var d := c.(pc := FinishPg(Completed, None));
    assert EndsOnReply(d);
  }

  /** The text block just taken is recorded. */
  lemma RecordTextFollows(c: Core, t: string)
    requires Replying(c) && Scanned(c, Content(c)) && |c.todo| < |Content(c)|
    requires Content(c)[|Content(c)| - |c.todo| - 1] == Text(t)
    ensures Follows(RecordStep(c, Step(Assistant, None, t), AssistantText(t)),
                    Before(c) + Texts(Content(c)[..|Content(c)| - |c.todo| - 1]))
  {
    var d := RecordStep(c, Step(Assistant, None, t), AssistantText(t));
    assert Replying(d) && Content(d) == Content(c);
    assert Due(d, Content(c), Step(Assistant, None, t), AssistantText(t));
    RecordFollows(d);
  }

  /** The text block at hand has been taken. */
  lemma TextTaken(c: Core)
    requires Replying(c) && Scanned(c, Content(c)) && c.todo != [] && c.todo[0].Text?
    ensures var rest := c.(todo := c.todo[1..]);
      && Replying(rest) && Content(rest) == Content(c) && Scanned(rest, Content(c)) && |rest.todo| < |Content(c)|
      && Content(c)[|Content(c)| - |rest.todo| - 1] == c.todo[0]
  {
    var content := Content(c);
    var n := |content| - |c.todo|;
    SplitLast(content, n);
    assert c.todo[0] == content[n] && c.todo[1..] == content[n + 1..];
  }

  lemma ScanRecordsText(c: Core)
    requires c.todo != [] && c.todo[0].Text?
    ensures var t := c.todo[0].text;
      Scan(c) == RecordStep(c.(todo := c.todo[1..]), Step(Assistant, None, t), AssistantText(t))
  {
  }

  /** `Scan` stops at a text block, to record it. */
  lemma ScanTextKeeps(c: Core)
    requires c.caught.None? && Replying(c) && Scanned(c, Content(c)) && c.todo != [] && c.todo[0].Text?
    ensures Follows(Scan(c), Before(c) + Texts(Content(c)[..|Content(c)| - |c.todo|]))
  {
    TextTaken(c);
    ScanRecordsText(c);
    RecordTextFollows(c.(todo := c.todo[1..]), c.todo[0].text);
  }

  lemma ScanSkips(c: Core, d: Core)
    requires c.todo != [] && !c.todo[0].Text?
    requires d == c.(
      todo := c.todo[1..],
      toolUses := if c.todo[0].Use? then c.toolUses + [c.todo[0].use] else c.toolUses)
    ensures Scan(c) == Scan(d)
  {
  }

  /** `Scan` takes a block that is not text. */
  lemma ScanSkipKeeps(c: Core, d: Core)
    requires Replying(c) && Scanned(c, Content(c)) && c.todo != [] && !c.todo[0].Text?
    requires d == c.(
      todo := c.todo[1..],
      toolUses := if c.todo[0].Use? then c.toolUses + [c.todo[0].use] else c.toolUses)
    ensures Replying(d) && Content(d) == Content(c) && Before(d) == Before(c) && Scanned(d, Content(c))
    ensures Texts(Content(c)[..|Content(c)| - |d.todo|]) == Texts(Content(c)[..|Content(c)| - |c.todo|])
  {
    var content := Content(c);
    var n := |content| - |c.todo|;
    SplitLast(content, n);
    assert c.todo[0] == content[n] && c.todo[1..] == content[n + 1..];
  }

  /** `Scan` goes on to a good state. */
  predicate ScanFollows(c: Core)
    requires Replying(c) && |c.todo| <= |Content(c)|
  {
    Follows(Scan(c), Before(c) + Texts(Content(c)[..|Content(c)| - |c.todo|]))
  }

  lemma ScanFollowsSkipped(c: Core, d: Core)
    requires Replying(c) && |c.todo| <= |Content(c)| && Replying(d) && |d.todo| <= |Content(d)|
    requires Scan(c) == Scan(d) && Before(d) == Before(c) && Content(d) == Content(c) && ScanFollows(d)
    requires Texts(Content(c)[..|Content(c)| - |d.todo|]) == Texts(Content(c)[..|Content(c)| - |c.todo|])
    ensures ScanFollows(c)
  {
  }

  /** `Scan` skips to the next text block, or to the end of the reply. */
  lemma {:induction false} ScanKeeps(c: Core)
    requires c.caught.None? && Replying(c) && Scanned(c, Content(c))
    ensures ScanFollows(c)
    decreases |c.todo|
  {
    if c.todo == [] {
      assert Content(c)[..|Content(c)|] == Content(c);
      AfterContentKeeps(c);
    } else if c.todo[0].Text? {
      ScanTextKeeps(c);
    } else {
      var d := c.(todo := c.todo[1..], toolUses := if c.todo[0].Use? then c.toolUses + [c.todo[0].use] else c.toolUses);
      ScanSkipKeeps(c, d);
      ScanSkips(c, d);
      ScanKeeps(d);
      ScanFollowsSkipped(c, d);
    }
  }

  /** After the publish of a text, the loop over blocks goes on. */
  lemma AfterTextKeeps(c: Core)
    requires Conversation(c) && c.caught.None? && c.pc.StepEmit? && c.pc.event.AssistantText?
    ensures Follows(AfterStep(c, c.pc.event), Transcript(c))
  {
    var content := Content(c);
    var n := |content| - |c.todo|;
    SplitLast(content, n - 1);
    assert Texts(content[..n]) == Texts(content[..n - 1]) + [StepOf(c.pc.event)];
    assert Before(c) + (Texts(content[..n - 1]) + [StepOf(c.pc.event)])
        == Before(c) + Texts(content[..n - 1]) + [StepOf(c.pc.event)];
    ScanKeeps(c);
  }

  /** After the publish of a tool's result, the result is collected and the loop over tool uses goes on. */
  lemma AfterAnswerKeeps(c: Core)
    requires Conversation(c) && c.caught.None? && c.pc.StepEmit? && c.pc.event.ToolAnswered?
    ensures Follows(AfterStep(c, c.pc.event), Transcript(c))
  {
    var answer := Answer(c.toolUses[|c.answers|].id, c.pc.event.output, c.pc.event.isError);
    var d := c.(answers := c.answers + [answer]);
    AnswerPairs(c.toolUses, c.answers, answer);
    AnsweredTranscript(c, d);
    NextToolKeeps(d);
  }

  lemma AnswerPairs(uses: seq<ToolUse>, answers: seq<Answer>, answer: Answer)
    requires |answers| < |uses|
    ensures var use := uses[|answers|];
      Pairs(uses, answers + [answer]) == Pairs(uses, answers) + [CallStep(use), ResultStep(use, answer.content)]
  {
    assert (answers + [answer])[..|answers|] == answers;
  }

  /** With its answer collected, the rows are those of the round so far. */
  lemma AnsweredTranscript(c: Core, d: Core)
    requires Conversation(c) && c.pc.StepEmit? && c.pc.event.ToolAnswered?
    requires var use := c.toolUses[|c.answers|];
      && d == c.(answers := c.answers + [Answer(use.id, c.pc.event.output, c.pc.event.isError)])
      && Pairs(c.toolUses, d.answers) ==
         Pairs(c.toolUses, c.answers) + [CallStep(use), ResultStep(use, c.pc.event.output)]
    ensures Replying(d) && Content(d) == Content(c) && UsingTools(d, Content(d)) && d.toolUses != []
    ensures Transcript(c) == Before(d) + Texts(Content(d)) + Pairs(d.toolUses, d.answers)
  {
    var use := c.toolUses[|c.answers|];
    var texts, pairs, call := Texts(Content(c)), Pairs(c.toolUses, c.answers), CallStep(use);
    var result := ResultStep(use, c.pc.event.output);
    assert Transcript(c) == Before(c) + (texts + pairs + [call]) + [result];
    Regroup(Before(c), texts, pairs, call, result);
  }

  lemma Regroup<T>(a: seq<T>, b: seq<T>, c: seq<T>, x: T, y: T)
    ensures a + (b + c + [x]) + [y] == a + b + (c + [x, y])
  {
  }

  /** After the publish of a tool call, the tool runs. */
  lemma AfterCallKeeps(c: Core)
    requires Conversation(c) && c.pc.StepEmit? && c.pc.event.ToolCalled?
    ensures Follows(AfterStep(c, c.pc.event), Transcript(c))
  {
    var texts, pairs := Texts(Content(c)), Pairs(c.toolUses, c.answers);
    assert Before(c) + (texts + pairs) == Before(c) + texts + pairs;
  }

  /** A tool that returned has its output recorded. */
  lemma AfterToolKeeps(c: Core, output: string, isError: bool)
    requires Conversation(c) && c.pc.RunTool?
    ensures Follows(AfterTool(c, output, isError), Transcript(c))
  {
    var d := AfterTool(c, output, isError);
    assert Replying(d) && Content(d) == Content(c);
    RecordFollows(d);
    var texts, pairs, call := Texts(Content(c)), Pairs(c.toolUses, c.answers), [CallStep(c.toolUses[|c.answers|])];
    assert Before(c) + (texts + pairs + call) == Before(c) + texts + pairs + call;
  }

  /** A model reply starts a round. */
  lemma AfterReplyKeeps(c: Core, content: seq<Block>, toolStop: bool)
    requires Conversation(c) && c.caught.None? && c.pc.CallModel?
    ensures Follows(Resume(c, Replied(content, toolStop)), Transcript(c))
  {
    var d := c.(messages := c.messages + [Reply(content)], todo := content, toolUses := [], answers := [],
                toolStop := toolStop);
    assert d.messages[..|d.messages| - 1] == c.messages;
    assert content[..0] == [];
    assert Replying(d) && Content(d) == content && Scanned(d, content);
    ScanKeeps(d);
    assert Render(c.messages) + [] == Render(c.messages);
  }

  /** The rows written, once the operation at `c.pc` has settled as it should. */
  function Grown(c: Core): seq<Step>
    requires Conversation(c) && (AtHead(c.pc) || InRound(c.pc))
  {
    if c.pc.StepPg? then Transcript(c) + [c.pc.step] else Transcript(c)
  }

  lemma DueStep(c: Core, content: seq<Block>, step: Step, event: Event)
    requires Due(c, content, step, event)
    ensures step == StepOf(event) && Due(c, content, StepOf(event), event)
  {
  }

  /** What is due does not depend on the operation awaited. */
  lemma EventStays(c: Core, d: Core, event: Event)
    requires d == c.(pc := d.pc) && Replying(c) && Due(c, Content(c), StepOf(event), event)
    ensures Replying(d) && Content(d) == Content(c) && Before(d) == Before(c)
    ensures Due(d, Content(d), StepOf(event), event)
    ensures Part(d, Content(d), event) == Part(c, Content(c), event)
  {
  }

  lemma MirroringFollows(d: Core)
    requires d.pc.StepMirror? && Replying(d) && Due(d, Content(d), d.pc.step, d.pc.event)
    requires d.pc.step == StepOf(d.pc.event)
    ensures Follows(d, Before(d) + Part(d, Content(d), d.pc.event) + [d.pc.step])
  {
  }

  lemma EmittingFollows(d: Core)
    requires d.pc.StepEmit? && Replying(d) && Due(d, Content(d), StepOf(d.pc.event), d.pc.event)
    ensures Follows(d, Before(d) + Part(d, Content(d), d.pc.event) + [StepOf(d.pc.event)])
  {
  }

  /** The row of a step was created: its document is next. */
  lemma AfterRowKeeps(c: Core)
    requires Conversation(c) && c.pc.StepPg?
    ensures Follows(c.(pc := StepMirror(c.pc.at, c.pc.step, c.pc.event)), Transcript(c) + [c.pc.step])
  {
    var d := c.(pc := StepMirror(c.pc.at, c.pc.step, c.pc.event));
    DueStep(c, Content(c), c.pc.step, c.pc.event);
    EventStays(c, d, c.pc.event);
    MirroringFollows(d);
  }

  /** The document of a step was created: its event is next. */
  lemma AfterDocumentKeeps(c: Core)
    requires Conversation(c) && c.pc.StepMirror?
    ensures Follows(c.(pc := StepEmit(c.pc.event)), Transcript(c))
  {
    var d := c.(pc := StepEmit(c.pc.event));
    DueStep(c, Content(c), c.pc.step, c.pc.event);
    EventStays(c, d, c.pc.event);
    EmittingFollows(d);
  }

  /** The cancel key was looked for. */
  lemma AfterCheckKeeps(c: Core, present: bool)
    requires Conversation(c) && c.pc.CheckCancel?
    ensures Follows(c.(pc := if present then FinishPg(Cancelled, None) else CallModel), Transcript(c))
  {
  }

  /** After the publish of a step's event. */
  lemma AfterEmitKeeps(c: Core, o: Outcome)
    requires Fits(c.pc, o) && !o.Rejected? && c.caught.None?
    requires Conversation(c) && c.pc.StepEmit?
    ensures Follows(Resume(c, o), Grown(c))
  {
    if c.pc.event.AssistantText? {
      AfterTextKeeps(c);
    } else if c.pc.event.ToolCalled? {
      AfterCallKeeps(c);
    } else {
      AfterAnswerKeeps(c);
    }
  }

  /** In the loop, whatever an operation resolves with, the executor goes on to a good state. */
  lemma ResumeFollows(c: Core, o: Outcome)
    requires Fits(c.pc, o) && !o.Rejected? && c.caught.None?
    requires Conversation(c) && (AtHead(c.pc) || InRound(c.pc))
    ensures Follows(Resume(c, o), Grown(c))
  {
    if c.pc.CallModel? {
      AfterReplyKeeps(c, o.blocks, o.toolStop);
    } else if c.pc.RunTool? {
      AfterToolKeeps(c, o.content, o.isError);
    } else if c.pc.StepEmit? {
      AfterEmitKeeps(c, o);
    } else if c.pc.StepPg? {
      AfterRowKeeps(c);
    } else if c.pc.StepMirror? {
      AfterDocumentKeeps(c);
    } else {
      AfterCheckKeeps(c, o.present);
    }
  }
}
