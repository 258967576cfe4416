/**
 What was said to an executor: the replies of the model and the outputs of the tools, read off the actions alone. They
 determine its conversation, the rows it stored, whether the loop went on, and why it ended.
 */
module Exchanges {
  import opened Wrappers
  import opened AgentTypes
  import opened Executor
  import opened ExecutorInvariants
  import opened ExecutorHistory
  import opened RunProtocol
  import opened Interleavings
  import opened RunTheorems
  import opened Outcomes

  datatype Said = Said(content: string, isError: bool)

  /** A reply of the model, and what the tools it asked for have put out so far. */
  datatype Exchange = Exchange(blocks: seq<Block>, toolStop: bool, outputs: seq<Said>)

  /** The reply asked for tools, and every tool use was answered. */
  predicate Full(x: Exchange) {
    x.toolStop && Uses(x.blocks) != [] && |x.outputs| == |Uses(x.blocks)|
  }

  predicate AllFull(xs: seq<Exchange>) { forall i :: 0 <= i < |xs| ==> Full(xs[i]) }

  /** The reply did not ask for tools. */
  predicate Last(x: Exchange) {
    (!x.toolStop || Uses(x.blocks) == []) && x.outputs == []
  }

  function Front(xs: seq<Exchange>): seq<Exchange>
    requires xs != []
  {
    xs[..|xs| - 1]
  }

  function Now(xs: seq<Exchange>): Exchange
    requires xs != []
  {
    xs[|xs| - 1]
  }

  /** What an operation that settles as `ch` says adds. */
  function Hears(pc: Pc, ch: Choice, xs: seq<Exchange>): seq<Exchange> {
    if ch.fault.Some? then xs
    else if pc.CallModel? then xs + [Exchange(ch.blocks, ch.toolStop, [])]
    else if pc.RunTool? && xs != [] then
      Front(xs) + [Now(xs).(outputs := Now(xs).outputs + [Said(ch.output, ch.isError)])]
    else xs
  }

  /** Everything said to executor `id`. */
  function Heard(actions: seq<Action>, id: ExecId): seq<Exchange> {
    if actions == [] then []
    else
      var before, a := actions[..|actions| - 1], actions[|actions| - 1];
      var w := Run(NOTHING, before);
      if a.Settle? && a.id == id && id in w.execs then Hears(w.execs[id].core.pc, a.choice, Heard(before, id))
      else Heard(before, id)
  }

  // ----- what it determines -----

  function AnswersTo(uses: seq<ToolUse>, outputs: seq<Said>): seq<Answer>
    requires |outputs| <= |uses|
  {
    seq(|outputs|, i requires 0 <= i < |outputs| => Answer(uses[i].id, outputs[i].content, outputs[i].isError))
  }

  /** The conversation: the prompt, then each reply and the answers to it. */
  function Conversed(prompt: string, xs: seq<Exchange>): seq<Message>
    requires AllFull(xs)
  {
    if xs == [] then [Prompt(prompt)]
    else
      var x := Now(xs);
      Conversed(prompt, Front(xs)) + [Reply(x.blocks), Answers(AnswersTo(Uses(x.blocks), x.outputs))]
  }

  /** A TOOL_CALL and a TOOL_RESULT for each output. */
  function ToolRows(uses: seq<ToolUse>, outputs: seq<Said>): seq<Step>
    requires |outputs| <= |uses|
  {
    if outputs == [] then []
    else
      var k := |outputs| - 1;
      ToolRows(uses, outputs[..k]) + [Step(ToolCall, Some(uses[k].name), uses[k].input)]
        + [Step(ToolResult, Some(uses[k].name), outputs[k].content)]
  }

  /** No exchange has more outputs than tool uses. */
  predicate Orderly(xs: seq<Exchange>) {
    forall i :: 0 <= i < |xs| ==> |xs[i].outputs| <= |Uses(xs[i].blocks)|
  }

  /** The rows: the texts of each reply, then its calls, each with its result. */
  function RowsOfAll(xs: seq<Exchange>): seq<Step>
    requires Orderly(xs)
  {
    if xs == [] then []
    else RowsOfAll(Front(xs)) + Texts(Now(xs).blocks) + ToolRows(Uses(Now(xs).blocks), Now(xs).outputs)
  }

  lemma {:induction false} PairsAreToolRows(uses: seq<ToolUse>, outputs: seq<Said>)
    requires |outputs| <= |uses|
    ensures Pairs(uses, AnswersTo(uses, outputs)) == ToolRows(uses, outputs)
    decreases |outputs|
  {
    if outputs != [] {
      var k := |outputs| - 1;
      PairsAreToolRows(uses, outputs[..k]);
      assert AnswersTo(uses, outputs)[..k] == AnswersTo(uses, outputs[..k]);
    }
  }

  lemma RenderReply(m: seq<Message>, blocks: seq<Block>)
    requires m != []
    ensures Render(m + [Reply(blocks)]) == Render(m) + Texts(blocks)
  {
    assert (m + [Reply(blocks)])[..|m|] == m;
  }

  lemma RenderRound(m: seq<Message>, blocks: seq<Block>, answers: seq<Answer>)
    requires m != [] && |answers| <= |Uses(blocks)|
    ensures Render(m + [Reply(blocks), Answers(answers)]) == Render(m) + Texts(blocks) + Pairs(Uses(blocks), answers)
  {
    var all := m + [Reply(blocks), Answers(answers)];
    assert all[..|all| - 2] == m && all[|all| - 2] == Reply(blocks);
  }

  /** The rendering of the conversation is the rows of what was said. */
  lemma {:induction false} RenderConversed(prompt: string, xs: seq<Exchange>)
    requires AllFull(xs)
    ensures Render(Conversed(prompt, xs)) == RowsOfAll(xs)
    decreases |xs|
  {
    if xs != [] {
      RenderConversed(prompt, Front(xs));
      RenderRound(Conversed(prompt, Front(xs)), Now(xs).blocks, AnswersTo(Uses(Now(xs).blocks), Now(xs).outputs));
      PairsAreToolRows(Uses(Now(xs).blocks), Now(xs).outputs);
    }
  }

  // ----- what an executor has heard, at every place -----

  /** The executor is at work on the last reply. */
  predicate Amid(c: Core, xs: seq<Exchange>) {
    && xs != [] && AllFull(Front(xs))
    && c.iteration == |xs| - 1
    && c.messages == Conversed(c.prompt, Front(xs)) + [Reply(Now(xs).blocks)]
    && c.toolStop == Now(xs).toolStop
  }

  /** Every reply has been answered. */
  predicate Done(c: Core, xs: seq<Exchange>) {
    AllFull(xs) && |xs| == c.iteration && c.messages == Conversed(c.prompt, xs)
  }

  function Outputs(answers: seq<Answer>): seq<Said> {
    seq(|answers|, i requires 0 <= i < |answers| => Said(answers[i].content, answers[i].isError))
  }

  function PendingOf(event: Event): seq<Said> {
    if event.ToolAnswered? then [Said(event.output, event.isError)] else []
  }

  /** An output that is being recorded. */
  function Pending(pc: Pc): seq<Said> {
    if pc.StepPg? || pc.StepMirror? || pc.StepEmit? then PendingOf(pc.event) else []
  }

  predicate Heeds(c: Core, xs: seq<Exchange>) {
    && (BeforeLoop(c.pc) ==> xs == [])
    && (AtHead(c.pc) ==> Done(c, xs))
    && (InRound(c.pc) ==> Amid(c, xs) && Now(xs).outputs == Outputs(c.answers) + Pending(c.pc))
  }

  /** The last reply ended the loop. */
  predicate Concluded(c: Core, xs: seq<Exchange>) { Amid(c, xs) && Last(Now(xs)) }

  /** The iterations ran out. */
  predicate Exhausted(c: Core, xs: seq<Exchange>) { Done(c, xs) && |xs| == c.maxIterations }

  /** Where the loop goes on to. */
  predicate Leads(d: Core, xs: seq<Exchange>) {
    && Heeds(d, xs)
    && (d.pc == FinishPg(Completed, None) ==> Concluded(d, xs))
    && (d.caught.Some? ==> Exhausted(d, xs))
  }

  lemma AnswersAreTheirs(uses: seq<ToolUse>, answers: seq<Answer>)
    requires AnsweredSoFar(uses, answers)
    ensures |Outputs(answers)| <= |uses| && AnswersTo(uses, Outputs(answers)) == answers
  {
  }

  lemma LoopHeadLeads(c: Core, xs: seq<Exchange>)
    requires c.caught.None? && Done(c, xs) && c.iteration <= c.maxIterations
    ensures Leads(LoopHead(c), xs)
  {
  }

  lemma NextToolLeads(c: Core, xs: seq<Exchange>)
    requires c.caught.None? && Amid(c, xs) && UsingTools(c, Now(xs).blocks) && c.toolUses != []
    requires Now(xs).outputs == Outputs(c.answers) && c.iteration < c.maxIterations
    ensures Leads(NextTool(c), xs)
  {
    if |c.answers| < |c.toolUses| {
      var d := NextTool(c);
      assert Amid(d, xs) && Outputs(c.answers) + Pending(d.pc) == Outputs(c.answers);
    } else {
      AnswersAreTheirs(c.toolUses, c.answers);
      var d := c.(messages := c.messages + [Answers(c.answers)], iteration := c.iteration + 1);
      assert xs == Front(xs) + [Now(xs)];
      assert Full(Now(xs));
      assert d.messages == Conversed(c.prompt, xs);
      LoopHeadLeads(d, xs);
    }
  }

  /** The next block is taken. */
  lemma TakesBlock(c: Core, content: seq<Block>)
    requires Scanned(c, content) && c.todo != []
    ensures var toolUses := if c.todo[0].Use? then c.toolUses + [c.todo[0].use] else c.toolUses;
      Scanned(c.(todo := c.todo[1..], toolUses := toolUses), content)
  {
    var n := |content| - |c.todo|;
    SplitLast(content, n);
    assert c.todo[0] == content[n] && c.todo[1..] == content[n + 1..];
  }

  lemma ContentLeads(c: Core, xs: seq<Exchange>)
    requires c.caught.None? && Amid(c, xs) && Scanned(c, Now(xs).blocks) && Now(xs).outputs == []
    requires c.iteration < c.maxIterations && c.todo == []
    ensures Leads(AfterContent(c), xs)
  {
    assert Now(xs).blocks[..|Now(xs).blocks|] == Now(xs).blocks;
    if c.toolStop && c.toolUses != [] {
      assert Outputs([]) == [];
      NextToolLeads(c.(answers := []), xs);
    }
  }

  lemma TextDueLeads(c: Core, t: string, xs: seq<Exchange>)
    requires c.caught.None? && Amid(c, xs) && c.answers == [] && Now(xs).outputs == []
    ensures Leads(RecordStep(c, Step(Assistant, None, t), AssistantText(t)), xs)
  {
    assert Outputs(c.answers) + [] == [];
  }

  lemma {:induction false} ScanLeads(c: Core, xs: seq<Exchange>)
    requires c.caught.None? && Amid(c, xs) && Scanned(c, Now(xs).blocks) && Now(xs).outputs == []
    requires c.iteration < c.maxIterations
    ensures Leads(Scan(c), xs)
    decreases |c.todo|
  {
    if c.todo == [] {
      ContentLeads(c, xs);
    } else {
      TakesBlock(c, Now(xs).blocks);
      var rest := c.(todo := c.todo[1..]);
      match c.todo[0]
      case Text(t) => TextDueLeads(rest, t, xs);
      case Use(u) => ScanLeads(rest.(toolUses := c.toolUses + [u]), xs);
      case Opaque => ScanLeads(rest, xs);
    }
  }

  /** The operation at `pc` resolved with what `ch` says. */
  predicate Resolves(pc: Pc, ch: Choice, o: Outcome) {
    && (pc.CallModel? ==> ch.fault.None? && o == Replied(ch.blocks, ch.toolStop))
    && (pc.RunTool? ==> ch.fault.None? && o == Output(ch.output, ch.isError))
  }

  lemma ReplyLeads(c: Core, o: Outcome, ch: Choice, xs: seq<Exchange>)
    requires Fits(c.pc, o) && !o.Rejected? && Conversation(c) && c.caught.None? && Heeds(c, xs)
    requires c.pc.CallModel? && Resolves(c.pc, ch, o)
    ensures Leads(Resume(c, o), Hears(c.pc, ch, xs))
  {
    var xs' := Hears(c.pc, ch, xs);
    assert Front(xs') == xs;
    assert o.blocks[..0] == [];
    ScanLeads(c.(messages := c.messages + [Reply(o.blocks)], todo := o.blocks, toolUses := [], answers := [],
                 toolStop := o.toolStop), xs');
  }

  lemma OutputLeads(c: Core, o: Outcome, ch: Choice, xs: seq<Exchange>)
    requires Fits(c.pc, o) && !o.Rejected? && Conversation(c) && c.caught.None? && Heeds(c, xs)
    requires c.pc.RunTool? && Resolves(c.pc, ch, o)
    ensures Leads(Resume(c, o), Hears(c.pc, ch, xs))
  {
    var xs', d := Hears(c.pc, ch, xs), Resume(c, o);
    assert Front(xs') == Front(xs);
    assert Amid(d, xs');
    assert Outputs(c.answers) + [] == Outputs(c.answers);
    assert Now(xs').outputs == Outputs(d.answers) + Pending(d.pc);
  }

  lemma AnswerLeads(c: Core, xs: seq<Exchange>)
    requires Conversation(c) && c.caught.None? && Heeds(c, xs) && c.pc.StepEmit? && c.pc.event.ToolAnswered?
    ensures Leads(AfterStep(c, c.pc.event), xs)
  {
    var answer := Answer(c.toolUses[|c.answers|].id, c.pc.event.output, c.pc.event.isError);
    assert Content(c) == Now(xs).blocks;
    assert Outputs(c.answers + [answer]) == Outputs(c.answers) + [Said(c.pc.event.output, c.pc.event.isError)];
    NextToolLeads(c.(answers := c.answers + [answer]), xs);
  }

  lemma TextLeads(c: Core, xs: seq<Exchange>)
    requires Conversation(c) && c.caught.None? && Heeds(c, xs) && c.pc.StepEmit? && c.pc.event.AssistantText?
    ensures Leads(AfterStep(c, c.pc.event), xs)
  {
    assert Content(c) == Now(xs).blocks && Now(xs).outputs == [];
    ScanLeads(c, xs);
  }

  lemma CallLeads(c: Core, xs: seq<Exchange>)
    requires c.caught.None? && Heeds(c, xs) && c.pc.StepEmit? && c.pc.event.ToolCalled?
    ensures Leads(AfterStep(c, c.pc.event), xs)
  {
    assert Amid(c.(pc := RunTool), xs);
  }

  lemma EmittedLeads(c: Core, o: Outcome, xs: seq<Exchange>)
    requires Fits(c.pc, o) && !o.Rejected? && Conversation(c) && c.caught.None? && Heeds(c, xs)
    requires c.pc.StepEmit?
    ensures Leads(Resume(c, o), xs)
  {
    match c.pc.event
    case ToolAnswered(_, _, _) => AnswerLeads(c, xs);
    case ToolCalled(_, _) => CallLeads(c, xs);
    case AssistantText(_) => TextLeads(c, xs);
  }

  lemma StoredLeads(c: Core, d: Core, xs: seq<Exchange>)
    requires Heeds(c, xs) && c.caught.None? && d == c.(pc := d.pc) && Pending(d.pc) == Pending(c.pc)
    requires (InRound(c.pc) && InRound(d.pc)) || (AtHead(c.pc) && AtHead(d.pc))
    ensures Leads(d, xs)
  {
  }

  lemma OtherLeads(c: Core, o: Outcome, xs: seq<Exchange>)
    requires Fits(c.pc, o) && !o.Rejected? && Conversation(c) && c.caught.None? && Heeds(c, xs)
    requires c.pc.StepPg? || c.pc.StepMirror? || c.pc.CheckCancel? || c.pc.CountSteps?
    ensures Leads(Resume(c, o), xs)
  {
    if c.pc.CountSteps? {
      LoopHeadLeads(c.(index := o.n, iteration := 0), xs);
    } else if c.pc.StepPg? || c.pc.StepMirror? {
      StoredLeads(c, Resume(c, o), xs);
    }
  }

  // ----- over histories -----

  /** What executor `e` has heard is `xs`; with `calm`, none of the operations of its `try` block rejected. */
  predicate Tracks(e: Exec, xs: seq<Exchange>, calm: bool) {
    && Heeds(e.core, xs)
    && (Completes(e) ==> Concluded(e.core, xs))
    && (calm && e.core.caught.Some? ==> Exhausted(e.core, xs))
    && (e.journal.sawCancel ==> Done(e.core, xs))
  }

  /** Where an operation of the loop leads. */
  lemma LoopLeads(c: Core, o: Outcome, ch: Choice, xs: seq<Exchange>)
    requires Fits(c.pc, o) && !o.Rejected? && Conversation(c) && c.caught.None? && Heeds(c, xs)
    requires AtHead(c.pc) || InRound(c.pc) || c.pc.CountSteps?
    requires Resolves(c.pc, ch, o)
    ensures Leads(Resume(c, o), Hears(c.pc, ch, xs))
    ensures c.pc.CheckCancel? ==> Done(Resume(c, o), xs) && Hears(c.pc, ch, xs) == xs
  {
    if c.pc.CallModel? {
      ReplyLeads(c, o, ch, xs);
    } else if c.pc.RunTool? {
      OutputLeads(c, o, ch, xs);
    } else if c.pc.StepEmit? {
      EmittedLeads(c, o, xs);
    } else {
      OtherLeads(c, o, xs);
    }
  }

  lemma LeadsTracks(f: Exec, xs: seq<Exchange>, calm: bool)
    requires Leads(f.core, xs) && f.journal.finish.None? && (f.journal.sawCancel ==> Done(f.core, xs))
    requires f.core.pc.FinishPg? && f.core.pc.status.Completed? ==> f.core.pc.error.None?
    ensures Tracks(f, xs, calm)
  {
  }

  lemma TracksInLoop(e: Exec, o: Outcome, applied: bool, ch: Choice, xs: seq<Exchange>, calm: bool)
    requires Settles(e.core, o, applied, ch.now) && Finishes(e) && Conversation(e.core) && Tracks(e, xs, calm)
    requires !o.Rejected? && (AtHead(e.core.pc) || InRound(e.core.pc) || e.core.pc.CountSteps?)
    requires Resolves(e.core.pc, ch, o)
    ensures Tracks(Advance(e, o, applied, ch.now), Hears(e.core.pc, ch, xs), calm)
  {
    LoopLeads(e.core, o, ch, xs);
    LoopFinishes(e, o, applied, ch.now);
    LeadsTracks(Advance(e, o, applied, ch.now), Hears(e.core.pc, ch, xs), calm);
  }

  /** In the loop nothing has been finished, and only a check sees the key. */
  lemma LoopFinishes(e: Exec, o: Outcome, applied: bool, now: nat)
    requires Settles(e.core, o, applied, now) && Finishes(e) && !o.Rejected?
    requires AtHead(e.core.pc) || InRound(e.core.pc) || e.core.pc.CountSteps?
    ensures var f := Advance(e, o, applied, now);
      && f.journal.finish.None?
      && (f.journal.sawCancel <==> e.core.pc.CheckCancel? && o == Flag(true))
      && (f.core.pc.FinishPg? && f.core.pc.status.Completed? ==> f.core.pc.error.None?)
  {
    FinishesKept(e, o, applied, now);
  }

  /** From `e` to `f` only the place and what was thrown change, outside the loop. */
  predicate Rests(e: Exec, f: Exec) {
    && f.core == e.core.(pc := f.core.pc, caught := f.core.caught, rethrow := f.core.rethrow)
    && !BeforeLoop(f.core.pc) && !AtHead(f.core.pc) && !InRound(f.core.pc)
    && (Completes(f) ==> Completes(e))
    && f.journal.sawCancel == e.journal.sawCancel
  }

  lemma TracksResting(e: Exec, f: Exec, xs: seq<Exchange>, was: bool, calm: bool)
    requires Tracks(e, xs, was) && Rests(e, f)
    requires calm && f.core.caught.Some? ==> was && e.core.caught.Some?
    ensures Tracks(f, xs, calm)
  {
  }

  lemma ThrownRests(e: Exec, o: Outcome, applied: bool, now: nat)
    requires Settles(e.core, o, applied, now) && Finishes(e) && o.Rejected?
    ensures Rests(e, Advance(e, o, applied, now))
    ensures !InTry(e.core) ==> Advance(e, o, applied, now).core.caught == e.core.caught
  {
    ThrowLeaves(e.core, o);
  }

  lemma TracksOnThrow(e: Exec, o: Outcome, applied: bool, now: nat, xs: seq<Exchange>, was: bool, calm: bool)
    requires Settles(e.core, o, applied, now) && Finishes(e) && Tracks(e, xs, was) && o.Rejected?
    requires calm ==> was && !InTry(e.core)
    ensures Tracks(Advance(e, o, applied, now), xs, calm)
  {
    ThrownRests(e, o, applied, now);
    TracksResting(e, Advance(e, o, applied, now), xs, was, calm);
  }

  lemma TracksOpening(e: Exec, o: Outcome, applied: bool, now: nat, xs: seq<Exchange>, calm: bool)
    requires Settles(e.core, o, applied, now) && Finishes(e) && Tracks(e, xs, calm) && !o.Rejected?
    requires BeforeLoop(e.core.pc) && !e.core.pc.CountSteps?
    ensures Tracks(Advance(e, o, applied, now), xs, calm)
  {
  }

  lemma EndRests(e: Exec, o: Outcome, applied: bool, now: nat)
    requires Settles(e.core, o, applied, now) && Finishes(e) && !o.Rejected?
    requires Finishing(e.core.pc) || Closing(e.core.pc)
    ensures Rests(e, Advance(e, o, applied, now)) && Advance(e, o, applied, now).core.caught == e.core.caught
  {
    EndMoves(e, o, applied, now);
  }

  lemma TracksAtEnd(e: Exec, o: Outcome, applied: bool, now: nat, xs: seq<Exchange>, calm: bool)
    requires Settles(e.core, o, applied, now) && Finishes(e) && Tracks(e, xs, calm) && !o.Rejected?
    requires Finishing(e.core.pc) || Closing(e.core.pc)
    ensures Tracks(Advance(e, o, applied, now), xs, calm)
  {
    EndRests(e, o, applied, now);
    TracksResting(e, Advance(e, o, applied, now), xs, calm, calm);
  }

  /** Whatever an operation settles with, the executor tracks what was said. */
  lemma AdvanceTracks(e: Exec, o: Outcome, applied: bool, ch: Choice, xs: seq<Exchange>, was: bool, calm: bool)
    requires Settles(e.core, o, applied, ch.now) && Finishes(e) && Conversation(e.core) && Tracks(e, xs, was)
    requires calm ==> was && !(InTry(e.core) && o.Rejected?)
    requires if o.Rejected? then e.core.pc.CallModel? || e.core.pc.RunTool? ==> ch.fault.Some?
             else Resolves(e.core.pc, ch, o)
    ensures Tracks(Advance(e, o, applied, ch.now), Hears(e.core.pc, ch, xs), calm)
  {
    var f := Advance(e, o, applied, ch.now);
    if o.Rejected? {
      TracksOnThrow(e, o, applied, ch.now, xs, was, calm);
    } else if AtHead(e.core.pc) || InRound(e.core.pc) || e.core.pc.CountSteps? {
      TracksInLoop(e, o, applied, ch, xs, was);
      TracksLess(f, Hears(e.core.pc, ch, xs), was, calm);
    } else if BeforeLoop(e.core.pc) {
      TracksOpening(e, o, applied, ch.now, xs, was);
      TracksLess(f, xs, was, calm);
    } else {
      TracksAtEnd(e, o, applied, ch.now, xs, was);
      TracksLess(f, xs, was, calm);
    }
  }

  lemma TracksLess(e: Exec, xs: seq<Exchange>, was: bool, calm: bool)
    requires Tracks(e, xs, was) && (calm ==> was)
    ensures Tracks(e, xs, calm)
  {
  }

  lemma CrashTracks(e: Exec, xs: seq<Exchange>, was: bool)
    requires Tracks(e, xs, was) && e.core.pc.Live()
    ensures Tracks(Crash(e), xs, was)
  {
  }

  lemma VerdictResolves(w: World, c: Core, ch: Choice)
    requires c.pc.Live()
    ensures var o := Verdict(w, c, ch);
      if o.Rejected? then c.pc.CallModel? || c.pc.RunTool? ==> ch.fault.Some? else Resolves(c.pc, ch, o)
  {
  }

  lemma SettleTracks(w: World, id: ExecId, ch: Choice, xs: seq<Exchange>, was: bool, calm: bool)
    requires Reachable(w) && id in w.execs && w.execs[id].core.pc.Live() && Tracks(w.execs[id], xs, was)
    requires calm ==> was && !Faults(w, id, Settle(id, ch))
    ensures Tracks(Stepped(w, w.execs[id], ch), Hears(w.execs[id].core.pc, ch, xs), calm)
  {
    var e := w.execs[id];
    TryFacts(w, id);
    VerdictSettles(w, e.core, ch);
    VerdictResolves(w, e.core, ch);
    AdvanceTracks(e, Verdict(w, e.core, ch), Applied(w, e.core, ch), ch, xs, was, calm);
  }

  lemma BeginTracks(prompt: string, maxIterations: nat, calm: bool)
    ensures Tracks(Exec(Begin(prompt, maxIterations), BLANK), [], calm)
  {
  }

  /** What one action does to executor `id`. */
  lemma ActionTracks(w: World, id: ExecId, a: Action, xs: seq<Exchange>, was: bool, calm: bool)
    requires Reachable(w) && (if id in w.execs then Tracks(w.execs[id], xs, was) else xs == [])
    requires calm ==> was && !Faults(w, id, a)
    ensures var heard := if a.Settle? && a.id == id && id in w.execs then Hears(w.execs[id].core.pc, a.choice, xs)
                         else xs;
      if id in Apply(w, a).execs then Tracks(Apply(w, a).execs[id], heard, calm) else heard == []
  {
    if a.Settle? && a.id == id && id in w.execs && w.execs[id].core.pc.Live() {
      SettleTracks(w, id, a.choice, xs, was, calm);
    } else if a.CrashOf? && a.id == id && id in w.execs && w.execs[id].core.pc.Live() {
      CrashTracks(w.execs[id], xs, was);
      TracksLess(Crash(w.execs[id]), xs, was, calm);
    } else if a.Start? && a.id == id && w.job && id !in w.execs {
      BeginTracks(a.prompt, a.maxIterations, calm);
    } else if id in w.execs {
      ElsewhereStays(w, id, a);
      TracksLess(w.execs[id], xs, was, calm);
    }
  }

  lemma ElsewhereStays(w: World, id: ExecId, a: Action)
    requires id in w.execs
    requires (a.Settle? || a.CrashOf?) && a.id == id ==> !w.execs[id].core.pc.Live()
    ensures id in Apply(w, a).execs && Apply(w, a).execs[id] == w.execs[id]
  {
  }

  lemma {:induction false} HeardIsTracked(actions: seq<Action>, id: ExecId)
    ensures var w := Run(NOTHING, actions);
      if id in w.execs then Tracks(w.execs[id], Heard(actions, id), Faultless(NOTHING, id, actions))
      else Heard(actions, id) == []
  {
    if actions != [] {
      var before, a := actions[..|actions| - 1], actions[|actions| - 1];
      HeardIsTracked(before, id);
      assert Reachable(Run(NOTHING, before));
      ActionTracks(Run(NOTHING, before), id, a, Heard(before, id), Faultless(NOTHING, id, before),
                   Faultless(NOTHING, id, actions));
    }
  }

  // ----- the results -----

  lemma FullIsOrderly(xs: seq<Exchange>)
    requires xs != [] ==> AllFull(Front(xs)) && (Full(Now(xs)) || Now(xs).outputs == [])
    ensures Orderly(xs)
  {
  }

  lemma AtCall(e: Exec, xs: seq<Exchange>, calm: bool)
    requires Tracks(e, xs, calm) && e.core.pc.CallModel?
    ensures AllFull(xs) && |xs| == e.core.iteration && e.core.messages == Conversed(e.core.prompt, xs)
    ensures Orderly(xs) && Render(e.core.messages) == RowsOfAll(xs)
  {
    RenderConversed(e.core.prompt, xs);
  }

  lemma AtCompletion(e: Exec, xs: seq<Exchange>, calm: bool)
    requires Tracks(e, xs, calm) && Completes(e)
    ensures xs != [] && AllFull(Front(xs)) && Last(Now(xs))
    ensures Orderly(xs) && Render(e.core.messages) == RowsOfAll(xs)
  {
    FullIsOrderly(xs);
    var before := Conversed(e.core.prompt, Front(xs));
    RenderConversed(e.core.prompt, Front(xs));
    RenderReply(before, Now(xs).blocks);
    assert RowsOfAll(xs) == Render(before) + Texts(Now(xs).blocks) + [];
  }

  lemma AtTool(c: Core, xs: seq<Exchange>)
    requires Conversation(c) && Heeds(c, xs) && InRound(c.pc)
    ensures xs != [] && AllFull(Front(xs)) && |xs| <= c.maxIterations
    ensures c.pc.RunTool? ==>
      && Now(xs).toolStop && |Now(xs).outputs| < |Uses(Now(xs).blocks)|
      && |c.answers| < |c.toolUses| && c.toolUses[|c.answers|] == Uses(Now(xs).blocks)[|Now(xs).outputs|]
  {
  }

  lemma TracksOf(actions: seq<Action>, id: ExecId, e: Exec) returns (calm: bool)
    requires id in Run(NOTHING, actions).execs && e == Run(NOTHING, actions).execs[id]
    ensures Tracks(e, Heard(actions, id), calm) && Conversation(e.core)
    ensures e.core.pc.CallModel? ==> e.core.iteration < e.core.maxIterations
  {
    assert Reachable(Run(NOTHING, actions));
    HeardIsTracked(actions, id);
    TryFacts(Run(NOTHING, actions), id);
    calm := Faultless(NOTHING, id, actions);
  }

  /**
   Whenever an executor calls the model, every reply so far asked for tools and every tool use was answered by what the
   tool put out; the messages are the prompt, these replies and these answers, and the rows the executor has stored are
   their texts, calls and outputs.
   */
  lemma CallsContinueTheConversation(actions: seq<Action>, id: ExecId)
    requires id in Run(NOTHING, actions).execs && Run(NOTHING, actions).execs[id].core.pc.CallModel?
    ensures var w, xs := Run(NOTHING, actions), Heard(actions, id);
      && AllFull(xs) && |xs| < w.execs[id].core.maxIterations
      && w.execs[id].core.messages == Conversed(w.execs[id].core.prompt, xs)
      && Orderly(xs) && Owns(w.rows, id, w.execs[id].journal) && w.execs[id].journal.written == RowsOfAll(xs)
  {
    var w := Run(NOTHING, actions);
    var calm := TracksOf(actions, id, w.execs[id]);
    AtCall(w.execs[id], Heard(actions, id), calm);
    assert Reachable(w);
    TranscriptRendersConversation(w, id);
  }

  /**
   A run is marked COMPLETED on the first reply that does not ask for tools, and then the rows of the executor that did
   so are the texts, calls and outputs of everything said to it.
   */
  lemma CompletedOnTheFirstAnswer(actions: seq<Action>, id: ExecId)
    requires id in Run(NOTHING, actions).execs && Completes(Run(NOTHING, actions).execs[id])
    ensures var w, xs := Run(NOTHING, actions), Heard(actions, id);
      && xs != [] && AllFull(Front(xs)) && Last(Now(xs))
      && Orderly(xs) && Owns(w.rows, id, w.execs[id].journal) && w.execs[id].journal.written == RowsOfAll(xs)
  {
    var w := Run(NOTHING, actions);
    var calm := TracksOf(actions, id, w.execs[id]);
    AtCompletion(w.execs[id], Heard(actions, id), calm);
    assert Reachable(w);
    TranscriptRendersConversation(w, id);
  }

  /**
   The iteration limit is reached only after as many replies as there may be iterations, all of which asked for tools; a
   check sees the cancel key only after every tool use was answered.
   */
  lemma LimitMeansAllAsked(actions: seq<Action>, id: ExecId)
    requires id in Run(NOTHING, actions).execs
    ensures var e, xs := Run(NOTHING, actions).execs[id], Heard(actions, id);
      && (e.journal.sawCancel ==> AllFull(xs))
      && (e.core.caught.Some? && Faultless(NOTHING, id, actions) ==>
            && e.core.caught == Some(IterationLimitMessage(e.core.maxIterations))
            && AllFull(xs) && |xs| == e.core.maxIterations)
  {
    HeardIsTracked(actions, id);
    if Faultless(NOTHING, id, actions) {
      assert Run(NOTHING, []) == NOTHING;
      FaultlessCatchesTheLimit(NOTHING, id, actions);
    }
  }

  /**
   While an executor works on a reply, every reply before it asked for tools and was answered; and a tool runs for the
   first tool use of the reply that has no output yet.
   */
  lemma ToolsRunInTurn(actions: seq<Action>, id: ExecId)
    requires id in Run(NOTHING, actions).execs && InRound(Run(NOTHING, actions).execs[id].core.pc)
    ensures var c, xs := Run(NOTHING, actions).execs[id].core, Heard(actions, id);
      && xs != [] && AllFull(Front(xs)) && |xs| <= c.maxIterations
      && (c.pc.RunTool? ==>
            && Now(xs).toolStop && |Now(xs).outputs| < |Uses(Now(xs).blocks)|
            && |c.answers| < |c.toolUses| && c.toolUses[|c.answers|] == Uses(Now(xs).blocks)[|Now(xs).outputs|])
  {
    var calm := TracksOf(actions, id, Run(NOTHING, actions).execs[id]);
    AtTool(Run(NOTHING, actions).execs[id].core, Heard(actions, id));
  }
}
