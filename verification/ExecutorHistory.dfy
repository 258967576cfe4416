/**
 What an executor has made happen, at every point of its run: the rows it wrote, the events it published,
 the statuses it set and what it did to its sandbox, each tied to the place the program has reached.
 */
module ExecutorHistory {
  import opened Wrappers
  import opened AgentTypes
  import opened Executor
  import opened ExecutorInvariants

  // ----- statuses -----

  /** `f` is a finish the program writes: FAILED exactly with an error. */
  predicate WellFinished(f: Finish) {
    && !f.status.Running?
    && (f.status.Failed? <==> f.error.Some?)
  }

  /** With nothing caught the run completed or was cancelled; otherwise it failed with the error caught. */
  predicate Accounts(c: Core, status: Status, error: Option<string>) {
    && error == c.caught
    && (c.caught.Some? <==> status.Failed?)
    && !status.Running?
  }

  predicate NothingFinished(e: Exec) {
    e.core.caught.None? && !e.core.rethrow && e.journal.finish.None? && !e.journal.lag
  }

  /** The executor's last status is in both stores. */
  predicate Settled(e: Exec) {
    && !e.core.rethrow
    && !e.journal.lag
    && e.journal.finish.Some?
    && Accounts(e.core, e.journal.finish.value.status, e.journal.finish.value.error)
  }

  /** An executor that found no run to work on did nothing else. */
  predicate Skipped(e: Exec) {
    e.core.pc.Returned? && e.journal == BLANK && e.core.sandbox.None?
  }

  predicate Finishes(e: Exec) {
    var c, j := e.core, e.journal;
    && (j.finish.Some? ==> WellFinished(j.finish.value) && (j.finish.value.status.Cancelled? ==> j.sawCancel))
    && (j.finish.Some? && c.caught.None? ==> !j.finish.value.status.Failed?)
    && (j.finish.Some? && j.finish.value.status.Failed? ==> j.finish.value.error == c.caught)
    && (j.lag ==> j.finish.Some?)
    && (c.rethrow ==> c.caught.Some?)
    && (BeforeLoop(c.pc) || AtHead(c.pc) || InRound(c.pc) ==> NothingFinished(e) && !j.sawCancel)
    && (match c.pc
        case Lookup => j == BLANK && c.sandbox.None?
        case FinishPg(status, error) =>
          && Accounts(c, status, error) && !c.rethrow
          && (status.Cancelled? ==> j.sawCancel)
          && (status.Completed? ==> !j.sawCancel)
          && (c.caught.None? ==> j.finish.None?)
          && (j.finish.Some? ==> !j.finish.value.status.Failed?)
        case FinishMirror(f) =>
          && j.finish == Some(f) && j.lag && !c.rethrow
          && Accounts(c, f.status, f.error)
        case EmitTerminal(status, error) =>
          && Settled(e) && j.finish.value.status == status && j.finish.value.error == error
        case Kill => c.rethrow || Settled(e)
        case EmitEnd => c.rethrow || Settled(e)
        case DeleteCancel => c.rethrow || Settled(e)
        case Returned => Skipped(e) || Settled(e)
        case _ => true)
    && (j.finish.Some? && j.finish.value.status.Completed? ==> !j.sawCancel)
  }

  lemma LoopHeadFinishes(c: Core, j: Journal)
    requires NothingFinished(Exec(c, j)) && !j.sawCancel
    ensures Finishes(Exec(LoopHead(c), j))
  {
  }

  lemma NextToolFinishes(c: Core, j: Journal)
    requires NothingFinished(Exec(c, j)) && !j.sawCancel
    ensures Finishes(Exec(NextTool(c), j))
  {
    if |c.answers| >= |c.toolUses| {
      LoopHeadFinishes(c.(messages := c.messages + [Answers(c.answers)], iteration := c.iteration + 1), j);
    }
  }

  lemma {:induction false} ScanFinishes(c: Core, j: Journal)
    requires NothingFinished(Exec(c, j)) && !j.sawCancel
    ensures Finishes(Exec(Scan(c), j))
    decreases |c.todo|
  {
    if c.todo == [] {
      if c.toolStop && c.toolUses != [] {
        NextToolFinishes(c.(answers := []), j);
      }
    } else {
      var rest := c.(todo := c.todo[1..]);
      match c.todo[0]
      case Text(t) =>
      case Use(u) => ScanFinishes(rest.(toolUses := c.toolUses + [u]), j);
      case Opaque => ScanFinishes(rest, j);
    }
  }

  lemma FinishesInLoop(e: Exec, o: Outcome, applied: bool, now: nat)
    requires Settles(e.core, o, applied, now) && Finishes(e) && !o.Rejected?
    requires AtHead(e.core.pc) || InRound(e.core.pc)
    ensures Finishes(Advance(e, o, applied, now))
  {
    var c, j := e.core, Noted(e.core, e.journal, o, applied, now);
    match c.pc
    case CallModel =>
      ScanFinishes(c.(messages := c.messages + [Reply(o.blocks)], todo := o.blocks, toolUses := [], answers := [],
                      toolStop := o.toolStop), j);
    case RunTool =>
      if |c.answers| >= |c.toolUses| {
        NextToolFinishes(c, j);
      }
    case StepEmit(event) =>
      if event.ToolAnswered? {
        NextToolFinishes(c, j);
        if |c.answers| < |c.toolUses| {
          var answer := Answer(c.toolUses[|c.answers|].id, event.output, event.isError);
          NextToolFinishes(c.(answers := c.answers + [answer]), j);
        }
      } else if !event.ToolCalled? {
        ScanFinishes(c, j);
      }
    case StepPg(_, _, _) =>
    case StepMirror(_, _, _) =>
    case CheckCancel =>
  }

  lemma FinishesOnThrow(e: Exec, o: Outcome, applied: bool, now: nat)
    requires Settles(e.core, o, applied, now) && Finishes(e) && o.Rejected?
    ensures Finishes(Advance(e, o, applied, now))
  {
  }

  lemma FinishesBeforeLoop(e: Exec, o: Outcome, applied: bool, now: nat)
    requires Settles(e.core, o, applied, now) && Finishes(e) && !o.Rejected?
    requires BeforeLoop(e.core.pc)
    ensures Finishes(Advance(e, o, applied, now))
  {
    if e.core.pc.CountSteps? {
      LoopHeadFinishes(e.core.(index := o.n, iteration := 0), Noted(e.core, e.journal, o, applied, now));
    }
  }

  lemma FinishesFinishing(e: Exec, o: Outcome, applied: bool, now: nat)
    requires Settles(e.core, o, applied, now) && Finishes(e) && !o.Rejected?
    requires Finishing(e.core.pc)
    ensures Finishes(Advance(e, o, applied, now))
  {
  }

  lemma FinishesClosing(e: Exec, o: Outcome, applied: bool, now: nat)
    requires Settles(e.core, o, applied, now) && Finishes(e) && !o.Rejected?
    requires Closing(e.core.pc)
    ensures Finishes(Advance(e, o, applied, now))
  {
  }

  /** Every settled operation keeps the account of statuses. */
  lemma FinishesKept(e: Exec, o: Outcome, applied: bool, now: nat)
    requires Settles(e.core, o, applied, now) && Finishes(e)
    ensures Finishes(Advance(e, o, applied, now))
  {
    if o.Rejected? {
      FinishesOnThrow(e, o, applied, now);
    } else if AtHead(e.core.pc) || InRound(e.core.pc) {
      FinishesInLoop(e, o, applied, now);
    } else if BeforeLoop(e.core.pc) {
      FinishesBeforeLoop(e, o, applied, now);
    } else if Finishing(e.core.pc) {
      FinishesFinishing(e, o, applied, now);
    } else {
      FinishesClosing(e, o, applied, now);
    }
  }

  // ----- rows -----

  /** The run was marked COMPLETED, or is about to be. */
  predicate Completes(e: Exec) {
    || (e.core.pc.FinishPg? && e.core.pc.status.Completed?)
    || (e.journal.finish.Some? && e.journal.finish.value.status.Completed?)
  }

  /** In the loop, and at the end of a completed run, the rows written are the rendering of the conversation. */
  predicate Transcribes(e: Exec) {
    && Conversation(e.core)
    && (BeforeLoop(e.core.pc) ==> e.journal.written == [])
    && (AtHead(e.core.pc) || InRound(e.core.pc) ==> e.journal.written == Transcript(e.core))
    && (Completes(e) ==> EndsOnReply(e.core) && e.journal.written == Render(e.core.messages))
  }

  lemma TranscribesInLoop(e: Exec, o: Outcome, applied: bool, now: nat)
    requires Settles(e.core, o, applied, now) && Transcribes(e) && Finishes(e) && !o.Rejected?
    requires AtHead(e.core.pc) || InRound(e.core.pc)
    ensures Transcribes(Advance(e, o, applied, now))
  {
    ResumeFollows(e.core, o);
    var d := Resume(e.core, o);
    var j := Noted(e.core, e.journal, o, applied, now);
    assert j.written == Grown(e.core);
    assert j.finish.None?;
    assert !BeforeLoop(d.pc) by { FinishesInLoop(e, o, applied, now); NeverBack(e.core, o); }
  }

  /** The loop never goes back to what comes before it. */
  lemma NeverBack(c: Core, o: Outcome)
    requires Fits(c.pc, o) && !o.Rejected? && (AtHead(c.pc) || InRound(c.pc))
    ensures !BeforeLoop(Resume(c, o).pc)
  {
    if c.pc.CallModel? {
      ScanNeverBack(c.(messages := c.messages + [Reply(o.blocks)], todo := o.blocks, toolUses := [], answers := [],
                       toolStop := o.toolStop));
    } else if c.pc.StepEmit? {
      StepNeverBack(c, c.pc.event);
    } else if c.pc.RunTool? {
      NextToolNeverBack(c);
    }
  }

  lemma NextToolNeverBack(c: Core)
    ensures !BeforeLoop(NextTool(c).pc)
  {
  }

  lemma StepNeverBack(c: Core, event: Event)
    ensures !BeforeLoop(AfterStep(c, event).pc)
  {
    if event.ToolAnswered? {
      NextToolNeverBack(c);
      if |c.answers| < |c.toolUses| {
        NextToolNeverBack(c.(answers := c.answers + [Answer(c.toolUses[|c.answers|].id, event.output, event.isError)]));
      }
    } else if !event.ToolCalled? {
      ScanNeverBack(c);
    }
  }

  lemma {:induction false} ScanNeverBack(c: Core)
    ensures !BeforeLoop(Scan(c).pc)
    decreases |c.todo|
  {
    if c.todo != [] {
      var rest := c.(todo := c.todo[1..]);
      match c.todo[0]
      case Text(t) =>
      case Use(u) => ScanNeverBack(rest.(toolUses := c.toolUses + [u]));
      case Opaque => ScanNeverBack(rest);
    }
  }

  lemma TranscribesOnThrow(e: Exec, o: Outcome, applied: bool, now: nat)
    requires Settles(e.core, o, applied, now) && Transcribes(e) && Finishes(e) && o.Rejected?
    ensures Transcribes(Advance(e, o, applied, now))
  {
  }

  lemma TranscribesBeforeLoop(e: Exec, o: Outcome, applied: bool, now: nat)
    requires Settles(e.core, o, applied, now) && Transcribes(e) && Finishes(e) && !o.Rejected?
    requires BeforeLoop(e.core.pc)
    ensures Transcribes(Advance(e, o, applied, now))
  {
    if e.core.pc.CountSteps? {
      LoopHeadKeeps(e.core.(index := o.n, iteration := 0));
    }
  }

  /** Outside the loop only the place changes. */
  lemma TranscribesMoved(e: Exec, f: Exec)
    requires Transcribes(e) && f.core == e.core.(pc := f.core.pc) && f.journal.written == e.journal.written
    requires !BeforeLoop(f.core.pc) && !AtHead(f.core.pc) && !InRound(f.core.pc)
    requires Completes(f) ==> Completes(e)
    ensures Transcribes(f)
  {
  }

  lemma EndMoves(e: Exec, o: Outcome, applied: bool, now: nat)
    requires Settles(e.core, o, applied, now) && Finishes(e) && !o.Rejected?
    requires Finishing(e.core.pc) || Closing(e.core.pc)
    ensures var f := Advance(e, o, applied, now);
      && f.core == e.core.(pc := f.core.pc) && f.journal.written == e.journal.written
      && (Finishing(f.core.pc) || Closing(f.core.pc) || !f.core.pc.Live()) && !(f.core.pc.FinishPg?)
      && (Completes(f) ==> Completes(e))
  {
  }

  lemma TranscribesAtEnd(e: Exec, o: Outcome, applied: bool, now: nat)
    requires Settles(e.core, o, applied, now) && Transcribes(e) && Finishes(e) && !o.Rejected?
    requires Finishing(e.core.pc) || Closing(e.core.pc)
    ensures Transcribes(Advance(e, o, applied, now))
  {
    EndMoves(e, o, applied, now);
    TranscribesMoved(e, Advance(e, o, applied, now));
  }

  /** Every settled operation keeps rows and conversation in step. */
  lemma TranscribesKept(e: Exec, o: Outcome, applied: bool, now: nat)
    requires Settles(e.core, o, applied, now) && Transcribes(e) && Finishes(e)
    ensures Transcribes(Advance(e, o, applied, now))
  {
    if o.Rejected? {
      TranscribesOnThrow(e, o, applied, now);
    } else if AtHead(e.core.pc) || InRound(e.core.pc) {
      TranscribesInLoop(e, o, applied, now);
    } else if BeforeLoop(e.core.pc) {
      TranscribesBeforeLoop(e, o, applied, now);
    } else {
      TranscribesAtEnd(e, o, applied, now);
    }
  }

  // ----- how the program moves on -----

  /** The step is the one the event announces. */
  predicate Announces(step: Step, event: Event) {
    && (event.AssistantText? || event.ToolCalled? || event.ToolAnswered?)
    && step == StepOf(event)
  }

  /** `d` follows `c` at the head of the next iteration, about to record a step that is no result, or to finish. */
  predicate Goes(c: Core, d: Core, next: nat) {
    && d.prompt == c.prompt && d.maxIterations == c.maxIterations && d.sandbox == c.sandbox && d.rethrow == c.rethrow
    && (|| (d.pc.CheckCancel? && d.index == c.index && d.iteration == next < d.maxIterations)
        || (&& d.pc.StepPg? && d.pc.at == c.index && d.index == c.index + 1 && d.iteration == c.iteration
            && Announces(d.pc.step, d.pc.event) && !d.pc.event.ToolAnswered?)
        || d.pc.FinishPg?)
  }

  lemma NextToolGoes(c: Core)
    requires c.caught.None?
    ensures Goes(c, NextTool(c), c.iteration + 1)
  {
  }

  lemma {:induction false} ScanGoes(c: Core)
    requires c.caught.None?
    ensures Goes(c, Scan(c), c.iteration + 1)
    decreases |c.todo|
  {
    if c.todo == [] {
      NextToolGoes(c.(answers := []));
    } else {
      var rest := c.(todo := c.todo[1..]);
      match c.todo[0]
      case Text(t) =>
      case Use(u) => ScanGoes(rest.(toolUses := c.toolUses + [u]));
      case Opaque => ScanGoes(rest);
    }
  }

  lemma AfterStepGoes(c: Core, event: Event)
    requires c.caught.None? && !event.ToolCalled?
    ensures Goes(c, AfterStep(c, event), c.iteration + 1)
  {
    if !event.ToolAnswered? {
      ScanGoes(c);
    } else if |c.answers| < |c.toolUses| {
      NextToolGoes(c.(answers := c.answers + [Answer(c.toolUses[|c.answers|].id, event.output, event.isError)]));
    } else {
      NextToolGoes(c);
    }
  }

  /** Where a round goes when its operation resolves. */
  lemma RoundGoes(c: Core, o: Outcome)
    requires Fits(c.pc, o) && !o.Rejected? && c.caught.None? && Conversation(c)
    requires c.pc.CallModel? || c.pc.StepEmit? || c.pc.RunTool?
    ensures var d := Resume(c, o);
      if c.pc.StepEmit? && c.pc.event.ToolCalled? then d == c.(pc := RunTool)
      else if c.pc.RunTool? then
        && |c.answers| < |c.toolUses|
        && var name := c.toolUses[|c.answers|].name;
           d == RecordStep(c, Step(ToolResult, Some(name), o.content), ToolAnswered(name, o.content, o.isError))
      else Goes(c, d, c.iteration + 1)
  {
    if c.pc.CallModel? {
      ScanGoes(c.(messages := c.messages + [Reply(o.blocks)], todo := o.blocks, toolUses := [], answers := [],
                  toolStop := o.toolStop));
    } else if c.pc.StepEmit? && !c.pc.event.ToolCalled? {
      AfterStepGoes(c, c.pc.event);
    }
  }

  /** The operations after which the program looks for the next thing to record. */
  predicate Turns(pc: Pc) { pc.CallModel? || pc.StepEmit? || pc.RunTool? }

  /** At these operations every row the executor wrote has its document. */
  predicate UpToDate(pc: Pc) { AtHead(pc) || pc.StepPg? || pc.StepEmit? || pc.RunTool? }

  /** What of an executor's place and fixed fields survives an operation. */
  predicate Succeeds(c: Core, o: Outcome, d: Core) {
    && d.prompt == c.prompt && d.maxIterations == c.maxIterations
    && (if c.pc.SandboxCreate? && o.Obtained? then d.sandbox == Some(o.sandboxId) else d.sandbox == c.sandbox)
    && (d.pc.StepMirror? ==> c.pc.StepPg? && !o.Rejected? && d.pc.at == c.pc.at && d.pc.step == c.pc.step)
    && (UpToDate(d.pc) ==> c.pc.CountSteps? || UpToDate(c.pc) || (c.pc.StepMirror? && !o.Rejected?))
  }

  lemma ThrowSucceeds(c: Core, o: Outcome)
    requires Fits(c.pc, o) && o.Rejected?
    ensures Succeeds(c, o, Resume(c, o))
  {
  }

  lemma TurnSucceeds(c: Core, o: Outcome)
    requires Fits(c.pc, o) && !o.Rejected? && Conversation(c) && Turns(c.pc) && c.caught.None?
    ensures Succeeds(c, o, Resume(c, o))
  {
    RoundGoes(c, o);
  }

  lemma OperationSucceeds(c: Core, o: Outcome)
    requires Fits(c.pc, o) && !o.Rejected? && !Turns(c.pc)
    ensures Succeeds(c, o, Resume(c, o))
  {
  }

  lemma ResumeSucceeds(c: Core, o: Outcome)
    requires Fits(c.pc, o) && Conversation(c)
    requires AtHead(c.pc) || InRound(c.pc) ==> c.caught.None?
    ensures Succeeds(c, o, Resume(c, o))
  {
    if o.Rejected? {
      ThrowSucceeds(c, o);
    } else if Turns(c.pc) {
      TurnSucceeds(c, o);
    } else {
      OperationSucceeds(c, o);
    }
  }

  // ----- indices, pairing -----

  /** The local `stepIndex` is the index after the rows written. */
  predicate Numbered(e: Exec) {
    var c, j := e.core, e.journal;
    && (AtHead(c.pc) || c.pc.StepEmit? || c.pc.RunTool? ==> c.index == j.base + |j.written|)
    && (c.pc.StepPg? ==> c.pc.at == j.base + |j.written| && c.index == c.pc.at + 1)
    && (c.pc.StepMirror? ==> c.index == j.base + |j.written| && c.pc.at + 1 == c.index)
  }

  lemma NumberedOnTurn(e: Exec, o: Outcome, applied: bool, now: nat)
    requires Settles(e.core, o, applied, now) && Numbered(e) && Transcribes(e) && Finishes(e)
    requires Turns(e.core.pc) && !o.Rejected?
    ensures Numbered(Advance(e, o, applied, now))
  {
    RoundGoes(e.core, o);
  }

  lemma NumberedOnThrow(e: Exec, o: Outcome, applied: bool, now: nat)
    requires Settles(e.core, o, applied, now) && Numbered(e) && Transcribes(e)
    requires o.Rejected?
    ensures Numbered(Advance(e, o, applied, now))
  {
  }

  lemma NumberedOnWrite(e: Exec, o: Outcome, applied: bool, now: nat)
    requires Settles(e.core, o, applied, now) && Numbered(e) && !o.Rejected?
    requires AtHead(e.core.pc) || InRound(e.core.pc)
    requires !Turns(e.core.pc)
    ensures Numbered(Advance(e, o, applied, now))
  {
  }

  lemma NumberedBeforeLoop(e: Exec, o: Outcome, applied: bool, now: nat)
    requires Settles(e.core, o, applied, now) && Transcribes(e) && !o.Rejected?
    requires BeforeLoop(e.core.pc)
    ensures Numbered(Advance(e, o, applied, now))
  {
  }

  /** Out of the loop nothing is numbered any more. */
  lemma EndStaysOut(c: Core, o: Outcome)
    requires Fits(c.pc, o) && !o.Rejected? && (Finishing(c.pc) || Closing(c.pc))
    ensures var pc := Resume(c, o).pc; !AtHead(pc) && !InRound(pc)
  {
  }

  lemma NumberedAtEnd(e: Exec, o: Outcome, applied: bool, now: nat)
    requires Settles(e.core, o, applied, now) && !o.Rejected?
    requires Finishing(e.core.pc) || Closing(e.core.pc)
    ensures Numbered(Advance(e, o, applied, now))
  {
    EndStaysOut(e.core, o);
  }

  predicate IsCall(step: Step) { step.kind.ToolCall? }

  /** A tool call has been written and its result has not. */
  predicate Open(written: seq<Step>) { written != [] && IsCall(written[|written| - 1]) }

  predicate AnswersCall(call: Step, result: Step) {
    IsCall(call) && result.kind.ToolResult? && result.name == call.name
  }

  /** Results follow their calls directly, and a call is followed by its result or by nothing. */
  predicate Paired(written: seq<Step>) {
    && (forall i :: 0 <= i < |written| && written[i].kind.ToolResult? ==>
          i > 0 && AnswersCall(written[i - 1], written[i]))
    && (forall i :: 0 <= i < |written| - 1 && IsCall(written[i]) ==> AnswersCall(written[i], written[i + 1]))
  }

  predicate Pairing(e: Exec) {
    var c, w := e.core, e.journal.written;
    && Paired(w)
    && (AtHead(c.pc) ==> !Open(w))
    && (c.pc.StepPg? ==>
          && Announces(c.pc.step, c.pc.event)
          && (if c.pc.step.kind.ToolResult? then Open(w) && AnswersCall(w[|w| - 1], c.pc.step) else !Open(w)))
    && (c.pc.StepMirror? ==> w != [] && w[|w| - 1] == c.pc.step && Announces(c.pc.step, c.pc.event))
    && (c.pc.StepEmit? ==> w != [] && Announces(w[|w| - 1], c.pc.event))
    && (c.pc.RunTool? ==>
          && Open(w) && |c.answers| < |c.toolUses|
          && w[|w| - 1].name == Some(c.toolUses[|c.answers|].name))
  }

  lemma PairedSnoc(w: seq<Step>, step: Step)
    requires Paired(w)
    requires if step.kind.ToolResult? then Open(w) && AnswersCall(w[|w| - 1], step) else !Open(w)
    ensures Paired(w + [step])
  {
  }

  lemma PairingOnTurn(e: Exec, o: Outcome, applied: bool, now: nat)
    requires Settles(e.core, o, applied, now) && Pairing(e) && Transcribes(e) && Finishes(e)
    requires Turns(e.core.pc) && !o.Rejected?
    ensures Pairing(Advance(e, o, applied, now))
  {
    RoundGoes(e.core, o);
  }

  lemma PairingOnStepThrow(e: Exec, o: Outcome, applied: bool, now: nat)
    requires Settles(e.core, o, applied, now) && Pairing(e) && Finishes(e)
    requires e.core.pc.StepPg? && o.Rejected?
    ensures Pairing(Advance(e, o, applied, now))
  {
    var w := e.journal.written;
    PairedSnoc(w, e.core.pc.step);
    var next := Advance(e, o, applied, now);
    assert next.core.pc.FinishPg?;
    assert Paired(next.journal.written);
  }

  lemma PairingOnStepPg(e: Exec, o: Outcome, applied: bool, now: nat)
    requires Settles(e.core, o, applied, now) && Pairing(e) && Transcribes(e)
    requires !Turns(e.core.pc) || o.Rejected?
    requires e.core.pc.StepPg?
    requires !o.Rejected?
    ensures Pairing(Advance(e, o, applied, now))
  {
    PairedSnoc(e.journal.written, e.core.pc.step);
  }

  lemma PairingOnMirrorThrow(e: Exec, o: Outcome, applied: bool, now: nat)
    requires Settles(e.core, o, applied, now) && Pairing(e)
    requires e.core.pc.StepMirror? && o.Rejected?
    ensures Pairing(Advance(e, o, applied, now))
  {
  }

  lemma PairingOnStepMirror(e: Exec, o: Outcome, applied: bool, now: nat)
    requires Settles(e.core, o, applied, now) && Pairing(e)
    requires e.core.pc.StepMirror? && !o.Rejected?
    ensures Pairing(Advance(e, o, applied, now))
  {
  }

  lemma PairingOnThrow(e: Exec, o: Outcome, applied: bool, now: nat)
    requires Settles(e.core, o, applied, now) && Pairing(e) && Transcribes(e)
    requires !Turns(e.core.pc) || o.Rejected?
    requires !(e.core.pc.StepPg? || e.core.pc.StepMirror?)
    requires o.Rejected?
    ensures Pairing(Advance(e, o, applied, now))
  {
  }

  lemma PairingBeforeLoop(e: Exec, o: Outcome, applied: bool, now: nat)
    requires Settles(e.core, o, applied, now) && Pairing(e) && Transcribes(e)
    requires BeforeLoop(e.core.pc) && !o.Rejected?
    ensures Pairing(Advance(e, o, applied, now))
  {
  }

  lemma PairingOutside(e: Exec, o: Outcome, applied: bool, now: nat)
    requires Settles(e.core, o, applied, now) && Pairing(e)
    requires AtHead(e.core.pc) || Finishing(e.core.pc) || Closing(e.core.pc)
    requires !Turns(e.core.pc) && !o.Rejected?
    ensures Pairing(Advance(e, o, applied, now))
  {
  }

  // ----- publishes -----

  /** An optional run_started, then the events of the steps written, in order, with at most the last one missing. */
  predicate Steady(prompt: string, sent: seq<Event>, written: seq<Step>) {
    || (sent == [] && written == [])
    || (&& sent != [] && sent[0] == RunStarted(prompt)
        && |sent| - 1 <= |written| <= |sent|
        && forall i :: 1 <= i < |sent| ==> Announces(written[i - 1], sent[i]))
  }

  /** The event is the one for the status: run_completed, run_cancelled, or run_failed with the error. */
  predicate Reports(event: Event, status: Status, error: Option<string>) {
    && (event.RunCompleted? <==> status.Completed?)
    && (event.RunCancelled? <==> status.Cancelled?)
    && (event.RunFailed? <==> status.Failed?)
    && (status.Completed? || status.Cancelled? || (status.Failed? && error == Some(event.error)))
  }

  /** The steady publishes, then the event that names `finish`. */
  predicate Closed(prompt: string, sent: seq<Event>, written: seq<Step>, finish: Option<Finish>) {
    && finish.Some?
    && sent != []
    && Reports(sent[|sent| - 1], finish.value.status, finish.value.error)
    && Steady(prompt, sent[..|sent| - 1], written)
  }

  /** What has been published when `finally` is reached: a terminal event exactly when the catch block did not throw. */
  predicate SentBeforeEnd(e: Exec, sent: seq<Event>) {
    if e.core.rethrow then Steady(e.core.prompt, sent, e.journal.written)
    else Closed(e.core.prompt, sent, e.journal.written, e.journal.finish)
  }

  predicate SentWithEnd(e: Exec) {
    var sent := e.journal.sent;
    sent != [] && sent[|sent| - 1] == StreamEnd && SentBeforeEnd(e, sent[..|sent| - 1])
  }

  /** At any moment: the steady publishes, then perhaps a terminal event, then perhaps the end marker. */
  predicate WellPublished(e: Exec) {
    || Steady(e.core.prompt, e.journal.sent, e.journal.written)
    || Closed(e.core.prompt, e.journal.sent, e.journal.written, e.journal.finish)
    || SentWithEnd(e)
  }

  predicate Publishing(e: Exec) {
    var c, j := e.core, e.journal;
    && WellPublished(e)
    && (BeforeLoop(c.pc) ==> j.sent == if c.pc.CountSteps? then [RunStarted(c.prompt)] else [])
    && (AtHead(c.pc) || InRound(c.pc) || Finishing(c.pc) ==> Steady(c.prompt, j.sent, j.written))
    && (AtHead(c.pc) || c.pc.StepPg? || c.pc.RunTool? ==> |j.sent| == |j.written| + 1)
    && (c.pc.StepMirror? || c.pc.StepEmit? ==> |j.sent| == |j.written|)
    && (c.pc.Kill? || c.pc.EmitEnd? ==> SentBeforeEnd(e, j.sent))
    && (c.pc.DeleteCancel? ==> SentWithEnd(e))
    && (c.pc.Returned? ==> Skipped(e) || SentWithEnd(e))
  }

  /** A row the executor adds keeps the publishes steady when they are up to date. */
  lemma SteadyRow(prompt: string, sent: seq<Event>, w: seq<Step>, step: Step)
    requires Steady(prompt, sent, w) && |sent| == |w| + 1
    ensures Steady(prompt, sent, w + [step])
  {
  }

  lemma SteadyEvent(prompt: string, sent: seq<Event>, w: seq<Step>, event: Event)
    requires Steady(prompt, sent, w) && |sent| == |w| && w != [] && Announces(w[|w| - 1], event)
    ensures Steady(prompt, sent + [event], w)
  {
  }

  lemma PublishingOnTurn(e: Exec, o: Outcome, applied: bool, now: nat)
    requires Settles(e.core, o, applied, now) && Publishing(e) && Transcribes(e) && Finishes(e) && Pairing(e)
    requires Turns(e.core.pc) && !o.Rejected?
    ensures Publishing(Advance(e, o, applied, now))
  {
    RoundGoes(e.core, o);
    if e.core.pc.StepEmit? {
      SteadyEvent(e.core.prompt, e.journal.sent, e.journal.written, e.core.pc.event);
    }
  }

  lemma PublishingOnStep(e: Exec, o: Outcome, applied: bool, now: nat)
    requires Settles(e.core, o, applied, now) && Publishing(e) && Transcribes(e) && Finishes(e) && Pairing(e)
    requires BeforeLoop(e.core.pc) || AtHead(e.core.pc) || InRound(e.core.pc)
    requires !Turns(e.core.pc) || o.Rejected?
    requires e.core.pc.StepPg? || e.core.pc.StepMirror?
    ensures Publishing(Advance(e, o, applied, now))
  {
    if e.core.pc.StepPg? {
      SteadyRow(e.core.prompt, e.journal.sent, e.journal.written, e.core.pc.step);
    }
  }

  lemma PublishingOnThrow(e: Exec, o: Outcome, applied: bool, now: nat)
    requires Settles(e.core, o, applied, now) && Publishing(e) && Transcribes(e) && Finishes(e) && Pairing(e)
    requires BeforeLoop(e.core.pc) || AtHead(e.core.pc) || InRound(e.core.pc)
    requires !Turns(e.core.pc) || o.Rejected?
    requires !(e.core.pc.StepPg? || e.core.pc.StepMirror?) && o.Rejected?
    ensures Publishing(Advance(e, o, applied, now))
  {
  }

  lemma PublishingStarted(e: Exec, o: Outcome, applied: bool, now: nat)
    requires Settles(e.core, o, applied, now) && Publishing(e) && Transcribes(e) && Finishes(e)
    requires e.core.pc.EmitStarted? && !o.Rejected?
    ensures Publishing(Advance(e, o, applied, now))
  {
  }

  lemma PublishingCounted(e: Exec, o: Outcome, applied: bool, now: nat)
    requires Settles(e.core, o, applied, now) && Publishing(e) && Transcribes(e) && Finishes(e)
    requires e.core.pc.CountSteps? && !o.Rejected?
    ensures Publishing(Advance(e, o, applied, now))
  {
  }

  lemma PublishingChecked(e: Exec, o: Outcome, applied: bool, now: nat)
    requires Settles(e.core, o, applied, now) && Publishing(e) && Finishes(e)
    requires e.core.pc.CheckCancel? && !o.Rejected?
    ensures Publishing(Advance(e, o, applied, now))
  {
  }

  lemma PublishingOpening(e: Exec, o: Outcome, applied: bool, now: nat)
    requires Settles(e.core, o, applied, now) && Publishing(e) && Transcribes(e) && Finishes(e)
    requires BeforeLoop(e.core.pc) && !e.core.pc.EmitStarted? && !e.core.pc.CountSteps? && !o.Rejected?
    ensures Publishing(Advance(e, o, applied, now))
  {
  }

  /** The terminal event closes the steady publishes. */
  lemma ClosedSnoc(prompt: string, sent: seq<Event>, written: seq<Step>, f: Finish)
    requires Steady(prompt, sent, written) && WellFinished(f)
    ensures Closed(prompt, sent + [TerminalEvent(f.status, f.error)], written, Some(f))
  {
    assert (sent + [TerminalEvent(f.status, f.error)])[..|sent|] == sent;
  }

  /** An executor about to close whose publishes are closed. */
  lemma PublishingWhenClosed(f: Exec)
    requires (f.core.pc.Kill? || f.core.pc.EmitEnd?) && !f.core.rethrow
    requires Closed(f.core.prompt, f.journal.sent, f.journal.written, f.journal.finish)
    ensures Publishing(f)
  {
  }

  /** Where the publish of the terminal event leads. */
  lemma TerminalGoes(e: Exec, o: Outcome, applied: bool, now: nat)
    requires Settles(e.core, o, applied, now) && Finishes(e) && e.core.pc.EmitTerminal? && !o.Rejected?
    ensures e.journal.finish.Some?
    ensures var f, finish := Advance(e, o, applied, now), e.journal.finish.value;
      && (f.core.pc.Kill? || f.core.pc.EmitEnd?) && !f.core.rethrow && f.core.prompt == e.core.prompt
      && f.journal.sent == e.journal.sent + [TerminalEvent(finish.status, finish.error)]
      && f.journal.written == e.journal.written && f.journal.finish == Some(finish) && WellFinished(finish)
  {
  }

  lemma TerminalIsSteady(e: Exec)
    requires Publishing(e) && e.core.pc.EmitTerminal?
    ensures Steady(e.core.prompt, e.journal.sent, e.journal.written)
  {
  }

  lemma PublishingTerminalThrow(e: Exec, o: Outcome, applied: bool, now: nat)
    requires Settles(e.core, o, applied, now) && Publishing(e) && Finishes(e)
    requires e.core.pc.EmitTerminal? && o.Rejected?
    ensures Publishing(Advance(e, o, applied, now))
  {
  }

  lemma PublishingTerminal(e: Exec, o: Outcome, applied: bool, now: nat)
    requires Settles(e.core, o, applied, now) && Publishing(e) && Finishes(e)
    requires e.core.pc.EmitTerminal? && !o.Rejected?
    ensures Publishing(Advance(e, o, applied, now))
  {
    TerminalIsSteady(e);
    TerminalGoes(e, o, applied, now);
    ClosedSnoc(e.core.prompt, e.journal.sent, e.journal.written, e.journal.finish.value);
    PublishingWhenClosed(Advance(e, o, applied, now));
  }

  lemma PublishingFinishing(e: Exec, o: Outcome, applied: bool, now: nat)
    requires Settles(e.core, o, applied, now) && Publishing(e) && Finishes(e)
    requires Finishing(e.core.pc)
    requires !e.core.pc.EmitTerminal?
    ensures Publishing(Advance(e, o, applied, now))
  {
  }

  lemma PublishingClosingThrow(e: Exec, o: Outcome, applied: bool, now: nat)
    requires Settles(e.core, o, applied, now) && Publishing(e) && Finishes(e)
    requires Closing(e.core.pc)
    requires o.Rejected?
    ensures Publishing(Advance(e, o, applied, now))
  {
  }

  lemma PublishingEnd(e: Exec, o: Outcome, applied: bool, now: nat)
    requires Settles(e.core, o, applied, now) && Publishing(e) && Finishes(e)
    requires e.core.pc.EmitEnd? && !o.Rejected?
    ensures Publishing(Advance(e, o, applied, now))
  {
    var sent := e.journal.sent;
    assert (sent + [StreamEnd])[..|sent + [StreamEnd]| - 1] == sent;
  }

  lemma PublishingClosing(e: Exec, o: Outcome, applied: bool, now: nat)
    requires Settles(e.core, o, applied, now) && Publishing(e) && Finishes(e)
    requires Closing(e.core.pc)
    requires !o.Rejected?
    requires !e.core.pc.EmitEnd?
    ensures Publishing(Advance(e, o, applied, now))
  {
  }

  // ----- the sandbox and the bounds -----

  /** The sandbox is killed once, by `finally`, and not before. */
  predicate UsesSandbox(e: Exec) {
    var c, j := e.core, e.journal;
    && (c.pc.Lookup? || c.pc.SandboxCreate? ==> c.sandbox.None?)
    && (c.pc.SandboxPg? || c.pc.SandboxMirror? || c.pc.EmitStarted? || c.pc.CountSteps? ==> c.sandbox.Some?)
    && (AtHead(c.pc) || InRound(c.pc) || c.pc.Kill? ==> c.sandbox.Some?)
    && (c.pc.Live() && !c.pc.EmitEnd? && !c.pc.DeleteCancel? ==> j.kills == 0)
    && (c.pc.EmitEnd? || c.pc.DeleteCancel? || c.pc.Returned? || c.pc.Threw? ==>
          j.kills == if c.sandbox.Some? then 1 else 0)
    && j.kills <= (if c.sandbox.Some? then 1 else 0)
    && (j.killed ==> j.kills == 1)
    && (j.sandboxLag ==> c.sandbox.Some?)
  }

  /** Model calls are bounded by the iterations. */
  predicate Bounded(e: Exec) {
    var c, j := e.core, e.journal;
    && j.calls <= c.maxIterations
    && (BeforeLoop(c.pc) ==> j.calls == 0)
    && (AtHead(c.pc) ==> j.calls == c.iteration < c.maxIterations)
    && (InRound(c.pc) ==> j.calls == c.iteration + 1 <= c.maxIterations)
  }

  lemma SandboxOnTurn(e: Exec, o: Outcome, applied: bool, now: nat)
    requires Settles(e.core, o, applied, now) && UsesSandbox(e) && Transcribes(e) && Finishes(e)
    requires Turns(e.core.pc) && !o.Rejected?
    ensures UsesSandbox(Advance(e, o, applied, now))
  {
    RoundGoes(e.core, o);
  }

  lemma BoundsOnTurn(e: Exec, o: Outcome, applied: bool, now: nat)
    requires Settles(e.core, o, applied, now) && Bounded(e) && Transcribes(e) && Finishes(e)
    requires Turns(e.core.pc) && !o.Rejected?
    ensures Bounded(Advance(e, o, applied, now))
  {
    RoundGoes(e.core, o);
  }

  lemma SandboxOnThrow(e: Exec, o: Outcome, applied: bool, now: nat)
    requires Settles(e.core, o, applied, now) && UsesSandbox(e) && o.Rejected?
    ensures UsesSandbox(Advance(e, o, applied, now))
  {
  }

  /** An exception leads out of the loop. */
  lemma ThrowLeaves(c: Core, o: Outcome)
    requires Fits(c.pc, o) && o.Rejected?
    ensures var d := Resume(c, o);
      && d.maxIterations == c.maxIterations
      && !BeforeLoop(d.pc) && !AtHead(d.pc) && !InRound(d.pc)
  {
  }

  lemma CallsOnThrow(c: Core, j: Journal, o: Outcome, applied: bool, now: nat)
    requires Fits(c.pc, o)
    ensures Noted(c, j, o, applied, now).calls == j.calls + if c.pc.CallModel? then 1 else 0
  {
  }

  lemma BoundsOnThrow(e: Exec, o: Outcome, applied: bool, now: nat)
    requires Settles(e.core, o, applied, now) && Bounded(e) && o.Rejected?
    ensures Bounded(Advance(e, o, applied, now))
  {
    ThrowLeaves(e.core, o);
    CallsOnThrow(e.core, e.journal, o, applied, now);
  }

  lemma BoundsBeforeLoop(e: Exec, o: Outcome, applied: bool, now: nat)
    requires Settles(e.core, o, applied, now) && UsesSandbox(e) && Bounded(e) && Transcribes(e) && Finishes(e)
    requires !Turns(e.core.pc) && !o.Rejected?
    requires BeforeLoop(e.core.pc)
    ensures UsesSandbox(Advance(e, o, applied, now)) && Bounded(Advance(e, o, applied, now))
  {
  }

  lemma BoundsFinishing(e: Exec, o: Outcome, applied: bool, now: nat)
    requires Settles(e.core, o, applied, now) && UsesSandbox(e) && Bounded(e)
    requires Finishing(e.core.pc) && !o.Rejected?
    ensures UsesSandbox(Advance(e, o, applied, now)) && Bounded(Advance(e, o, applied, now))
  {
  }

  lemma BoundsClosing(e: Exec, o: Outcome, applied: bool, now: nat)
    requires Settles(e.core, o, applied, now) && UsesSandbox(e) && Bounded(e)
    requires Closing(e.core.pc) && !o.Rejected?
    ensures UsesSandbox(Advance(e, o, applied, now)) && Bounded(Advance(e, o, applied, now))
  {
  }

  lemma BoundsOtherwise(e: Exec, o: Outcome, applied: bool, now: nat)
    requires Settles(e.core, o, applied, now) && UsesSandbox(e) && Bounded(e) && Transcribes(e) && Finishes(e)
    requires !Turns(e.core.pc) && !o.Rejected?
    requires !BeforeLoop(e.core.pc)
    requires !(Finishing(e.core.pc) || Closing(e.core.pc))
    ensures UsesSandbox(Advance(e, o, applied, now)) && Bounded(Advance(e, o, applied, now))
  {
  }

  // ----- all together -----

  /** Everything an executor keeps. */
  predicate Inv(e: Exec) {
    && Finishes(e) && Transcribes(e) && Numbered(e) && Pairing(e) && Publishing(e) && UsesSandbox(e) && Bounded(e)
  }

  /** The account of statuses and the order of publishes, out of everything. */
  lemma InvParts(e: Exec)
    requires Inv(e)
    ensures Finishes(e) && Publishing(e)
  {
  }

  lemma InvTranscribes(e: Exec)
    requires Inv(e)
    ensures Transcribes(e)
    ensures Completes(e) ==> EndsOnReply(e.core)
  {
  }

  lemma BeginInv(prompt: string, maxIterations: nat)
    ensures Inv(Exec(Begin(prompt, maxIterations), BLANK))
  {
  }

  lemma PublishingKept(e: Exec, o: Outcome, applied: bool, now: nat)
    requires Settles(e.core, o, applied, now) && Inv(e)
    requires !Turns(e.core.pc) || o.Rejected?
    ensures Publishing(Advance(e, o, applied, now))
  {
    if e.core.pc.EmitTerminal? {
      if o.Rejected? {
        PublishingTerminalThrow(e, o, applied, now);
      } else {
        PublishingTerminal(e, o, applied, now);
      }
    } else if Finishing(e.core.pc) {
      PublishingFinishing(e, o, applied, now);
    } else if Closing(e.core.pc) {
      if o.Rejected? {
        PublishingClosingThrow(e, o, applied, now);
      } else if e.core.pc.EmitEnd? {
        PublishingEnd(e, o, applied, now);
      } else {
        PublishingClosing(e, o, applied, now);
      }
    } else if e.core.pc.StepPg? || e.core.pc.StepMirror? {
      PublishingOnStep(e, o, applied, now);
    } else if o.Rejected? {
      PublishingOnThrow(e, o, applied, now);
    } else if e.core.pc.EmitStarted? {
      PublishingStarted(e, o, applied, now);
    } else if e.core.pc.CountSteps? {
      PublishingCounted(e, o, applied, now);
    } else if e.core.pc.CheckCancel? {
      PublishingChecked(e, o, applied, now);
    } else {
      PublishingOpening(e, o, applied, now);
    }
  }

  lemma PairingKept(e: Exec, o: Outcome, applied: bool, now: nat)
    requires Settles(e.core, o, applied, now) && Inv(e)
    requires !Turns(e.core.pc) || o.Rejected?
    ensures Pairing(Advance(e, o, applied, now))
  {
    if e.core.pc.StepPg? {
      if o.Rejected? {
        PairingOnStepThrow(e, o, applied, now);
      } else {
        PairingOnStepPg(e, o, applied, now);
      }
    } else if e.core.pc.StepMirror? {
      if o.Rejected? {
        PairingOnMirrorThrow(e, o, applied, now);
      } else {
        PairingOnStepMirror(e, o, applied, now);
      }
    } else if o.Rejected? {
      PairingOnThrow(e, o, applied, now);
    } else if BeforeLoop(e.core.pc) {
      PairingBeforeLoop(e, o, applied, now);
    } else {
      PairingOutside(e, o, applied, now);
    }
  }

  lemma BoundsKept(e: Exec, o: Outcome, applied: bool, now: nat)
    requires Settles(e.core, o, applied, now) && Inv(e)
    requires !Turns(e.core.pc) || o.Rejected?
    ensures UsesSandbox(Advance(e, o, applied, now)) && Bounded(Advance(e, o, applied, now))
  {
    if o.Rejected? {
      SandboxOnThrow(e, o, applied, now);
      BoundsOnThrow(e, o, applied, now);
    } else if BeforeLoop(e.core.pc) {
      BoundsBeforeLoop(e, o, applied, now);
    } else if Finishing(e.core.pc) {
      BoundsFinishing(e, o, applied, now);
    } else if Closing(e.core.pc) {
      BoundsClosing(e, o, applied, now);
    } else {
      BoundsOtherwise(e, o, applied, now);
    }
  }

  /** Whatever the awaited operation settles with, the executor keeps all of it. */
  lemma AdvanceKeepsInv(e: Exec, o: Outcome, applied: bool, now: nat)
    requires Settles(e.core, o, applied, now) && Inv(e)
    ensures Inv(Advance(e, o, applied, now))
  {
    FinishesKept(e, o, applied, now);
    TranscribesKept(e, o, applied, now);
    if Turns(e.core.pc) && !o.Rejected? {
      NumberedOnTurn(e, o, applied, now);
      PairingOnTurn(e, o, applied, now);
      PublishingOnTurn(e, o, applied, now);
      SandboxOnTurn(e, o, applied, now);
      BoundsOnTurn(e, o, applied, now);
    } else {
      if o.Rejected? {
        NumberedOnThrow(e, o, applied, now);
      } else if AtHead(e.core.pc) || InRound(e.core.pc) {
        NumberedOnWrite(e, o, applied, now);
      } else if BeforeLoop(e.core.pc) {
        NumberedBeforeLoop(e, o, applied, now);
      } else {
        NumberedAtEnd(e, o, applied, now);
      }
      PairingKept(e, o, applied, now);
      PublishingKept(e, o, applied, now);
      BoundsKept(e, o, applied, now);
    }
  }

  function Crash(e: Exec): Exec {
    e.(core := e.core.(pc := Crashed))
  }

  /** A crash leaves a history of the same shape. */
  lemma CrashKeepsInv(e: Exec)
    requires Inv(e) && e.core.pc.Live()
    ensures Inv(Crash(e))
  {
  }
}
