/**
 Termination of an execution. Each settled operation lowers a rank: the stage the program is in, then the
 iterations left, then within an iteration the part it is in, the blocks or tool uses left and the operation.
 */
module Progress {
  import opened AgentTypes
  import opened Executor
  import opened ExecutorInvariants
  import opened ExecutorHistory

  datatype Rank = Rank(stage: nat, iterations: nat, part: nat, left: nat, operation: nat)

  /** The lexicographic order. */
  predicate Below(a: Rank, b: Rank) {
    || a.stage < b.stage
    || (a.stage == b.stage && a.iterations < b.iterations)
    || (a.stage == b.stage && a.iterations == b.iterations && a.part < b.part)
    || (a.stage == b.stage && a.iterations == b.iterations && a.part == b.part && a.left < b.left)
    || (a.stage == b.stage && a.iterations == b.iterations && a.part == b.part && a.left == b.left
        && a.operation < b.operation)
  }

  function Monus(a: nat, b: nat): nat { if a < b then 0 else a - b }

  /** Before the loop. */
  function Opening(pc: Pc): Rank {
    Rank(4, 0, 0, 0,
         if pc.Lookup? then 5 else if pc.SandboxCreate? then 4 else if pc.SandboxPg? then 3
         else if pc.SandboxMirror? then 2 else if pc.EmitStarted? then 1 else 0)
  }

  /** In the loop: the texts of the reply, then its tool uses. */
  function Looping(c: Core): Rank {
    var iterations := Monus(c.maxIterations, c.iteration);
    if c.pc.CheckCancel? then Rank(3, iterations, 3, 0, 1)
    else if c.pc.CallModel? then Rank(3, iterations, 3, 0, 0)
    else if c.pc.RunTool? then Rank(3, iterations, 1, Monus(|c.toolUses|, |c.answers|), 3)
    else
      var event := if c.pc.StepPg? || c.pc.StepMirror? || c.pc.StepEmit? then c.pc.event else StreamEnd;
      var write := if c.pc.StepPg? then 2 else if c.pc.StepMirror? then 1 else 0;
      match event
      case ToolCalled(_, _) => Rank(3, iterations, 1, Monus(|c.toolUses|, |c.answers|), 4 + write)
      case ToolAnswered(_, _, _) => Rank(3, iterations, 1, Monus(|c.toolUses|, |c.answers|), write)
      case _ => Rank(3, iterations, 2, |c.todo|, write)
  }

  /** Finishing, and finishing again after an exception; then `finally`. */
  function Ending(c: Core): Rank {
    match c.pc
    case FinishPg(_, _) => Rank(2, 0, 0, 0, 2 + if c.caught.None? then 3 else 0)
    case FinishMirror(_) => Rank(2, 0, 0, 0, 1 + if c.caught.None? then 3 else 0)
    case EmitTerminal(_, _) => Rank(2, 0, 0, 0, if c.caught.None? then 3 else 0)
    case Kill => Rank(1, 0, 0, 0, 2)
    case EmitEnd => Rank(1, 0, 0, 0, 1)
    case DeleteCancel => Rank(1, 0, 0, 0, 0)
    case _ => Rank(0, 0, 0, 0, 0)
  }

  function RankOf(c: Core): Rank {
    if BeforeLoop(c.pc) then Opening(c.pc)
    else if AtHead(c.pc) || InRound(c.pc) then Looping(c)
    else Ending(c)
  }

  /** From the head of iteration `next`, at a text with at most `todo` blocks left, at a call, or finishing. */
  lemma NextToolRank(c: Core)
    requires c.caught.None? && c.iteration < c.maxIterations
    ensures var d := NextTool(c);
      || d.pc.FinishPg?
      || (d.pc.CheckCancel? && d.maxIterations == c.maxIterations && d.iteration == c.iteration + 1)
      || (d.pc.StepPg? && d.pc.event.ToolCalled? && d.iteration == c.iteration && d.maxIterations == c.maxIterations
          && d.answers == c.answers && d.toolUses == c.toolUses)
  {
  }

  lemma {:induction false} ScanRank(c: Core)
    requires c.caught.None? && c.iteration < c.maxIterations
    ensures var d := Scan(c);
      || d.pc.FinishPg?
      || (d.pc.CheckCancel? && d.maxIterations == c.maxIterations && d.iteration == c.iteration + 1)
      || (d.pc.StepPg? && d.pc.event.ToolCalled? && d.iteration == c.iteration && d.maxIterations == c.maxIterations)
      || (d.pc.StepPg? && d.pc.event.AssistantText? && d.iteration == c.iteration && d.maxIterations == c.maxIterations
          && |d.todo| < |c.todo|)
    decreases |c.todo|
  {
    if c.todo == [] {
      if c.toolStop && c.toolUses != [] {
        NextToolRank(c.(answers := []));
      }
    } else {
      var rest := c.(todo := c.todo[1..]);
      match c.todo[0]
      case Text(t) =>
      case Use(u) => ScanRank(rest.(toolUses := c.toolUses + [u]));
      case Opaque => ScanRank(rest);
    }
  }

  lemma ReplyLowersRank(c: Core, o: Outcome)
    requires Fits(c.pc, o) && !o.Rejected? && c.pc.CallModel? && Conversation(c) && c.caught.None?
    ensures Below(RankOf(Resume(c, o)), RankOf(c))
  {
    ScanRank(c.(messages := c.messages + [Reply(o.blocks)], todo := o.blocks, toolUses := [], answers := [],
                toolStop := o.toolStop));
  }

  lemma ToolLowersRank(c: Core, o: Outcome)
    requires Fits(c.pc, o) && !o.Rejected? && c.pc.RunTool? && Conversation(c) && c.caught.None?
    ensures Below(RankOf(Resume(c, o)), RankOf(c))
  {
  }

  lemma EventLowersRank(c: Core, o: Outcome)
    requires Fits(c.pc, o) && !o.Rejected? && c.pc.StepEmit? && Conversation(c) && c.caught.None?
    ensures Below(RankOf(Resume(c, o)), RankOf(c))
  {
    if c.pc.event.ToolAnswered? {
      var answer := Answer(c.toolUses[|c.answers|].id, c.pc.event.output, c.pc.event.isError);
      NextToolRank(c.(answers := c.answers + [answer]));
    } else if c.pc.event.AssistantText? {
      ScanRank(c);
    }
  }

  lemma TurnLowersRank(c: Core, o: Outcome)
    requires Fits(c.pc, o) && !o.Rejected? && Turns(c.pc)
    requires Conversation(c) && c.caught.None?
    ensures Below(RankOf(Resume(c, o)), RankOf(c))
  {
    if c.pc.CallModel? {
      ReplyLowersRank(c, o);
    } else if c.pc.RunTool? {
      ToolLowersRank(c, o);
    } else {
      EventLowersRank(c, o);
    }
  }

  lemma TryThrowLowersRank(c: Core, o: Outcome)
    requires Fits(c.pc, o) && o.Rejected? && c.caught.None?
    requires BeforeLoop(c.pc) || AtHead(c.pc) || InRound(c.pc)
    ensures Below(RankOf(Resume(c, o)), RankOf(c))
  {
  }

  lemma EndThrowLowersRank(c: Core, o: Outcome)
    requires Fits(c.pc, o) && o.Rejected? && (Finishing(c.pc) || Closing(c.pc))
    ensures Below(RankOf(Resume(c, o)), RankOf(c))
  {
  }

  lemma ThrowLowersRank(c: Core, o: Outcome)
    requires Fits(c.pc, o) && o.Rejected?
    requires BeforeLoop(c.pc) || AtHead(c.pc) || InRound(c.pc) ==> c.caught.None?
    ensures Below(RankOf(Resume(c, o)), RankOf(c))
  {
    if Finishing(c.pc) || Closing(c.pc) {
      EndThrowLowersRank(c, o);
    } else {
      TryThrowLowersRank(c, o);
    }
  }

  lemma OpeningLowersRank(c: Core, o: Outcome)
    requires Fits(c.pc, o) && !o.Rejected? && !Turns(c.pc)
    requires Conversation(c)
    requires BeforeLoop(c.pc) || AtHead(c.pc) || InRound(c.pc) ==> c.caught.None?
    requires BeforeLoop(c.pc)
    ensures Below(RankOf(Resume(c, o)), RankOf(c))
  {
  }

  lemma EndingLowersRank(c: Core, o: Outcome)
    requires Fits(c.pc, o) && !o.Rejected? && !Turns(c.pc)
    requires Conversation(c)
    requires BeforeLoop(c.pc) || AtHead(c.pc) || InRound(c.pc) ==> c.caught.None?
    requires !BeforeLoop(c.pc)
    requires Finishing(c.pc)
    ensures Below(RankOf(Resume(c, o)), RankOf(c))
  {
  }

  lemma ClosingLowersRank(c: Core, o: Outcome)
    requires Fits(c.pc, o) && !o.Rejected? && Closing(c.pc)
    ensures Below(RankOf(Resume(c, o)), RankOf(c))
  {
  }

  lemma CheckLowersRank(c: Core, o: Outcome)
    requires Fits(c.pc, o) && !o.Rejected? && c.pc.CheckCancel?
    ensures Below(RankOf(Resume(c, o)), RankOf(c))
  {
  }

  lemma WriteLowersRank(c: Core, o: Outcome)
    requires Fits(c.pc, o) && !o.Rejected? && (c.pc.StepPg? || c.pc.StepMirror?)
    ensures Below(RankOf(Resume(c, o)), RankOf(c))
  {
  }

  /** Every settled operation, resolved or rejected, lowers the rank. */
  lemma ResumeLowersRank(c: Core, o: Outcome)
    requires Fits(c.pc, o) && Conversation(c)
    requires BeforeLoop(c.pc) || AtHead(c.pc) || InRound(c.pc) ==> c.caught.None?
    ensures Below(RankOf(Resume(c, o)), RankOf(c))
  {
    if o.Rejected? {
      ThrowLowersRank(c, o);
    } else if Turns(c.pc) {
      TurnLowersRank(c, o);
    } else if BeforeLoop(c.pc) {
      OpeningLowersRank(c, o);
    } else if Finishing(c.pc) {
      EndingLowersRank(c, o);
    } else if Closing(c.pc) {
      ClosingLowersRank(c, o);
    } else if c.pc.CheckCancel? {
      CheckLowersRank(c, o);
    } else {
      WriteLowersRank(c, o);
    }
  }

  /** The executor after `n` operations, settled by `world` as it sees fit. */
  ghost function After(e: Exec, world: Exec -> (Outcome, bool, nat), n: nat): Exec
    requires forall x: Exec :: x.core.pc.Live() ==> Settles(x.core, world(x).0, world(x).1, world(x).2)
    decreases n
  {
    if n == 0 || !e.core.pc.Live() then e
    else After(Advance(e, world(e).0, world(e).1, world(e).2), world, n - 1)
  }

  lemma CaughtNothing(e: Exec)
    requires Inv(e)
    ensures Conversation(e.core)
    ensures BeforeLoop(e.core.pc) || AtHead(e.core.pc) || InRound(e.core.pc) ==> e.core.caught.None?
  {
  }

  /** An execution that does not crash comes to its end, however its operations settle. */
  lemma {:induction false} Terminates(e: Exec, world: Exec -> (Outcome, bool, nat))
    requires Inv(e)
    requires forall x: Exec :: x.core.pc.Live() ==> Settles(x.core, world(x).0, world(x).1, world(x).2)
    ensures exists n: nat :: !After(e, world, n).core.pc.Live()
    decreases RankOf(e.core).stage, RankOf(e.core).iterations, RankOf(e.core).part, RankOf(e.core).left,
      RankOf(e.core).operation
  {
    if e.core.pc.Live() {
      var (o, applied, now) := world(e);
      CaughtNothing(e);
      ResumeLowersRank(e.core, o);
      AdvanceKeepsInv(e, o, applied, now);
      var f := Advance(e, o, applied, now);
      Terminates(f, world);
      var n: nat :| !After(f, world, n).core.pc.Live();
      assert After(e, world, n + 1) == After(f, world, n);
    } else {
      assert !After(e, world, 0).core.pc.Live();
    }
  }
}
