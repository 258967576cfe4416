/**
 Cancellation: what an executor still does while the cancel key is present, alone or among others.
 */
module Cancellation {
  import opened Wrappers
  import opened AgentTypes
  import opened Executor
  import opened ExecutorInvariants
  import opened ExecutorHistory
  import opened RunProtocol
  import opened Interleavings
  import opened RunTheorems
  import opened Outcomes

  /** The cancel key is present when each of the actions happens. */
  ghost predicate KeyLives(w: World, actions: seq<Action>) {
    actions != [] ==>
      && KeyLives(w, actions[..|actions| - 1])
      && Run(w, actions[..|actions| - 1]).cancel
  }

  /** The action deletes the key, or the key expires with it. */
  predicate Forgets(w: World, a: Action) {
    || a.ExpireCancel?
    || (&& a.Settle? && a.id in w.execs && w.execs[a.id].core.pc.DeleteCancel?
        && (a.choice.fault.None? || a.choice.applied))
  }

  /** The key was requested, and nothing has deleted it since. */
  ghost predicate Requested(actions: seq<Action>) {
    exists i :: 0 <= i < |actions| && actions[i] == RequestCancel && StandsSince(actions, i)
  }

  ghost predicate StandsSince(actions: seq<Action>, i: nat)
    requires i < |actions|
  {
    forall j :: i < j < |actions| ==> !Forgets(Run(NOTHING, actions[..j]), actions[j])
  }

  lemma KeyStep(w: World, a: Action)
    ensures Apply(w, a).cancel <==> a.RequestCancel? || (w.cancel && !Forgets(w, a))
  {
  }

  lemma RequestedStep(before: seq<Action>, a: Action)
    ensures Requested(before + [a]) <==>
      a.RequestCancel? || (Requested(before) && !Forgets(Run(NOTHING, before), a))
  {
    var all := before + [a];
    assert forall j :: 0 <= j < |before| ==> all[..j] == before[..j] && all[j] == before[j];
    assert all[..|before|] == before;
    if a.RequestCancel? {
      assert StandsSince(all, |before|);
    } else if Requested(before) && !Forgets(Run(NOTHING, before), a) {
      var i :| 0 <= i < |before| && before[i] == RequestCancel && StandsSince(before, i);
      assert StandsSince(all, i);
    }
    if Requested(all) && !a.RequestCancel? {
      var i :| 0 <= i < |all| && all[i] == RequestCancel && StandsSince(all, i);
      assert !Forgets(Run(NOTHING, all[..|before|]), all[|before|]);
      assert StandsSince(before, i);
    }
  }

  /** The key is present exactly when it was requested and has neither expired nor been deleted since. */
  lemma {:induction false} KeyIsTheLastWord(actions: seq<Action>)
    ensures Run(NOTHING, actions).cancel <==> Requested(actions)
  {
    if actions != [] {
      var before, a := actions[..|actions| - 1], actions[|actions| - 1];
      assert actions == before + [a];
      KeyIsTheLastWord(before);
      KeyStep(Run(NOTHING, before), a);
      RequestedStep(before, a);
    }
  }

  /** Model calls settled, and the one in flight. */
  function CallsStarted(e: Exec): nat {
    e.journal.calls + if e.core.pc.CallModel? then 1 else 0
  }

  /** How `f`, cancelled while it was at `e`, has fared: it saw the key, threw, or is still in its iteration. */
  predicate Winds(e: Exec, f: Exec) {
    && CallsStarted(f) <= CallsStarted(e)
    && (|| f.core.caught.Some?
        || f.journal.sawCancel
        || f.core.pc.Threw? || f.core.pc.Crashed? || Skipped(f)
        || (BeforeLoop(e.core.pc) && BeforeLoop(f.core.pc))
        || f.core.pc.CheckCancel?
        || (UnderWay(e) && f.core.iteration == e.core.iteration && !BeforeLoop(f.core.pc)))
  }

  /** A model call or the work on its reply is under way. */
  predicate UnderWay(e: Exec) {
    e.core.pc.CallModel? || InRound(e.core.pc) || Finishing(e.core.pc) || Closing(e.core.pc)
  }

  /** The turn of a round keeps its iteration, or reaches the next check. */
  lemma WindsOnTurn(e: Exec, f: Exec, o: Outcome, applied: bool, now: nat)
    requires Settles(f.core, o, applied, now) && !o.Rejected? && Turns(f.core.pc)
    requires Winds(e, f) && Conversation(f.core) && f.core.caught.None? && !f.journal.sawCancel
    ensures Winds(e, Advance(f, o, applied, now))
  {
    TurnKeepsIteration(f.core, o);
  }

  lemma NextToolIteration(c: Core)
    requires c.caught.None?
    ensures var d := NextTool(c);
      !d.pc.CallModel? && (d.caught.Some? || (d.pc.StepPg? && d.iteration == c.iteration) || d.pc.CheckCancel?)
  {
  }

  lemma {:induction false} ScanIteration(c: Core)
    requires c.caught.None?
    ensures var d := Scan(c);
      && !d.pc.CallModel?
      && (d.caught.Some? || ((d.pc.StepPg? || d.pc.FinishPg?) && d.iteration == c.iteration) || d.pc.CheckCancel?)
    decreases |c.todo|
  {
    if c.todo == [] {
      NextToolIteration(c.(answers := []));
    } else {
      var rest := c.(todo := c.todo[1..]);
      match c.todo[0]
      case Text(t) =>
      case Use(u) => ScanIteration(rest.(toolUses := c.toolUses + [u]));
      case Opaque => ScanIteration(rest);
    }
  }

  lemma TurnKeepsIteration(c: Core, o: Outcome)
    requires Fits(c.pc, o) && !o.Rejected? && Turns(c.pc) && Conversation(c) && c.caught.None?
    ensures var d := Resume(c, o);
      && !d.pc.CallModel?
      && (d.caught.Some? || ((InRound(d.pc) || d.pc.FinishPg?) && d.iteration == c.iteration) || d.pc.CheckCancel?)
  {
    if c.pc.CallModel? {
      ScanIteration(c.(messages := c.messages + [Reply(o.blocks)], todo := o.blocks, toolUses := [], answers := [],
                       toolStop := o.toolStop));
    } else if c.pc.StepEmit? && c.pc.event.ToolAnswered? {
      var answer := Answer(c.toolUses[|c.answers|].id, c.pc.event.output, c.pc.event.isError);
      NextToolIteration(c.(answers := c.answers + [answer]));
    } else if c.pc.StepEmit? && c.pc.event.AssistantText? {
      ScanIteration(c);
    }
  }

  /** What a rejection does to the counters. */
  lemma ThrownCore(c: Core, o: Outcome)
    requires Fits(c.pc, o) && o.Rejected?
    ensures var d := Resume(c, o);
      && !d.pc.CallModel? && d.iteration == c.iteration
      && (d.caught.Some? || d.pc.Threw? || (c.pc.Kill? && d == c.(pc := EmitEnd)))
  {
  }

  lemma WindsOnThrow(e: Exec, f: Exec, o: Outcome, applied: bool, now: nat)
    requires Settles(f.core, o, applied, now) && o.Rejected? && Winds(e, f)
    ensures Winds(e, Advance(f, o, applied, now))
  {
    ThrownCore(f.core, o);
  }

  lemma WindsFinishing(e: Exec, f: Exec, o: Outcome, applied: bool, now: nat)
    requires Settles(f.core, o, applied, now) && !o.Rejected? && Winds(e, f)
    requires Finishing(f.core.pc)
    ensures Winds(e, Advance(f, o, applied, now))
  {
  }

  lemma WindsClosing(e: Exec, f: Exec, o: Outcome, applied: bool, now: nat)
    requires Settles(f.core, o, applied, now) && !o.Rejected? && Winds(e, f)
    requires Closing(f.core.pc)
    ensures Winds(e, Advance(f, o, applied, now))
  {
  }

  lemma WindsOtherwise(e: Exec, f: Exec, o: Outcome, applied: bool, now: nat)
    requires Settles(f.core, o, applied, now) && !o.Rejected? && !Turns(f.core.pc) && Winds(e, f)
    requires f.core.pc.CheckCancel? ==> o == Flag(true)
    requires Conversation(f.core) && (f.core.pc.Lookup? ==> f.journal == BLANK && f.core.sandbox.None?)
    requires !(Finishing(f.core.pc) || Closing(f.core.pc))
    ensures Winds(e, Advance(f, o, applied, now))
  {
  }

  lemma WindsAlways(e: Exec, f: Exec, o: Outcome, applied: bool, now: nat)
    requires Settles(f.core, o, applied, now) && Winds(e, f)
    requires Conversation(f.core)
    requires AtHead(f.core.pc) || InRound(f.core.pc) ==> f.core.caught.None? && !f.journal.sawCancel
    requires f.core.pc.Lookup? ==> f.journal == BLANK && f.core.sandbox.None?
    requires f.core.pc.CheckCancel? && !o.Rejected? ==> o == Flag(true)
    ensures Winds(e, Advance(f, o, applied, now))
  {
    if o.Rejected? {
      WindsOnThrow(e, f, o, applied, now);
    } else if Turns(f.core.pc) {
      WindsOnTurn(e, f, o, applied, now);
    } else if Finishing(f.core.pc) {
      WindsFinishing(e, f, o, applied, now);
    } else if Closing(f.core.pc) {
      WindsClosing(e, f, o, applied, now);
    } else {
      WindsOtherwise(e, f, o, applied, now);
    }
  }

  lemma WindsSettle(w: World, e: Exec, id: ExecId, ch: Choice)
    requires Reachable(w) && w.cancel && id in w.execs && w.execs[id].core.pc.Live() && Winds(e, w.execs[id])
    ensures Winds(e, Stepped(w, w.execs[id], ch))
  {
    var f := w.execs[id];
    VerdictSettles(w, f.core, ch);
    FactsOf(w, id);
    QuietOf(w, id);
    CheckSeesKey(w, f.core, ch);
    WindsAlways(e, f, Verdict(w, f.core, ch), Applied(w, f.core, ch), ch.now);
  }

  /** With the key present, a check that resolves sees it. */
  lemma CheckSeesKey(w: World, c: Core, ch: Choice)
    requires w.cancel
    ensures c.pc.CheckCancel? && !Verdict(w, c, ch).Rejected? ==> Verdict(w, c, ch) == Flag(true)
  {
  }

  lemma WindsStep(w: World, e: Exec, id: ExecId, a: Action)
    requires Reachable(w) && w.cancel && id in w.execs && Winds(e, w.execs[id])
    ensures id in Apply(w, a).execs && Winds(e, Apply(w, a).execs[id])
  {
    if a == CrashOf(id) {
    } else if a.Settle? && a.id == id && w.execs[id].core.pc.Live() {
      WindsSettle(w, e, id, a.choice);
    } else {
      OthersLeaveAlone(w, id, a);
    }
  }

  lemma QuietOf(w: World, id: ExecId)
    requires Reachable(w) && id in w.execs
    ensures var f := w.execs[id];
      && (AtHead(f.core.pc) || InRound(f.core.pc) ==> f.core.caught.None? && !f.journal.sawCancel)
      && (f.core.pc.Lookup? ==> f.journal == BLANK && f.core.sandbox.None?)
  {
    ReachableIsGood(w);
    assert Finishes(w.execs[id]);
  }

  /** An action about another executor leaves this one as it is. */
  lemma OthersLeaveAlone(w: World, id: ExecId, a: Action)
    requires id in w.execs
    requires a != CrashOf(id) && !(a.Settle? && a.id == id && w.execs[id].core.pc.Live())
    ensures id in Apply(w, a).execs && Apply(w, a).execs[id] == w.execs[id]
  {
  }

  lemma {:induction false} WindsInRun(w: World, id: ExecId, actions: seq<Action>)
    requires Reachable(w) && id in w.execs && w.execs[id].core.pc.Live() && KeyLives(w, actions)
    ensures Reachable(Run(w, actions))
    ensures id in Run(w, actions).execs && Winds(w.execs[id], Run(w, actions).execs[id])
  {
    if actions != [] {
      var before := actions[..|actions| - 1];
      WindsInRun(w, id, before);
      WindsStep(Run(w, before), w.execs[id], id, actions[|actions| - 1]);
      ReachableNext(Run(w, before), actions[|actions| - 1]);
    }
  }

  /**
   While the cancel key is present an executor, whoever else works on the run, starts no model call it has not
   started already: those settled and the one in flight never become more.
   */
  lemma CancelStopsCalls(w: World, id: ExecId, actions: seq<Action>)
    requires Reachable(w) && id in w.execs && w.execs[id].core.pc.Live() && KeyLives(w, actions)
    ensures id in Run(w, actions).execs
    ensures CallsStarted(Run(w, actions).execs[id]) <= CallsStarted(w.execs[id])
  {
    WindsInRun(w, id, actions);
  }

  // ----- exceptions after the key was set -----

  /** A model call, or the work on its reply. */
  predicate InIteration(c: Core) { c.pc.CallModel? || InRound(c.pc) }

  /** The iteration under way is the last allowed one, or none is allowed at all. */
  predicate LastAllowed(c: Core) {
    || (InIteration(c) && c.iteration + 1 == c.maxIterations)
    || (BeforeLoop(c.pc) && c.maxIterations == 0)
  }

  /**
   How an executor that was at `c` when the key was set stands at `d`, nothing having rejected: in the same iteration
   or out of the loop, or with the iteration limit caught.
   */
  predicate Calm(c: Core, d: Core) {
    && d.maxIterations == c.maxIterations
    && (if d.caught.Some? then LastAllowed(c) && d.caught == Some(IterationLimitMessage(c.maxIterations))
        else
          && (BeforeLoop(d.pc) ==> BeforeLoop(c.pc))
          && (InIteration(d) ==> InIteration(c) && d.iteration == c.iteration))
  }

  lemma CalmTurn(c: Core, d: Core, o: Outcome)
    requires Fits(d.pc, o) && !o.Rejected? && Turns(d.pc) && Conversation(d) && d.caught.None? && Calm(c, d)
    ensures Calm(c, Resume(d, o))
  {
    TurnKeepsIteration(d, o);
    TurnThrows(d, o);
    TurnKeepsLimit(d, o);
    NeverBack(d, o);
  }

  lemma TurnKeepsLimit(c: Core, o: Outcome)
    requires Fits(c.pc, o) && !o.Rejected? && Turns(c.pc) && Conversation(c) && c.caught.None?
    ensures Resume(c, o).maxIterations == c.maxIterations
  {
    ResumeSucceeds(c, o);
  }

  lemma CalmOtherwise(c: Core, d: Core, o: Outcome)
    requires Fits(d.pc, o) && !o.Rejected? && !Turns(d.pc) && Conversation(d) && d.caught.None? && Calm(c, d)
    requires d.pc.CheckCancel? ==> o == Flag(true)
    ensures Calm(c, Resume(d, o))
  {
  }

  lemma CalmAfterTry(c: Core, d: Core, o: Outcome)
    requires Fits(d.pc, o) && Calm(c, d) && (d.caught.Some? || (o.Rejected? && !InTry(d)))
    requires d.caught.Some? ==> !BeforeLoop(d.pc) && !AtHead(d.pc) && !InRound(d.pc)
    ensures Calm(c, Resume(d, o))
  {
  }

  lemma CalmStep(w: World, c: Core, id: ExecId, a: Action)
    requires Reachable(w) && w.cancel && id in w.execs && Calm(c, w.execs[id].core) && !Faults(w, id, a)
    ensures id in Apply(w, a).execs && Calm(c, Apply(w, a).execs[id].core)
  {
    if a == CrashOf(id) {
    } else if a.Settle? && a.id == id && w.execs[id].core.pc.Live() {
      CalmSettle(w, c, id, a.choice);
    } else {
      OthersLeaveAlone(w, id, a);
    }
  }

  lemma CalmResume(c: Core, d: Core, o: Outcome)
    requires Fits(d.pc, o) && Conversation(d) && Calm(c, d)
    requires BeforeLoop(d.pc) || AtHead(d.pc) || InRound(d.pc) ==> d.caught.None?
    requires o.Rejected? ==> !InTry(d)
    requires d.pc.CheckCancel? && !o.Rejected? ==> o == Flag(true)
    ensures Calm(c, Resume(d, o))
  {
    if d.caught.Some? || o.Rejected? {
      CalmAfterTry(c, d, o);
    } else if Turns(d.pc) {
      CalmTurn(c, d, o);
    } else {
      CalmOtherwise(c, d, o);
    }
  }

  lemma CalmSettle(w: World, c: Core, id: ExecId, ch: Choice)
    requires Reachable(w) && w.cancel && id in w.execs && w.execs[id].core.pc.Live()
    requires Calm(c, w.execs[id].core) && !Faults(w, id, Settle(id, ch))
    ensures Calm(c, Apply(w, Settle(id, ch)).execs[id].core)
  {
    var d := w.execs[id].core;
    var o := Verdict(w, d, ch);
    VerdictSettles(w, d, ch);
    TryFacts(w, id);
    CheckSeesKey(w, d, ch);
    CalmResume(c, d, o);
  }

  lemma {:induction false} CalmInRun(w: World, id: ExecId, actions: seq<Action>)
    requires Reachable(w) && id in w.execs && w.execs[id].core.pc.Live() && w.execs[id].core.caught.None?
    requires KeyLives(w, actions) && Faultless(w, id, actions)
    ensures id in Run(w, actions).execs && Calm(w.execs[id].core, Run(w, actions).execs[id].core)
  {
    if actions != [] {
      var before := actions[..|actions| - 1];
      CalmInRun(w, id, before);
      ReachableRun(w, before);
      CalmStep(Run(w, before), w.execs[id].core, id, actions[|actions| - 1]);
    }
  }

  lemma FinishOf(w: World, id: ExecId)
    requires Reachable(w) && id in w.execs && w.execs[id].core.pc.Returned? && !Skipped(w.execs[id])
    ensures w.execs[id].journal.finish.Some? && !w.execs[id].core.rethrow
    ensures Accounts(w.execs[id].core, w.execs[id].journal.finish.value.status, w.execs[id].journal.finish.value.error)
    ensures w.execs[id].journal.finish.value.status.Completed? ==> !w.execs[id].journal.sawCancel
  {
    ReachableIsGood(w);
    InvParts(w.execs[id]);
  }

  /** A cancelled executor that caught an exception caught it before, or a fault, or the iteration limit. */
  lemma FailureIsAccounted(w: World, id: ExecId, actions: seq<Action>)
    requires Reachable(w) && id in w.execs && w.execs[id].core.pc.Live() && KeyLives(w, actions)
    requires id in Run(w, actions).execs && Run(w, actions).execs[id].core.caught.Some?
    ensures var c, d := w.execs[id].core, Run(w, actions).execs[id].core;
      || c.caught.Some?
      || !Faultless(w, id, actions)
      || (LastAllowed(c) && d.caught == Some(IterationLimitMessage(c.maxIterations)))
  {
    if w.execs[id].core.caught.None? && Faultless(w, id, actions) {
      CalmInRun(w, id, actions);
    }
  }

  /**
   A live executor whose run is cancelled, if it returns, leaves it CANCELLED, unless the model call or reply under
   way when the key was set completed the run in that same iteration, or that iteration is the last allowed one and
   ends in the iteration limit, or an operation in the `try` block rejected; then it is FAILED with what was caught.
   */
  lemma CancelEndsRun(w: World, id: ExecId, actions: seq<Action>)
    requires Reachable(w) && id in w.execs && w.execs[id].core.pc.Live() && KeyLives(w, actions)
    requires id in Run(w, actions).execs
    requires Run(w, actions).execs[id].core.pc.Returned? && !Skipped(Run(w, actions).execs[id])
    ensures var e, f := w.execs[id], Run(w, actions).execs[id];
      && f.journal.finish.Some? && f.journal.finish.value.error == f.core.caught
      && match f.journal.finish.value.status
         case Failed =>
           && f.core.caught.Some?
           && (|| e.core.caught.Some?
               || !Faultless(w, id, actions)
               || (LastAllowed(e.core) && f.core.caught == Some(IterationLimitMessage(e.core.maxIterations))))
         case Completed => UnderWay(e) && f.core.iteration == e.core.iteration
         case Cancelled => f.core.caught.None?
         case Running => false
  {
    WindsInRun(w, id, actions);
    FinishOf(Run(w, actions), id);
    if Run(w, actions).execs[id].core.caught.Some? {
      FailureIsAccounted(w, id, actions);
    }
  }
}
