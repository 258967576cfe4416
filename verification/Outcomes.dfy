/**
 Why an execution ends as it does: every exception its `try` block throws is the rejection of an operation it
 awaited there, or the iteration limit. A fault is found in the history that leads to a world.
 */
module Outcomes {
  import Decimal
  import opened Wrappers
  import opened AgentTypes
  import opened Executor
  import opened ExecutorInvariants
  import opened ExecutorHistory
  import opened RunProtocol
  import opened Interleavings
  import opened RunTheorems

  /** The operation at `c` is awaited in the `try` block of `execute`. */
  predicate InTry(c: Core) {
    c.caught.None? && (BeforeLoop(c.pc) || AtHead(c.pc) || InRound(c.pc) || Finishing(c.pc)) && !c.pc.Lookup?
  }

  /** The action is the rejection of an operation that executor `id` awaits in its `try` block. */
  predicate Faults(w: World, id: ExecId, a: Action) {
    && a.Settle? && a.id == id && id in w.execs && InTry(w.execs[id].core)
    && Verdict(w, w.execs[id].core, a.choice).Rejected?
  }

  /** No operation that executor `id` awaits in its `try` block rejects. */
  ghost predicate Faultless(w: World, id: ExecId, actions: seq<Action>) {
    actions != [] ==>
      var before := actions[..|actions| - 1];
      Faultless(w, id, before) && !Faults(Run(w, before), id, actions[|actions| - 1])
  }

  // ----- the iteration limit's message -----

  /** The message ends in the numeral of the limit, whatever numeral without leading zeros reads as it. */
  lemma LimitMessageReads(n: nat, numeral: string)
    requires numeral != "" && forall i :: 0 <= i < |numeral| ==> '0' <= numeral[i] <= '9'
    requires (numeral[0] == '0' ==> numeral == "0") && Decimal.Read(numeral) == n
    ensures IterationLimitMessage(n) == "Agent exceeded the maximum of " + numeral + " iterations"
  {
    Decimal.NumeralIsUnique(numeral, n);
  }

  // ----- what is caught -----

  /** The loop throws nothing of its own but the iteration limit, at the end of the last iteration. */
  predicate Throws(c: Core, d: Core) {
    d.caught.None? || (c.iteration + 1 >= c.maxIterations && d.caught == Some(IterationLimitMessage(c.maxIterations)))
  }

  lemma NextToolThrows(c: Core)
    requires c.caught.None?
    ensures Throws(c, NextTool(c))
  {
  }

  lemma {:induction false} ScanThrows(c: Core)
    requires c.caught.None?
    ensures Throws(c, Scan(c))
    decreases |c.todo|
  {
    if c.todo == [] {
      NextToolThrows(c.(answers := []));
    } else {
      var rest := c.(todo := c.todo[1..]);
      match c.todo[0]
      case Text(t) =>
      case Use(u) => ScanThrows(rest.(toolUses := c.toolUses + [u]));
      case Opaque => ScanThrows(rest);
    }
  }

  lemma TurnThrows(c: Core, o: Outcome)
    requires Fits(c.pc, o) && !o.Rejected? && Turns(c.pc) && Conversation(c) && c.caught.None?
    ensures Throws(c, Resume(c, o))
  {
    if c.pc.CallModel? {
      ScanThrows(c.(messages := c.messages + [Reply(o.blocks)], todo := o.blocks, toolUses := [], answers := [],
                    toolStop := o.toolStop));
    } else if c.pc.StepEmit? && c.pc.event.ToolAnswered? {
      var answer := Answer(c.toolUses[|c.answers|].id, c.pc.event.output, c.pc.event.isError);
      NextToolThrows(c.(answers := c.answers + [answer]));
    } else if c.pc.StepEmit? && c.pc.event.AssistantText? {
      ScanThrows(c);
    }
  }

  /** What an operation that settles in `c` can leave caught. */
  predicate Catches(c: Core, o: Outcome, d: Core) {
    if c.caught.Some? then d.caught == c.caught
    else
      || d.caught.None?
      || (InTry(c) && o.Rejected? && d.caught == Some(o.message))
      || (c.pc.CountSteps? && c.maxIterations == 0 && d.caught == Some(IterationLimitMessage(0)))
      || (Turns(c.pc) && Throws(c, d))
  }

  /** The first exception is caught and stays: a rejection in the `try` block, or the iteration limit. */
  lemma ResumeCatches(c: Core, o: Outcome)
    requires Fits(c.pc, o) && Conversation(c)
    requires BeforeLoop(c.pc) || AtHead(c.pc) || InRound(c.pc) ==> c.caught.None?
    ensures Catches(c, o, Resume(c, o))
  {
    if Turns(c.pc) && !o.Rejected? {
      TurnThrows(c, o);
    }
  }

  /** Nothing was caught, or the iteration limit. */
  predicate LimitAtMost(c: Core) {
    c.caught.None? || c.caught == Some(IterationLimitMessage(c.maxIterations))
  }

  lemma TryFacts(w: World, id: ExecId)
    requires Reachable(w) && id in w.execs
    ensures var c := w.execs[id].core;
      && Conversation(c) && Finishes(w.execs[id])
      && (BeforeLoop(c.pc) || AtHead(c.pc) || InRound(c.pc) ==> c.caught.None?)
  {
    FactsOf(w, id);
    ReachableIsGood(w);
    InvParts(w.execs[id]);
  }

  lemma CaughtSettle(w: World, id: ExecId, ch: Choice)
    requires Reachable(w) && id in w.execs && w.execs[id].core.pc.Live()
    ensures var c, d := w.execs[id].core, Stepped(w, w.execs[id], ch).core;
      d.maxIterations == c.maxIterations && Catches(c, Verdict(w, c, ch), d)
  {
    var c := w.execs[id].core;
    TryFacts(w, id);
    VerdictSettles(w, c, ch);
    ResumeCatches(c, Verdict(w, c, ch));
    ResumeSucceeds(c, Verdict(w, c, ch));
  }

  /** What one action does to what executor `id` has caught. */
  lemma CaughtStep(w: World, id: ExecId, a: Action)
    requires Reachable(w) && id in w.execs
    ensures id in Apply(w, a).execs
    ensures var c, d := w.execs[id].core, Apply(w, a).execs[id].core;
      && d.maxIterations == c.maxIterations
      && if a.Settle? && a.id == id && c.pc.Live()
         then Catches(c, Verdict(w, c, a.choice), d)
         else d.caught == c.caught
  {
    if a.Settle? && a.id == id && w.execs[id].core.pc.Live() {
      CaughtSettle(w, id, a.choice);
    }
  }

  lemma FaultlessStep(w: World, id: ExecId, a: Action)
    requires Reachable(w) && id in w.execs && LimitAtMost(w.execs[id].core)
    requires !Faults(w, id, a)
    ensures id in Apply(w, a).execs && LimitAtMost(Apply(w, a).execs[id].core)
  {
    CaughtStep(w, id, a);
    if a.Settle? && a.id == id && w.execs[id].core.pc.Live() {
      assert Verdict(w, w.execs[id].core, a.choice).Rejected? ==> !InTry(w.execs[id].core);
    }
  }

  lemma {:induction false} ReachableRun(w: World, actions: seq<Action>)
    requires Reachable(w)
    ensures Reachable(Run(w, actions))
  {
    if actions != [] {
      ReachableRun(w, actions[..|actions| - 1]);
      ReachableNext(Run(w, actions[..|actions| - 1]), actions[|actions| - 1]);
    }
  }

  lemma StartedClean(w: World, id: ExecId, a: Action)
    requires id !in w.execs && id in Apply(w, a).execs
    ensures LimitAtMost(Apply(w, a).execs[id].core)
  {
  }

  /** An execution whose `try` block awaits no rejected operation catches nothing but the iteration limit. */
  lemma {:induction false} FaultlessCatchesTheLimit(w: World, id: ExecId, actions: seq<Action>)
    requires Reachable(w) && (id in w.execs ==> w.execs[id].core.caught.None?) && Faultless(w, id, actions)
    ensures var v := Run(w, actions);
      id in v.execs ==> LimitAtMost(v.execs[id].core)
  {
    if actions != [] {
      var before, a := actions[..|actions| - 1], actions[|actions| - 1];
      FaultlessCatchesTheLimit(w, id, before);
      ReachableRun(w, before);
      if id in Run(w, before).execs {
        FaultlessStep(Run(w, before), id, a);
      } else if id in Run(w, actions).execs {
        StartedClean(Run(w, before), id, a);
      }
    }
  }

  // ----- what is caught was thrown -----

  /** The action is such a rejection, with this message. */
  predicate FaultsWith(w: World, id: ExecId, a: Action, message: string) {
    Faults(w, id, a) && Verdict(w, w.execs[id].core, a.choice) == Rejected(message)
  }

  /** An operation of the `try` block of executor `id` rejected with `message` at some moment of the history. */
  ghost predicate Faulted(history: seq<Action>, id: ExecId, message: string) {
    exists i :: 0 <= i < |history| && FaultsWith(Run(NOTHING, history[..i]), id, history[i], message)
  }

  lemma FaultIsCaught(w: World, id: ExecId, a: Action, message: string)
    requires FaultsWith(w, id, a, message)
    ensures id in Apply(w, a).execs && Apply(w, a).execs[id].core.caught == Some(message)
  {
  }

  /** What is caught stays caught. */
  lemma CaughtStays(w: World, id: ExecId, a: Action)
    requires Reachable(w) && id in w.execs && w.execs[id].core.caught.Some?
    ensures id in Apply(w, a).execs && Apply(w, a).execs[id].core.caught == w.execs[id].core.caught
  {
    CaughtStep(w, id, a);
  }

  lemma NewlyCaught(w: World, id: ExecId, a: Action)
    requires Reachable(w) && id in Apply(w, a).execs && Apply(w, a).execs[id].core.caught.Some?
    requires id in w.execs ==> w.execs[id].core.caught.None?
    ensures var d := Apply(w, a).execs[id].core;
      || FaultsWith(w, id, a, d.caught.value)
      || d.caught.value == IterationLimitMessage(d.maxIterations)
  {
    if id in w.execs {
      CaughtStep(w, id, a);
    }
  }

  lemma FaultedLater(before: seq<Action>, a: Action, id: ExecId, message: string)
    ensures Faulted(before, id, message) ==> Faulted(before + [a], id, message)
    ensures FaultsWith(Run(NOTHING, before), id, a, message) ==> Faulted(before + [a], id, message)
  {
    var all := before + [a];
    assert all[..|before|] == before && all[|before|] == a;
    if Faulted(before, id, message) {
      var i :| 0 <= i < |before| && FaultsWith(Run(NOTHING, before[..i]), id, before[i], message);
      assert all[..i] == before[..i] && all[i] == before[i];
    }
  }

  /** What an execution has caught is the message its `try` block was rejected with, or the iteration limit's. */
  lemma {:induction false} CaughtWasThrown(history: seq<Action>, id: ExecId)
    requires id in Run(NOTHING, history).execs && Run(NOTHING, history).execs[id].core.caught.Some?
    ensures var c := Run(NOTHING, history).execs[id].core;
      Faulted(history, id, c.caught.value) || c.caught.value == IterationLimitMessage(c.maxIterations)
  {
    if history != [] {
      var before, a := history[..|history| - 1], history[|history| - 1];
      var w := Run(NOTHING, before);
      assert Reachable(w) && history == before + [a];
      FaultedLater(before, a, id, Run(NOTHING, history).execs[id].core.caught.value);
      if id in w.execs && w.execs[id].core.caught.Some? {
        CaughtWasThrown(before, id);
        CaughtStep(w, id, a);
      } else {
        NewlyCaught(w, id, a);
      }
    }
  }

  lemma FaultedSooner(history: seq<Action>, id: ExecId, message: string)
    requires Faulted(history, id, message)
    ensures history != []
    ensures var before := history[..|history| - 1];
      Faulted(before, id, message) || FaultsWith(Run(NOTHING, before), id, history[|history| - 1], message)
  {
    var before := history[..|history| - 1];
    var i :| 0 <= i < |history| && FaultsWith(Run(NOTHING, history[..i]), id, history[i], message);
    if i < |before| {
      assert before[..i] == history[..i] && before[i] == history[i];
    } else {
      assert history[..i] == before;
    }
  }

  predicate HasCaught(w: World, id: ExecId, message: string) {
    id in w.execs && w.execs[id].core.caught == Some(message)
  }

  lemma ThrownStep(w: World, id: ExecId, a: Action, message: string)
    requires Reachable(w) && (HasCaught(w, id, message) || FaultsWith(w, id, a, message))
    ensures HasCaught(Apply(w, a), id, message)
  {
    if HasCaught(w, id, message) {
      CaughtStays(w, id, a);
    } else {
      FaultIsCaught(w, id, a, message);
    }
  }

  /** The message an execution's `try` block is rejected with is what it has caught from then on. */
  lemma {:induction false} ThrownIsCaught(history: seq<Action>, id: ExecId, message: string)
    requires Faulted(history, id, message)
    ensures HasCaught(Run(NOTHING, history), id, message)
  {
    FaultedSooner(history, id, message);
    var before, a := history[..|history| - 1], history[|history| - 1];
    if Faulted(before, id, message) {
      ThrownIsCaught(before, id, message);
    }
    ThrownStep(Run(NOTHING, before), id, a, message);
  }

  // ----- a model that always asks for tools -----

  /** Every reply so far asks for tools. */
  predicate ToolHungry(c: Core) {
    c.toolStop && forall i :: 0 <= i < |c.messages| && c.messages[i].Reply? ==> Uses(c.messages[i].content) != []
  }

  lemma HungryNeverCompletes(w: World, id: ExecId)
    requires Reachable(w) && id in w.execs && ToolHungry(w.execs[id].core) && !w.execs[id].journal.sawCancel
    requires w.execs[id].journal.finish.Some?
    ensures w.execs[id].journal.finish.value.status.Failed?
    ensures w.execs[id].journal.finish.value.error == w.execs[id].core.caught
  {
    ReachableIsGood(w);
    var e := w.execs[id];
    InvParts(e);
    assert Transcribes(e);
  }

  /**
   A run whose every reply asks for tools, and that no check saw cancelled, gets no status but FAILED, whether
   `execute` returns or throws; and when no operation in the `try` block rejected, its error is the iteration limit.
   */
  lemma ToolHungryRunsFail(actions: seq<Action>, id: ExecId)
    requires var w := Run(NOTHING, actions);
      id in w.execs && ToolHungry(w.execs[id].core) && !w.execs[id].journal.sawCancel
    ensures var e := Run(NOTHING, actions).execs[id];
      && (e.core.pc.Returned? && !Skipped(e) ==> e.journal.finish.Some?)
      && (e.journal.finish.Some? ==> e.journal.finish.value.status.Failed?)
      && (e.journal.finish.Some? && Faultless(NOTHING, id, actions) ==>
            e.journal.finish.value.error == Some(IterationLimitMessage(e.core.maxIterations)))
  {
    var w := Run(NOTHING, actions);
    assert Reachable(w);
    if w.execs[id].core.pc.Returned? && !Skipped(w.execs[id]) {
      StatusIsExplained(w, id);
    }
    if w.execs[id].journal.finish.Some? {
      HungryNeverCompletes(w, id);
      if Faultless(NOTHING, id, actions) {
        assert Run(NOTHING, []) == NOTHING;
        FaultlessCatchesTheLimit(NOTHING, id, actions);
        FailedCaught(w, id);
      }
    }
  }

  lemma FailedCaught(w: World, id: ExecId)
    requires Reachable(w) && id in w.execs && w.execs[id].journal.finish.Some?
    requires w.execs[id].journal.finish.value.status.Failed?
    ensures w.execs[id].core.caught.Some?
  {
    ReachableIsGood(w);
    InvParts(w.execs[id]);
  }

  // ----- exceptions after the first status -----

  /**
   At some moment of the history a write of `finishRun`, or the publish of the terminal event, on a way out of the
   loop rejected with `message`.
   */
  ghost predicate FinishingFaulted(history: seq<Action>, id: ExecId, message: string) {
    exists i :: 0 <= i < |history| && FaultsFinishing(Run(NOTHING, history[..i]), id, history[i], message)
  }

  predicate FaultsFinishing(w: World, id: ExecId, a: Action, message: string) {
    && Faults(w, id, a) && Finishing(w.execs[id].core.pc)
    && Verdict(w, w.execs[id].core, a.choice) == Rejected(message)
  }

  /** The executor wrote COMPLETED or CANCELLED, and caught an exception. */
  predicate Revises(e: Exec) {
    e.journal.finish.Some? && !e.journal.finish.value.status.Failed? && e.core.caught.Some?
  }

  lemma RevisesStep(w: World, id: ExecId, a: Action)
    requires Reachable(w) && id in Apply(w, a).execs && Revises(Apply(w, a).execs[id])
    ensures id in w.execs
    ensures var e, f := w.execs[id], Apply(w, a).execs[id];
      (Revises(e) && f.core.caught == e.core.caught) || FaultsFinishing(w, id, a, f.core.caught.value)
  {
    if id in w.execs {
      CaughtStep(w, id, a);
      TryFacts(w, id);
      if a.Settle? && a.id == id && w.execs[id].core.pc.Live() {
        RevisesSettle(w, id, a.choice);
      }
    }
  }

  lemma RevisesSettle(w: World, id: ExecId, ch: Choice)
    requires id in w.execs && w.execs[id].core.pc.Live() && Finishes(w.execs[id])
    requires var e := w.execs[id];
      Revises(Stepped(w, e, ch)) && Catches(e.core, Verdict(w, e.core, ch), Stepped(w, e, ch).core)
    ensures var e, f := w.execs[id], Stepped(w, w.execs[id], ch);
      (Revises(e) && f.core.caught == e.core.caught) || FaultsFinishing(w, id, Settle(id, ch), f.core.caught.value)
  {
  }

  lemma FinishingFaultedLater(before: seq<Action>, a: Action, id: ExecId, message: string)
    ensures FinishingFaulted(before, id, message) || FaultsFinishing(Run(NOTHING, before), id, a, message) ==>
      FinishingFaulted(before + [a], id, message)
  {
    var all := before + [a];
    assert all[..|before|] == before && all[|before|] == a;
    if FinishingFaulted(before, id, message) {
      var i :| 0 <= i < |before| && FaultsFinishing(Run(NOTHING, before[..i]), id, before[i], message);
      assert all[..i] == before[..i] && all[i] == before[i];
    }
  }

  /** An exception caught after COMPLETED or CANCELLED was written came from `finishRun` or the terminal publish. */
  lemma {:induction false} RevisionsFollowAFault(history: seq<Action>, id: ExecId)
    requires id in Run(NOTHING, history).execs && Revises(Run(NOTHING, history).execs[id])
    ensures FinishingFaulted(history, id, Run(NOTHING, history).execs[id].core.caught.value)
  {
    if history != [] {
      var before, a := history[..|history| - 1], history[|history| - 1];
      var message := Run(NOTHING, history).execs[id].core.caught.value;
      assert Reachable(Run(NOTHING, before)) && history == before + [a];
      RevisesStep(Run(NOTHING, before), id, a);
      FinishingFaultedLater(before, a, id, message);
      if !FaultsFinishing(Run(NOTHING, before), id, a, message) {
        RevisionsFollowAFault(before, id);
      }
    }
  }
}
