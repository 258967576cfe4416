/** Where the fixed values of an executor come from: its prompt, the index it starts at, the date it stamps. */
module Origins {
  import opened Wrappers
  import opened AgentTypes
  import opened Executor
  import opened ExecutorInvariants
  import opened ExecutorHistory
  import opened RunProtocol
  import opened Interleavings
  import opened RunTheorems
  import opened Outcomes

  // ----- the prompt -----

  /** One action leaves the prompt and the number of iterations alone. */
  lemma InputsStay(w: World, id: ExecId, a: Action)
    requires Reachable(w) && id in w.execs
    ensures id in Apply(w, a).execs
    ensures var c, d := w.execs[id].core, Apply(w, a).execs[id].core;
      d.prompt == c.prompt && d.maxIterations == c.maxIterations
  {
    if a.Settle? && a.id == id && w.execs[id].core.pc.Live() {
      TryFacts(w, id);
      VerdictSettles(w, w.execs[id].core, a.choice);
      ResumeSucceeds(w.execs[id].core, Verdict(w, w.execs[id].core, a.choice));
    }
  }

  lemma StartsWith(w: World, id: ExecId, a: Action)
    requires id !in w.execs && id in Apply(w, a).execs
    ensures var c := Apply(w, a).execs[id].core; a == Start(id, c.prompt, c.maxIterations)
  {
  }

  /** An executor works with the prompt and the number of iterations it was started with. */
  lemma {:induction false} WorksAsStarted(history: seq<Action>, id: ExecId)
    requires id in Run(NOTHING, history).execs
    ensures var c := Run(NOTHING, history).execs[id].core; Start(id, c.prompt, c.maxIterations) in history
  {
    if history != [] {
      var before, a := history[..|history| - 1], history[|history| - 1];
      assert Reachable(Run(NOTHING, before)) && history == before + [a];
      if id in Run(NOTHING, before).execs {
        WorksAsStarted(before, id);
        InputsStay(Run(NOTHING, before), id, a);
      } else {
        StartsWith(Run(NOTHING, before), id, a);
      }
    }
  }

  // ----- the first index -----

  lemma CounterStays(e: Exec, o: Outcome, applied: bool, now: nat)
    requires Settles(e.core, o, applied, now) && Finishes(e) && !BeforeLoop(e.core.pc)
    ensures var f := Advance(e, o, applied, now); !BeforeLoop(f.core.pc) && f.journal.base == e.journal.base
  {
    if o.Rejected? {
      ThrowLeaves(e.core, o);
    } else if AtHead(e.core.pc) || InRound(e.core.pc) {
      NeverBack(e.core, o);
    } else {
      EndMoves(e, o, applied, now);
    }
  }

  lemma BaseStaysOnSettle(w: World, id: ExecId, ch: Choice)
    requires Reachable(w) && id in w.execs && w.execs[id].core.pc.Live() && !BeforeLoop(w.execs[id].core.pc)
    ensures var f := Stepped(w, w.execs[id], ch);
      !BeforeLoop(f.core.pc) && f.journal.base == w.execs[id].journal.base
  {
    var e := w.execs[id];
    TryFacts(w, id);
    VerdictSettles(w, e.core, ch);
    CounterStays(e, Verdict(w, e.core, ch), Applied(w, e.core, ch), ch.now);
  }

  lemma BaseStays(w: World, id: ExecId, a: Action)
    requires Reachable(w) && id in w.execs && !BeforeLoop(w.execs[id].core.pc)
    ensures id in Apply(w, a).execs && !BeforeLoop(Apply(w, a).execs[id].core.pc)
    ensures Apply(w, a).execs[id].journal.base == w.execs[id].journal.base
  {
    if a.Settle? && a.id == id && w.execs[id].core.pc.Live() {
      BaseStaysOnSettle(w, id, a.choice);
    }
  }

  lemma {:induction false} BaseIsForever(w: World, id: ExecId, actions: seq<Action>)
    requires Reachable(w) && id in w.execs && !BeforeLoop(w.execs[id].core.pc)
    ensures var v := Run(w, actions);
      && Reachable(v) && id in v.execs && !BeforeLoop(v.execs[id].core.pc)
      && v.execs[id].journal.base == w.execs[id].journal.base
  {
    if actions != [] {
      BaseIsForever(w, id, actions[..|actions| - 1]);
      BaseStays(Run(w, actions[..|actions| - 1]), id, actions[|actions| - 1]);
      ReachableNext(Run(w, actions[..|actions| - 1]), actions[|actions| - 1]);
    }
  }

  lemma CountsRows(w: World, e: Exec, ch: Choice)
    requires e.core.pc.CountSteps? && ch.fault.None?
    ensures var f := Stepped(w, e, ch); !BeforeLoop(f.core.pc) && f.journal.base == |w.rows|
  {
  }

  lemma Counts(w: World, id: ExecId, ch: Choice)
    requires id in w.execs && w.execs[id].core.pc.CountSteps? && ch.fault.None?
    ensures var e := Apply(w, Settle(id, ch)).execs[id];
      !BeforeLoop(e.core.pc) && e.journal.base == |w.rows| && Apply(w, Settle(id, ch)).rows == w.rows
  {
    CountsRows(w, w.execs[id], ch);
  }

  /**
   An executor that counted the rows goes on behind them: whatever happens afterwards, its rows have the indices from
   that count on, one after the other, and an index it tries is taken only by a row another executor has stored since.
   */
  lemma IndicesContinueTheCount(w: World, id: ExecId, ch: Choice, after: seq<Action>, i: nat)
    requires Reachable(w) && id in w.execs && w.execs[id].core.pc.CountSteps? && ch.fault.None?
    ensures var v := Run(Apply(w, Settle(id, ch)), after);
      && id in v.execs
      && (i in v.rows && v.rows[i].writer == id ==> i !in w.rows)
      && (v.execs[id].core.pc.StepPg? ==>
            && v.execs[id].core.pc.at == |w.rows| + |v.execs[id].journal.written|
            && (v.execs[id].core.pc.at in v.rows ==>
                  v.rows[v.execs[id].core.pc.at].writer != id && v.execs[id].core.pc.at !in w.rows))
  {
    var v := Run(Apply(w, Settle(id, ch)), after);
    ReachableNext(w, Settle(id, ch));
    Counts(w, id, ch);
    BaseIsForever(Apply(w, Settle(id, ch)), id, after);
    IndicesAreDense(w);
    RowsOf(v, id);
    FactsOf(v, id);
  }

  // ----- the status and its date -----

  /** The action settles executor `id`'s write of `f` to Postgres, stamped with the date of the action. */
  predicate Stamps(w: World, id: ExecId, a: Action, f: Finish) {
    && a.Settle? && a.id == id && id in w.execs
    && w.execs[id].core.pc == FinishPg(f.status, f.error) && a.choice.now == f.finishedAt
  }

  ghost predicate WasStamped(history: seq<Action>, id: ExecId, f: Finish) {
    exists i :: 0 <= i < |history| && Stamps(Run(NOTHING, history[..i]), id, history[i], f)
  }

  lemma StampedLater(before: seq<Action>, a: Action, id: ExecId, f: Finish)
    ensures WasStamped(before, id, f) || Stamps(Run(NOTHING, before), id, a, f) ==> WasStamped(before + [a], id, f)
  {
    var all := before + [a];
    assert all[..|before|] == before && all[|before|] == a;
    if WasStamped(before, id, f) {
      var i :| 0 <= i < |before| && Stamps(Run(NOTHING, before[..i]), id, before[i], f);
      assert all[..i] == before[..i] && all[i] == before[i];
    }
  }

  lemma NotesFinish(c: Core, j: Journal, o: Outcome, applied: bool, now: nat)
    requires Fits(c.pc, o)
    ensures var f := Noted(c, j, o, applied, now).finish;
      f == j.finish || (f.Some? && c.pc == FinishPg(f.value.status, f.value.error) && f.value.finishedAt == now)
  {
  }

  lemma FinishStep(w: World, id: ExecId, a: Action)
    requires id in Apply(w, a).execs && Apply(w, a).execs[id].journal.finish.Some?
    ensures var f := Apply(w, a).execs[id].journal.finish;
      (id in w.execs && w.execs[id].journal.finish == f) || Stamps(w, id, a, f.value)
  {
    if a.Settle? && a.id == id && id in w.execs && w.execs[id].core.pc.Live() {
      var e := w.execs[id];
      VerdictSettles(w, e.core, a.choice);
      NotesFinish(e.core, e.journal, Verdict(w, e.core, a.choice), Applied(w, e.core, a.choice), a.choice.now);
      assert Apply(w, a).execs[id] == Stepped(w, e, a.choice);
    }
  }

  /** The status, error and date an executor last wrote are those of one of its own `finishRun` calls. */
  lemma {:induction false} FinishWasStamped(history: seq<Action>, id: ExecId)
    requires id in Run(NOTHING, history).execs && Run(NOTHING, history).execs[id].journal.finish.Some?
    ensures WasStamped(history, id, Run(NOTHING, history).execs[id].journal.finish.value)
  {
    if history != [] {
      var before, a := history[..|history| - 1], history[|history| - 1];
      assert history == before + [a];
      FinishStep(Run(NOTHING, before), id, a);
      StampedLater(before, a, id, Run(NOTHING, history).execs[id].journal.finish.value);
      if id in Run(NOTHING, before).execs
         && Run(NOTHING, before).execs[id].journal.finish == Run(NOTHING, history).execs[id].journal.finish {
        FinishWasStamped(before, id);
      }
    }
  }

  // ----- what the history counts -----

  /** How often an operation of executor `id` settled at the places `counted` names. */
  function Times(actions: seq<Action>, id: ExecId, counted: Pc -> bool): nat {
    if actions == [] then 0
    else
      var before, a := actions[..|actions| - 1], actions[|actions| - 1];
      var w := Run(NOTHING, before);
      Times(before, id, counted) +
      if a.Settle? && a.id == id && id in w.execs && counted(w.execs[id].core.pc) then 1 else 0
  }

  const ModelCalls := (pc: Pc) => pc.CallModel?
  const ToolRuns := (pc: Pc) => pc.RunTool?
  const SandboxKills := (pc: Pc) => pc.Kill?

  predicate Agrees(j: Journal, calls: nat, tools: nat, kills: nat) {
    j.calls == calls && j.tools == tools && j.kills == kills
  }

  lemma NotesCounts(c: Core, j: Journal, o: Outcome, applied: bool, now: nat)
    requires Fits(c.pc, o)
    ensures Agrees(Noted(c, j, o, applied, now),
                   j.calls + (if c.pc.CallModel? then 1 else 0),
                   j.tools + (if c.pc.RunTool? then 1 else 0),
                   j.kills + if c.pc.Kill? then 1 else 0)
  {
  }

  lemma CountsStep(w: World, id: ExecId, a: Action)
    requires id in w.execs
    ensures id in Apply(w, a).execs
    ensures var j, mine, pc := w.execs[id].journal, a.Settle? && a.id == id, w.execs[id].core.pc;
      Agrees(Apply(w, a).execs[id].journal,
             j.calls + (if mine && pc.CallModel? then 1 else 0),
             j.tools + (if mine && pc.RunTool? then 1 else 0),
             j.kills + if mine && pc.Kill? then 1 else 0)
  {
    if a.Settle? && a.id == id && w.execs[id].core.pc.Live() {
      var e := w.execs[id];
      VerdictSettles(w, e.core, a.choice);
      NotesCounts(e.core, e.journal, Verdict(w, e.core, a.choice), Applied(w, e.core, a.choice), a.choice.now);
      assert Apply(w, a).execs[id] == Stepped(w, e, a.choice);
    }
  }

  lemma NotYet(w: World, id: ExecId, a: Action)
    requires id !in w.execs && id in Apply(w, a).execs
    ensures Apply(w, a).execs[id].journal == BLANK
  {
  }

  /** The history's counts are of the actions: model calls, tools and kills that settled. */
  lemma {:induction false} CountsAreOfActions(actions: seq<Action>, id: ExecId)
    ensures var w := Run(NOTHING, actions);
      if id in w.execs then Agrees(w.execs[id].journal, Times(actions, id, ModelCalls), Times(actions, id, ToolRuns),
                                   Times(actions, id, SandboxKills))
      else Times(actions, id, ModelCalls) == Times(actions, id, ToolRuns) == Times(actions, id, SandboxKills) == 0
  {
    if actions != [] {
      var before, a := actions[..|actions| - 1], actions[|actions| - 1];
      CountsAreOfActions(before, id);
      if id in Run(NOTHING, before).execs {
        CountsStep(Run(NOTHING, before), id, a);
      } else if id in Run(NOTHING, actions).execs {
        NotYet(Run(NOTHING, before), id, a);
      }
    }
  }
}
