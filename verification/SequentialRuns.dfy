/**
 Runs with one live executor at a time, from their creation on or since any moment at which the run was RUNNING and
 nobody worked on it: when Postgres and the mirror agree, and what a status may become.
 */
module SequentialRuns {
  import opened Wrappers
  import opened AgentTypes
  import opened Executor
  import opened ExecutorInvariants
  import opened ExecutorHistory
  import opened RunProtocol
  import opened Interleavings
  import opened RunTheorems
  import opened RunRecords
  import opened Outcomes

  ghost predicate AtMostOneLive(w: World) {
    forall a, b :: a in w.execs && b in w.execs && w.execs[a].core.pc.Live() && w.execs[b].core.pc.Live() ==> a == b
  }

  /** From `base` on, no executor works while another one is alive. */
  ghost predicate OneLiveFrom(base: World, actions: seq<Action>) {
    && (actions != [] ==> OneLiveFrom(base, actions[..|actions| - 1]))
    && AtMostOneLive(Run(base, actions))
  }

  /** `w` comes about in a history with one live executor at a time. */
  ghost predicate Sequential(w: World) {
    exists actions :: OneLiveFrom(NOTHING, actions) && Run(NOTHING, actions) == w
  }

  /**
   Nobody works on the run, whatever happened before: however many executors overlapped and crashed, it is RUNNING
   and none of them is alive; or its job does not exist yet.
   */
  ghost predicate Idle(w: World) {
    && Reachable(w)
    && (w.job ==> w.run.Some? && w.run.value.status.Running?)
    && forall id :: id in w.execs ==> !w.execs[id].core.pc.Live()
  }

  /** `w` comes about with one live executor at a time since some moment at which nobody worked on the run. */
  ghost predicate Alone(w: World) {
    exists base, actions :: Idle(base) && OneLiveFrom(base, actions) && Run(base, actions) == w
  }

  lemma SequentialIsAlone(w: World)
    requires Sequential(w)
    ensures Alone(w)
  {
    var actions :| OneLiveFrom(NOTHING, actions) && Run(NOTHING, actions) == w;
    assert Run(NOTHING, []) == NOTHING;
    assert Idle(NOTHING);
  }

  /** The mirror has not been told of finish `f`. */
  predicate Stale(mirror: Record, f: Finish) {
    mirror.status != f.status && (f.status.Failed? || mirror.status.Running?)
  }

  ghost predicate FinishShows(run: Record, mirror: Record, e: Exec) {
    e.journal.finish.Some? ==>
      var f := e.journal.finish.value;
      run.Shows(f) && if e.journal.lag then Stale(mirror, f) else mirror.Shows(f)
  }

  /** At most one executor has finished the run, nobody else works on it then, and the stores show what it wrote. */
  ghost predicate StoresInv(run: Record, mirror: Record, execs: map<ExecId, Exec>) {
    && (forall id :: id in execs ==> FinishShows(run, mirror, execs[id]))
    && (forall id, k :: id in execs && k in execs && id != k && execs[k].journal.finish.Some? ==>
          execs[id].journal.finish.None? && !Working(execs[id]))
    && ((forall id :: id in execs ==> execs[id].journal.finish.None?) ==> Untouched(run) && Untouched(mirror))
  }

  predicate Notes(j: Journal, finish: Option<Finish>, lag: bool) { j.finish == finish && j.lag == lag }

  /** The records differ at most in the sandbox they name. */
  predicate SameButSandbox(a: Record, b: Record) { a.(sandboxId := None) == b.(sandboxId := None) }

  /** The operation is none of the ones that look at or write the run's status. */
  lemma OtherKeeps(run: Record, mirror: Record, execs: map<ExecId, Exec>, id: ExecId, f: Exec,
                   run': Record, mirror': Record)
    requires StoresInv(run, mirror, execs) && id in execs
    requires SameButSandbox(run, run') && SameButSandbox(mirror, mirror')
    requires Notes(f.journal, execs[id].journal.finish, execs[id].journal.lag)
    requires Working(f) ==> Working(execs[id])
    ensures StoresInv(run', mirror', execs[id := f])
  {
    var execs' := execs[id := f];
    forall k | k in execs' ensures FinishShows(run', mirror', execs'[k]) {
      assert FinishShows(run, mirror, execs[k]);
    }
    if forall k :: k in execs' ==> execs'[k].journal.finish.None? {
      forall k | k in execs ensures execs[k].journal.finish.None? {
        assert execs'[k].journal.finish.None?;
      }
    }
  }

  /** A run found RUNNING has not been finished. */
  lemma LookupKeeps(run: Record, mirror: Record, execs: map<ExecId, Exec>, id: ExecId, f: Exec)
    requires StoresInv(run, mirror, execs) && id in execs
    requires forall k :: k in execs && execs[k].journal.finish.Some? ==> WellFinished(execs[k].journal.finish.value)
    requires f.journal.finish.None? && run.status.Running?
    ensures StoresInv(run, mirror, execs[id := f])
  {
    forall k | k in execs ensures execs[k].journal.finish.None? {
      assert FinishShows(run, mirror, execs[k]);
    }
  }

  /** The working executor writes its status to Postgres. */
  lemma FinishPgKeeps(run: Record, mirror: Record, execs: map<ExecId, Exec>, id: ExecId, f: Exec, finish: Finish)
    requires StoresInv(run, mirror, execs) && id in execs && Working(execs[id])
    requires forall k :: k in execs && k != id ==> !Working(execs[k])
    requires WellFinished(finish)
    requires execs[id].journal.finish.Some? ==>
      finish.status.Failed? && !execs[id].journal.finish.value.status.Failed?
    requires Notes(f.journal, Some(finish), true)
    ensures StoresInv(run.With(finish), mirror, execs[id := f])
  {
    assert forall k :: k in execs && k != id ==> execs[k].journal.finish.None?;
    assert FinishShows(run, mirror, execs[id]);
    if execs[id].journal.finish.None? {
      assert Untouched(mirror);
    }
    assert execs[id := f][id].journal.finish.Some?;
  }

  /** The working executor writes its status to the mirror. */
  lemma FinishMirrorKeeps(run: Record, mirror: Record, execs: map<ExecId, Exec>, id: ExecId, f: Exec, finish: Finish)
    requires StoresInv(run, mirror, execs) && id in execs && Working(execs[id])
    requires execs[id].journal.finish == Some(finish)
    requires Notes(f.journal, Some(finish), false)
    ensures StoresInv(run, mirror.With(finish), execs[id := f])
  {
    assert FinishShows(run, mirror, execs[id]);
    assert execs[id := f][id].journal.finish.Some?;
    assert forall k :: k in execs && k != id ==> execs[k].journal.finish.None?;
  }

  /** What of an executor's invariant these steps use. */
  predicate FinishFacts(e: Exec) {
    var c, j := e.core, e.journal;
    && (j.finish.Some? ==> WellFinished(j.finish.value))
    && (c.pc.Lookup? ==> j.finish.None?)
    && (c.pc.FinishPg? ==>
          && WellFinished(Finish(c.pc.status, c.pc.error, 0))
          && (j.finish.Some? ==> c.pc.status.Failed? && !j.finish.value.status.Failed?))
    && (c.pc.FinishMirror? ==> j.finish == Some(c.pc.finish))
  }

  lemma FinishFactsOf(w: World, id: ExecId)
    requires Reachable(w) && id in w.execs
    ensures FinishFacts(w.execs[id])
  {
    FinishesOf(w, id);
  }

  /** What an operation does to the part of the history that is about the run's record. */
  lemma JournalGoes(w: World, e: Exec, ch: Choice)
    requires e.core.pc.Live()
    ensures var pc, j, happens := e.core.pc, e.journal, Applied(w, e.core, ch);
      Notes(Stepped(w, e, ch).journal,
            if pc.FinishPg? && happens then Some(Finish(pc.status, pc.error, ch.now)) else j.finish,
            if pc.FinishPg? && happens then true else if pc.FinishMirror? && happens then false else j.lag)
  {
  }

  /** Where an executor goes, as far as the run's record is concerned. */
  predicate RecordMoves(w: World, c: Core, ch: Choice, d: Core) {
    && (c.pc.Lookup? ==> (d.pc.SandboxCreate? && w.run.Some? && w.run.value.status.Running?) || !d.pc.Live())
    && (d.pc.SandboxMirror? ==> c.pc.SandboxPg? && Applied(w, c, ch))
    && (!c.pc.SandboxCreate? ==> d.sandbox == c.sandbox)
    && !d.pc.Lookup?
  }

  /** A turn of the loop stays clear of the run's record. */
  lemma TurnGoes(w: World, c: Core, o: Outcome, ch: Choice)
    requires Fits(c.pc, o) && !o.Rejected? && Turns(c.pc) && Conversation(c) && c.caught.None?
    ensures RecordMoves(w, c, ch, Resume(c, o))
  {
    RoundGoes(c, o);
  }

  lemma ThrowGoes(w: World, c: Core, o: Outcome, ch: Choice)
    requires Fits(c.pc, o) && o.Rejected?
    ensures RecordMoves(w, c, ch, Resume(c, o))
  {
  }

  lemma OperationGoes(w: World, c: Core, ch: Choice)
    requires c.pc.Live() && !Turns(c.pc) && !Verdict(w, c, ch).Rejected?
    ensures Fits(c.pc, Verdict(w, c, ch)) && RecordMoves(w, c, ch, Resume(c, Verdict(w, c, ch)))
  {
    VerdictSettles(w, c, ch);
  }

  lemma CoreGoes(w: World, e: Exec, ch: Choice)
    requires e.core.pc.Live() && Conversation(e.core)
    requires AtHead(e.core.pc) || InRound(e.core.pc) ==> e.core.caught.None?
    ensures RecordMoves(w, e.core, ch, Stepped(w, e, ch).core)
  {
    VerdictSettles(w, e.core, ch);
    var o := Verdict(w, e.core, ch);
    if o.Rejected? {
      ThrowGoes(w, e.core, o, ch);
    } else if Turns(e.core.pc) {
      TurnGoes(w, e.core, o, ch);
    } else {
      OperationGoes(w, e.core, ch);
    }
  }

  /** What an operation that writes no status does to the two records. */
  lemma RecordsStay(w: World, c: Core, ch: Choice)
    requires w.run.Some? && w.mirror.Some? && c.pc.Live()
    requires (c.pc.FinishPg? || c.pc.FinishMirror?) ==> !Applied(w, c, ch)
    ensures var happens := Applied(w, c, ch);
      var run := if happens then RunAfter(w.run, c, ch.now) else w.run;
      var mirror := if happens then MirrorAfter(w.mirror, c) else w.mirror;
      && run.Some? && mirror.Some?
      && SameButSandbox(w.run.value, run.value) && SameButSandbox(w.mirror.value, mirror.value)
  {
  }

  /** The stores after an operation of a sole live executor. */
  lemma StoresSettle(w: World, id: ExecId, ch: Choice)
    requires w.run.Some? && w.mirror.Some? && StoresInv(w.run.value, w.mirror.value, w.execs)
    requires id in w.execs && w.execs[id].core.pc.Live() && AtMostOneLive(w)
    requires forall k :: k in w.execs ==> FinishFacts(w.execs[k])
    requires RecordMoves(w, w.execs[id].core, ch, Stepped(w, w.execs[id], ch).core)
    ensures var c, happens := w.execs[id].core, Applied(w, w.execs[id].core, ch);
      var run := if happens then RunAfter(w.run, c, ch.now) else w.run;
      var mirror := if happens then MirrorAfter(w.mirror, c) else w.mirror;
      run.Some? && mirror.Some? && StoresInv(run.value, mirror.value, w.execs[id := Stepped(w, w.execs[id], ch)])
  {
    var e, happens := w.execs[id], Applied(w, w.execs[id].core, ch);
    var f := Stepped(w, e, ch);
    var run, mirror, execs := w.run.value, w.mirror.value, w.execs;
    JournalGoes(w, e, ch);
    if e.core.pc.Lookup? && f.core.pc.Live() {
      LookupKeeps(run, mirror, execs, id, f);
    } else if e.core.pc.FinishPg? && happens {
      FinishPgKeeps(run, mirror, execs, id, f, Finish(e.core.pc.status, e.core.pc.error, ch.now));
    } else if e.core.pc.FinishMirror? && happens {
      FinishMirrorKeeps(run, mirror, execs, id, f, e.core.pc.finish);
    } else {
      RecordsStay(w, e.core, ch);
      OtherKeeps(run, mirror, execs, id, f,
                 (if happens then RunAfter(w.run, e.core, ch.now) else w.run).value,
                 (if happens then MirrorAfter(w.mirror, e.core) else w.mirror).value);
    }
  }

  /** An executor is started. */
  lemma StartKeeps(run: Record, mirror: Record, execs: map<ExecId, Exec>, id: ExecId, f: Exec)
    requires StoresInv(run, mirror, execs) && id !in execs
    requires f.journal == BLANK && f.core.pc.Lookup?
    ensures StoresInv(run, mirror, execs[id := f])
  {
    var execs' := execs[id := f];
    forall k | k in execs' ensures FinishShows(run, mirror, execs'[k]) {
      if k != id {
        assert FinishShows(run, mirror, execs[k]);
      }
    }
    if forall k :: k in execs' ==> execs'[k].journal.finish.None? {
      forall k | k in execs ensures execs[k].journal.finish.None? {
        assert execs'[k].journal.finish.None?;
      }
    }
  }

  /** Once the run has been accepted, the stores show what its executors wrote. */
  ghost predicate AloneInv(w: World) {
    w.job ==> w.run.Some? && w.mirror.Some? && StoresInv(w.run.value, w.mirror.value, w.execs)
  }

  /** It holds whenever nobody works on the run: no status has reached Postgres then. */
  lemma IdleInv(w: World)
    requires Idle(w)
    ensures AloneInv(w)
  {
    CreationOf(w);
    if w.job {
      RunningIsUntouched(w);
    }
  }

  lemma AloneCreate(w: World, ch: Choice)
    requires CreationInv(w) && AloneInv(w)
    ensures AloneInv(CreateStep(w, ch))
  {
    if w.creation.Enqueue? && ch.fault.None? {
      assert w.execs == map[];
    }
  }

  lemma AloneSettle(w: World, id: ExecId, ch: Choice)
    requires Reachable(w) && CreationInv(w) && AloneInv(w) && AtMostOneLive(w)
    requires id in w.execs && w.execs[id].core.pc.Live()
    ensures AloneInv(Apply(w, Settle(id, ch)))
  {
    assert w.execs != map[];
    forall k | k in w.execs ensures FinishFacts(w.execs[k]) {
      FinishFactsOf(w, k);
    }
    FactsOf(w, id);
    CoreGoes(w, w.execs[id], ch);
    StoresSettle(w, id, ch);
  }

  lemma AloneKept(w: World, a: Action)
    requires Reachable(w) && CreationInv(w) && AloneInv(w) && AtMostOneLive(w)
    ensures AloneInv(Apply(w, a))
  {
    match a
    case Create(ch) => AloneCreate(w, ch);
    case Settle(id, ch) =>
      if id in w.execs && w.execs[id].core.pc.Live() {
        AloneSettle(w, id, ch);
      }
    case Start(id, prompt, maxIterations) =>
      if w.job && id !in w.execs {
        StartKeeps(w.run.value, w.mirror.value, w.execs, id, Exec(Begin(prompt, maxIterations), BLANK));
      }
    case CrashOf(id) =>
      if id in w.execs && w.execs[id].core.pc.Live() {
        assert w.execs != map[];
        OtherKeeps(w.run.value, w.mirror.value, w.execs, id, Crash(w.execs[id]), w.run.value, w.mirror.value);
      }
    case _ =>
  }

  lemma {:induction false} AloneInRun(base: World, actions: seq<Action>)
    requires Idle(base) && OneLiveFrom(base, actions)
    ensures Reachable(Run(base, actions)) && AloneInv(Run(base, actions)) && AtMostOneLive(Run(base, actions))
  {
    if actions == [] {
      IdleInv(base);
    } else {
      var before, a := actions[..|actions| - 1], actions[|actions| - 1];
      AloneInRun(base, before);
      CreationOf(Run(base, before));
      AloneKept(Run(base, before), a);
      ReachableNext(Run(base, before), a);
    }
  }

  lemma AloneOf(w: World)
    requires Alone(w)
    ensures Reachable(w) && CreationInv(w) && AloneInv(w) && AtMostOneLive(w)
  {
    var base, actions :| Idle(base) && OneLiveFrom(base, actions) && Run(base, actions) == w;
    AloneInRun(base, actions);
    CreationOf(w);
  }

  // ----- when the stores agree -----

  lemma SettledOf(w: World, id: ExecId)
    requires Reachable(w) && id in w.execs && w.execs[id].core.pc.Returned? && !Skipped(w.execs[id])
    ensures w.execs[id].journal.finish.Some? && !w.execs[id].journal.lag
    ensures SentWithEnd(w.execs[id]) && !w.execs[id].core.rethrow
  {
    ReachableIsGood(w);
    InvParts(w.execs[id]);
  }

  /**
   An executor that found the run RUNNING, with no other executor alive, and returned normally: whatever the executors
   before it had done, Postgres and the mirror hold the status, error and finishedAt it wrote last, and the last event
   it published before the end marker names that status.
   */
  lemma ReturnsInAgreement(w: World, id: ExecId)
    requires Alone(w) && id in w.execs && w.execs[id].core.pc.Returned? && !Skipped(w.execs[id])
    ensures w.run.Some? && w.mirror.Some? && w.execs[id].journal.finish.Some?
    ensures var f := w.execs[id].journal.finish.value;
      var sent := SentBy(w.log, id);
      && w.run.value.Shows(f) && w.mirror.value.Shows(f)
      && |sent| >= 2 && sent[|sent| - 1] == StreamEnd
      && (sent[|sent| - 2] == RunCompleted <==> w.run.value.status == Completed)
      && (sent[|sent| - 2] == RunCancelled <==> w.run.value.status == Cancelled)
      && (w.run.value.status == Failed <==>
            w.run.value.error.Some? && sent[|sent| - 2] == RunFailed(w.run.value.error.value))
      && w.run.value.status != Running
  {
    AloneOf(w);
    SettledOf(w, id);
    PublishedOf(w, id);
    assert w.execs != map[];
    assert FinishShows(w.run.value, w.mirror.value, w.execs[id]);
  }

  /**
   Why both stores then hold the status they hold: FAILED exactly when an exception was caught, with its message;
   else CANCELLED exactly when a check saw the cancel key; else COMPLETED, on a reply that asks for no tools.
   */
  lemma StoredStatusIsExplained(w: World, id: ExecId)
    requires Alone(w) && id in w.execs && w.execs[id].core.pc.Returned? && !Skipped(w.execs[id])
    ensures w.run.Some? && w.mirror.Some? && Agree(w.run.value, w.mirror.value)
    ensures var c, run := w.execs[id].core, w.run.value;
      && (run.status.Failed? <==> c.caught.Some?) && run.error == c.caught
      && (run.status.Cancelled? <==> c.caught.None? && w.execs[id].journal.sawCancel)
      && (run.status.Completed? <==> c.caught.None? && !w.execs[id].journal.sawCancel)
      && (run.status.Completed? ==> EndsOnReply(c))
      && (ToolHungry(c) && !w.execs[id].journal.sawCancel ==> run.status.Failed?)
  {
    ReturnsInAgreement(w, id);
    AloneOf(w);
    StatusIsExplained(w, id);
  }

  /** Some executor applied a status to Postgres that it never applied to the mirror. */
  ghost predicate SomeoneLags(w: World) {
    exists id :: id in w.execs && w.execs[id].journal.lag
  }

  /** Once the job exists, the stores agree unless an executor's last status reached Postgres and not the mirror. */
  lemma ExecutorsKeepInStep(w: World)
    requires Alone(w) && w.job
    ensures w.run.Some? && w.mirror.Some?
    ensures Agree(w.run.value, w.mirror.value) <==> !SomeoneLags(w)
  {
    AloneOf(w);
    var run, mirror := w.run.value, w.mirror.value;
    forall id | id in w.execs ensures w.execs[id].journal.lag ==> w.execs[id].journal.finish.Some? {
      FinishesOf(w, id);
    }
    if id :| id in w.execs && w.execs[id].journal.finish.Some? {
      assert FinishShows(run, mirror, w.execs[id]);
      if Agree(run, mirror) {
        forall k | k in w.execs ensures !w.execs[k].journal.lag {
          assert FinishShows(run, mirror, w.execs[k]);
        }
      }
    }
  }

  /**
   The stores disagree on status, error or finishedAt exactly when a write to Postgres was not followed by its write
   to the mirror: one of `create`, or the last status of some executor, which stopped between the two writes of
   `finishRun` or has still to make the second one.
   */
  lemma StoresAgreeUnlessSomeoneLags(history: seq<Action>)
    requires Alone(Run(NOTHING, history))
    ensures var w := Run(NOTHING, history);
      InStep(w.run, w.mirror) <==> Balanced(Effects(history)) && !SomeoneLags(w)
  {
    var w := Run(NOTHING, history);
    AloneOf(w);
    CreationIsAccounted(history);
    if w.job {
      ExecutorsKeepInStep(w);
    } else {
      CreationKeepsInStep(history);
      assert w.execs == map[];
    }
  }

  // ----- what a status may become -----

  /** FAILED is final, whether an executor or `create` wrote it: no action changes the run's record after it. */
  lemma FailedIsFinal(w: World, a: Action)
    requires Alone(w) && w.run.Some? && w.run.value.status.Failed?
    ensures Apply(w, a).run == w.run
  {
    AloneOf(w);
    if a.Settle? && a.id in w.execs && w.execs[a.id].core.pc.Live() {
      assert w.execs != map[];
      RunEffect(w, a.id, a.choice);
      if Working(w.execs[a.id]) {
        TerminalWriter(w, a.id);
      }
    }
  }

  /** With the run in a terminal status, the one executor at work is the one that finished it. */
  lemma TerminalWriter(w: World, id: ExecId)
    requires Alone(w) && w.run.Some? && !w.run.value.status.Running?
    requires id in w.execs && Working(w.execs[id])
    ensures w.execs[id].journal.finish.Some? && w.run.value.Shows(w.execs[id].journal.finish.value)
    ensures !w.execs[id].core.pc.SandboxPg?
    ensures w.execs[id].core.pc.FinishPg? ==>
      && w.execs[id].core.pc.status.Failed? && w.execs[id].core.caught.Some?
      && !w.execs[id].journal.finish.value.status.Failed?
  {
    AloneOf(w);
    assert w.execs != map[];
    FinishesOf(w, id);
    var k :| k in w.execs && w.execs[k].journal.finish.Some?;
    assert FinishShows(w.run.value, w.mirror.value, w.execs[id]);
  }

  /**
   COMPLETED and CANCELLED change only to FAILED, and only when the executor that wrote them writes FAILED in its
   catch block, after a write of its own `finishRun` or the publish of its terminal event rejected with that error.
   */
  lemma OnlyTheSameExecutionRevises(history: seq<Action>, a: Action)
    requires var w := Run(NOTHING, history);
      && Alone(w) && w.run.Some? && !w.run.value.status.Running?
      && Apply(w, a).run != w.run
    ensures a.Settle? && a.id in Run(NOTHING, history).execs
    ensures var w := Run(NOTHING, history);
      var e := w.execs[a.id];
      && e.journal.finish.Some? && w.run.value.Shows(e.journal.finish.value)
      && e.core.pc.FinishPg? && e.core.caught.Some?
      && FinishingFaulted(history, a.id, e.core.caught.value)
      && !w.run.value.status.Failed?
      && Apply(w, a).run.Some? && Apply(w, a).run.value.status.Failed?
      && Apply(w, a).run.value.error == e.core.caught
  {
    var w := Run(NOTHING, history);
    AloneOf(w);
    if a.Settle? && a.id in w.execs && w.execs[a.id].core.pc.Live() {
      RunEffect(w, a.id, a.choice);
      if Working(w.execs[a.id]) {
        TerminalWriter(w, a.id);
        FinishesOf(w, a.id);
        RevisionsFollowAFault(history, a.id);
      }
    }
  }
}
