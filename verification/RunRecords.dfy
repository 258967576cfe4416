/**
 What the run's record in Postgres and the mirror's document are worth in every interleaving, from the request that
 creates the run on: creation and its compensations, the statuses a run may take, and runs that have ended.
 */
module RunRecords {
  import opened Wrappers
  import opened AgentTypes
  import opened Executor
  import opened ExecutorInvariants
  import opened ExecutorHistory
  import opened RunProtocol
  import opened Interleavings
  import opened RunTheorems

  const FRESH := Record(Running, None, None, None)

  /** The two stores hold the same status, error and finishedAt. */
  predicate Agree(run: Record, mirror: Record) {
    run.status == mirror.status && run.error == mirror.error && run.finishedAt == mirror.finishedAt
  }

  /** The two stores agree on the run, or neither holds one. */
  predicate InStep(run: Option<Record>, mirror: Option<Record>) {
    if run.None? || mirror.None? then run == mirror else Agree(run.value, mirror.value)
  }

  // ----- creation -----

  /** Both stores hold the fresh run before the job is enqueued, and only then do executors start. */
  predicate CreationInv(w: World) {
    && (w.job <==> w.creation.Accepted?)
    && (w.job ==> w.run.Some? && w.mirror.Some?)
    && (w.creation.InsertRun? ==> w.run.None? && w.mirror.None?)
    && (w.creation.SetRun? ==> w.run == Some(FRESH) && w.mirror.None?)
    && (w.creation.Audit? || w.creation.Enqueue? ==> w.run == w.mirror == Some(FRESH))
    && (w.creation.FailUnmirrored? || w.creation.FailUnqueued? ==> w.run == Some(FRESH))
    && (w.execs != map[] ==> w.job)
  }

  lemma CreationSettle(w: World, id: ExecId, ch: Choice)
    requires CreationInv(w) && id in w.execs && w.execs[id].core.pc.Live()
    ensures CreationInv(Apply(w, Settle(id, ch)))
  {
    assert w.execs != map[];
  }

  lemma CreationKept(w: World, a: Action)
    requires CreationInv(w)
    ensures CreationInv(Apply(w, a))
  {
    match a
    case Settle(id, ch) =>
      if id in w.execs && w.execs[id].core.pc.Live() {
        CreationSettle(w, id, ch);
      }
    case CrashOf(id) => assert id in w.execs ==> w.execs != map[];
    case _ =>
  }

  lemma {:induction false} CreationOfRun(actions: seq<Action>)
    ensures CreationInv(Run(NOTHING, actions))
  {
    if actions != [] {
      CreationOfRun(actions[..|actions| - 1]);
      CreationKept(Run(NOTHING, actions[..|actions| - 1]), actions[|actions| - 1]);
    }
  }

  lemma CreationOf(w: World)
    requires Reachable(w)
    ensures CreationInv(w)
  {
    var actions :| Run(NOTHING, actions) == w;
    CreationOfRun(actions);
  }

  /** Everything settles well. */
  const FINE := Choice(None, false, 7, [], false, "", false)

  /** The run as it is when `create` has returned. */
  const ACCEPTED := NOTHING.(run := Some(FRESH), mirror := Some(FRESH), creation := Accepted, job := true)

  const ACCEPTING := [Create(FINE), Create(FINE)] + [Create(FINE)] + [Create(FINE)]

  lemma AcceptedRun()
    ensures Run(NOTHING, ACCEPTING) == ACCEPTED
  {
    var start := [Create(FINE), Create(FINE)];
    assert start == [] + [Create(FINE)] + [Create(FINE)];
    RunSnoc(NOTHING, [], Create(FINE));
    RunSnoc(NOTHING, [] + [Create(FINE)], Create(FINE));
    RunSnoc(NOTHING, start, Create(FINE));
    RunSnoc(NOTHING, start + [Create(FINE)], Create(FINE));
  }

  // ----- what the writes of `create` leave -----

  /** The writes of `create` to the stores: the row, its document, and those that mark the run FAILED. */
  datatype CreateWrite = Inserted | Mirrored | FailedUnmirrored | FailedUnqueued | FailureMirrored

  function WriteOf(c: Creation): set<CreateWrite> {
    match c
    case InsertRun => {Inserted}
    case SetRun => {Mirrored}
    case FailUnmirrored => {FailedUnmirrored}
    case FailUnqueued => {FailedUnqueued}
    case FailUnqueuedMirror(_) => {FailureMirrored}
    case Audit => {}
    case Enqueue => {}
    case Accepted => {}
    case Refused => {}
    case Abandoned => {}
  }

  /** The writes of `create` that took effect, whether they resolved or rejected. */
  function Effects(history: seq<Action>): set<CreateWrite> {
    if history == [] then {}
    else
      var before, a := history[..|history| - 1], history[|history| - 1];
      if a.Create? && (a.choice.fault.None? || a.choice.applied)
      then Effects(before) + WriteOf(Run(NOTHING, before).creation)
      else Effects(before)
  }

  /** Every write to Postgres was followed by its write to the mirror. */
  predicate Balanced(effects: set<CreateWrite>) {
    && (Inserted in effects <==> Mirrored in effects)
    && FailedUnmirrored !in effects
    && (FailedUnqueued in effects <==> FailureMirrored in effects)
  }

  predicate IsFailure(r: Record, message: string) {
    r.status.Failed? && r.error == Some(message) && r.finishedAt.Some? && r.sandboxId.None?
  }

  /** The record in Postgres, and the document, as the writes of `create` that took effect leave them. */
  predicate Accounted(run: Option<Record>, mirror: Option<Record>, effects: set<CreateWrite>) {
    && (if Inserted !in effects then run.None?
        else if FailedUnmirrored in effects then run.Some? && IsFailure(run.value, MIRROR_FAILURE)
        else if FailedUnqueued in effects then run.Some? && IsFailure(run.value, ENQUEUE_FAILURE)
        else run == Some(FRESH))
    && (if Mirrored !in effects then mirror.None?
        else if FailureMirrored in effects then mirror == run
        else mirror == Some(FRESH))
  }

  /** Which writes can have taken effect when `create` has come to `c`. */
  predicate Possible(c: Creation, effects: set<CreateWrite>) {
    && (Mirrored in effects || FailedUnmirrored in effects || FailedUnqueued in effects ==> Inserted in effects)
    && (FailedUnqueued in effects ==> Mirrored in effects && FailedUnmirrored !in effects)
    && (FailureMirrored in effects ==> FailedUnqueued in effects)
    && match c
       case InsertRun => effects == {}
       case SetRun => effects == {Inserted}
       case FailUnmirrored => effects == {Inserted} || effects == {Inserted, Mirrored}
       case Audit => effects == {Inserted, Mirrored}
       case Enqueue => effects == {Inserted, Mirrored}
       case Accepted => effects == {Inserted, Mirrored}
       case FailUnqueued => effects == {Inserted, Mirrored}
       case FailUnqueuedMirror(f) => effects == {Inserted, Mirrored, FailedUnqueued}
       case Refused => true
       case Abandoned => true
  }

  /** The failure about to be mirrored is the one in Postgres. */
  predicate FailureKnown(c: Creation, run: Option<Record>) {
    c.FailUnqueuedMirror? ==> run == Some(FRESH.With(c.finish)) && IsFailure(FRESH.With(c.finish), ENQUEUE_FAILURE)
  }

  predicate CreationAccounted(w: World, effects: set<CreateWrite>) {
    && Possible(w.creation, effects)
    && (!w.job ==> Accounted(w.run, w.mirror, effects) && FailureKnown(w.creation, w.run))
  }

  lemma CreateAccounted(w: World, effects: set<CreateWrite>, ch: Choice)
    requires CreationInv(w) && CreationAccounted(w, effects)
    ensures CreationAccounted(CreateStep(w, ch),
      if ch.fault.None? || ch.applied then effects + WriteOf(w.creation) else effects)
  {
  }

  lemma OtherAccounted(w: World, effects: set<CreateWrite>, a: Action)
    requires CreationInv(w) && CreationAccounted(w, effects) && !a.Create?
    ensures CreationAccounted(Apply(w, a), effects)
  {
  }

  lemma {:induction false} CreationIsAccounted(history: seq<Action>)
    ensures CreationAccounted(Run(NOTHING, history), Effects(history))
  {
    if history != [] {
      var before, a := history[..|history| - 1], history[|history| - 1];
      CreationIsAccounted(before);
      CreationOfRun(before);
      if a.Create? {
        CreateAccounted(Run(NOTHING, before), Effects(before), a.choice);
      } else {
        OtherAccounted(Run(NOTHING, before), Effects(before), a);
      }
    }
  }

  /**
   As long as no job exists, the stores disagree exactly when a write of `create` to Postgres took effect and its
   write to the mirror did not, or the run was marked FAILED for not being mirrored.
   */
  lemma CreationKeepsInStep(history: seq<Action>)
    requires !Run(NOTHING, history).job
    ensures var w := Run(NOTHING, history);
      && Accounted(w.run, w.mirror, Effects(history))
      && (InStep(w.run, w.mirror) <==> Balanced(Effects(history)))
  {
    CreationIsAccounted(history);
  }

  // ----- every interleaving: a run never returns to RUNNING -----

  /** What a settled operation does to the run's record. */
  lemma RunEffect(w: World, id: ExecId, ch: Choice)
    requires id in w.execs && w.execs[id].core.pc.Live()
    ensures var c := w.execs[id].core;
      Apply(w, Settle(id, ch)).run == if Applied(w, c, ch) then RunAfter(w.run, c, ch.now) else w.run
  {
  }

  lemma FinishesOf(w: World, id: ExecId)
    requires Reachable(w) && id in w.execs
    ensures Finishes(w.execs[id])
  {
    ReachableIsGood(w);
    InvParts(w.execs[id]);
  }

  lemma FinishPgIsTerminal(w: World, id: ExecId)
    requires Reachable(w) && id in w.execs && w.execs[id].core.pc.FinishPg?
    ensures !w.execs[id].core.pc.status.Running?
  {
    FinishesOf(w, id);
  }

  /** Whatever happens next, in whatever interleaving, a run that has left RUNNING does not return to it. */
  lemma NeverRunsAgain(w: World, a: Action)
    requires Reachable(w) && w.run.Some? && !w.run.value.status.Running?
    ensures Apply(w, a).run.Some? && !Apply(w, a).run.value.status.Running?
  {
    CreationOf(w);
    if a.Settle? && a.id in w.execs && w.execs[a.id].core.pc.Live() {
      RunEffect(w, a.id, a.choice);
      if w.execs[a.id].core.pc.FinishPg? {
        FinishPgIsTerminal(w, a.id);
      }
    }
  }

  // ----- runs nobody will execute -----

  /** `create` is over, or its process died, and there is no job. */
  predicate Stranded(w: World) {
    (w.creation.Refused? || w.creation.Abandoned?) && !w.job && w.execs == map[]
  }

  lemma StrandedStep(w: World, a: Action)
    requires Stranded(w)
    ensures var v := Apply(w, a);
      Stranded(v) && v.run == w.run && v.mirror == w.mirror && v.rows == w.rows && v.log == w.log
  {
  }

  /** Without a job nothing ever happens to the run again. */
  lemma {:induction false} StrandedIsForever(w: World, actions: seq<Action>)
    requires Stranded(w)
    ensures var v := Run(w, actions);
      Stranded(v) && v.run == w.run && v.mirror == w.mirror && v.rows == w.rows && v.log == w.log
  {
    if actions != [] {
      StrandedIsForever(w, actions[..|actions| - 1]);
      StrandedStep(Run(w, actions[..|actions| - 1]), actions[|actions| - 1]);
    }
  }

  /** A `create` whose process dies before the mirror write leaves a RUNNING run in Postgres alone, for good. */
  lemma DeadCreateStrands(later: seq<Action>)
    ensures var w := Run(NOTHING, [Create(FINE)] + [AbandonCreate] + later);
      w.run == Some(FRESH) && w.mirror.None? && !w.job && w.execs == map[]
  {
    assert [] + [Create(FINE)] == [Create(FINE)];
    RunSnoc(NOTHING, [], Create(FINE));
    RunSnoc(NOTHING, [Create(FINE)], AbandonCreate);
    RunConcat(NOTHING, [Create(FINE)] + [AbandonCreate], later);
    StrandedIsForever(Run(NOTHING, [Create(FINE)] + [AbandonCreate]), later);
  }

  /** A `create` whose audit write rejects leaves a RUNNING run in both stores, for good. */
  lemma RejectedAuditStrands(message: string, later: seq<Action>)
    ensures var w := Run(NOTHING, [Create(FINE), Create(FINE)] + [Create(FINE.(fault := Some(message)))] + later);
      w.run == w.mirror == Some(FRESH) && !w.job && w.execs == map[]
  {
    var stored := [Create(FINE), Create(FINE)];
    assert [] + [Create(FINE)] == [Create(FINE)] && [Create(FINE)] + [Create(FINE)] == stored;
    RunSnoc(NOTHING, [], Create(FINE));
    RunSnoc(NOTHING, [Create(FINE)], Create(FINE));
    RunSnoc(NOTHING, stored, Create(FINE.(fault := Some(message))));
    RunConcat(NOTHING, stored + [Create(FINE.(fault := Some(message)))], later);
    StrandedIsForever(Run(NOTHING, stored + [Create(FINE.(fault := Some(message)))]), later);
  }

  // ----- every interleaving: a RUNNING run is untouched -----

  /** No executor's status has reached Postgres. */
  ghost predicate NothingFinishedYet(w: World) {
    forall id :: id in w.execs ==> w.execs[id].journal.finish.None?
  }

  predicate Untouched(r: Record) { r.(sandboxId := None) == FRESH }

  /** Both stores are as `create` left them until a status reaches Postgres; from then on the run is not RUNNING. */
  ghost predicate FreshInv(w: World) {
    w.job ==>
      && w.run.Some? && w.mirror.Some?
      && if NothingFinishedYet(w) then Untouched(w.run.value) && Untouched(w.mirror.value)
         else !w.run.value.status.Running?
  }

  lemma FinishGoes(w: World, e: Exec, ch: Choice)
    requires e.core.pc.Live()
    ensures var j := Stepped(w, e, ch).journal;
      if e.core.pc.FinishPg? && Applied(w, e.core, ch)
      then j.finish == Some(Finish(e.core.pc.status, e.core.pc.error, ch.now))
      else j.finish == e.journal.finish
  {
  }

  /** What writes no status writes at most a sandbox id. */
  lemma RecordsStayUntouched(w: World, id: ExecId, ch: Choice)
    requires id in w.execs && w.execs[id].core.pc.Live() && w.run.Some? && w.mirror.Some?
    requires Untouched(w.run.value) && Untouched(w.mirror.value)
    requires w.execs[id].core.pc.FinishPg? ==> !Applied(w, w.execs[id].core, ch)
    requires !w.execs[id].core.pc.FinishMirror?
    ensures var v := Apply(w, Settle(id, ch));
      v.run.Some? && v.mirror.Some? && Untouched(v.run.value) && Untouched(v.mirror.value)
  {
  }

  lemma FreshSettle(w: World, id: ExecId, ch: Choice)
    requires Reachable(w) && FreshInv(w) && w.job && id in w.execs && w.execs[id].core.pc.Live()
    ensures FreshInv(Apply(w, Settle(id, ch)))
  {
    var e, v := w.execs[id], Apply(w, Settle(id, ch));
    FinishesOf(w, id);
    FinishGoes(w, e, ch);
    assert v.execs == w.execs[id := Stepped(w, e, ch)];
    if NothingFinishedYet(v) {
      assert v.execs[id].journal.finish.None?;
      forall k | k in w.execs && k != id ensures w.execs[k].journal.finish.None? {
        assert v.execs[k].journal.finish.None?;
      }
      assert NothingFinishedYet(w);
      RecordsStayUntouched(w, id, ch);
    } else {
      FreshUnlessFinished(w, v, id, ch);
    }
  }

  lemma FreshUnlessFinished(w: World, v: World, id: ExecId, ch: Choice)
    requires Reachable(w) && FreshInv(w) && w.job && id in w.execs && w.execs[id].core.pc.Live()
    requires v == Apply(w, Settle(id, ch)) && !NothingFinishedYet(v)
    ensures v.run.Some? && v.mirror.Some? && !v.run.value.status.Running?
  {
    var e := w.execs[id];
    FinishesOf(w, id);
    FinishGoes(w, e, ch);
    var k :| k in v.execs && v.execs[k].journal.finish.Some?;
    assert v.execs == w.execs[id := Stepped(w, e, ch)];
    if !(e.core.pc.FinishPg? && Applied(w, e.core, ch)) {
      assert w.execs[k].journal.finish.Some?;
    }
  }

  lemma FreshKept(w: World, a: Action)
    requires Reachable(w) && CreationInv(w) && FreshInv(w)
    ensures FreshInv(Apply(w, a))
  {
    match a
    case Create(ch) => assert w.execs != map[] ==> w.job;
    case Settle(id, ch) =>
      if id in w.execs && w.execs[id].core.pc.Live() {
        assert w.execs != map[];
        FreshSettle(w, id, ch);
      }
    case Start(id, prompt, maxIterations) =>
      if w.job && id !in w.execs {
        FreshSwap(w, id, Exec(Begin(prompt, maxIterations), BLANK));
      }
    case CrashOf(id) =>
      if id in w.execs && w.execs[id].core.pc.Live() {
        FreshSwap(w, id, Crash(w.execs[id]));
      }
    case AbandonCreate =>
    case RequestCancel =>
    case ExpireCancel =>
  }

  lemma FreshSwap(w: World, id: ExecId, f: Exec)
    requires FreshInv(w)
    requires f.journal.finish == if id in w.execs then w.execs[id].journal.finish else None
    ensures FreshInv(w.(execs := w.execs[id := f]))
  {
    var v := w.(execs := w.execs[id := f]);
    if NothingFinishedYet(v) {
      forall k | k in w.execs ensures w.execs[k].journal.finish.None? {
        assert v.execs[k].journal.finish.None?;
      }
    }
  }

  lemma {:induction false} FreshOfRun(history: seq<Action>)
    ensures FreshInv(Run(NOTHING, history))
  {
    if history != [] {
      var before := history[..|history| - 1];
      FreshOfRun(before);
      CreationOfRun(before);
      assert Reachable(Run(NOTHING, before));
      FreshKept(Run(NOTHING, before), history[|history| - 1]);
    }
  }

  /** However its executors raced and crashed, a RUNNING run has been finished by none, and both stores show that. */
  lemma RunningIsUntouched(w: World)
    requires Reachable(w) && w.job
    ensures w.run.Some? && w.mirror.Some?
    ensures w.run.value.status.Running? <==> NothingFinishedYet(w)
    ensures w.run.value.status.Running? ==> Untouched(w.run.value) && Untouched(w.mirror.value)
  {
    var history :| Run(NOTHING, history) == w;
    FreshOfRun(history);
  }

  // ----- re-executing a finished run -----

  /** The executor has got past the check of the run's status, and has not ended. */
  predicate Working(e: Exec) { e.core.pc.Live() && !e.core.pc.Lookup? }

  /** The run has ended and nobody works on it. */
  ghost predicate AtRest(w: World) {
    && w.run.Some? && !w.run.value.status.Running?
    && w.creation.Accepted?
    && forall id :: id in w.execs ==> !Working(w.execs[id])
  }

  lemma InertStep(w: World, a: Action)
    requires AtRest(w)
    ensures var v := Apply(w, a);
      && AtRest(v)
      && v.rows == w.rows && v.docs == w.docs && v.run == w.run && v.mirror == w.mirror && v.log == w.log
      && v.sandboxes == w.sandboxes && v.live == w.live
  {
    match a
    case Settle(id, ch) =>
      if id in w.execs && w.execs[id].core.pc.Live() {
        InertSettle(w, id, ch);
      }
    case _ =>
  }

  lemma InertSettle(w: World, id: ExecId, ch: Choice)
    requires AtRest(w) && id in w.execs && w.execs[id].core.pc.Live()
    ensures var v := Apply(w, Settle(id, ch));
      && AtRest(v)
      && v.rows == w.rows && v.docs == w.docs && v.run == w.run && v.mirror == w.mirror && v.log == w.log
      && v.sandboxes == w.sandboxes && v.live == w.live
  {
    assert !Working(w.execs[id]) && w.execs[id].core.pc.Lookup?;
  }

  /**
   Re-executing a run that has ended, any number of times and in any interleaving, changes no row, no document, no
   record, no event and no sandbox. So a difference between the stores that is there when the run rests stays.
   */
  lemma {:induction false} FinishedRunsAreInert(w: World, actions: seq<Action>)
    requires AtRest(w)
    ensures var v := Run(w, actions);
      && AtRest(v)
      && v.rows == w.rows && v.docs == w.docs && v.run == w.run && v.mirror == w.mirror && v.log == w.log
      && v.sandboxes == w.sandboxes && v.live == w.live
  {
    if actions != [] {
      FinishedRunsAreInert(w, actions[..|actions| - 1]);
      InertStep(Run(w, actions[..|actions| - 1]), actions[|actions| - 1]);
    }
  }
}
