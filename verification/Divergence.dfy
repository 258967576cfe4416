/**
 How Postgres and the mirror part for good, although every mirror write is awaited: every worker that crashes between
 the two writes of `finishRun`, and two executors of one run whose writes cross.
 */
module Divergence {
  import opened Wrappers
  import opened AgentTypes
  import opened Executor
  import opened ExecutorHistory
  import opened RunProtocol
  import opened RunTheorems
  import opened RunRecords
  import opened SequentialRuns

  function Fails(message: string): Choice { FINE.(fault := Some(message)) }

  lemma SequentialNext(w: World, a: Action)
    requires Sequential(w) && AtMostOneLive(Apply(w, a))
    ensures Sequential(Apply(w, a))
  {
    var actions :| OneLiveFrom(NOTHING, actions) && Run(NOTHING, actions) == w;
    RunSnoc(NOTHING, actions, a);
    assert (actions + [a])[..|actions|] == actions;
    assert OneLiveFrom(NOTHING, actions + [a]);
  }

  lemma Accepting()
    ensures Sequential(ACCEPTED) && Reachable(ACCEPTED)
  {
    assert OneLiveFrom(NOTHING, []) && Run(NOTHING, []) == NOTHING;
    var a := Create(FINE);
    var w1 := Apply(NOTHING, a);
    SequentialNext(NOTHING, a);
    var w2 := Apply(w1, a);
    SequentialNext(w1, a);
    var w3 := Apply(w2, a);
    SequentialNext(w2, a);
    assert Apply(w3, a) == ACCEPTED;
    SequentialNext(w3, a);
    AcceptedRun();
  }

  /** An executor whose sandbox could not be created, about to mark the run FAILED. */
  function Doomed(message: string): Exec {
    Exec(Begin("", 1).(pc := FinishPg(Failed, Some(message)), caught := Some(message)), BLANK)
  }

  /** The same, with the failure in Postgres and not in the mirror. */
  function HalfDone(message: string): Exec {
    var f := Finish(Failed, Some(message), 7);
    Exec(Begin("", 1).(pc := FinishMirror(f), caught := Some(message)), BLANK.(finish := Some(f), lag := true))
  }

  /** An executor that has looked the run up. */
  function Opened(): Exec { Exec(Begin("", 1).(pc := SandboxCreate), BLANK) }

  /** A started executor finds the run RUNNING. */
  lemma Opens(w: World, id: ExecId)
    requires w.job && w.run.Some? && w.run.value.status.Running? && id !in w.execs
    ensures Apply(Apply(w, Start(id, "", 1)), Settle(id, FINE)) == w.(execs := w.execs[id := Opened()])
  {
    var v := Apply(w, Start(id, "", 1));
    assert v.execs[id] == Exec(Begin("", 1), BLANK);
    assert Stepped(v, v.execs[id], FINE) == Opened();
    assert v.execs[id := Opened()] == w.execs[id := Opened()];
  }

  /** Its sandbox cannot be created. */
  lemma Dooms(w: World, id: ExecId, message: string)
    requires id in w.execs && w.execs[id] == Opened()
    ensures Apply(w, Settle(id, Fails(message))) == w.(execs := w.execs[id := Doomed(message)])
  {
    assert Stepped(w, w.execs[id], Fails(message)) == Doomed(message);
  }

  /** It writes FAILED to Postgres. */
  lemma HalfWrites(w: World, id: ExecId, message: string)
    requires id in w.execs && w.execs[id] == Doomed(message) && w.run.Some?
    ensures Apply(w, Settle(id, FINE)) ==
      w.(run := Some(w.run.value.With(Finish(Failed, Some(message), 7))), execs := w.execs[id := HalfDone(message)])
  {
    assert Stepped(w, w.execs[id], FINE) == HalfDone(message);
  }

  /** The accepted run, with one executor that could not create its sandbox. */
  function OneDoomed(message: string): World {
    ACCEPTED.(execs := map[0 := Doomed(message)])
  }

  lemma Dooming(message: string)
    ensures Sequential(OneDoomed(message))
  {
    Accepting();
    var w1 := Apply(ACCEPTED, Start(0, "", 1));
    SequentialNext(ACCEPTED, Start(0, "", 1));
    Opens(ACCEPTED, 0);
    var w2 := Apply(w1, Settle(0, FINE));
    SequentialNext(w1, Settle(0, FINE));
    Dooms(w2, 0, message);
    assert w2.execs[0 := Doomed(message)] == map[0 := Doomed(message)];
    SequentialNext(w2, Settle(0, Fails(message)));
  }

  /** The accepted run, its one executor between the two writes of `finishRun`. */
  function OneHalfDone(message: string): World {
    ACCEPTED.(
      run := Some(FRESH.With(Finish(Failed, Some(message), 7))),
      execs := map[0 := HalfDone(message)])
  }

  lemma Halving(message: string)
    ensures Sequential(OneHalfDone(message))
  {
    Dooming(message);
    var w := OneDoomed(message);
    HalfWrites(w, 0, message);
    assert w.execs[0 := HalfDone(message)] == OneHalfDone(message).execs;
    SequentialNext(w, Settle(0, FINE));
  }

  /** An executor between the two writes of `finishRun` lags by the finish it is about to mirror. */
  lemma BetweenWritesLags(w: World, id: ExecId)
    requires Reachable(w) && id in w.execs && w.execs[id].core.pc.FinishMirror?
    ensures w.execs[id].journal.lag && w.execs[id].journal.finish == Some(w.execs[id].core.pc.finish)
  {
    FinishesOf(w, id);
  }

  /** After the crash of the sole executor, whose status reached Postgres, nobody works on the run. */
  lemma CrashLeavesAtRest(w: World, id: ExecId)
    requires Alone(w) && id in w.execs && w.execs[id].core.pc.Live() && w.execs[id].journal.finish.Some?
    ensures AtRest(Apply(w, CrashOf(id)))
    ensures w.run.Some? && w.mirror.Some? && FinishShows(w.run.value, w.mirror.value, w.execs[id])
  {
    AloneOf(w);
    FinishesOf(w, id);
    assert w.execs != map[];
    assert FinishShows(w.run.value, w.mirror.value, w.execs[id]);
  }

  /**
   A sole executor that crashes when its last status is in Postgres and not in the mirror, as it is between the two
   writes of `finishRun`, leaves the stores with different statuses, and no later execution, however many are
   started, repairs it: they all find the run ended and do nothing.
   */
  lemma CrashDivergesForGood(w: World, id: ExecId, later: seq<Action>)
    requires Alone(w) && id in w.execs && w.execs[id].core.pc.Live()
    requires w.execs[id].core.pc.FinishMirror? || w.execs[id].journal.lag
    ensures w.execs[id].journal.finish.Some?
    ensures w.execs[id].core.pc.FinishMirror? ==> w.execs[id].journal.finish == Some(w.execs[id].core.pc.finish)
    ensures var v, f := Run(Apply(w, CrashOf(id)), later), w.execs[id].journal.finish.value;
      && v.run.Some? && v.run.value.Shows(f)
      && v.mirror.Some? && v.mirror == w.mirror && v.mirror.value.status != f.status
  {
    AloneOf(w);
    FinishesOf(w, id);
    if w.execs[id].core.pc.FinishMirror? {
      BetweenWritesLags(w, id);
    }
    CrashLeavesAtRest(w, id);
    FinishedRunsAreInert(Apply(w, CrashOf(id)), later);
  }

  /** Such a crash happens: FAILED in Postgres and RUNNING in the mirror, after every later history. */
  lemma CrashCanStrand(message: string, later: seq<Action>)
    ensures Sequential(OneHalfDone(message))
    ensures var v := Run(Apply(OneHalfDone(message), CrashOf(0)), later);
      && v.run.Some? && v.run.value.status.Failed?
      && v.mirror.Some? && v.mirror.value.status.Running?
  {
    Halving(message);
    SequentialIsAlone(OneHalfDone(message));
    CrashDivergesForGood(OneHalfDone(message), 0, later);
  }

  /** The executor has marked the run in both stores and has three operations left. */
  function Told(message: string): Exec {
    var f := Finish(Failed, Some(message), 7);
    Exec(Begin("", 1).(pc := EmitTerminal(Failed, Some(message)), caught := Some(message)), BLANK.(finish := Some(f)))
  }

  lemma Tells(w: World, id: ExecId, message: string)
    requires id in w.execs && w.execs[id] == HalfDone(message) && w.mirror.Some?
    ensures Apply(w, Settle(id, FINE)) ==
      w.(mirror := Some(w.mirror.value.With(Finish(Failed, Some(message), 7))), execs := w.execs[id := Told(message)])
  {
    assert Stepped(w, w.execs[id], FINE) == Told(message);
  }

  /** One more operation brings executor `id` to `pc`, leaving the records and the other executors alone. */
  ghost predicate Closer(w: World, v: World, id: ExecId, pc: Pc) {
    && Reachable(v) && v.run == w.run && v.mirror == w.mirror
    && id in v.execs && id in w.execs && v.execs[id].core == w.execs[id].core.(pc := pc)
    && v.execs[id].journal.finish == w.execs[id].journal.finish
    && forall k :: k in w.execs && k != id ==> k in v.execs && v.execs[k] == w.execs[k]
  }

  lemma Closes(w: World, id: ExecId)
    requires Reachable(w) && id in w.execs && w.execs[id].core.sandbox.None? && !w.execs[id].core.rethrow
    requires w.execs[id].core.pc.EmitTerminal? || w.execs[id].core.pc.EmitEnd? || w.execs[id].core.pc.DeleteCancel?
    ensures Closer(w, Apply(w, Settle(id, FINE)), id,
                   match w.execs[id].core.pc
                   case EmitTerminal(_, _) => EmitEnd
                   case EmitEnd => DeleteCancel
                   case _ => Returned)
  {
    ReachableNext(w, Settle(id, FINE));
  }

  /** From there it returns. */
  lemma Leaves(w: World, id: ExecId, message: string) returns (v: World)
    requires Reachable(w) && id in w.execs && w.execs[id] == Told(message)
    ensures Closer(w, v, id, Returned)
  {
    Closes(w, id);
    var w1 := Apply(w, Settle(id, FINE));
    Closes(w1, id);
    var w2 := Apply(w1, Settle(id, FINE));
    Closes(w2, id);
    v := Apply(w2, Settle(id, FINE));
  }

  /** Two executors of the accepted run, both about to mark it FAILED. */
  function TwoDoomed(a: string, b: string): World {
    ACCEPTED.(execs := map[0 := Doomed(a), 1 := Doomed(b)])
  }

  lemma Racing(a: string, b: string)
    ensures Reachable(TwoDoomed(a, b))
  {
    Accepting();
    var w1 := Apply(ACCEPTED, Start(0, "", 1));
    ReachableNext(ACCEPTED, Start(0, "", 1));
    Opens(ACCEPTED, 0);
    var w2 := Apply(w1, Settle(0, FINE));
    ReachableNext(w1, Settle(0, FINE));
    var w3 := Apply(w2, Start(1, "", 1));
    ReachableNext(w2, Start(1, "", 1));
    Opens(w2, 1);
    var w4 := Apply(w3, Settle(1, FINE));
    ReachableNext(w3, Settle(1, FINE));
    RacingOn(w4, a, b);
  }

  lemma RacingOn(w: World, a: string, b: string)
    requires Reachable(w) && w == ACCEPTED.(execs := map[][0 := Opened()][1 := Opened()])
    ensures Reachable(TwoDoomed(a, b))
  {
    Dooms(w, 0, a);
    var v := Apply(w, Settle(0, Fails(a)));
    ReachableNext(w, Settle(0, Fails(a)));
    Dooms(v, 1, b);
    ReachableNext(v, Settle(1, Fails(b)));
    assert v.execs[1 := Doomed(b)] == TwoDoomed(a, b).execs;
  }

  /**
   Two executors of one run, neither crashing and no store write failing, can both return normally and leave
   different errors in Postgres and in the mirror: agreement needs one live executor at a time.
   */
  lemma RacingExecutorsDisagree(a: string, b: string) returns (w: World)
    requires a != b
    ensures Reachable(w) && w.run.Some? && w.mirror.Some? && !Agree(w.run.value, w.mirror.value)
    ensures forall id: ExecId :: id < 2 ==> id in w.execs && w.execs[id].core.pc.Returned? && !Skipped(w.execs[id])
  {
    Racing(a, b);
    w := TwoDoomed(a, b);
    HalfWrites(w, 0, a);
    ReachableNext(w, Settle(0, FINE));
    w := Apply(w, Settle(0, FINE));
    HalfWrites(w, 1, b);
    ReachableNext(w, Settle(1, FINE));
    w := Apply(w, Settle(1, FINE));
    Tells(w, 1, b);
    ReachableNext(w, Settle(1, FINE));
    w := Apply(w, Settle(1, FINE));
    w := FinishRace(w, a, b);
  }

  lemma FinishRace(w: World, a: string, b: string) returns (v: World)
    requires Reachable(w) && a != b && w.run.Some? && w.mirror.Some? && w.run.value.error == Some(b)
    requires 0 in w.execs && w.execs[0] == HalfDone(a) && 1 in w.execs && w.execs[1] == Told(b)
    ensures Reachable(v) && v.run.Some? && v.mirror.Some? && !Agree(v.run.value, v.mirror.value)
    ensures forall id: ExecId :: id < 2 ==> id in v.execs && v.execs[id].core.pc.Returned? && !Skipped(v.execs[id])
  {
    Tells(w, 0, a);
    ReachableNext(w, Settle(0, FINE));
    v := Apply(w, Settle(0, FINE));
    v := Leaves(v, 0, a);
    v := Leaves(v, 1, b);
  }
}
