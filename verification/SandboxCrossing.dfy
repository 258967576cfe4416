/**
 A history after which Postgres and the mirror name different sandboxes although no executor lags: the writes of two
 executors crossed before both crashed, and one that starts alone afterwards and returns normally does not repair it.
 */
module SandboxCrossing {
  import opened Wrappers
  import opened AgentTypes
  import opened Executor
  import opened ExecutorHistory
  import opened RunProtocol
  import opened RunTheorems
  import opened RunRecords
  import opened SequentialRuns
  import opened SandboxRecords
  import opened Divergence

  /** An executor that holds sandbox `s` and has stored it nowhere. */
  function Holding(s: SandboxId): Exec {
    Exec(Begin("", 1).(pc := SandboxPg, sandbox := Some(s)), BLANK)
  }

  /** It stored the sandbox in Postgres. */
  function Naming(s: SandboxId): Exec {
    Exec(Begin("", 1).(pc := SandboxMirror, sandbox := Some(s)), BLANK.(sandboxLag := true))
  }

  /** It stored the sandbox in the mirror too. */
  function Telling(s: SandboxId): Exec {
    Exec(Begin("", 1).(pc := EmitStarted, sandbox := Some(s)), BLANK)
  }

  lemma Obtains(w: World, id: ExecId)
    requires id in w.execs && w.execs[id] == Opened()
    ensures Apply(w, Settle(id, FINE)) ==
      w.(sandboxes := w.sandboxes[|w.sandboxes| := id], live := w.live + {|w.sandboxes|},
         execs := w.execs[id := Holding(|w.sandboxes|)])
  {
    assert Stepped(w, w.execs[id], FINE) == Holding(|w.sandboxes|);
  }

  lemma NamesInPostgres(w: World, id: ExecId, s: SandboxId)
    requires id in w.execs && w.execs[id] == Holding(s) && w.run.Some?
    ensures Apply(w, Settle(id, FINE)) ==
      w.(run := Some(w.run.value.(sandboxId := Some(s))), execs := w.execs[id := Naming(s)])
  {
    assert Stepped(w, w.execs[id], FINE) == Naming(s);
  }

  lemma NamesInMirror(w: World, id: ExecId, s: SandboxId)
    requires id in w.execs && w.execs[id] == Naming(s) && w.mirror.Some?
    ensures Apply(w, Settle(id, FINE)) ==
      w.(mirror := Some(w.mirror.value.(sandboxId := Some(s))), execs := w.execs[id := Telling(s)])
  {
    assert Stepped(w, w.execs[id], FINE) == Telling(s);
  }

  const BOTH_OPENED := ACCEPTED.(execs := map[0 := Opened(), 1 := Opened()])

  lemma OpeningBoth()
    ensures Reachable(BOTH_OPENED)
  {
    Accepting();
    ReachableNext(ACCEPTED, Start(0, "", 1));
    ReachableNext(Apply(ACCEPTED, Start(0, "", 1)), Settle(0, FINE));
    Opens(ACCEPTED, 0);
    var w := Apply(Apply(ACCEPTED, Start(0, "", 1)), Settle(0, FINE));
    ReachableNext(w, Start(1, "", 1));
    ReachableNext(Apply(w, Start(1, "", 1)), Settle(1, FINE));
    Opens(w, 1);
    assert w.execs[1 := Opened()] == BOTH_OPENED.execs;
  }

  /** Both executors hold a sandbox; `run` and `mirror` name what they name. */
  function Both(run: Option<SandboxId>, mirror: Option<SandboxId>, first: Exec, second: Exec): World {
    ACCEPTED.(
      run := Some(FRESH.(sandboxId := run)),
      mirror := Some(FRESH.(sandboxId := mirror)),
      sandboxes := map[0 := 0, 1 := 1],
      live := {0, 1},
      execs := map[0 := first, 1 := second])
  }

  lemma HoldingBoth()
    ensures Reachable(Both(None, None, Holding(0), Holding(1)))
  {
    OpeningBoth();
    var w := BOTH_OPENED;
    Obtains(w, 0);
    ReachableNext(w, Settle(0, FINE));
    var v := Apply(w, Settle(0, FINE));
    assert v.sandboxes == map[0 := 0] && |v.sandboxes| == 1;
    Obtains(v, 1);
    ReachableNext(v, Settle(1, FINE));
    assert v.execs[1 := Holding(1)] == map[0 := Holding(0), 1 := Holding(1)];
    assert v.sandboxes[1 := 1] == map[0 := 0, 1 := 1] && v.live + {1} == {0, 1};
  }

  /** Postgres was written in the order 0, 1. */
  lemma NamingBoth()
    ensures Reachable(Both(Some(1), None, Naming(0), Naming(1)))
  {
    HoldingBoth();
    var w := Both(None, None, Holding(0), Holding(1));
    NamesInPostgres(w, 0, 0);
    assert w.execs[0 := Naming(0)] == map[0 := Naming(0), 1 := Holding(1)];
    assert Apply(w, Settle(0, FINE)) == Both(Some(0), None, Naming(0), Holding(1));
    ReachableNext(w, Settle(0, FINE));
    var v := Both(Some(0), None, Naming(0), Holding(1));
    NamesInPostgres(v, 1, 1);
    assert v.execs[1 := Naming(1)] == map[0 := Naming(0), 1 := Naming(1)];
    ReachableNext(v, Settle(1, FINE));
  }

  /** The mirror was written in the order 1, 0. */
  lemma TellingBoth()
    ensures Reachable(Both(Some(1), Some(0), Telling(0), Telling(1)))
  {
    NamingBoth();
    var w := Both(Some(1), None, Naming(0), Naming(1));
    NamesInMirror(w, 1, 1);
    assert w.execs[1 := Telling(1)] == map[0 := Naming(0), 1 := Telling(1)];
    assert Apply(w, Settle(1, FINE)) == Both(Some(1), Some(1), Naming(0), Telling(1));
    ReachableNext(w, Settle(1, FINE));
    var v := Both(Some(1), Some(1), Naming(0), Telling(1));
    NamesInMirror(v, 0, 0);
    assert v.execs[0 := Telling(0)] == map[0 := Telling(0), 1 := Telling(1)];
    ReachableNext(v, Settle(0, FINE));
  }

  /** Both crashed, with a different sandbox in each store. */
  const CROSSED := Both(Some(1), Some(0), Crash(Telling(0)), Crash(Telling(1)))

  lemma CrashesIn(w: World, id: ExecId)
    requires id in w.execs && w.execs[id].core.pc.Live()
    ensures Apply(w, CrashOf(id)) == w.(execs := w.execs[id := Crash(w.execs[id])])
  {
  }

  lemma Crossing()
    ensures Idle(CROSSED)
  {
    TellingBoth();
    var w := Both(Some(1), Some(0), Telling(0), Telling(1));
    ReachableNext(w, CrashOf(0));
    CrashesIn(w, 0);
    var v := Both(Some(1), Some(0), Crash(Telling(0)), Telling(1));
    assert w.execs[0 := Crash(Telling(0))] == v.execs;
    ReachableNext(v, CrashOf(1));
    CrashesIn(v, 1);
    assert v.execs[1 := Crash(Telling(1))] == CROSSED.execs;
  }

  // ----- a worker that starts alone -----

  /** Nobody but executor 2 is alive, and nobody lags with its sandbox. */
  ghost predicate OnlyTwo(w: World) {
    && Alone(w)
    && forall k :: k in w.execs ==> (k != 2 ==> !w.execs[k].core.pc.Live()) && !w.execs[k].journal.sandboxLag
  }

  lemma AloneNext(w: World, a: Action)
    requires Alone(w) && AtMostOneLive(Apply(w, a))
    ensures Alone(Apply(w, a))
  {
    var base, actions :| Idle(base) && OneLiveFrom(base, actions) && Run(base, actions) == w;
    RunSnoc(base, actions, a);
    assert (actions + [a])[..|actions|] == actions;
    assert OneLiveFrom(base, actions + [a]);
  }

  lemma OthersAsTheyWere(w: World, ch: Choice)
    requires 2 in w.execs && w.execs[2].core.pc.Live()
    ensures Apply(w, Settle(2, ch)).execs == w.execs[2 := Stepped(w, w.execs[2], ch)]
  {
  }

  lemma StaysUnlagging(e: Exec, w: World, ch: Choice)
    requires e.core.pc.Live() && !e.core.pc.SandboxPg? && !e.core.pc.SandboxMirror?
    ensures Stepped(w, e, ch).journal.sandboxLag == e.journal.sandboxLag
  {
  }

  lemma TwoGoesOn(w: World, ch: Choice)
    requires OnlyTwo(w) && 2 in w.execs && w.execs[2].core.pc.Live()
    requires !w.execs[2].core.pc.SandboxPg? && !w.execs[2].core.pc.SandboxMirror?
    ensures OnlyTwo(Apply(w, Settle(2, ch)))
  {
    OthersAsTheyWere(w, ch);
    StaysUnlagging(w.execs[2], w, ch);
    AloneNext(w, Settle(2, ch));
  }

  const DOOM := "no sandbox"

  /** The crossed run, with executor 2 added. */
  function WithTwo(e: Exec): World { CROSSED.(execs := CROSSED.execs[2 := e]) }

  lemma TwoStarts()
    ensures OnlyTwo(WithTwo(Exec(Begin("", 1), BLANK)))
  {
    Crossing();
    assert Run(CROSSED, []) == CROSSED && OneLiveFrom(CROSSED, []);
    assert Alone(CROSSED);
    assert Apply(CROSSED, Start(2, "", 1)) == WithTwo(Exec(Begin("", 1), BLANK));
    AloneNext(CROSSED, Start(2, "", 1));
  }

  lemma TwoOpens()
    ensures OnlyTwo(WithTwo(Opened()))
  {
    TwoStarts();
    TwoGoesOn(WithTwo(Exec(Begin("", 1), BLANK)), FINE);
    assert Apply(CROSSED, Start(2, "", 1)) == WithTwo(Exec(Begin("", 1), BLANK));
    Opens(CROSSED, 2);
  }

  lemma TwoDooms()
    ensures Apply(WithTwo(Opened()), Settle(2, Fails(DOOM))) == WithTwo(Doomed(DOOM))
  {
    Dooms(WithTwo(Opened()), 2, DOOM);
    assert CROSSED.execs[2 := Opened()][2 := Doomed(DOOM)] == CROSSED.execs[2 := Doomed(DOOM)];
  }

  lemma TwoIsDoomed()
    ensures OnlyTwo(WithTwo(Doomed(DOOM)))
  {
    TwoOpens();
    TwoGoesOn(WithTwo(Opened()), Fails(DOOM));
    TwoDooms();
  }

  /** The stores still name different sandboxes, and executor 2 is past its status. */
  ghost predicate StillCrossed(w: World) {
    && OnlyTwo(w) && 2 in w.execs && NamesDiffer(w)
    && w.execs[2].core.sandbox.None? && !w.execs[2].core.rethrow && w.execs[2].journal.finish.Some?
  }

  lemma TwoCloses(w: World)
    requires StillCrossed(w)
    requires w.execs[2].core.pc.EmitTerminal? || w.execs[2].core.pc.EmitEnd? || w.execs[2].core.pc.DeleteCancel?
    ensures StillCrossed(Apply(w, Settle(2, FINE)))
    ensures Apply(w, Settle(2, FINE)).execs[2].core.pc ==
      match w.execs[2].core.pc
      case EmitTerminal(_, _) => EmitEnd
      case EmitEnd => DeleteCancel
      case _ => Returned
  {
    AloneOf(w);
    TwoGoesOn(w, FINE);
    Closes(w, 2);
  }

  lemma TwoFinishes() returns (w: World)
    ensures StillCrossed(w) && w.execs[2].core.pc.EmitTerminal?
  {
    TwoIsDoomed();
    w := WithTwo(Doomed(DOOM));
    HalfWrites(w, 2, DOOM);
    TwoGoesOn(w, FINE);
    w := Apply(w, Settle(2, FINE));
    Tells(w, 2, DOOM);
    TwoGoesOn(w, FINE);
    w := Apply(w, Settle(2, FINE));
  }

  /**
   An executor can start alone on a RUNNING run and return normally, with nobody's sandbox write to the mirror missing,
   and leave different sandboxes in the two stores: the ones that earlier executors, which overlapped, wrote crosswise.
   */
  lemma CrossedSandboxesStay() returns (w: World)
    ensures Alone(w) && 2 in w.execs && w.execs[2].core.pc.Returned? && !Skipped(w.execs[2])
    ensures NamesDiffer(w) && forall id :: id in w.execs ==> !w.execs[id].journal.sandboxLag
  {
    w := TwoFinishes();
    TwoCloses(w);
    w := Apply(w, Settle(2, FINE));
    TwoCloses(w);
    w := Apply(w, Settle(2, FINE));
    TwoCloses(w);
    w := Apply(w, Settle(2, FINE));
  }
}
