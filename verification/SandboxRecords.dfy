/** The sandbox that Postgres and the mirror name, with one live executor at a time from the run's creation on. */
module SandboxRecords {
  import opened Wrappers
  import opened AgentTypes
  import opened Executor
  import opened ExecutorInvariants
  import opened ExecutorHistory
  import opened RunProtocol
  import opened Interleavings
  import opened RunTheorems
  import opened RunRecords
  import opened SequentialRuns

  // ----- every interleaving -----

  /** A named sandbox that was obtained. */
  predicate Obtained(record: Option<Record>, sandboxes: map<SandboxId, ExecId>) {
    record.Some? && record.value.sandboxId.Some? ==> record.value.sandboxId.value in sandboxes
  }

  /** The records name only sandboxes that were obtained. */
  predicate NamesObtained(run: Option<Record>, mirror: Option<Record>, sandboxes: map<SandboxId, ExecId>) {
    Obtained(run, sandboxes) && Obtained(mirror, sandboxes)
  }

  lemma ObtainedInPostgres(run: Option<Record>, c: Core, now: nat, sandboxes: map<SandboxId, ExecId>)
    requires Obtained(run, sandboxes)
    requires c.pc.SandboxPg? ==> c.sandbox.Some? && c.sandbox.value in sandboxes
    ensures Obtained(RunAfter(run, c, now), sandboxes)
  {
  }

  lemma ObtainedInMirror(mirror: Option<Record>, c: Core, sandboxes: map<SandboxId, ExecId>)
    requires Obtained(mirror, sandboxes)
    requires c.pc.SandboxMirror? ==> c.sandbox.Some? && c.sandbox.value in sandboxes
    ensures Obtained(MirrorAfter(mirror, c), sandboxes)
  {
  }

  lemma ObtainedLater(record: Option<Record>, sandboxes: map<SandboxId, ExecId>, id: ExecId, c: Core)
    requires Obtained(record, sandboxes)
    ensures Obtained(record, SandboxesAfter(sandboxes, id, c))
  {
  }

  lemma NamesObtainedSettle(w: World, id: ExecId, ch: Choice)
    requires Reachable(w) && NamesObtained(w.run, w.mirror, w.sandboxes) && id in w.execs && w.execs[id].core.pc.Live()
    ensures var v := Apply(w, Settle(id, ch)); NamesObtained(v.run, v.mirror, v.sandboxes)
  {
    var c := w.execs[id].core;
    if c.pc.SandboxPg? || c.pc.SandboxMirror? {
      StoresItsOwn(w, id);
    }
    ObtainedInPostgres(w.run, c, ch.now, w.sandboxes);
    ObtainedInMirror(w.mirror, c, w.sandboxes);
    ObtainedLater(RunAfter(w.run, c, ch.now), w.sandboxes, id, c);
    ObtainedLater(MirrorAfter(w.mirror, c), w.sandboxes, id, c);
  }

  lemma NamesObtainedKept(w: World, a: Action)
    requires Reachable(w) && NamesObtained(w.run, w.mirror, w.sandboxes)
    ensures var v := Apply(w, a); NamesObtained(v.run, v.mirror, v.sandboxes)
  {
    if a.Settle? && a.id in w.execs && w.execs[a.id].core.pc.Live() {
      NamesObtainedSettle(w, a.id, a.choice);
    }
  }

  lemma {:induction false} NamesObtainedInRun(history: seq<Action>)
    ensures var w := Run(NOTHING, history); NamesObtained(w.run, w.mirror, w.sandboxes)
  {
    if history != [] {
      var before := history[..|history| - 1];
      NamesObtainedInRun(before);
      assert Reachable(Run(NOTHING, before));
      NamesObtainedKept(Run(NOTHING, before), history[|history| - 1]);
    }
  }

  lemma NamesObtainedOf(w: World)
    requires Reachable(w)
    ensures NamesObtained(w.run, w.mirror, w.sandboxes)
  {
    var history :| Run(NOTHING, history) == w;
    NamesObtainedInRun(history);
  }

  // ----- one live executor at a time, since the run was idle -----

  /** Postgres and the mirror name different sandboxes. */
  predicate NamesDiffer(w: World) {
    w.run.Some? && w.mirror.Some? && w.run.value.sandboxId != w.mirror.value.sandboxId
  }

  /** Postgres names the sandbox of an executor that is none of `earlier`. */
  predicate NamesLater(run: Record, sandboxes: map<SandboxId, ExecId>, earlier: set<ExecId>) {
    && run.sandboxId.Some? && run.sandboxId.value in sandboxes
    && sandboxes[run.sandboxId.value] !in earlier
  }

  /** The executor whose sandbox Postgres names stored it there and has not told the mirror of it. */
  predicate NamedSandboxLags(run: Record, sandboxes: map<SandboxId, ExecId>, execs: map<ExecId, Exec>) {
    && run.sandboxId.Some? && run.sandboxId.value in sandboxes
    && sandboxes[run.sandboxId.value] in execs
    && execs[sandboxes[run.sandboxId.value]].journal.sandboxLag
  }

  /**
   Both records name sandboxes that were obtained. They differ exactly while the one Postgres names lags, if its
   executor is none of `earlier`; otherwise exactly if they differed before.
   */
  predicate NamesInv(run: Record, mirror: Record, sandboxes: map<SandboxId, ExecId>, execs: map<ExecId, Exec>,
                     earlier: set<ExecId>, before: bool) {
    && (run.sandboxId.Some? ==> run.sandboxId.value in sandboxes)
    && (mirror.sandboxId.Some? ==> mirror.sandboxId.value in sandboxes)
    && (run.sandboxId != mirror.sandboxId <==>
          if NamesLater(run, sandboxes, earlier) then NamedSandboxLags(run, sandboxes, execs) else before)
  }

  /** While an executor stores its sandbox, neither record names it yet, or Postgres does already. */
  predicate StoringInv(run: Record, mirror: Record, e: Exec) {
    && (e.core.pc.SandboxPg? ==> run.sandboxId != e.core.sandbox && mirror.sandboxId != e.core.sandbox)
    && (e.core.pc.SandboxMirror? ==> run.sandboxId == e.core.sandbox)
  }

  /** What holds from an idle moment on, at which the executors were `earlier` and the records differed if `before`. */
  ghost predicate SandboxInv(w: World, earlier: set<ExecId>, before: bool) {
    && earlier <= w.execs.Keys
    && (forall id :: id in earlier ==> !w.execs[id].core.pc.Live())
    && (w.job ==>
          && w.run.Some? && w.mirror.Some?
          && NamesInv(w.run.value, w.mirror.value, w.sandboxes, w.execs, earlier, before)
          && forall id :: id in w.execs && id !in earlier ==> StoringInv(w.run.value, w.mirror.value, w.execs[id]))
    && (!w.job ==> w.execs == map[] && !before)
  }

  /** How an operation moves an executor that has its sandbox to store. */
  predicate SandboxMoves(w: World, e: Exec, ch: Choice, f: Exec) {
    var c, happens := e.core, Applied(w, e.core, ch);
    && (f.core.pc.SandboxPg? ==> c.pc.SandboxCreate? && happens && f.core.sandbox == Some(|w.sandboxes|))
    && (f.core.pc.SandboxMirror? ==> c.pc.SandboxPg? && happens && f.core.sandbox == c.sandbox)
    && f.journal.sandboxLag ==
         (if c.pc.SandboxPg? && happens then true else if c.pc.SandboxMirror? && happens then false
          else e.journal.sandboxLag)
  }

  lemma SandboxTurn(w: World, e: Exec, ch: Choice)
    requires e.core.pc.Live() && Conversation(e.core) && Turns(e.core.pc) && e.core.caught.None?
    ensures SandboxMoves(w, e, ch, Stepped(w, e, ch))
  {
    VerdictSettles(w, e.core, ch);
    var o := Verdict(w, e.core, ch);
    if !o.Rejected? {
      RoundGoes(e.core, o);
    }
  }

  /** The operations that store the sandbox, or make it. */
  predicate AboutSandbox(pc: Pc) { pc.SandboxCreate? || pc.SandboxPg? || pc.SandboxMirror? }

  lemma SandboxStored(w: World, e: Exec, ch: Choice)
    requires AboutSandbox(e.core.pc)
    ensures SandboxMoves(w, e, ch, Stepped(w, e, ch))
  {
  }

  lemma SandboxThrown(w: World, e: Exec, ch: Choice)
    requires e.core.pc.Live() && !AboutSandbox(e.core.pc) && Verdict(w, e.core, ch).Rejected?
    ensures SandboxMoves(w, e, ch, Stepped(w, e, ch))
  {
  }

  lemma SandboxOtherwise(w: World, e: Exec, ch: Choice)
    requires e.core.pc.Live() && !AboutSandbox(e.core.pc)
    requires !Turns(e.core.pc) && !Verdict(w, e.core, ch).Rejected?
    ensures SandboxMoves(w, e, ch, Stepped(w, e, ch))
  {
  }

  /** What of the records the operation changes. */
  lemma SandboxRecorded(w: World, c: Core, ch: Choice)
    requires w.run.Some? && w.mirror.Some? && c.pc.Live()
    ensures var happens := Applied(w, c, ch);
      var run := if happens then RunAfter(w.run, c, ch.now) else w.run;
      var mirror := if happens then MirrorAfter(w.mirror, c) else w.mirror;
      && run.Some? && mirror.Some?
      && run.value.sandboxId == (if c.pc.SandboxPg? && happens then c.sandbox else w.run.value.sandboxId)
      && mirror.value.sandboxId == (if c.pc.SandboxMirror? && happens then c.sandbox else w.mirror.value.sandboxId)
  {
  }

  /** The records after an operation of the sole live executor, which is none of `earlier`. */
  lemma NamesSettle(run: Record, mirror: Record, sandboxes: map<SandboxId, ExecId>, execs: map<ExecId, Exec>,
                    id: ExecId, f: Exec, run': Record, mirror': Record, sandboxes': map<SandboxId, ExecId>,
                    stored: bool, told: bool, earlier: set<ExecId>, before: bool)
    requires NamesInv(run, mirror, sandboxes, execs, earlier, before)
    requires id in execs && id !in earlier && StoringInv(run, mirror, execs[id])
    requires stored || told ==> execs[id].core.sandbox.Some? && execs[id].core.sandbox.value in sandboxes
    requires stored || told ==> sandboxes[execs[id].core.sandbox.value] == id
    requires stored ==> execs[id].core.pc.SandboxPg? && !told
    requires told ==> execs[id].core.pc.SandboxMirror?
    requires run'.sandboxId == if stored then execs[id].core.sandbox else run.sandboxId
    requires mirror'.sandboxId == if told then execs[id].core.sandbox else mirror.sandboxId
    requires f.journal.sandboxLag == if stored then true else if told then false else execs[id].journal.sandboxLag
    requires forall s :: s in sandboxes ==> s in sandboxes' && sandboxes'[s] == sandboxes[s]
    ensures NamesInv(run', mirror', sandboxes', execs[id := f], earlier, before)
  {
  }

  lemma SandboxStep(w: World, id: ExecId, ch: Choice)
    requires Reachable(w) && id in w.execs && w.execs[id].core.pc.Live()
    ensures SandboxMoves(w, w.execs[id], ch, Stepped(w, w.execs[id], ch))
  {
    FactsOf(w, id);
    if Turns(w.execs[id].core.pc) {
      SandboxTurn(w, w.execs[id], ch);
    } else if AboutSandbox(w.execs[id].core.pc) {
      SandboxStored(w, w.execs[id], ch);
    } else if Verdict(w, w.execs[id].core, ch).Rejected? {
      SandboxThrown(w, w.execs[id], ch);
    } else {
      SandboxOtherwise(w, w.execs[id], ch);
    }
  }

  /** An executor that stores its sandbox has one, and the ledger knows it. */
  lemma StoresItsOwn(w: World, id: ExecId)
    requires Reachable(w) && id in w.execs
    requires w.execs[id].core.pc.SandboxPg? || w.execs[id].core.pc.SandboxMirror?
    ensures w.execs[id].core.sandbox.Some? && w.execs[id].core.sandbox.value in w.sandboxes
    ensures w.sandboxes[w.execs[id].core.sandbox.value] == id
  {
    FactsOf(w, id);
    LedgerOf(w);
  }

  /** The records, the ledger and the executors after an operation. */
  ghost predicate AfterSandboxStep(w: World, id: ExecId, ch: Choice, v: World) {
    && id in w.execs && w.execs[id].core.pc.Live() && w.run.Some? && w.mirror.Some?
    && var c, happens := w.execs[id].core, Applied(w, w.execs[id].core, ch);
    && v.run.Some? && v.mirror.Some? && v.job == w.job
    && v.run.value.sandboxId == (if c.pc.SandboxPg? && happens then c.sandbox else w.run.value.sandboxId)
    && v.mirror.value.sandboxId == (if c.pc.SandboxMirror? && happens then c.sandbox else w.mirror.value.sandboxId)
    && v.sandboxes == (if happens then SandboxesAfter(w.sandboxes, id, c) else w.sandboxes)
    && v.execs == w.execs[id := Stepped(w, w.execs[id], ch)]
  }

  lemma SandboxStepLeaves(w: World, id: ExecId, ch: Choice)
    requires id in w.execs && w.execs[id].core.pc.Live() && w.run.Some? && w.mirror.Some?
    ensures AfterSandboxStep(w, id, ch, Apply(w, Settle(id, ch)))
  {
    SandboxRecorded(w, w.execs[id].core, ch);
  }

  lemma NamesAfter(w: World, id: ExecId, ch: Choice, v: World, earlier: set<ExecId>, before: bool)
    requires AfterSandboxStep(w, id, ch, v) && SandboxInv(w, earlier, before) && w.job && id !in earlier
    requires SandboxMoves(w, w.execs[id], ch, Stepped(w, w.execs[id], ch))
    requires w.execs[id].core.pc.SandboxPg? || w.execs[id].core.pc.SandboxMirror? ==>
      && w.execs[id].core.sandbox.Some? && w.execs[id].core.sandbox.value in w.sandboxes
      && w.sandboxes[w.execs[id].core.sandbox.value] == id
    requires |w.sandboxes| !in w.sandboxes
    ensures NamesInv(v.run.value, v.mirror.value, v.sandboxes, v.execs, earlier, before)
  {
    var c, happens := w.execs[id].core, Applied(w, w.execs[id].core, ch);
    NamesSettle(w.run.value, w.mirror.value, w.sandboxes, w.execs, id, Stepped(w, w.execs[id], ch), v.run.value,
                v.mirror.value, v.sandboxes, c.pc.SandboxPg? && happens, c.pc.SandboxMirror? && happens,
                earlier, before);
  }

  lemma StoringAfter(w: World, id: ExecId, ch: Choice, v: World, earlier: set<ExecId>, before: bool, k: ExecId)
    requires AfterSandboxStep(w, id, ch, v) && SandboxInv(w, earlier, before) && w.job && AtMostOneLive(w)
    requires SandboxMoves(w, w.execs[id], ch, Stepped(w, w.execs[id], ch))
    requires |w.sandboxes| !in w.sandboxes && k in v.execs && id !in earlier && k !in earlier
    ensures StoringInv(v.run.value, v.mirror.value, v.execs[k])
  {
    if k != id {
      assert !w.execs[k].core.pc.Live();
    }
  }

  lemma SandboxSettle(w: World, id: ExecId, ch: Choice, earlier: set<ExecId>, before: bool)
    requires Reachable(w) && SandboxInv(w, earlier, before) && w.job && AtMostOneLive(w)
    requires id in w.execs && w.execs[id].core.pc.Live()
    ensures SandboxInv(Apply(w, Settle(id, ch)), earlier, before)
  {
    var v := Apply(w, Settle(id, ch));
    LedgerOf(w);
    SandboxStep(w, id, ch);
    SandboxStepLeaves(w, id, ch);
    if w.execs[id].core.pc.SandboxPg? || w.execs[id].core.pc.SandboxMirror? {
      StoresItsOwn(w, id);
    }
    NamesAfter(w, id, ch, v, earlier, before);
    forall k | k in v.execs && k !in earlier ensures StoringInv(v.run.value, v.mirror.value, v.execs[k]) {
      StoringAfter(w, id, ch, v, earlier, before, k);
    }
  }

  lemma SandboxSwap(w: World, id: ExecId, f: Exec, earlier: set<ExecId>, before: bool)
    requires SandboxInv(w, earlier, before) && Ledger(w.sandboxes, w.live, w.execs) && w.job
    requires if id in w.execs then f.journal == w.execs[id].journal else f.journal == BLANK
    requires id !in earlier && !f.core.pc.SandboxPg? && !f.core.pc.SandboxMirror?
    ensures SandboxInv(w.(execs := w.execs[id := f]), earlier, before)
  {
  }

  lemma SandboxKept(w: World, a: Action, earlier: set<ExecId>, before: bool)
    requires Reachable(w) && CreationInv(w) && SandboxInv(w, earlier, before) && AtMostOneLive(w)
    ensures SandboxInv(Apply(w, a), earlier, before)
  {
    LedgerOf(w);
    match a
    case Create(ch) =>
    case Settle(id, ch) =>
      if id in w.execs && w.execs[id].core.pc.Live() {
        SandboxSettle(w, id, ch, earlier, before);
      }
    case Start(id, prompt, maxIterations) =>
      if w.job && id !in w.execs {
        SandboxSwap(w, id, Exec(Begin(prompt, maxIterations), BLANK), earlier, before);
      }
    case CrashOf(id) =>
      if id in w.execs && w.execs[id].core.pc.Live() {
        SandboxSwap(w, id, Crash(w.execs[id]), earlier, before);
      }
    case AbandonCreate =>
    case RequestCancel =>
    case ExpireCancel =>
  }

  /** At an idle moment everybody is earlier. */
  lemma SandboxIdle(base: World)
    requires Idle(base)
    ensures SandboxInv(base, base.execs.Keys, base.job && NamesDiffer(base))
  {
    CreationOf(base);
    NamesObtainedOf(base);
    LedgerOf(base);
  }

  lemma {:induction false} SandboxInRun(base: World, actions: seq<Action>)
    requires Idle(base) && OneLiveFrom(base, actions)
    ensures SandboxInv(Run(base, actions), base.execs.Keys, base.job && NamesDiffer(base))
  {
    if actions == [] {
      SandboxIdle(base);
    } else {
      var before := actions[..|actions| - 1];
      SandboxInRun(base, before);
      AloneInRun(base, before);
      CreationOf(Run(base, before));
      SandboxKept(Run(base, before), actions[|actions| - 1], base.execs.Keys, base.job && NamesDiffer(base));
    }
  }

  /**
   With one live executor at a time since a moment at which nobody worked on the run, Postgres and the mirror name
   different sandboxes exactly when the executor whose sandbox Postgres names stored it there and not in the mirror;
   and, while Postgres still names a sandbox from before that moment or none, exactly when they differed at it.
   */
  lemma SandboxIdsDiffer(base: World, actions: seq<Action>)
    requires Idle(base) && base.job && OneLiveFrom(base, actions)
    ensures var w := Run(base, actions);
      && w.run.Some? && w.mirror.Some?
      && (w.run.value.sandboxId.Some? ==>
            && w.run.value.sandboxId.value in w.sandboxes
            && w.sandboxes[w.run.value.sandboxId.value] in w.execs)
      && (w.run.value.sandboxId != w.mirror.value.sandboxId <==>
            if w.run.value.sandboxId.Some? && w.sandboxes[w.run.value.sandboxId.value] !in base.execs
            then w.execs[w.sandboxes[w.run.value.sandboxId.value]].journal.sandboxLag
            else base.run.Some? && base.mirror.Some? && base.run.value.sandboxId != base.mirror.value.sandboxId)
  {
    SandboxInRun(base, actions);
    JobStays(base, actions);
    AloneInRun(base, actions);
    LedgerOf(Run(base, actions));
  }

  lemma JobStaysOnce(w: World, a: Action)
    requires w.job
    ensures Apply(w, a).job
  {
  }

  lemma {:induction false} JobStays(base: World, actions: seq<Action>)
    requires base.job
    ensures Run(base, actions).job
  {
    if actions != [] {
      JobStays(base, actions[..|actions| - 1]);
      JobStaysOnce(Run(base, actions[..|actions| - 1]), actions[|actions| - 1]);
    }
  }

  /** From the creation on: exactly when the executor whose sandbox Postgres names lags. */
  lemma SandboxIdsAgree(w: World)
    requires Sequential(w) && w.job
    ensures w.run.Some? && w.mirror.Some?
    ensures w.run.value.sandboxId.Some? ==>
      && w.run.value.sandboxId.value in w.sandboxes
      && w.sandboxes[w.run.value.sandboxId.value] in w.execs
    ensures w.run.value.sandboxId != w.mirror.value.sandboxId <==>
      && w.run.value.sandboxId.Some?
      && w.execs[w.sandboxes[w.run.value.sandboxId.value]].journal.sandboxLag
  {
    var actions :| OneLiveFrom(NOTHING, actions) && Run(NOTHING, actions) == w;
    assert Run(NOTHING, []) == NOTHING;
    assert Reachable(NOTHING);
    SandboxInRun(NOTHING, actions);
    assert Reachable(w);
    LedgerOf(w);
  }
}
