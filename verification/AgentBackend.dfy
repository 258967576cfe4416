/**
 The stores, the queue and the other workers, as one worker of a run meets them: one method for each operation
 `execute` awaits. Other workers change the stores before every one of them.

 `Backend` keeps a ghost executor and the sequence of actions so far. Each operation settles as the environment
 chooses, moves the ghost executor with `Resume` and adds its action, so `Valid` says that the stores are those of
 a run of the protocol, and what holds of every run holds of the stores after every call.
 */
module AgentBackend {
  import opened Wrappers
  import opened AgentTypes
  import opened Executor
  import opened ExecutorHistory
  import opened RunProtocol
  import opened RunRecords

  /** The action is one of executor `id`. */
  predicate About(a: Action, id: ExecId) {
    (a.Settle? || a.Start? || a.CrashOf?) && a.id == id
  }

  function With(w: World, id: ExecId, e: Exec): World { w.(execs := w.execs[id := e]) }

  /** What others do does not depend on this executor being there. */
  lemma OthersCommute(w: World, id: ExecId, e: Exec, a: Action)
    requires !About(a, id) && w.job
    ensures Apply(With(w, id, e), a) == With(Apply(w, a), id, e)
    ensures Apply(w, a).job
  {
    match a
    case Settle(k, ch) => SettleCommutes(w, id, e, k, ch);
    case Start(k, prompt, maxIterations) =>
      var f := Exec(Begin(prompt, maxIterations), BLANK);
      assert w.execs[id := e][k := f] == w.execs[k := f][id := e];
    case CrashOf(k) =>
      if k in w.execs {
        var f := Crash(w.execs[k]);
        assert w.execs[id := e][k := f] == w.execs[k := f][id := e];
      }
    case _ =>
  }

  lemma StepIgnores(w: World, id: ExecId, e: Exec, f: Exec, ch: Choice)
    requires f.core.pc.Live()
    ensures Applied(With(w, id, e), f.core, ch) == Applied(w, f.core, ch)
    ensures Stepped(With(w, id, e), f, ch) == Stepped(w, f, ch)
  {
    assert Verdict(With(w, id, e), f.core, ch) == Verdict(w, f.core, ch);
  }

  lemma SettleCommutes(w: World, id: ExecId, e: Exec, k: ExecId, ch: Choice)
    requires k != id
    ensures Apply(With(w, id, e), Settle(k, ch)) == With(Apply(w, Settle(k, ch)), id, e)
  {
    if k in w.execs && w.execs[k].core.pc.Live() {
      StepIgnores(w, id, e, w.execs[k], ch);
      var f := Stepped(w, w.execs[k], ch);
      assert w.execs[id := e][k := f] == w.execs[k := f][id := e];
    }
  }

  /** An action of somebody else is one more action of the run, which leaves this executor where it is. */
  lemma OthersStep(rest: World, id: ExecId, e: Exec, a: Action, trace: seq<Action>)
    requires !About(a, id) && rest.job && id !in rest.execs
    requires Run(NOTHING, trace) == With(rest, id, e)
    ensures Run(NOTHING, trace + [a]) == With(Apply(rest, a), id, e)
    ensures Apply(rest, a).job && id !in Apply(rest, a).execs
  {
    OthersCommute(rest, id, e, a);
    RunSnoc(NOTHING, trace, a);
  }

  /** The executor went on from where it was with outcome `o`. */
  ghost predicate Took(before: Exec, after: Exec, o: Outcome) {
    Fits(before.core.pc, o) && after.core == Resume(before.core, o)
  }

  /** Action `i` is an operation of executor `id` that rejected with `message`. */
  ghost predicate RejectsAt(trace: seq<Action>, i: nat, id: ExecId, message: string)
    requires i < |trace|
  {
    var w := Run(NOTHING, trace[..i]);
    && trace[i].Settle? && trace[i].id == id && id in w.execs
    && Verdict(w, w.execs[id].core, trace[i].choice) == Rejected(message)
  }

  /** Among the actions of `now` since `was`, an operation of executor `id` rejected with `message`. */
  ghost predicate SomeRejected(was: seq<Action>, now: seq<Action>, id: ExecId, message: string) {
    exists i :: |was| <= i < |now| && RejectsAt(now, i, id, message)
  }

  /** A rejection stays one in every longer history. */
  lemma RejectedStill(was: seq<Action>, start: seq<Action>, now: seq<Action>, later: seq<Action>, id: ExecId,
                      message: string)
    requires was <= start <= now <= later && SomeRejected(start, now, id, message)
    ensures SomeRejected(was, later, id, message)
  {
    var i :| |start| <= i < |now| && RejectsAt(now, i, id, message);
    assert later[..i] == now[..i] && later[i] == now[i];
    assert RejectsAt(later, i, id, message);
  }

  /** The stores after the operation at `c` settled. */
  function SettledRest(rest: World, id: ExecId, c: Core, ch: Choice): World {
    if Applied(rest, c, ch) then Performed(rest, id, c, ch.now) else rest
  }

  lemma VerdictIgnoresSelf(rest: World, id: ExecId, e: Exec, ch: Choice)
    requires e.core.pc.Live()
    ensures Verdict(With(rest, id, e), e.core, ch) == Verdict(rest, e.core, ch)
    ensures Applied(With(rest, id, e), e.core, ch) == Applied(rest, e.core, ch)
    ensures Took(e, Stepped(With(rest, id, e), e, ch), Verdict(rest, e.core, ch))
  {
    VerdictSettles(With(rest, id, e), e.core, ch);
  }

  /** Settling the operation this worker waits for is one action of the run. */
  lemma Recorded(rest: World, id: ExecId, e: Exec, ch: Choice, trace: seq<Action>)
    requires e.core.pc.Live() && id !in rest.execs
    requires Run(NOTHING, trace) == With(rest, id, e)
    ensures var f := Stepped(With(rest, id, e), e, ch);
      && Run(NOTHING, trace + [Settle(id, ch)]) == With(SettledRest(rest, id, e.core, ch), id, f)
      && Took(e, f, Verdict(rest, e.core, ch))
      && SettledRest(rest, id, e.core, ch).execs == rest.execs
  {
    RunSnoc(NOTHING, trace, Settle(id, ch));
    VerdictIgnoresSelf(rest, id, e, ch);
    var w, f := With(rest, id, e), Stepped(With(rest, id, e), e, ch);
    assert w.execs[id := f] == rest.execs[id := f];
  }

  lemma PublishedRest(rest: World, id: ExecId, c: Core, event: Event, ch: Choice)
    requires EventOf(c) == Some(event)
    ensures SettledRest(rest, id, c, ch) ==
      if ch.fault.None? then rest.(log := rest.log + [Published(event, id)]) else rest
    ensures Verdict(rest, c, ch) == if ch.fault.Some? then Rejected(ch.fault.value) else Resolved
  {
  }

  lemma RowCreatedRest(rest: World, id: ExecId, c: Core, ch: Choice)
    requires c.pc.StepPg?
    ensures var o := Verdict(rest, c, ch);
      && SettledRest(rest, id, c, ch) ==
         (if c.pc.at !in rest.rows && (ch.fault.None? || ch.applied)
          then rest.(rows := rest.rows[c.pc.at := Row(c.pc.step, id)]) else rest)
      && o == (if c.pc.at in rest.rows then Rejected(UNIQUE_VIOLATION)
               else if ch.fault.Some? then Rejected(ch.fault.value) else Resolved)
      && Resume(c, o) == (if o.Rejected? then Throw(c, o.message)
                          else c.(pc := StepMirror(c.pc.at, c.pc.step, c.pc.event)))
  {
  }

  lemma DocumentCreatedRest(rest: World, id: ExecId, c: Core, ch: Choice)
    requires c.pc.StepMirror?
    ensures var o := Verdict(rest, c, ch);
      && SettledRest(rest, id, c, ch) ==
         (if c.pc.at !in rest.docs && (ch.fault.None? || ch.applied)
          then rest.(docs := rest.docs[c.pc.at := c.pc.step]) else rest)
      && o == (if c.pc.at in rest.docs then Rejected(ALREADY_EXISTS)
               else if ch.fault.Some? then Rejected(ch.fault.value) else Resolved)
      && Resume(c, o) == (if o.Rejected? then Throw(c, o.message) else c.(pc := StepEmit(c.pc.event)))
  {
  }

  lemma FinishedRest(rest: World, id: ExecId, c: Core, ch: Choice)
    requires c.pc.FinishPg?
    ensures var o, f := Verdict(rest, c, ch), Finish(c.pc.status, c.pc.error, ch.now);
      && SettledRest(rest, id, c, ch) ==
         (if rest.run.Some? && (ch.fault.None? || ch.applied)
          then rest.(run := Some(rest.run.value.With(f))) else rest)
      && o == (if rest.run.None? then Rejected(NOT_FOUND)
               else if ch.fault.Some? then Rejected(ch.fault.value) else Stamped(ch.now))
      && Resume(c, o) == (if o.Rejected? then Throw(c, o.message) else c.(pc := FinishMirror(f)))
  {
  }

  lemma FinishMirroredRest(rest: World, id: ExecId, c: Core, ch: Choice)
    requires c.pc.FinishMirror?
    ensures var o := Verdict(rest, c, ch);
      && SettledRest(rest, id, c, ch) ==
         (if ch.fault.None? || ch.applied
          then rest.(mirror := Some((if rest.mirror.Some? then rest.mirror.value else FRESH).With(c.pc.finish)))
          else rest)
      && o == (if ch.fault.Some? then Rejected(ch.fault.value) else Resolved)
      && Resume(c, o) == (if o.Rejected? then Throw(c, o.message)
                          else c.(pc := EmitTerminal(c.pc.finish.status, c.pc.finish.error)))
  {
  }

  lemma SandboxMirroredRest(rest: World, id: ExecId, c: Core, ch: Choice)
    requires c.pc.SandboxMirror?
    ensures var o := Verdict(rest, c, ch);
      && SettledRest(rest, id, c, ch) ==
         (if ch.fault.None? || ch.applied
          then rest.(mirror :=
            Some((if rest.mirror.Some? then rest.mirror.value else FRESH).(sandboxId := c.sandbox)))
          else rest)
      && o == (if ch.fault.Some? then Rejected(ch.fault.value) else Resolved)
      && Resume(c, o) == (if o.Rejected? then Throw(c, o.message) else c.(pc := EmitStarted))
  {
  }

  lemma KilledRest(rest: World, id: ExecId, c: Core, ch: Choice)
    requires c.pc.Kill? && c.sandbox.Some?
    ensures SettledRest(rest, id, c, ch) ==
      if ch.fault.None? || ch.applied then rest.(live := rest.live - {c.sandbox.value}) else rest
    ensures var o := Verdict(rest, c, ch);
      && o == (if ch.fault.Some? then Rejected(ch.fault.value) else Resolved)
      && Resume(c, o) == c.(pc := EmitEnd)
  {
  }

  lemma DeletedRest(rest: World, id: ExecId, c: Core, ch: Choice)
    requires c.pc.DeleteCancel?
    ensures SettledRest(rest, id, c, ch) == if ch.fault.None? || ch.applied then rest.(cancel := false) else rest
    ensures var o := Verdict(rest, c, ch);
      && o == (if ch.fault.Some? then Rejected(ch.fault.value) else Resolved)
      && Resume(c, o) == c.(pc := if o.Rejected? || c.rethrow then Threw else Returned)
  {
  }

  /** The stores, the queue and the other workers, as one worker sees them. */
  class Backend {
    const id: ExecId
    var rows: map<nat, Row>
    var docs: map<nat, Step>
    var run: Option<Record>
    var mirror: Option<Record>
    var creation: Creation
    var job: bool
    var cancel: bool
    var log: seq<Published>
    var sandboxes: map<SandboxId, ExecId>
    var live: set<SandboxId>
    var peers: map<ExecId, Exec>
    ghost var self: Exec
    ghost var trace: seq<Action>
    ghost var met: World

    /** The backend of an accepted run, with this worker at the start of `execute`. */
    constructor (id: ExecId, prompt: string, maxIterations: nat)
      ensures Valid() && self == Exec(Begin(prompt, maxIterations), BLANK) && this.id == id
      ensures run == mirror == Some(FRESH) && rows == map[] && peers == map[]
    {
      this.id := id;
      rows, docs, run, mirror, creation, job := map[], map[], Some(FRESH), Some(FRESH), Accepted, true;
      cancel, log, sandboxes, live, peers := false, [], map[], {}, map[];
      self := Exec(Begin(prompt, maxIterations), BLANK);
      met := ACCEPTED;
      trace := ACCEPTING + [Start(id, prompt, maxIterations)];
      new;
      AcceptedRun();
      RunSnoc(NOTHING, ACCEPTING, Start(id, prompt, maxIterations));
    }

    /** Everything but this worker. */
    function Rest(): World
      reads this
    {
      World(rows, docs, run, mirror, creation, job, cancel, log, sandboxes, live, peers)
    }

    ghost function Whole(): World
      reads this
    {
      With(Rest(), id, self)
    }

    ghost predicate Valid()
      reads this
    {
      && job && id !in peers
      && Run(NOTHING, trace) == Whole()
    }

    /** The last action is this worker's operation settling: it found the stores as `met`, and the worker at `e`. */
    ghost predicate Came(e: Exec)
      reads this
    {
      && trace != []
      && trace[|trace| - 1].Settle? && trace[|trace| - 1].id == id
      && Run(NOTHING, trace[..|trace| - 1]) == With(met, id, e)
    }

    /** The date of the last operation. */
    ghost function Date(e: Exec): nat
      requires Came(e)
      reads this
    {
      trace[|trace| - 1].choice.now
    }

    /** A store write that leaves the stores as `after`: one that rejected may have had no effect. */
    ghost predicate Wrote(o: Outcome, after: World)
      reads this
    {
      Rest() == after || (o.Rejected? && Rest() == met)
    }

    /** The stores become those of `w`. */
    method Put(w: World)
      modifies this
      ensures Rest() == w && self == old(self) && trace == old(trace)
    {
      rows, docs, run, mirror, creation, job := w.rows, w.docs, w.run, w.mirror, w.creation, w.job;
      cancel, log, sandboxes, live, peers := w.cancel, w.log, w.sandboxes, w.live, w.execs;
    }

    /** One action of somebody else. */
    method OtherStep(a: Action)
      requires Valid() && !About(a, id)
      modifies this
      ensures Valid() && old(trace) <= trace && self == old(self)
    {
      OthersStep(Rest(), id, self, a, trace);
      Put(Apply(Rest(), a));
      trace := trace + [a];
    }

    /** Other workers, crashes, cancellations: any actions but this worker's. */
    method Interfere()
      requires Valid()
      modifies this
      ensures Valid() && old(trace) <= trace && self == old(self)
    {
      var others: seq<Action> := *;
      for i := 0 to |others|
        invariant Valid() && old(trace) <= trace && self == old(self)
      {
        if !About(others[i], id) {
          OtherStep(others[i]);
        }
      }
    }

    /** The operation awaited has settled as `ch` says, and the stores are as it left them. */
    ghost method Move(rest: World, ch: Choice)
      requires job && id !in rest.execs && self.core.pc.Live()
      requires Run(NOTHING, trace) == With(rest, id, self)
      requires Rest() == SettledRest(rest, id, self.core, ch)
      modifies this`self, this`trace, this`met
      ensures Valid() && trace == old(trace) + [Settle(id, ch)] && met == rest
      ensures Came(old(self)) && Took(old(self), self, Verdict(rest, old(self).core, ch))
      ensures var o := Verdict(rest, old(self).core, ch); o.Rejected? ==> RejectsAt(trace, |trace| - 1, id, o.message)
    {
      Recorded(rest, id, self, ch, trace);
      VerdictIgnoresSelf(rest, id, self, ch);
      met := rest;
      assert (trace + [Settle(id, ch)])[..|trace|] == trace;
      self, trace := Stepped(With(rest, id, self), self, ch), trace + [Settle(id, ch)];
    }

    /** prisma.agentRun.findUnique */
    method FindRun() returns (o: Outcome)
      requires Valid() && self.core.pc.Lookup?
      modifies this
      ensures Valid() && old(trace) <= trace && Came(old(self))
      ensures o.Rejected? ==> SomeRejected(old(trace), trace, id, o.message)
      ensures (o.Rejected? || o.Found?) && self.core ==
        old(self.core).(pc := if o.Rejected? then Threw
                              else if o.status == Some(Running) then SandboxCreate else Returned)
      ensures Rest() == met
      ensures o.Rejected? || o == Found(if met.run.Some? then Some(met.run.value.status) else None)
    {
      Interfere();
      var ch: Choice := *;
      ghost var rest := Rest();
      o := if ch.fault.Some? then Rejected(ch.fault.value)
           else Found(if run.Some? then Some(run.value.status) else None);
      Move(rest, ch);
    }

    /** sandboxes.create */
    method CreateSandbox() returns (o: Outcome)
      requires Valid() && self.core.pc.SandboxCreate?
      modifies this
      ensures Valid() && old(trace) <= trace && Came(old(self))
      ensures o.Rejected? ==> SomeRejected(old(trace), trace, id, o.message)
      ensures (o.Rejected? || o.Obtained?) && self.core ==
        if o.Rejected? then Throw(old(self.core), o.message)
        else old(self.core).(pc := SandboxPg, sandbox := Some(o.sandboxId))
      ensures if o.Obtained?
              then o.sandboxId == |met.sandboxes| &&
                   Rest() == met.(sandboxes := met.sandboxes[o.sandboxId := id], live := met.live + {o.sandboxId})
              else Rest() == met
    {
      Interfere();
      var ch: Choice := *;
      ghost var rest := Rest();
      o := if ch.fault.Some? then Rejected(ch.fault.value) else Obtained(|sandboxes|);
      if ch.fault.None? {
        live := live + {|sandboxes|};
        sandboxes := sandboxes[|sandboxes| := id];
      }
      assert Rest() == SettledRest(rest, id, self.core, ch) && o == Verdict(rest, self.core, ch);
      Move(rest, ch);
    }

    /** prisma.agentRun.update with the sandbox id */
    method UpdateRunSandbox(sandbox: SandboxId) returns (o: Outcome)
      requires Valid() && self.core.pc.SandboxPg? && self.core.sandbox == Some(sandbox)
      modifies this
      ensures Valid() && old(trace) <= trace && Came(old(self))
      ensures o.Rejected? ==> SomeRejected(old(trace), trace, id, o.message)
      ensures (o.Rejected? || o.Resolved?) && self.core ==
        if o.Rejected? then Throw(old(self.core), o.message) else old(self.core).(pc := SandboxMirror)
      ensures if met.run.None? then o == Rejected(NOT_FOUND) && Rest() == met
              else Wrote(o, met.(run := Some(met.run.value.(sandboxId := Some(sandbox)))))
    {
      Interfere();
      var ch: Choice := *;
      ghost var rest := Rest();
      o := if run.None? then Rejected(NOT_FOUND) else if ch.fault.Some? then Rejected(ch.fault.value) else Resolved;
      if run.Some? && (ch.fault.None? || ch.applied) {
        run := Some(run.value.(sandboxId := Some(sandbox)));
      }
      Move(rest, ch);
    }

    /** mirror.updateRun with the sandbox id */
    method MirrorSandbox(sandbox: SandboxId) returns (o: Outcome)
      requires Valid() && self.core.pc.SandboxMirror? && self.core.sandbox == Some(sandbox)
      modifies this
      ensures Valid() && old(trace) <= trace && Came(old(self))
      ensures o.Rejected? ==> SomeRejected(old(trace), trace, id, o.message)
      ensures (o.Rejected? || o.Resolved?) && self.core ==
        if o.Rejected? then Throw(old(self.core), o.message) else old(self.core).(pc := EmitStarted)
      ensures var doc := if met.mirror.Some? then met.mirror.value else FRESH;
        Wrote(o, met.(mirror := Some(doc.(sandboxId := Some(sandbox)))))
    {
      Interfere();
      var ch: Choice := *;
      ghost var rest := Rest();
      SandboxMirroredRest(rest, id, self.core, ch);
      if ch.fault.None? || ch.applied {
        var doc := if mirror.Some? then mirror.value else FRESH;
        mirror := Some(doc.(sandboxId := Some(sandbox)));
      }
      o := if ch.fault.Some? then Rejected(ch.fault.value) else Resolved;
      Move(rest, ch);
    }

    /** events.emit and events.complete */
    method Publish(event: Event) returns (o: Outcome)
      requires Valid() && EventOf(self.core) == Some(event)
      modifies this
      ensures Valid() && old(trace) <= trace && Took(old(self), self, o) && Came(old(self))
      ensures o.Rejected? ==> SomeRejected(old(trace), trace, id, o.message)
      ensures Rest() == if o.Rejected? then met else met.(log := met.log + [Published(event, id)])
    {
      Interfere();
      var ch: Choice := *;
      ghost var rest := Rest();
      PublishedRest(rest, id, self.core, event, ch);
      if ch.fault.None? {
        log := log + [Published(event, id)];
      }
      o := if ch.fault.Some? then Rejected(ch.fault.value) else Resolved;
      Move(rest, ch);
    }

    /** prisma.agentStep.count */
    method CountRows() returns (o: Outcome)
      requires Valid() && self.core.pc.CountSteps?
      modifies this
      ensures Valid() && old(trace) <= trace && Took(old(self), self, o) && Came(old(self))
      ensures o.Rejected? ==> SomeRejected(old(trace), trace, id, o.message)
      ensures Rest() == met && (o.Rejected? || o == Counted(|met.rows|))
    {
      Interfere();
      var ch: Choice := *;
      ghost var rest := Rest();
      o := if ch.fault.Some? then Rejected(ch.fault.value) else Counted(|rows|);
      Move(rest, ch);
    }

    /** redis.exists on the cancel key */
    method KeyExists() returns (o: Outcome)
      requires Valid() && self.core.pc.CheckCancel?
      modifies this
      ensures Valid() && old(trace) <= trace && Came(old(self))
      ensures o.Rejected? ==> SomeRejected(old(trace), trace, id, o.message)
      ensures (o.Rejected? || o.Flag?) && self.core ==
        if o.Rejected? then Throw(old(self.core), o.message)
        else old(self.core).(pc := if o.present then FinishPg(Cancelled, None) else Pc.CallModel)
      ensures Rest() == met && (o.Rejected? || o == Flag(met.cancel))
    {
      Interfere();
      var ch: Choice := *;
      ghost var rest := Rest();
      o := if ch.fault.Some? then Rejected(ch.fault.value) else Flag(cancel);
      Move(rest, ch);
    }

    /** client.messages.create with the conversation */
    method CallModel(messages: seq<Message>) returns (o: Outcome)
      requires Valid() && self.core.pc.CallModel? && self.core.messages == messages
      modifies this
      ensures Valid() && old(trace) <= trace && Came(old(self))
      ensures o.Rejected? ==> SomeRejected(old(trace), trace, id, o.message)
      ensures (o.Rejected? || o.Replied?) && self.core ==
        if o.Rejected? then Throw(old(self.core), o.message)
        else Scan(old(self.core).(messages := messages + [Reply(o.blocks)], todo := o.blocks, toolUses := [],
                                  answers := [], toolStop := o.toolStop))
      ensures Rest() == met
    {
      Interfere();
      var ch: Choice := *;
      ghost var rest := Rest();
      o := if ch.fault.Some? then Rejected(ch.fault.value) else Replied(ch.blocks, ch.toolStop);
      Move(rest, ch);
    }

    /** prisma.agentStep.create */
    method CreateStep(at: nat, step: Step) returns (o: Outcome)
      requires Valid() && self.core.pc.StepPg? && self.core.pc.at == at && self.core.pc.step == step
      modifies this
      ensures Valid() && old(trace) <= trace && Came(old(self))
      ensures o.Rejected? ==> SomeRejected(old(trace), trace, id, o.message)
      ensures (o.Rejected? || o.Resolved?) && self.core ==
        if o.Rejected? then Throw(old(self.core), o.message)
        else old(self.core).(pc := StepMirror(at, step, old(self.core).pc.event))
      ensures if at in met.rows then o == Rejected(UNIQUE_VIOLATION) && Rest() == met
              else Wrote(o, met.(rows := met.rows[at := Row(step, id)]))
    {
      Interfere();
      var ch: Choice := *;
      ghost var rest := Rest();
      RowCreatedRest(rest, id, self.core, ch);
      o := if at in rows then Rejected(UNIQUE_VIOLATION)
           else if ch.fault.Some? then Rejected(ch.fault.value) else Resolved;
      if at !in rows && (ch.fault.None? || ch.applied) {
        rows := rows[at := Row(step, id)];
      }
      Move(rest, ch);
    }

    /** mirror.addStep, which creates a document and never overwrites one */
    method AddStep(at: nat, step: Step) returns (o: Outcome)
      requires Valid() && self.core.pc.StepMirror? && self.core.pc.at == at && self.core.pc.step == step
      modifies this
      ensures Valid() && old(trace) <= trace && Came(old(self))
      ensures o.Rejected? ==> SomeRejected(old(trace), trace, id, o.message)
      ensures (o.Rejected? || o.Resolved?) && self.core ==
        if o.Rejected? then Throw(old(self.core), o.message)
        else old(self.core).(pc := StepEmit(old(self.core).pc.event))
      ensures if at in met.docs then o == Rejected(ALREADY_EXISTS) && Rest() == met
              else Wrote(o, met.(docs := met.docs[at := step]))
    {
      Interfere();
      var ch: Choice := *;
      ghost var rest := Rest();
      DocumentCreatedRest(rest, id, self.core, ch);
      o := if at in docs then Rejected(ALREADY_EXISTS)
           else if ch.fault.Some? then Rejected(ch.fault.value) else Resolved;
      if at !in docs && (ch.fault.None? || ch.applied) {
        docs := docs[at := step];
      }
      Move(rest, ch);
    }

    /** tools.execute */
    method RunTool(use: ToolUse) returns (o: Outcome)
      requires Valid() && self.core.pc.RunTool?
      requires |self.core.answers| < |self.core.toolUses| && self.core.toolUses[|self.core.answers|] == use
      modifies this
      ensures Valid() && old(trace) <= trace && Came(old(self))
      ensures o.Rejected? ==> SomeRejected(old(trace), trace, id, o.message)
      ensures (o.Rejected? || o.Output?) && self.core ==
        if o.Rejected? then Throw(old(self.core), o.message) else AfterTool(old(self.core), o.content, o.isError)
      ensures Rest() == met
    {
      Interfere();
      var ch: Choice := *;
      ghost var rest := Rest();
      o := if ch.fault.Some? then Rejected(ch.fault.value) else Output(ch.output, ch.isError);
      Move(rest, ch);
    }

    /** prisma.agentRun.update with status, error and finishedAt */
    method UpdateRunFinish(status: Status, error: Option<string>) returns (o: Outcome)
      requires Valid() && self.core.pc == FinishPg(status, error)
      modifies this
      ensures Valid() && old(trace) <= trace && Came(old(self))
      ensures o.Rejected? ==> SomeRejected(old(trace), trace, id, o.message)
      ensures (o.Rejected? || o.Stamped?) && self.core ==
        if o.Rejected? then Throw(old(self.core), o.message)
        else old(self.core).(pc := FinishMirror(Finish(status, error, o.now)))
      ensures o.Stamped? ==> o.now == Date(old(self))
      ensures if met.run.None? then o == Rejected(NOT_FOUND) && Rest() == met
              else Wrote(o, met.(run := Some(met.run.value.With(Finish(status, error, Date(old(self)))))))
    {
      Interfere();
      var ch: Choice := *;
      ghost var rest := Rest();
      FinishedRest(rest, id, self.core, ch);
      o := if run.None? then Rejected(NOT_FOUND)
           else if ch.fault.Some? then Rejected(ch.fault.value) else Stamped(ch.now);
      if run.Some? && (ch.fault.None? || ch.applied) {
        run := Some(run.value.With(Finish(status, error, ch.now)));
      }
      assert Rest() == SettledRest(rest, id, self.core, ch) && o == Verdict(rest, self.core, ch);
      Move(rest, ch);
    }

    /** mirror.updateRun with status, error and finishedAt */
    method MirrorFinish(finish: Finish) returns (o: Outcome)
      requires Valid() && self.core.pc == FinishMirror(finish)
      modifies this
      ensures Valid() && old(trace) <= trace && Came(old(self))
      ensures o.Rejected? ==> SomeRejected(old(trace), trace, id, o.message)
      ensures (o.Rejected? || o.Resolved?) && self.core ==
        if o.Rejected? then Throw(old(self.core), o.message)
        else old(self.core).(pc := EmitTerminal(finish.status, finish.error))
      ensures var doc := if met.mirror.Some? then met.mirror.value else FRESH;
        Wrote(o, met.(mirror := Some(doc.With(finish))))
    {
      Interfere();
      var ch: Choice := *;
      ghost var rest := Rest();
      FinishMirroredRest(rest, id, self.core, ch);
      if ch.fault.None? || ch.applied {
        var doc := if mirror.Some? then mirror.value else FRESH;
        mirror := Some(doc.With(finish));
      }
      o := if ch.fault.Some? then Rejected(ch.fault.value) else Resolved;
      Move(rest, ch);
    }

    /** sandbox.kill */
    method KillSandbox(sandbox: SandboxId) returns (o: Outcome)
      requires Valid() && self.core.pc.Kill? && self.core.sandbox == Some(sandbox)
      modifies this
      ensures Valid() && old(trace) <= trace && Came(old(self))
      ensures o.Rejected? ==> SomeRejected(old(trace), trace, id, o.message)
      ensures (o.Rejected? || o.Resolved?) && self.core == old(self.core).(pc := EmitEnd)
      ensures Wrote(o, met.(live := met.live - {sandbox}))
    {
      Interfere();
      var ch: Choice := *;
      ghost var rest := Rest();
      KilledRest(rest, id, self.core, ch);
      if ch.fault.None? || ch.applied {
        live := live - {sandbox};
      }
      o := if ch.fault.Some? then Rejected(ch.fault.value) else Resolved;
      Move(rest, ch);
    }

    /** redis.del on the cancel key */
    method DeleteKey() returns (o: Outcome)
      requires Valid() && self.core.pc.DeleteCancel?
      modifies this
      ensures Valid() && old(trace) <= trace && Came(old(self))
      ensures o.Rejected? ==> SomeRejected(old(trace), trace, id, o.message)
      ensures (o.Rejected? || o.Resolved?) && self.core ==
        old(self.core).(pc := if o.Rejected? || old(self.core).rethrow then Threw else Returned)
      ensures Wrote(o, met.(cancel := false))
    {
      Interfere();
      var ch: Choice := *;
      ghost var rest := Rest();
      DeletedRest(rest, id, self.core, ch);
      if ch.fault.None? || ch.applied {
        cancel := false;
      }
      o := if ch.fault.Some? then Rejected(ch.fault.value) else Resolved;
      Move(rest, ch);
    }
  }
}
