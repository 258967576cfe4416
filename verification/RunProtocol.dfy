/**
 The agent run as a transition system: one run, its rows and record in Postgres, its documents in Firestore,
 its channel and cancel key in Redis, its sandboxes, the request that creates it, and any number of executors.

 An action is one awaited operation settling, a crash, or a move of the environment. Every interleaving of
 executors is a sequence of actions, so a property of every `Run` is a property of every interleaving.
 */
module RunProtocol {
  import opened Wrappers
  import opened AgentTypes
  import opened Executor
  import opened ExecutorHistory

  /** A row of agent_steps. `writer` is history: the executor that wrote it. */
  datatype Row = Row(step: Step, writer: ExecId)

  datatype Published = Published(event: Event, sender: ExecId)

  /** The progress of AgentRunsService.create. */
  datatype Creation =
    | InsertRun
    | SetRun
    | FailUnmirrored
    | Audit
    | Enqueue
    | FailUnqueued
    | FailUnqueuedMirror(finish: Finish)
    | Accepted
    | Refused
    | Abandoned

  datatype World = World(
    rows: map<nat, Row>,
    docs: map<nat, Step>,
    run: Option<Record>,
    mirror: Option<Record>,
    creation: Creation,
    job: bool,
    cancel: bool,
    log: seq<Published>,
    sandboxes: map<SandboxId, ExecId>,
    live: set<SandboxId>,
    execs: map<ExecId, Exec>)

  const NOTHING := World(map[], map[], None, None, InsertRun, false, false, [], map[], {}, map[])

  /**
   What the environment decides when an operation settles: whether it rejects and with which message, whether a
   rejected store write took effect all the same, the date, and the contents of a model reply or tool output.
   */
  datatype Choice = Choice(
    fault: Option<string>,
    applied: bool,
    now: nat,
    blocks: seq<Block>,
    toolStop: bool,
    output: string,
    isError: bool)

  datatype Action =
    | Create(choice: Choice)
    | AbandonCreate
    | Start(id: ExecId, prompt: string, maxIterations: nat)
    | Settle(id: ExecId, choice: Choice)
    | CrashOf(id: ExecId)
    | RequestCancel
    | ExpireCancel

  const UNIQUE_VIOLATION := "Unique constraint failed on the fields: (`runId`,`index`)"
  const ALREADY_EXISTS := "ALREADY_EXISTS"
  const NOT_FOUND := "Record to update not found."
  const MIRROR_FAILURE := "Failed to mirror run to Firestore"
  const ENQUEUE_FAILURE := "Failed to enqueue agent run for execution"

  /** Store writes: a rejected one may have taken effect all the same. A rejected read or publish never has. */
  predicate Writes(pc: Pc) {
    || pc.SandboxPg? || pc.SandboxMirror? || pc.StepPg? || pc.StepMirror? || pc.FinishPg? || pc.FinishMirror?
    || pc.Kill? || pc.DeleteCancel?
  }

  /** Why the store itself turns the operation down: a missing run, a taken index, an existing document. */
  function Refusal(w: World, c: Core): Option<string> {
    if (c.pc.SandboxPg? || c.pc.FinishPg?) && w.run.None? then Some(NOT_FOUND)
    else if c.pc.StepPg? && c.pc.at in w.rows then Some(UNIQUE_VIOLATION)
    else if c.pc.StepMirror? && c.pc.at in w.docs then Some(ALREADY_EXISTS)
    else None
  }

  /** What the operation resolves with. */
  function Answer(w: World, c: Core, ch: Choice): Outcome {
    match c.pc
    case Lookup => Found(if w.run.Some? then Some(w.run.value.status) else None)
    case SandboxCreate => Obtained(|w.sandboxes|)
    case CountSteps => Counted(|w.rows|)
    case CheckCancel => Flag(w.cancel)
    case CallModel => Replied(ch.blocks, ch.toolStop)
    case RunTool => Output(ch.output, ch.isError)
    case FinishPg(_, _) => Stamped(ch.now)
    case _ => Resolved
  }

  /** How the operation settles. */
  function Verdict(w: World, c: Core, ch: Choice): Outcome {
    var refusal := Refusal(w, c);
    if refusal.Some? then Rejected(refusal.value)
    else if ch.fault.Some? then Rejected(ch.fault.value)
    else Answer(w, c, ch)
  }

  /** Whether the operation took effect. */
  predicate Applied(w: World, c: Core, ch: Choice) {
    Refusal(w, c).None? && (ch.fault.None? || (ch.applied && Writes(c.pc)))
  }

  function RowsAfter(rows: map<nat, Row>, id: ExecId, c: Core): map<nat, Row> {
    if c.pc.StepPg? then rows[c.pc.at := Row(c.pc.step, id)] else rows
  }

  function DocsAfter(docs: map<nat, Step>, c: Core): map<nat, Step> {
    if c.pc.StepMirror? then docs[c.pc.at := c.pc.step] else docs
  }

  function RunAfter(run: Option<Record>, c: Core, now: nat): Option<Record> {
    if run.None? then run
    else if c.pc.SandboxPg? then Some(run.value.(sandboxId := c.sandbox))
    else if c.pc.FinishPg? then Some(run.value.With(Finish(c.pc.status, c.pc.error, now)))
    else run
  }

  /** `set(update, { merge: true })` on the run's document; executors only start once the document exists. */
  function MirrorAfter(mirror: Option<Record>, c: Core): Option<Record> {
    var doc := if mirror.Some? then mirror.value else Record(Running, None, None, None);
    if c.pc.SandboxMirror? then Some(doc.(sandboxId := c.sandbox))
    else if c.pc.FinishMirror? then Some(doc.With(c.pc.finish))
    else mirror
  }

  /** The event a publish sends. */
  function EventOf(c: Core): Option<Event> {
    match c.pc
    case EmitStarted => Some(RunStarted(c.prompt))
    case StepEmit(event) => Some(event)
    case EmitTerminal(status, error) => Some(TerminalEvent(status, error))
    case EmitEnd => Some(StreamEnd)
    case _ => None
  }

  function LogAfter(log: seq<Published>, id: ExecId, c: Core): seq<Published> {
    if EventOf(c).Some? then log + [Published(EventOf(c).value, id)] else log
  }

  function SandboxesAfter(sandboxes: map<SandboxId, ExecId>, id: ExecId, c: Core): map<SandboxId, ExecId> {
    if c.pc.SandboxCreate? then sandboxes[|sandboxes| := id] else sandboxes
  }

  function LiveAfter(live: set<SandboxId>, made: nat, c: Core): set<SandboxId> {
    if c.pc.SandboxCreate? then live + {made}
    else if c.pc.Kill? && c.sandbox.Some? then live - {c.sandbox.value}
    else live
  }

  /** The effect of the operation executor `id`, stopped at `c`, is waiting for. */
  function Performed(w: World, id: ExecId, c: Core, now: nat): World {
    w.(rows := RowsAfter(w.rows, id, c),
       docs := DocsAfter(w.docs, c),
       run := RunAfter(w.run, c, now),
       mirror := MirrorAfter(w.mirror, c),
       cancel := w.cancel && !c.pc.DeleteCancel?,
       log := LogAfter(w.log, id, c),
       sandboxes := SandboxesAfter(w.sandboxes, id, c),
       live := LiveAfter(w.live, |w.sandboxes|, c))
  }

  /** Every operation settles in a way the executor can resume from. */
  lemma VerdictSettles(w: World, c: Core, ch: Choice)
    requires c.pc.Live()
    ensures Settles(c, Verdict(w, c, ch), Applied(w, c, ch), ch.now)
  {
  }

  /** Executor `e`, once its operation has settled. */
  function Stepped(w: World, e: Exec, ch: Choice): Exec
    requires e.core.pc.Live()
  {
    VerdictSettles(w, e.core, ch);
    Advance(e, Verdict(w, e.core, ch), Applied(w, e.core, ch), ch.now)
  }

  /** Where `create` goes when its operation settles; every failure ends in an exception. */
  function NextCreation(c: Creation, fails: bool, now: nat): Creation {
    match c
    case InsertRun => if fails then Refused else SetRun
    case SetRun => if fails then FailUnmirrored else Audit
    case FailUnmirrored => Refused
    case Audit => if fails then Refused else Enqueue
    case Enqueue => if fails then FailUnqueued else Accepted
    case FailUnqueued => if fails then Refused else FailUnqueuedMirror(Finish(Failed, Some(ENQUEUE_FAILURE), now))
    case FailUnqueuedMirror(_) => Refused
    case _ => c
  }

  function RunCreated(run: Option<Record>, c: Creation, now: nat): Option<Record> {
    if c.InsertRun? then Some(Record(Running, None, None, None))
    else if c.FailUnmirrored? && run.Some? then Some(run.value.With(Finish(Failed, Some(MIRROR_FAILURE), now)))
    else if c.FailUnqueued? && run.Some? then Some(run.value.With(Finish(Failed, Some(ENQUEUE_FAILURE), now)))
    else run
  }

  function MirrorCreated(run: Option<Record>, mirror: Option<Record>, c: Creation): Option<Record> {
    if c.SetRun? then run
    else if c.FailUnqueuedMirror? && mirror.Some? then Some(mirror.value.With(c.finish))
    else mirror
  }

  /** One step of AgentRunsService.create, after the session has been found. */
  function CreateStep(w: World, ch: Choice): World {
    var happens := ch.fault.None? || ch.applied;
    w.(run := if happens then RunCreated(w.run, w.creation, ch.now) else w.run,
       mirror := if happens then MirrorCreated(w.run, w.mirror, w.creation) else w.mirror,
       creation := NextCreation(w.creation, ch.fault.Some?, ch.now),
       job := w.job || (w.creation.Enqueue? && ch.fault.None?))
  }

  /** The world after an action; an action that is not possible changes nothing. */
  function Apply(w: World, a: Action): World {
    match a
    case Create(ch) => CreateStep(w, ch)
    case AbandonCreate =>
      if w.creation.Accepted? || w.creation.Refused? then w else w.(creation := Abandoned)
    case Start(id, prompt, maxIterations) =>
      if w.job && id !in w.execs then w.(execs := w.execs[id := Exec(Begin(prompt, maxIterations), BLANK)]) else w
    case Settle(id, ch) =>
      if id in w.execs && w.execs[id].core.pc.Live() then
        var e := w.execs[id];
        var v := if Applied(w, e.core, ch) then Performed(w, id, e.core, ch.now) else w;
        v.(execs := w.execs[id := Stepped(w, e, ch)])
      else w
    case CrashOf(id) =>
      if id in w.execs && w.execs[id].core.pc.Live() then w.(execs := w.execs[id := Crash(w.execs[id])]) else w
    case RequestCancel => w.(cancel := true)
    case ExpireCancel => w.(cancel := false)
  }

  /** The world after a sequence of actions. */
  function Run(w: World, actions: seq<Action>): World {
    if actions == [] then w
    else Apply(Run(w, actions[..|actions| - 1]), actions[|actions| - 1])
  }

  lemma RunSnoc(w: World, actions: seq<Action>, a: Action)
    ensures Run(w, actions + [a]) == Apply(Run(w, actions), a)
  {
    assert (actions + [a])[..|actions|] == actions;
  }

  /** Running one sequence after another. */
  lemma {:induction false} RunConcat(w: World, a: seq<Action>, b: seq<Action>)
    ensures Run(w, a + b) == Run(Run(w, a), b)
    decreases |b|
  {
    if b == [] {
      assert a + b == a;
    } else {
      var n := |a + b|;
      assert (a + b)[..n - 1] == a + b[..|b| - 1];
      assert (a + b)[n - 1] == b[|b| - 1];
      RunConcat(w, a, b[..|b| - 1]);
    }
  }
}
