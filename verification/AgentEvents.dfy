/**
 AgentEventsService: the map of subjects, the messages Redis hands it, and what the observers of a run receive.

 A subject is a number into the list of subjects ever made. An observer is a subscription to the observable that
 `observe` returned; it may be made at any time after that, and several may be made.
 */
module AgentEvents {
  import opened Wrappers
  import opened AgentTypes

  const CHANNEL_PREFIX := "agent-events:"

  function ChannelOf(runId: string): string { CHANNEL_PREFIX + runId }

  /** `startsWith` and `slice`: the run of a channel. */
  function RunOf(channel: string): Option<string> {
    if CHANNEL_PREFIX <= channel then Some(channel[|CHANNEL_PREFIX|..]) else None
  }

  /** A channel names exactly one run, and a run has exactly one channel. */
  lemma ChannelNamesRun(channel: string, runId: string)
    ensures RunOf(channel) == Some(runId) <==> channel == ChannelOf(runId)
  {
    assert ChannelOf(runId)[|CHANNEL_PREFIX|..] == runId;
    if RunOf(channel) == Some(runId) {
      assert channel == channel[..|CHANNEL_PREFIX|] + channel[|CHANNEL_PREFIX|..];
    }
  }

  lemma ChannelSample()
    ensures ChannelOf("7") == "agent-events:7" && RunOf("agent-events:7") == Some("7") && RunOf("agent") == None
  {
    assert "agent-events:7" == CHANNEL_PREFIX + "7";
    ChannelNamesRun("agent-events:7", "7");
    assert |"agent"| < |CHANNEL_PREFIX|;
  }

  /** A message on a channel: the JSON of an event or of the end marker, or no JSON at all. */
  datatype Message = Malformed | Wire(event: Event)

  datatype Command = Subscribe(channel: string) | Unsubscribe(channel: string)

  datatype Observer = Observer(subject: nat, received: seq<Event>, completed: bool)

  /** The service: `closed` says of every subject whether it has completed, `handles` are the results of `observe`. */
  datatype Service = Service(
    subjects: map<string, nat>,
    closed: seq<bool>,
    handles: seq<nat>,
    observers: seq<Observer>,
    commands: seq<Command>)

  const IDLE := Service(map[], [], [], [], [])

  datatype Action =
    | Observe(runId: string)
    | Attach(handle: nat)
    | Deliver(channel: string, message: Message)

  // ----- what the operations do -----

  function Observed(s: Service, runId: string): Service {
    if runId in s.subjects then s.(handles := s.handles + [s.subjects[runId]])
    else
      var subject := |s.closed|;
      s.(subjects := s.subjects[runId := subject],
         closed := s.closed + [false],
         handles := s.handles + [subject],
         commands := s.commands + [Subscribe(ChannelOf(runId))])
  }

  /** Subscribing to a subject; one that has completed completes the observer at once. */
  function Attached(s: Service, handle: nat): Service {
    if handle < |s.handles| && s.handles[handle] < |s.closed| then
      var subject := s.handles[handle];
      s.(observers := s.observers + [Observer(subject, [], s.closed[subject])])
    else s
  }

  function Told(o: Observer, subject: nat, event: Event): Observer {
    if o.subject == subject && !o.completed then o.(received := o.received + [event]) else o
  }

  function Ending(o: Observer, subject: nat): Observer {
    if o.subject == subject then o.(completed := true) else o
  }

  /** `subject.next` */
  function Next(s: Service, subject: nat, event: Event): Service {
    s.(observers := seq(|s.observers|, k requires 0 <= k < |s.observers| => Told(s.observers[k], subject, event)))
  }

  /** `subject.complete` */
  function Complete(s: Service, subject: nat): Service
    requires subject < |s.closed|
  {
    s.(closed := s.closed[subject := true],
       observers := seq(|s.observers|, k requires 0 <= k < |s.observers| => Ending(s.observers[k], subject)))
  }

  function Removed(s: Service, runId: string): Service {
    if runId in s.subjects then
      s.(subjects := s.subjects - {runId}, commands := s.commands + [Unsubscribe(ChannelOf(runId))])
    else s
  }

  function Handled(s: Service, channel: string, message: Message): Service {
    var runId := RunOf(channel);
    if runId.None? || runId.value !in s.subjects || s.subjects[runId.value] >= |s.closed| then s
    else if message.Malformed? then s
    else if message.event.StreamEnd? then Removed(Complete(s, s.subjects[runId.value]), runId.value)
    else Next(s, s.subjects[runId.value], message.event)
  }

  function Act(s: Service, a: Action): Service {
    match a
    case Observe(runId) => Observed(s, runId)
    case Attach(handle) => Attached(s, handle)
    case Deliver(channel, message) => Handled(s, channel, message)
  }

  /** The service after a sequence of actions. */
  function Play(s: Service, actions: seq<Action>): Service
    decreases |actions|
  {
    if actions == [] then s else Play(Act(s, actions[0]), actions[1..])
  }

  lemma {:induction false} PlayConcat(s: Service, a: seq<Action>, b: seq<Action>)
    ensures Play(s, a + b) == Play(Play(s, a), b)
    decreases |a|
  {
    if a == [] {
      assert a + b == b;
    } else {
      assert (a + b)[1..] == a[1..] + b;
      PlayConcat(Act(s, a[0]), a[1..], b);
    }
  }

  // ----- the invariant -----

  ghost predicate Owned(s: Service, subject: nat) {
    exists runId :: runId in s.subjects && s.subjects[runId] == subject
  }

  /** No subject in the map is completed, two runs never share one, and every subject out of the map is completed. */
  ghost predicate SubjectsOpen(s: Service) {
    && (forall r :: r in s.subjects ==> s.subjects[r] < |s.closed| && !s.closed[s.subjects[r]])
    && (forall r, t :: r in s.subjects && t in s.subjects && s.subjects[r] == s.subjects[t] ==> r == t)
    && (forall q :: 0 <= q < |s.closed| && !s.closed[q] ==> Owned(s, q))
  }

  ghost predicate ObserversFollow(s: Service) {
    && (forall h :: 0 <= h < |s.handles| ==> s.handles[h] < |s.closed|)
    && (forall k :: 0 <= k < |s.observers| ==>
          s.observers[k].subject < |s.closed| && s.observers[k].completed == s.closed[s.observers[k].subject])
  }

  ghost predicate Valid(s: Service) { SubjectsOpen(s) && ObserversFollow(s) }

  lemma ObservedKeeps(s: Service, runId: string)
    requires SubjectsOpen(s)
    ensures SubjectsOpen(Observed(s, runId))
  {
    var s' := Observed(s, runId);
    forall q | 0 <= q < |s'.closed| && !s'.closed[q] ensures Owned(s', q) {
      if q == |s.closed| {
        assert s'.subjects[runId] == q;
      } else {
        assert Owned(s, q);
        var r :| r in s.subjects && s.subjects[r] == q;
        assert s'.subjects[r] == q;
      }
    }
  }

  lemma EndedKeeps(s: Service, runId: string)
    requires SubjectsOpen(s) && runId in s.subjects
    ensures SubjectsOpen(Removed(Complete(s, s.subjects[runId]), runId))
  {
    var s' := Removed(Complete(s, s.subjects[runId]), runId);
    forall q | 0 <= q < |s'.closed| && !s'.closed[q] ensures Owned(s', q) {
      assert Owned(s, q);
      var r :| r in s.subjects && s.subjects[r] == q;
      assert r in s'.subjects && s'.subjects[r] == q;
    }
  }

  lemma OpenIsKept(s: Service, s': Service)
    requires SubjectsOpen(s) && s'.subjects == s.subjects && s'.closed == s.closed
    ensures SubjectsOpen(s')
  {
    forall q | 0 <= q < |s'.closed| && !s'.closed[q] ensures Owned(s', q) {
      assert Owned(s, q);
      var r :| r in s.subjects && s.subjects[r] == q;
      assert s'.subjects[r] == q;
    }
  }

  lemma ObserversStep(s: Service, a: Action)
    requires SubjectsOpen(s) && ObserversFollow(s)
    ensures ObserversFollow(Act(s, a))
  {
  }

  lemma HandledKeeps(s: Service, channel: string, message: Message)
    requires SubjectsOpen(s)
    ensures SubjectsOpen(Handled(s, channel, message))
  {
    var runId := RunOf(channel);
    if runId.Some? && runId.value in s.subjects && message == Wire(StreamEnd) {
      EndedKeeps(s, runId.value);
    } else {
      OpenIsKept(s, Handled(s, channel, message));
    }
  }

  lemma StepKeepsOpen(s: Service, a: Action)
    requires SubjectsOpen(s)
    ensures SubjectsOpen(Act(s, a))
  {
    match a
    case Observe(runId) => ObservedKeeps(s, runId);
    case Attach(handle) => OpenIsKept(s, Attached(s, handle));
    case Deliver(channel, message) => HandledKeeps(s, channel, message);
  }

  lemma StepKeepsValid(s: Service, a: Action)
    requires Valid(s)
    ensures Valid(Act(s, a))
  {
    ObserversStep(s, a);
    StepKeepsOpen(s, a);
  }

  /** In every history the map holds exactly the subjects that have not completed, one for each run. */
  lemma {:induction false} SubjectsInMapAreOpen(s: Service, actions: seq<Action>)
    requires Valid(s)
    ensures Valid(Play(s, actions))
    decreases |actions|
  {
    if actions != [] {
      StepKeepsValid(s, actions[0]);
      SubjectsInMapAreOpen(Act(s, actions[0]), actions[1..]);
    }
  }

  // ----- what an observer receives -----

  const END := Wire(StreamEnd)

  /** The end marker of the run was delivered. */
  predicate Ended(actions: seq<Action>, runId: string) { Deliver(ChannelOf(runId), END) in actions }

  /** The events delivered on the run's channel, up to its first end marker. */
  function EventsOf(actions: seq<Action>, runId: string): seq<Event>
    decreases |actions|
  {
    if actions == [] then []
    else
      match actions[0]
      case Deliver(channel, Wire(event)) =>
        if channel != ChannelOf(runId) then EventsOf(actions[1..], runId)
        else if event.StreamEnd? then []
        else [event] + EventsOf(actions[1..], runId)
      case _ => EventsOf(actions[1..], runId)
  }

  /** The subject of `runId` is `q`, which has not completed. */
  predicate Serves(s: Service, runId: string, q: nat) {
    runId in s.subjects && s.subjects[runId] == q
  }

  predicate Done(s: Service, q: nat) { q < |s.closed| && s.closed[q] }

  /** The run's subject stays until the end marker comes. */
  lemma SubjectStep(s: Service, a: Action, runId: string, q: nat)
    requires Valid(s) && Serves(s, runId, q)
    ensures if a == Deliver(ChannelOf(runId), END) then Done(Act(s, a), q) else Serves(Act(s, a), runId, q)
  {
    if a.Deliver? {
      ChannelNamesRun(a.channel, runId);
    }
  }

  lemma DoneStep(s: Service, a: Action, q: nat)
    requires Valid(s) && Done(s, q)
    ensures Done(Act(s, a), q)
  {
  }

  predicate HandleIs(s: Service, h: nat, q: nat) { h < |s.handles| && s.handles[h] == q }

  lemma {:induction false} SubjectUntilEnd(s: Service, actions: seq<Action>, runId: string, h: nat, q: nat)
    requires Valid(s) && HandleIs(s, h, q) && (Serves(s, runId, q) || Done(s, q))
    ensures HandleIs(Play(s, actions), h, q)
    ensures if Done(s, q) || Ended(actions, runId) then Done(Play(s, actions), q)
            else Serves(Play(s, actions), runId, q)
    decreases |actions|
  {
    if actions != [] {
      var s' := Act(s, actions[0]);
      StepKeepsValid(s, actions[0]);
      if Done(s, q) {
        DoneStep(s, actions[0], q);
      } else {
        SubjectStep(s, actions[0], runId, q);
      }
      SubjectUntilEnd(s', actions[1..], runId, h, q);
    }
  }

  predicate ObserverIs(s: Service, k: nat, o: Observer) { k < |s.observers| && s.observers[k] == o }

  /** What one action means to an observer of `runId`. */
  lemma ObserverStep(s: Service, a: Action, runId: string, k: nat, o: Observer)
    requires Valid(s) && ObserverIs(s, k, o) && Serves(s, runId, o.subject)
    ensures ObserverIs(Act(s, a), k,
      if a == Deliver(ChannelOf(runId), END) then o.(completed := true)
      else if a.Deliver? && a.channel == ChannelOf(runId) && a.message.Wire?
      then o.(received := o.received + [a.message.event])
      else o)
  {
    if a.Deliver? {
      ChannelNamesRun(a.channel, runId);
    }
  }

  /** A completed observer receives nothing more. */
  lemma CompletedStep(s: Service, a: Action, k: nat, o: Observer)
    requires Valid(s) && ObserverIs(s, k, o) && o.completed
    ensures ObserverIs(Act(s, a), k, o)
  {
  }

  lemma {:induction false} CompletedStays(s: Service, actions: seq<Action>, k: nat, o: Observer)
    requires Valid(s) && ObserverIs(s, k, o) && o.completed
    ensures ObserverIs(Play(s, actions), k, o)
    decreases |actions|
  {
    if actions != [] {
      StepKeepsValid(s, actions[0]);
      CompletedStep(s, actions[0], k, o);
      CompletedStays(Act(s, actions[0]), actions[1..], k, o);
    }
  }

  /** What a first action means for the rest of a history. */
  lemma EventsOfCons(actions: seq<Action>, runId: string)
    requires actions != []
    ensures var a, rest := actions[0], actions[1..];
      && (Ended(actions, runId) <==> a == Deliver(ChannelOf(runId), END) || Ended(rest, runId))
      && EventsOf(actions, runId) ==
         if a == Deliver(ChannelOf(runId), END) then []
         else if a.Deliver? && a.channel == ChannelOf(runId) && a.message.Wire?
         then [a.message.event] + EventsOf(rest, runId)
         else EventsOf(rest, runId)
  {
  }

  lemma AppendOne<T>(a: seq<T>, x: T, b: seq<T>)
    ensures a + [x] + b == a + ([x] + b)
  {
  }

  lemma AppendNothing<T>(a: seq<T>)
    ensures a + [] == a
  {
  }

  lemma {:induction false} ObserverUntilEnd(s: Service, actions: seq<Action>, runId: string, k: nat, o: Observer)
    requires Valid(s) && ObserverIs(s, k, o) && Serves(s, runId, o.subject)
    ensures ObserverIs(Play(s, actions), k,
      Observer(o.subject, o.received + EventsOf(actions, runId), Ended(actions, runId)))
    decreases |actions|
  {
    assert !o.completed;
    AppendNothing(o.received);
    if actions != [] {
      var a := actions[0];
      EventsOfCons(actions, runId);
      StepKeepsValid(s, a);
      SubjectStep(s, a, runId, o.subject);
      ObserverStep(s, a, runId, k, o);
      if a == Deliver(ChannelOf(runId), END) {
        CompletedStays(Act(s, a), actions[1..], k, o.(completed := true));
      } else if a.Deliver? && a.channel == ChannelOf(runId) && a.message.Wire? {
        AppendOne(o.received, a.message.event, EventsOf(actions[1..], runId));
        ObserverUntilEnd(Act(s, a), actions[1..], runId, k, o.(received := o.received + [a.message.event]));
      } else {
        ObserverUntilEnd(Act(s, a), actions[1..], runId, k, o);
      }
    }
  }

  /** The result of `observe` names the run's subject. */
  lemma ObserveNamesSubject(s: Service, runId: string)
    requires Valid(s)
    ensures HandleIs(Observed(s, runId), |s.handles|, Observed(s, runId).subjects[runId])
    ensures Valid(Observed(s, runId))
  {
    StepKeepsValid(s, Observe(runId));
  }

  /** An observer made through a handle of `runId` after `between`, and then `after`. */
  lemma AttachedReceives(s: Service, runId: string, h: nat, q: nat, after: seq<Action>)
    requires Valid(s) && HandleIs(s, h, q) && (Serves(s, runId, q) || Done(s, q))
    ensures var gone := Done(s, q);
      ObserverIs(Play(Attached(s, h), after), |s.observers|,
                 Observer(q, if gone then [] else EventsOf(after, runId), gone || Ended(after, runId)))
  {
    var s', k := Attached(s, h), |s.observers|;
    StepKeepsValid(s, Attach(h));
    var o := s'.observers[k];
    if Done(s, q) {
      CompletedStays(s', after, k, o);
    } else {
      ObserverUntilEnd(s', after, runId, k, o);
      assert [] + EventsOf(after, runId) == EventsOf(after, runId);
    }
  }

  /**
   An observer of a run receives exactly the events delivered on that run's channel after it attached, in order,
   up to the first end marker since the run was observed, and completes with that marker: whatever happens to
   other runs, observers and subjects, and whatever malformed messages come.
   */
  lemma ObserverReceivesItsRun(before: seq<Action>, runId: string, between: seq<Action>, after: seq<Action>)
    ensures var early := Play(IDLE, before);
      var reached := Play(Observed(early, runId), between);
      var h, k := |early.handles|, |reached.observers|;
      && Play(IDLE, before + [Observe(runId)] + between) == reached
      && h < |reached.handles|
      && Play(IDLE, before + [Observe(runId)] + between + [Attach(h)] + after) == Play(Attached(reached, h), after)
      && k < |Play(Attached(reached, h), after).observers|
      && var o := Play(Attached(reached, h), after).observers[k];
         && o.received == (if Ended(between, runId) then [] else EventsOf(after, runId))
         && (o.completed <==> Ended(between, runId) || Ended(after, runId))
  {
    var early := Play(IDLE, before);
    var seen := Observed(early, runId);
    var reached := Play(seen, between);
    var h := |early.handles|;
    SubjectsInMapAreOpen(IDLE, before);
    ObserveNamesSubject(early, runId);
    var q := seen.subjects[runId];
    SubjectUntilEnd(seen, between, runId, h, q);
    SubjectsInMapAreOpen(seen, between);
    AttachedReceives(reached, runId, h, q, after);
    PlayConcat(IDLE, before, [Observe(runId)]);
    PlayOne(early, Observe(runId));
    PlayConcat(IDLE, before + [Observe(runId)], between);
    PlayConcat(IDLE, before + [Observe(runId)] + between, [Attach(h)]);
    PlayOne(reached, Attach(h));
    PlayConcat(IDLE, before + [Observe(runId)] + between + [Attach(h)], after);
  }

  lemma PlayOne(s: Service, a: Action)
    ensures Play(s, [a]) == Act(s, a)
  {
    assert [a][1..] == [];
    assert Play(Act(s, a), []) == Act(s, a);
  }

  // ----- subscribing and unsubscribing -----

  /** The commands issued for one run's channel: true for subscribe. */
  function CommandsOn(commands: seq<Command>, runId: string): seq<bool> {
    if commands == [] then []
    else
      var rest := CommandsOn(commands[..|commands| - 1], runId);
      var last := commands[|commands| - 1];
      if last.channel == ChannelOf(runId) then rest + [last.Subscribe?] else rest
  }

  /** Subscribe and unsubscribe in turn, subscribe first. */
  ghost predicate Alternates(cs: seq<bool>) {
    forall i :: 0 <= i < |cs| ==> cs[i] == (i % 2 == 0)
  }

  lemma CommandsOnSnoc(commands: seq<Command>, c: Command, runId: string)
    ensures CommandsOn(commands + [c], runId) ==
      if c.channel == ChannelOf(runId) then CommandsOn(commands, runId) + [c.Subscribe?]
      else CommandsOn(commands, runId)
  {
    assert (commands + [c])[..|commands|] == commands;
  }

  /** The run's commands so far fit with whether the map holds it. */
  ghost predicate InTurn(s: Service, runId: string) {
    var cs := CommandsOn(s.commands, runId);
    Alternates(cs) && (runId in s.subjects <==> |cs| % 2 == 1)
  }

  lemma AlternatesSnoc(cs: seq<bool>, subscribes: bool)
    requires Alternates(cs) && (subscribes <==> |cs| % 2 == 0)
    ensures Alternates(cs + [subscribes])
    ensures subscribes <==> |cs + [subscribes]| % 2 == 1
  {
  }

  /** One more command on the run's channel, subscribing or not. */
  lemma InTurnSnoc(s: Service, s': Service, c: Command, runId: string)
    requires InTurn(s, runId) && s'.commands == s.commands + [c] && c.channel == ChannelOf(runId)
    requires (c.Subscribe? <==> runId !in s.subjects) && (c.Subscribe? <==> runId in s'.subjects)
    ensures InTurn(s', runId)
  {
    CommandsOnSnoc(s.commands, c, runId);
    AlternatesSnoc(CommandsOn(s.commands, runId), c.Subscribe?);
  }

  /** A command on another channel, or none. */
  lemma InTurnStays(s: Service, s': Service, c: Command, runId: string)
    requires InTurn(s, runId) && (runId in s'.subjects <==> runId in s.subjects)
    requires s'.commands == s.commands || (s'.commands == s.commands + [c] && c.channel != ChannelOf(runId))
    ensures InTurn(s', runId)
  {
    CommandsOnSnoc(s.commands, c, runId);
  }

  lemma ObserveInTurn(s: Service, r: string, runId: string)
    requires InTurn(s, runId)
    ensures InTurn(Observed(s, r), runId)
  {
    ChannelNamesRun(ChannelOf(r), runId);
    ChannelNamesRun(ChannelOf(r), r);
    if r == runId && r !in s.subjects {
      InTurnSnoc(s, Observed(s, r), Subscribe(ChannelOf(r)), runId);
    } else {
      InTurnStays(s, Observed(s, r), Subscribe(ChannelOf(r)), runId);
    }
  }

  lemma HandleInTurn(s: Service, channel: string, message: Message, runId: string)
    requires SubjectsOpen(s) && InTurn(s, runId)
    ensures InTurn(Handled(s, channel, message), runId)
  {
    var r := if RunOf(channel).Some? then RunOf(channel).value else "";
    ChannelNamesRun(channel, r);
    ChannelNamesRun(channel, runId);
    if channel == ChannelOf(runId) && runId in s.subjects && message == END {
      InTurnSnoc(s, Handled(s, channel, message), Unsubscribe(ChannelOf(runId)), runId);
    } else {
      InTurnStays(s, Handled(s, channel, message), Unsubscribe(channel), runId);
    }
  }

  lemma ActInTurn(s: Service, a: Action, runId: string)
    requires Valid(s) && InTurn(s, runId)
    ensures InTurn(Act(s, a), runId)
  {
    match a
    case Observe(r) => ObserveInTurn(s, r, runId);
    case Attach(h) => InTurnStays(s, Attached(s, h), Subscribe(""), runId);
    case Deliver(channel, message) => HandleInTurn(s, channel, message, runId);
  }

  /** The map gains a run when it is observed and loses it with its end marker. */
  lemma InMapAfter(s: Service, a: Action, runId: string)
    requires SubjectsOpen(s)
    ensures runId in Act(s, a).subjects <==>
      a == Observe(runId) || (runId in s.subjects && a != Deliver(ChannelOf(runId), END))
  {
    if a.Deliver? {
      ChannelNamesRun(a.channel, runId);
    }
  }

  /** Whether the run is being observed: it was observed after its last end marker. */
  predicate Watched(actions: seq<Action>, runId: string) {
    if actions == [] then false
    else
      var last := actions[|actions| - 1];
      last == Observe(runId) || (last != Deliver(ChannelOf(runId), END) && Watched(actions[..|actions| - 1], runId))
  }

  lemma {:induction false} InTurnAlways(actions: seq<Action>, runId: string)
    ensures InTurn(Play(IDLE, actions), runId)
    ensures runId in Play(IDLE, actions).subjects <==> Watched(actions, runId)
    decreases |actions|
  {
    if actions != [] {
      var before, last := actions[..|actions| - 1], actions[|actions| - 1];
      InTurnAlways(before, runId);
      SubjectsInMapAreOpen(IDLE, before);
      assert before + [last] == actions;
      PlayConcat(IDLE, before, [last]);
      PlayOne(Play(IDLE, before), last);
      ActInTurn(Play(IDLE, before), last, runId);
      InMapAfter(Play(IDLE, before), last, runId);
    }
  }

  lemma LastOfAlternating(cs: seq<bool>)
    requires Alternates(cs)
    ensures |cs| % 2 == 1 <==> cs != [] && cs[|cs| - 1]
  {
  }

  /**
   In every history the commands for a run's channel are subscribe and unsubscribe in turn, and the last one is
   subscribe exactly when the map holds the run: when it was observed after its last end marker.
   */
  lemma CommandsAlternate(actions: seq<Action>, runId: string)
    ensures var s := Play(IDLE, actions);
      var cs := CommandsOn(s.commands, runId);
      && Alternates(cs)
      && (runId in s.subjects <==> cs != [] && cs[|cs| - 1])
      && (runId in s.subjects <==> Watched(actions, runId))
  {
    InTurnAlways(actions, runId);
    LastOfAlternating(CommandsOn(Play(IDLE, actions).commands, runId));
  }

  // ----- the service -----

  /** The service and its subjects; an action of the message handler or of `observe` runs without interruption. */
  class AgentEventsService {
    var subjects: map<string, nat>
    var closed: seq<bool>
    var handles: seq<nat>
    var observers: seq<Observer>
    var commands: seq<Command>

    function State(): Service
      reads this
    {
      Service(subjects, closed, handles, observers, commands)
    }

    constructor ()
      ensures State() == IDLE && Valid(State())
    {
      subjects, closed, handles, observers, commands := map[], [], [], [], [];
    }

    /** `observe`, up to the answer of the subscribe command; the result is the run's subject, which is open. */
    method ObserveRun(runId: string) returns (subject: nat)
      requires Valid(State())
      modifies this
      ensures State() == Act(old(State()), Observe(runId)) && Valid(State())
      ensures Serves(State(), runId, subject) && subject == handles[|handles| - 1]
    {
      StepKeepsValid(State(), Observe(runId));
      if runId in subjects {
        subject := subjects[runId];
      } else {
        subject := |closed|;
        closed := closed + [false];
        subjects := subjects[runId := subject];
        commands := commands + [Subscribe(ChannelOf(runId))];
      }
      handles := handles + [subject];
    }

    /** The caller of `observe` subscribes to the observable it got. */
    method AttachTo(handle: nat)
      requires Valid(State()) && handle < |handles|
      modifies this
      ensures State() == Act(old(State()), Attach(handle)) && Valid(State())
    {
      StepKeepsValid(State(), Attach(handle));
      var subject := handles[handle];
      observers := observers + [Observer(subject, [], closed[subject])];
    }

    method NextOn(subject: nat, event: Event)
      modifies this`observers
      ensures State() == Next(old(State()), subject, event)
    {
      var told := [];
      for k := 0 to |observers|
        invariant |told| == k
        invariant forall i :: 0 <= i < k ==> told[i] == Told(observers[i], subject, event)
      {
        var o := observers[k];
        if o.subject == subject && !o.completed {
          o := o.(received := o.received + [event]);
        }
        told := told + [o];
      }
      observers := told;
    }

    method CompleteSubject(subject: nat)
      requires subject < |closed|
      modifies this`observers, this`closed
      ensures State() == Complete(old(State()), subject)
    {
      closed := closed[subject := true];
      var told := [];
      for k := 0 to |observers|
        invariant |told| == k
        invariant forall i :: 0 <= i < k ==> told[i] == Ending(observers[i], subject)
      {
        var o := observers[k];
        if o.subject == subject {
          o := o.(completed := true);
        }
        told := told + [o];
      }
      observers := told;
    }

    method RemoveSubject(runId: string)
      modifies this`subjects, this`commands
      ensures State() == Removed(old(State()), runId)
    {
      if runId in subjects {
        subjects := subjects - {runId};
        commands := commands + [Unsubscribe(CHANNEL_PREFIX + runId)];
      }
    }

    method HandleMessage(channel: string, message: Message)
      requires Valid(State())
      modifies this
      ensures State() == Act(old(State()), Deliver(channel, message)) && Valid(State())
    {
      StepKeepsValid(State(), Deliver(channel, message));
      if !(CHANNEL_PREFIX <= channel) {
        return;
      }
      var runId := channel[|CHANNEL_PREFIX|..];
      if runId !in subjects {
        return;
      }
      var subject := subjects[runId];
      match message
      case Malformed =>
      case Wire(payload) =>
        if payload.StreamEnd? {
          CompleteSubject(subject);
          RemoveSubject(runId);
        } else {
          NextOn(subject, payload);
        }
    }
  }
}
