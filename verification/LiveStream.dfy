/** What a client that watches a run sees of it: the channel of the run protocol, through the event service. */
module LiveStream {
  import opened AgentTypes
  import opened Executor
  import opened ExecutorHistory
  import opened RunProtocol
  import opened Interleavings
  import opened RunTheorems
  import opened RunRecords
  import opened SequentialRuns
  import AgentEvents

  /** All events and end markers delivered on the run's channel. */
  function Relayed(actions: seq<AgentEvents.Action>, runId: string): seq<Event>
    decreases |actions|
  {
    if actions == [] then []
    else
      var rest := Relayed(actions[1..], runId);
      match actions[0]
      case Deliver(channel, Wire(event)) => if channel == AgentEvents.ChannelOf(runId) then [event] + rest else rest
      case _ => rest
  }

  /** The messages of the protocol's channel. */
  function Messages(log: seq<Published>): seq<Event> {
    seq(|log|, i requires 0 <= i < |log| => log[i].event)
  }

  function UpToEnd(events: seq<Event>): seq<Event> {
    if events == [] || events[0].StreamEnd? then [] else [events[0]] + UpToEnd(events[1..])
  }

  lemma {:induction false} EventsAreCut(actions: seq<AgentEvents.Action>, runId: string)
    ensures AgentEvents.EventsOf(actions, runId) == UpToEnd(Relayed(actions, runId))
    ensures AgentEvents.Ended(actions, runId) <==> StreamEnd in Relayed(actions, runId)
    decreases |actions|
  {
    if actions != [] {
      var rest := Relayed(actions[1..], runId);
      EventsAreCut(actions[1..], runId);
      AgentEvents.EventsOfCons(actions, runId);
      var a := actions[0];
      if a.Deliver? && a.message.Wire? && a.channel == AgentEvents.ChannelOf(runId) {
        assert Relayed(actions, runId) == [a.message.event] + rest;
        assert ([a.message.event] + rest)[1..] == rest;
      } else {
        assert Relayed(actions, runId) == rest;
      }
    }
  }

  lemma {:induction false} UpToEndOf(events: seq<Event>, tail: seq<Event>)
    requires StreamEnd !in events && (tail == [] || tail[0] == StreamEnd)
    ensures UpToEnd(events + tail) == events
    decreases |events|
  {
    if events == [] {
      assert events + tail == tail;
    } else {
      assert (events + tail)[1..] == events[1..] + tail;
      UpToEndOf(events[1..], tail);
    }
  }

  lemma SteadyHasNoEnd(prompt: string, sent: seq<Event>, written: seq<Step>)
    requires Steady(prompt, sent, written)
    ensures StreamEnd !in sent
  {
    forall i | 0 <= i < |sent| ensures sent[i] != StreamEnd {
      if i > 0 {
        assert Announces(written[i - 1], sent[i]);
      }
    }
  }

  /** The body of a stream: the steady publishes, with or without the terminal event behind them. */
  predicate Body(e: Exec, sent: seq<Event>) {
    || Steady(e.core.prompt, sent, e.journal.written)
    || Closed(e.core.prompt, sent, e.journal.written, e.journal.finish)
  }

  lemma BodyHasNoEnd(e: Exec, sent: seq<Event>)
    requires Body(e, sent)
    ensures StreamEnd !in sent
  {
    if Steady(e.core.prompt, sent, e.journal.written) {
      SteadyHasNoEnd(e.core.prompt, sent, e.journal.written);
    } else {
      SteadyHasNoEnd(e.core.prompt, sent[..|sent| - 1], e.journal.written);
      assert sent == sent[..|sent| - 1] + [sent[|sent| - 1]];
    }
  }

  lemma StreamOf(e: Exec)
    requires WellPublished(e)
    ensures Body(e, UpToEnd(e.journal.sent))
  {
    var sent := e.journal.sent;
    if Body(e, sent) {
      BodyHasNoEnd(e, sent);
      UpToEndOf(sent, []);
      assert sent + [] == sent;
    } else {
      var body := sent[..|sent| - 1];
      BodyHasNoEnd(e, body);
      UpToEndOf(body, [StreamEnd]);
      assert sent == body + [StreamEnd];
    }
  }

  // ----- the channel, one executor after the other -----

  /** What the executors of `order` published, one after the other. */
  function Joined(execs: map<ExecId, Exec>, order: seq<ExecId>): seq<Event>
    requires forall i :: 0 <= i < |order| ==> order[i] in execs
  {
    if order == [] then []
    else Joined(execs, order[..|order| - 1]) + execs[order[|order| - 1]].journal.sent
  }

  predicate Distinct(order: seq<ExecId>) {
    forall i, j :: 0 <= i < j < |order| ==> order[i] != order[j]
  }

  /** `order` are the executors that published since there were `earlier`, and no one else has. */
  ghost predicate InOrder(execs: map<ExecId, Exec>, earlier: map<ExecId, Exec>, order: seq<ExecId>) {
    && Distinct(order)
    && (forall i :: 0 <= i < |order| ==> order[i] in execs && order[i] !in earlier)
    && (forall id :: id in earlier ==> id in execs && execs[id] == earlier[id] && !earlier[id].core.pc.Live())
    && (forall id :: id in execs && id !in earlier && id !in order ==> execs[id].journal.sent == [])
    && (forall i :: 0 <= i < |order| - 1 ==> !execs[order[i]].core.pc.Live())
  }

  /** What was published since `base`. */
  function Since(base: World, w: World): seq<Published> {
    if base.log <= w.log then w.log[|base.log|..] else []
  }

  /** Since `base` the channel holds what the executors of `order` published, one after the other. */
  ghost predicate Sequenced(base: World, w: World, order: seq<ExecId>) {
    && InOrder(w.execs, base.execs, order)
    && base.log <= w.log
    && Messages(Since(base, w)) == Joined(w.execs, order)
  }

  lemma {:induction false} JoinedElsewhere(execs: map<ExecId, Exec>, id: ExecId, f: Exec, order: seq<ExecId>)
    requires forall i :: 0 <= i < |order| ==> order[i] in execs
    requires id in execs && id in order ==> f.journal.sent == execs[id].journal.sent
    ensures Joined(execs[id := f], order) == Joined(execs, order)
  {
    if order != [] {
      JoinedElsewhere(execs, id, f, order[..|order| - 1]);
    }
  }

  lemma MessagesSnoc(log: seq<Published>, n: nat, p: Published)
    requires n <= |log|
    ensures Messages((log + [p])[n..]) == Messages(log[n..]) + [p.event]
  {
    assert (log + [p])[n..] == log[n..] + [p];
  }

  /** One executor moves, publishing nothing. */
  lemma QuietMove(base: World, w: World, v: World, order: seq<ExecId>, id: ExecId, f: Exec)
    requires Sequenced(base, w, order) && id !in base.execs
    requires v.log == w.log && v.execs == w.execs[id := f]
    requires f.journal.sent == if id in w.execs then w.execs[id].journal.sent else []
    requires f.core.pc.Live() && id in w.execs ==> w.execs[id].core.pc.Live()
    requires id !in w.execs ==> id !in order
    ensures Sequenced(base, v, order)
  {
    JoinedElsewhere(w.execs, id, f, order);
  }

  /** The executors of the stream after `id` has published. */
  function WithSender(order: seq<ExecId>, id: ExecId): seq<ExecId> {
    if id in order then order else order + [id]
  }

  lemma LiveIsLast(base: World, w: World, order: seq<ExecId>, id: ExecId)
    requires Sequenced(base, w, order) && id in order && id in w.execs && w.execs[id].core.pc.Live()
    ensures order[|order| - 1] == id
    ensures id !in order[..|order| - 1]
  {
    var i :| 0 <= i < |order| && order[i] == id;
    assert i == |order| - 1;
  }

  lemma JoinedGrows(execs: map<ExecId, Exec>, order: seq<ExecId>, id: ExecId, f: Exec, event: Event)
    requires forall i :: 0 <= i < |order| ==> order[i] in execs
    requires id in execs && f.journal.sent == execs[id].journal.sent + [event]
    requires if id in order then order[|order| - 1] == id && id !in order[..|order| - 1]
             else execs[id].journal.sent == []
    ensures Joined(execs[id := f], WithSender(order, id)) == Joined(execs, order) + [event]
  {
    var order' := WithSender(order, id);
    var front := order'[..|order'| - 1];
    assert front == if id in order then order[..|order| - 1] else order;
    JoinedElsewhere(execs, id, f, front);
  }

  /** The live executor publishes: it is the last of the stream, or joins it. */
  lemma PublishingMove(base: World, w: World, v: World, order: seq<ExecId>, id: ExecId, f: Exec, event: Event)
    requires Sequenced(base, w, order) && id in w.execs && id !in base.execs && w.execs[id].core.pc.Live()
    requires AtMostOneLive(w)
    requires v.log == w.log + [Published(event, id)] && v.execs == w.execs[id := f]
    requires f.journal.sent == w.execs[id].journal.sent + [event]
    ensures Sequenced(base, v, WithSender(order, id))
  {
    if id in order {
      LiveIsLast(base, w, order, id);
    }
    JoinedGrows(w.execs, order, id, f, event);
    MessagesSnoc(w.log, |base.log|, Published(event, id));
    OrderAfter(w.execs, base.execs, order, id, f);
  }

  lemma OrderAfter(execs: map<ExecId, Exec>, earlier: map<ExecId, Exec>, order: seq<ExecId>, id: ExecId, f: Exec)
    requires InOrder(execs, earlier, order) && id in execs && id !in earlier && execs[id].core.pc.Live()
    requires id in order ==> order[|order| - 1] == id && id !in order[..|order| - 1]
    requires forall k :: k in execs && k != id ==> !execs[k].core.pc.Live()
    ensures InOrder(execs[id := f], earlier, WithSender(order, id))
  {
  }

  lemma SettleSequenced(base: World, w: World, order: seq<ExecId>, id: ExecId, ch: Choice) returns (next: seq<ExecId>)
    requires Sequenced(base, w, order) && AtMostOneLive(w) && id in w.execs && w.execs[id].core.pc.Live()
    ensures Sequenced(base, Apply(w, Settle(id, ch)), next)
  {
    var e, v := w.execs[id], Apply(w, Settle(id, ch));
    SettleIs(w, id, ch);
    LogEffect(w, e.core, e.journal, ch);
    if Applied(w, e.core, ch) && EventOf(e.core).Some? {
      next := WithSender(order, id);
      PublishingMove(base, w, v, order, id, Stepped(w, e, ch), EventOf(e.core).value);
    } else {
      next := order;
      QuietMove(base, w, v, order, id, Stepped(w, e, ch));
    }
  }

  /** Every other action leaves channel and executors alone. */
  lemma ElsewhereUnpublished(w: World, a: Action)
    requires (a.Settle? || a.CrashOf?) ==> a.id !in w.execs || !w.execs[a.id].core.pc.Live()
    requires a.Start? ==> !w.job || a.id in w.execs
    ensures Apply(w, a).log == w.log && Apply(w, a).execs == w.execs
  {
  }

  lemma ActionSequenced(base: World, w: World, order: seq<ExecId>, a: Action) returns (next: seq<ExecId>)
    requires Sequenced(base, w, order) && AtMostOneLive(w)
    ensures Sequenced(base, Apply(w, a), next)
  {
    next := order;
    if a.Settle? && a.id in w.execs && w.execs[a.id].core.pc.Live() {
      next := SettleSequenced(base, w, order, a.id, a.choice);
    } else if a.CrashOf? && a.id in w.execs && w.execs[a.id].core.pc.Live() {
      QuietMove(base, w, Apply(w, a), order, a.id, Crash(w.execs[a.id]));
    } else if a.Start? && w.job && a.id !in w.execs {
      QuietMove(base, w, Apply(w, a), order, a.id, Exec(Begin(a.prompt, a.maxIterations), BLANK));
    } else {
      ElsewhereUnpublished(w, a);
    }
  }

  /** With one live executor at a time, the channel is their publishes, one executor after the other. */
  lemma {:induction false} ChannelIsSequenced(base: World, actions: seq<Action>) returns (order: seq<ExecId>)
    requires Idle(base) && OneLiveFrom(base, actions)
    ensures Sequenced(base, Run(base, actions), order)
  {
    if actions == [] {
      order := [];
    } else {
      var before := actions[..|actions| - 1];
      var earlier := ChannelIsSequenced(base, before);
      order := ActionSequenced(base, Run(base, before), earlier, actions[|actions| - 1]);
    }
  }

  // ----- what a client sees -----

  /** The bodies of the streams of `order`, up to the first executor that published its end marker. */
  function Bodies(execs: map<ExecId, Exec>, order: seq<ExecId>): seq<Event>
    requires forall i :: 0 <= i < |order| ==> order[i] in execs
  {
    if order == [] then []
    else
      var first := execs[order[0]].journal.sent;
      if StreamEnd in first then UpToEnd(first) else first + Bodies(execs, order[1..])
  }

  lemma {:induction false} UpToEndConcat(a: seq<Event>, b: seq<Event>)
    ensures UpToEnd(a + b) == if StreamEnd in a then UpToEnd(a) else a + UpToEnd(b)
    decreases |a|
  {
    if a == [] {
      assert a + b == b;
    } else {
      assert (a + b)[1..] == a[1..] + b;
      UpToEndConcat(a[1..], b);
    }
  }

  lemma {:induction false} JoinedFront(execs: map<ExecId, Exec>, order: seq<ExecId>)
    requires order != [] && forall i :: 0 <= i < |order| ==> order[i] in execs
    ensures Joined(execs, order) == execs[order[0]].journal.sent + Joined(execs, order[1..])
    decreases |order|
  {
    if |order| > 1 {
      var front := order[..|order| - 1];
      JoinedFront(execs, front);
      assert front[1..] == order[1..][..|order| - 2];
      assert order[1..][|order| - 2] == order[|order| - 1];
    }
  }

  lemma {:induction false} JoinedUpToEnd(execs: map<ExecId, Exec>, order: seq<ExecId>)
    requires forall i :: 0 <= i < |order| ==> order[i] in execs
    ensures UpToEnd(Joined(execs, order)) == Bodies(execs, order)
    decreases |order|
  {
    if order != [] {
      JoinedFront(execs, order);
      UpToEndConcat(execs[order[0]].journal.sent, Joined(execs, order[1..]));
      JoinedUpToEnd(execs, order[1..]);
    }
  }

  /** What executor `id` published is a body, and a terminal event in it names the status that is stored. */
  ghost predicate Streams(w: World, id: ExecId) {
    && id in w.execs
    && var e := w.execs[id];
       var body := UpToEnd(e.journal.sent);
       && Body(e, body)
       && (Closed(e.core.prompt, body, e.journal.written, e.journal.finish) ==>
             && w.run.Some? && w.run.value.Shows(e.journal.finish.value)
             && (body[|body| - 1] == RunCompleted <==> w.run.value.status == Completed)
             && (body[|body| - 1] == RunCancelled <==> w.run.value.status == Cancelled)
             && (w.run.value.status == Failed <==>
                   w.run.value.error.Some? && body[|body| - 1] == RunFailed(w.run.value.error.value)))
  }

  lemma TerminalIsStored(w: World, id: ExecId)
    requires Alone(w) && id in w.execs
    ensures Streams(w, id)
  {
    AloneOf(w);
    PublishedOf(w, id);
    StreamOf(w.execs[id]);
    assert w.execs != map[];
    assert FinishShows(w.run.value, w.mirror.value, w.execs[id]);
  }

  /** The executors of the stream, none of which had started at `base`. */
  ghost predicate Streamed(base: World, w: World, order: seq<ExecId>) {
    Distinct(order) && forall i :: 0 <= i < |order| ==> order[i] !in base.execs && Streams(w, order[i])
  }

  /**
   A client that observed a run at a moment when nobody worked on it, and to whose replica Redis relays the channel
   from then on, sees its executors one after the other, however often they crash and are started again: of each,
   run_started and the events of the rows it stored, in order, at most the last one missing, and perhaps the terminal
   event, which names the status that is stored. Its stream completes with the first end marker. Messages of other
   runs, other observers and malformed messages make no difference.
   */
  lemma ClientSeesTheRun(base: World, actions: seq<Action>, before: seq<AgentEvents.Action>, runId: string,
                         between: seq<AgentEvents.Action>, after: seq<AgentEvents.Action>) returns (order: seq<ExecId>)
    requires Idle(base) && OneLiveFrom(base, actions)
    requires !AgentEvents.Ended(between, runId)
    requires Relayed(after, runId) == Messages(Since(base, Run(base, actions)))
    ensures var w := Run(base, actions);
      && Streamed(base, w, order)
      && var early := AgentEvents.Play(AgentEvents.IDLE, before);
         var reached := AgentEvents.Play(AgentEvents.Observed(early, runId), between);
         var k := |reached.observers|;
         var late := AgentEvents.Play(AgentEvents.Attached(reached, |early.handles|), after);
         && k < |late.observers|
         && late.observers[k].received == Bodies(w.execs, order)
         && (late.observers[k].completed <==>
               exists i :: 0 <= i < |order| && StreamEnd in w.execs[order[i]].journal.sent)
  {
    order := ChannelIsSequenced(base, actions);
    var w := Run(base, actions);
    AgentEvents.ObserverReceivesItsRun(before, runId, between, after);
    EventsAreCut(after, runId);
    JoinedUpToEnd(w.execs, order);
    EndsInJoined(w.execs, order);
    assert Alone(w);
    forall i | 0 <= i < |order| ensures Streams(w, order[i]) {
      TerminalIsStored(w, order[i]);
    }
  }

  lemma {:induction false} EndsInJoined(execs: map<ExecId, Exec>, order: seq<ExecId>)
    requires forall i :: 0 <= i < |order| ==> order[i] in execs
    ensures StreamEnd in Joined(execs, order) <==>
      exists i :: 0 <= i < |order| && StreamEnd in execs[order[i]].journal.sent
  {
    if order != [] {
      var front := order[..|order| - 1];
      EndsInJoined(execs, front);
      assert forall i :: 0 <= i < |front| ==> front[i] == order[i];
    }
  }
}
