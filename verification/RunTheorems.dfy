/**
 The main results about runs in every interleaving: what the table, the mirror, the channel and the sandbox
 ledger look like after any sequence of actions, whichever executors take part and wherever they fail or crash.
 */
module RunTheorems {
  import opened Wrappers
  import opened AgentTypes
  import opened Executor
  import opened ExecutorInvariants
  import opened ExecutorHistory
  import opened RunProtocol
  import opened Interleavings

  /** `w` can come about: some sequence of actions leads to it. */
  ghost predicate Reachable(w: World) {
    exists actions :: Run(NOTHING, actions) == w
  }

  lemma ReachableIsGood(w: World)
    requires Reachable(w)
    ensures Good(w)
  {
    var actions :| Run(NOTHING, actions) == w;
    EveryRunIsGood(actions);
  }

  lemma ReachableNext(w: World, a: Action)
    requires Reachable(w)
    ensures Reachable(Apply(w, a))
  {
    var actions :| Run(NOTHING, actions) == w;
    RunSnoc(NOTHING, actions, a);
  }

  // What of `Good` each result needs.

  lemma RowsOf(w: World, id: ExecId)
    requires Reachable(w) && id in w.execs
    ensures Dense(w.rows) && Owns(w.rows, id, w.execs[id].journal)
  {
    ReachableIsGood(w);
    assert Journals(w)[id] == w.execs[id].journal;
  }

  lemma WriterOf(w: World, i: nat)
    requires Reachable(w) && i in w.rows
    ensures w.rows[i].writer in w.execs
  {
    ReachableIsGood(w);
  }

  lemma FactsOf(w: World, id: ExecId)
    requires Reachable(w) && id in w.execs
    ensures Facts(w.execs[id])
  {
    ReachableIsGood(w);
    InvFacts(w.execs[id]);
  }

  lemma PairedOf(w: World, id: ExecId)
    requires Reachable(w) && id in w.execs
    ensures Paired(w.execs[id].journal.written)
  {
    ReachableIsGood(w);
  }

  lemma RenderedOf(w: World, id: ExecId)
    requires Reachable(w) && id in w.execs && (w.execs[id].core.pc.CallModel? || Completes(w.execs[id]))
    ensures w.execs[id].journal.written == Render(w.execs[id].core.messages)
  {
    ReachableIsGood(w);
  }

  lemma PublishedOf(w: World, id: ExecId)
    requires Reachable(w) && id in w.execs
    ensures SentBy(w.log, id) == w.execs[id].journal.sent && WellPublished(w.execs[id])
  {
    ReachableIsGood(w);
    assert Journals(w)[id] == w.execs[id].journal;
  }

  lemma MirrorOf(w: World)
    requires Reachable(w)
    ensures Copies(w.docs, w.rows)
    ensures forall id :: id in w.execs ==> MirrorsOwn(w.docs, w.execs[id])
  {
    ReachableIsGood(w);
  }

  lemma LedgerOf(w: World)
    requires Reachable(w)
    ensures Ledger(w.sandboxes, w.live, w.execs)
  {
    ReachableIsGood(w);
  }

  // ----- the rows -----

  /** The stored step indices are exactly 0..n-1. */
  lemma IndicesAreDense(w: World)
    requires Reachable(w)
    ensures forall i: nat :: i in w.rows <==> i < |w.rows|
  {
    ReachableIsGood(w);
  }

  lemma RowsStay(w: World, a: Action, i: nat)
    requires i in w.rows
    ensures i in Apply(w, a).rows && Apply(w, a).rows[i] == w.rows[i]
  {
  }

  /** No row is ever changed or removed. */
  lemma {:induction false} RowsAreForever(w: World, actions: seq<Action>, i: nat)
    requires i in w.rows
    ensures i in Run(w, actions).rows && Run(w, actions).rows[i] == w.rows[i]
  {
    if actions != [] {
      var before := actions[..|actions| - 1];
      RowsAreForever(w, before, i);
      RowsStay(Run(w, before), actions[|actions| - 1], i);
    }
  }

  /** The index an executor is about to create is at most n, and the table takes it exactly when it is n. */
  lemma NextIndexIsAtMostCount(w: World, id: ExecId)
    requires Reachable(w) && id in w.execs && w.execs[id].core.pc.StepPg?
    ensures w.execs[id].core.pc.at <= |w.rows|
    ensures Refusal(w, w.execs[id].core).None? <==> w.execs[id].core.pc.at == |w.rows|
  {
    FactsOf(w, id);
    RowsOf(w, id);
  }

  /** Executors never interleave in the transcript: each one's rows are one contiguous block. */
  lemma BlocksAreContiguous(w: World, i: nat, j: nat, k: nat)
    requires Reachable(w) && i <= j <= k && i in w.rows && k in w.rows
    requires w.rows[i].writer == w.rows[k].writer
    ensures j in w.rows && w.rows[j].writer == w.rows[i].writer
  {
    WriterOf(w, i);
    RowsOf(w, w.rows[i].writer);
  }

  /**
   A TOOL_RESULT row comes directly after the TOOL_CALL row of the same name by the same executor; a TOOL_CALL row
   not followed by that result is the last row its executor ever wrote.
   */
  lemma ResultsFollowCalls(w: World, i: nat)
    requires Reachable(w) && i in w.rows
    ensures w.rows[i].step.kind.ToolResult? ==>
      && i > 0 && i - 1 in w.rows && w.rows[i - 1].writer == w.rows[i].writer
      && w.rows[i - 1].step.kind.ToolCall? && w.rows[i - 1].step.name == w.rows[i].step.name
    ensures w.rows[i].step.kind.ToolCall? ==>
      || (&& i + 1 in w.rows && w.rows[i + 1].writer == w.rows[i].writer
          && w.rows[i + 1].step.kind.ToolResult? && w.rows[i + 1].step.name == w.rows[i].step.name)
      || (forall k: nat :: k in w.rows && w.rows[k].writer == w.rows[i].writer ==> k <= i)
  {
    WriterOf(w, i);
    var id := w.rows[i].writer;
    RowsOf(w, id);
    PairedOf(w, id);
    PairingOfRows(w.rows, id, w.execs[id].journal, i);
  }

  lemma PairingOfRows(rows: map<nat, Row>, id: ExecId, j: Journal, i: nat)
    requires Owns(rows, id, j) && Paired(j.written) && i in rows && rows[i].writer == id
    ensures rows[i].step.kind.ToolResult? ==>
      && i > 0 && i - 1 in rows && rows[i - 1].writer == id
      && rows[i - 1].step.kind.ToolCall? && rows[i - 1].step.name == rows[i].step.name
    ensures rows[i].step.kind.ToolCall? ==>
      || (&& i + 1 in rows && rows[i + 1].writer == id
          && rows[i + 1].step.kind.ToolResult? && rows[i + 1].step.name == rows[i].step.name)
      || (forall k: nat :: k in rows && rows[k].writer == id ==> k <= i)
  {
    var p := i - j.base;
    assert rows[i].step == j.written[p];
    if j.written[p].kind.ToolResult? {
      assert AnswersCall(j.written[p - 1], j.written[p]);
    }
    if IsCall(j.written[p]) && p + 1 < |j.written| {
      assert AnswersCall(j.written[p], j.written[p + 1]);
    }
  }

  /**
   The transcript is the conversation: when an executor calls the model, or has marked the run COMPLETED, the rows
   it stored are, one for one, the rendering of the messages it holds.
   */
  lemma TranscriptRendersConversation(w: World, id: ExecId)
    requires Reachable(w) && id in w.execs && (w.execs[id].core.pc.CallModel? || Completes(w.execs[id]))
    ensures Owns(w.rows, id, w.execs[id].journal) && w.execs[id].journal.written == Render(w.execs[id].core.messages)
  {
    RowsOf(w, id);
    RenderedOf(w, id);
  }

  // ----- the mirror -----

  /** The rows that have no document. */
  function Unmirrored(w: World): set<nat> { w.rows.Keys - w.docs.Keys }

  /** The index of an executor's last row. */
  function LastRow(j: Journal): int { j.base + |j.written| - 1 }

  lemma {:induction false} ImageIsNoLarger(ids: set<ExecId>, js: map<ExecId, Journal>, indices: set<nat>)
    requires ids <= js.Keys
    requires forall i :: i in indices ==> exists id :: id in ids && LastRow(js[id]) == i
    ensures |indices| <= |ids|
    decreases |ids|
  {
    if ids == {} {
      assert indices == {};
    } else {
      var id :| id in ids;
      var last := LastRow(js[id]);
      var others := set i | i in indices && i != last;
      ImageIsNoLarger(ids - {id}, js, others);
      assert indices <= others + (if last >= 0 then {last} else {});
      if last >= 0 && last in indices {
        assert indices == others + {last};
      } else {
        assert indices == others;
      }
    }
  }

  lemma UnmirroredIsLast(w: World, i: nat)
    requires Reachable(w) && i in Unmirrored(w)
    ensures w.rows[i].writer in w.execs && LastRow(w.execs[w.rows[i].writer].journal) == i
  {
    WriterOf(w, i);
    RowsOf(w, w.rows[i].writer);
    MirrorOf(w);
  }

  /** At most one row per executor ever started lacks its document. */
  lemma FewAreUnmirrored(w: World)
    requires Reachable(w)
    ensures |Unmirrored(w)| <= |w.execs|
  {
    forall i | i in Unmirrored(w) ensures exists id :: id in w.execs.Keys && LastRow(Journals(w)[id]) == i {
      UnmirroredIsLast(w, i);
      assert LastRow(Journals(w)[w.rows[i].writer]) == i;
    }
    ImageIsNoLarger(w.execs.Keys, Journals(w), Unmirrored(w));
    assert |w.execs.Keys| == |w.execs|;
  }

  /** Mirrored steps are copies of stored rows, and creating a step's document never meets an existing one. */
  lemma MirrorCopiesRows(w: World)
    requires Reachable(w)
    ensures forall i: nat :: i in w.docs ==> i in w.rows && w.docs[i] == w.rows[i].step
    ensures forall id :: id in w.execs && w.execs[id].core.pc.StepMirror? ==> w.execs[id].core.pc.at !in w.docs
  {
    MirrorOf(w);
    forall id | id in w.execs && w.execs[id].core.pc.StepMirror? ensures w.execs[id].core.pc.at !in w.docs {
      assert MirrorsOwn(w.docs, w.execs[id]);
    }
  }

  // ----- the channel -----

  /**
   What one executor publishes, read off the shared channel: an optional run_started, the events of its rows in
   order with at most the last one missing, at most one terminal event, naming the status it wrote last, and at
   most one end marker. After the end marker the terminal event is missing exactly when the catch block threw.
   */
  lemma ChannelIsOrdered(w: World, id: ExecId)
    requires Reachable(w) && id in w.execs
    ensures var e := w.execs[id];
      var sent := SentBy(w.log, id);
      || Steady(e.core.prompt, sent, e.journal.written)
      || Closed(e.core.prompt, sent, e.journal.written, e.journal.finish)
      || (&& sent != [] && sent[|sent| - 1] == StreamEnd
          && if e.core.rethrow then Steady(e.core.prompt, sent[..|sent| - 1], e.journal.written)
             else Closed(e.core.prompt, sent[..|sent| - 1], e.journal.written, e.journal.finish))
  {
    PublishedOf(w, id);
  }

  // ----- the sandboxes -----

  /** A sandbox is alive exactly as long as the executor that obtained it has not killed it. */
  lemma SandboxesAreAccountedFor(w: World)
    requires Reachable(w)
    ensures forall s: SandboxId :: s in w.live <==>
      s in w.sandboxes && w.sandboxes[s] in w.execs && !w.execs[w.sandboxes[s]].journal.killed
    ensures forall s: SandboxId :: s in w.sandboxes ==>
      w.sandboxes[s] in w.execs && w.execs[w.sandboxes[s]].core.sandbox == Some(s)
  {
    LedgerOf(w);
  }

  /** An executor that ended without crashing tried to kill the sandbox it obtained exactly once. */
  lemma SandboxIsKilledOnce(w: World, id: ExecId)
    requires Reachable(w) && id in w.execs && (w.execs[id].core.pc.Returned? || w.execs[id].core.pc.Threw?)
    ensures w.execs[id].journal.kills == if w.execs[id].core.sandbox.Some? then 1 else 0
  {
    FactsOf(w, id);
  }

  // ----- the conversation and the outcome -----

  lemma ConversationOf(w: World, id: ExecId)
    requires Reachable(w) && id in w.execs && w.execs[id].core.pc.CallModel?
    ensures var c := w.execs[id].core;
      && |c.messages| == 2 * w.execs[id].journal.calls + 1
      && w.execs[id].journal.calls < c.maxIterations
      && Rounds(c.prompt, c.messages)
  {
    ReachableIsGood(w);
  }

  /** Message `i` of a conversation of complete rounds. */
  lemma {:induction false} RoundsAt(prompt: string, m: seq<Message>, i: nat)
    requires Rounds(prompt, m) && i < |m|
    ensures |m| % 2 == 1
    ensures i == 0 ==> m[i] == Prompt(prompt)
    ensures i % 2 == 1 ==> m[i].Reply? && i + 1 < |m|
    ensures i > 0 && i % 2 == 0 ==>
      && m[i].Answers? && m[i - 1].Reply?
      && |m[i].answers| == |Uses(m[i - 1].content)|
      && forall k :: 0 <= k < |m[i].answers| ==> m[i].answers[k].toolUseId == Uses(m[i - 1].content)[k].id
    decreases |m|
  {
    if |m| > 1 {
      RoundsAt(prompt, m[..|m| - 2], if i < |m| - 2 then i else 0);
    }
  }

  /**
   At the k-th model call, from 0, the conversation has 2k+1 messages: the prompt, then replies and answers in turn,
   the answers carrying the ids of the reply's tool uses in order.
   */
  lemma ConversationAlternates(w: World, id: ExecId, i: nat)
    requires Reachable(w) && id in w.execs && w.execs[id].core.pc.CallModel?
    requires i < |w.execs[id].core.messages|
    ensures var m := w.execs[id].core.messages;
      && |m| == 2 * w.execs[id].journal.calls + 1
      && (i == 0 ==> m[i] == Prompt(w.execs[id].core.prompt))
      && (i % 2 == 1 ==> m[i].Reply? && i + 1 < |m|)
      && (i > 0 && i % 2 == 0 ==>
            && m[i].Answers? && m[i - 1].Reply?
            && |m[i].answers| == |Uses(m[i - 1].content)|
            && forall k :: 0 <= k < |m[i].answers| ==> m[i].answers[k].toolUseId == Uses(m[i - 1].content)[k].id)
  {
    ConversationOf(w, id);
    RoundsAt(w.execs[id].core.prompt, w.execs[id].core.messages, i);
  }

  /** However an executor fares, it calls the model at most `maxIterations` times. */
  lemma CallsAreBounded(w: World, id: ExecId)
    requires Reachable(w) && id in w.execs
    ensures w.execs[id].journal.calls <= w.execs[id].core.maxIterations
  {
    ReachableIsGood(w);
  }

  /**
   Why a run that `execute` returned from has the status it has: FAILED exactly when an exception was caught, with
   its message; otherwise CANCELLED exactly when a check saw the cancel key, and COMPLETED exactly when none did,
   in which case the last reply did not ask for tools.
   */
  lemma StatusIsExplained(w: World, id: ExecId)
    requires Reachable(w) && id in w.execs && w.execs[id].core.pc.Returned? && !Skipped(w.execs[id])
    ensures w.execs[id].journal.finish.Some?
    ensures var c, j := w.execs[id].core, w.execs[id].journal;
      var f := j.finish.value;
      && (f.status.Failed? <==> c.caught.Some?) && f.error == c.caught
      && (f.status.Cancelled? <==> c.caught.None? && j.sawCancel)
      && (f.status.Completed? <==> c.caught.None? && !j.sawCancel)
      && (f.status.Completed? ==> EndsOnReply(c))
  {
    InvOf(w, id);
    InvParts(w.execs[id]);
    InvTranscribes(w.execs[id]);
    FinishExplains(w.execs[id]);
  }

  lemma FinishExplains(e: Exec)
    requires Finishes(e) && e.core.pc.Returned? && !Skipped(e)
    ensures e.journal.finish.Some?
    ensures var c, j, f := e.core, e.journal, e.journal.finish.value;
      && (f.status.Failed? <==> c.caught.Some?) && f.error == c.caught
      && (f.status.Cancelled? <==> c.caught.None? && j.sawCancel)
      && (f.status.Completed? <==> c.caught.None? && !j.sawCancel)
  {
  }

  lemma InvOf(w: World, id: ExecId)
    requires Reachable(w) && id in w.execs
    ensures Inv(w.execs[id])
  {
    ReachableIsGood(w);
  }

  /** Once the sandbox kill was tried, no operation runs a tool or calls the model. */
  lemma NothingRunsAfterKill(w: World, id: ExecId, ch: Choice)
    requires Reachable(w) && id in w.execs && w.execs[id].core.pc.Live() && w.execs[id].journal.kills > 0
    ensures var f := Apply(w, Settle(id, ch)).execs[id];
      && f.journal.tools == w.execs[id].journal.tools
      && f.journal.calls == w.execs[id].journal.calls
      && f.journal.kills == w.execs[id].journal.kills
  {
    FactsOf(w, id);
  }
}
