/**
 What holds of a run's shared state in every interleaving of any number of executors, with rejections, writes
 that took effect although they were rejected, and crashes anywhere.
 */
module Interleavings {
  import opened Wrappers
  import opened AgentTypes
  import opened Executor
  import opened ExecutorInvariants
  import opened ExecutorHistory
  import opened RunProtocol

  // ----- the rows -----

  /** The stored indices are exactly 0..n-1. */
  ghost predicate Dense(rows: map<nat, Row>) {
    forall i: nat :: i in rows <==> i < |rows|
  }

  /** The executor's rows are stored at `base`, `base + 1`, ... and nowhere else. */
  ghost predicate Owns(rows: map<nat, Row>, id: ExecId, j: Journal) {
    && j.base + |j.written| <= |rows|
    && (forall i: nat :: j.base <= i < j.base + |j.written| ==> i in rows && rows[i] == Row(j.written[i - j.base], id))
    && (forall i: nat :: i in rows && rows[i].writer == id ==> j.base <= i < j.base + |j.written|)
  }

  ghost predicate RowsInv(rows: map<nat, Row>, js: map<ExecId, Journal>) {
    && Dense(rows)
    && (forall id :: id in js ==> Owns(rows, id, js[id]))
    && (forall i: nat :: i in rows ==> rows[i].writer in js)
  }

  /** A settled operation adds the executor's next row, or leaves the table alone; counting the rows fixes the base. */
  predicate RowChange(id: ExecId, c: Core, rows: map<nat, Row>, j: Journal, rows': map<nat, Row>, j': Journal) {
    || (&& c.pc.StepPg? && c.pc.at !in rows
        && rows' == rows[c.pc.at := Row(c.pc.step, id)]
        && j'.written == j.written + [c.pc.step] && j'.base == j.base)
    || (&& rows' == rows && j'.written == j.written
        && (j'.base == j.base || (c.pc.CountSteps? && j'.base == |rows|)))
  }

  /** What the operation executor `id` waits for does to its journal and to the table. */
  lemma RowEffect(w: World, id: ExecId, c: Core, j: Journal, ch: Choice)
    requires c.pc.Live()
    ensures RowChange(id, c, w.rows, j,
                      if Applied(w, c, ch) then RowsAfter(w.rows, id, c) else w.rows,
                      Noted(c, j, Verdict(w, c, ch), Applied(w, c, ch), ch.now))
  {
  }

  lemma DenseAppend(rows: map<nat, Row>, row: Row)
    requires Dense(rows)
    ensures Dense(rows[|rows| := row]) && |rows[|rows| := row]| == |rows| + 1
  {
    assert |rows| !in rows;
  }

  /** A row goes in only at the end of the table: the index an executor holds is never past it. */
  lemma AppendsAtEnd(rows: map<nat, Row>, js: map<ExecId, Journal>, id: ExecId, at: nat)
    requires RowsInv(rows, js) && id in js && at == js[id].base + |js[id].written|
    ensures at <= |rows|
    ensures at !in rows <==> at == |rows|
  {
  }

  lemma OwnsAfterOwnRow(rows: map<nat, Row>, id: ExecId, j: Journal, step: Step, j': Journal)
    requires Dense(rows) && Owns(rows, id, j) && j.base + |j.written| == |rows|
    requires j'.written == j.written + [step] && j'.base == j.base
    ensures Owns(rows[|rows| := Row(step, id)], id, j')
  {
    DenseAppend(rows, Row(step, id));
  }

  lemma OwnsAfterOtherRow(rows: map<nat, Row>, id: ExecId, j: Journal, row: Row)
    requires Dense(rows) && Owns(rows, id, j) && row.writer != id
    ensures Owns(rows[|rows| := row], id, j)
  {
    DenseAppend(rows, row);
  }

  lemma RowsInvAppend(rows: map<nat, Row>, js: map<ExecId, Journal>, id: ExecId, step: Step, j': Journal)
    requires RowsInv(rows, js) && id in js && js[id].base + |js[id].written| == |rows|
    requires j'.written == js[id].written + [step] && j'.base == js[id].base
    ensures RowsInv(rows[|rows| := Row(step, id)], js[id := j'])
  {
    DenseAppend(rows, Row(step, id));
    OwnsAfterOwnRow(rows, id, js[id], step, j');
    forall k | k in js && k != id ensures Owns(rows[|rows| := Row(step, id)], k, js[k]) {
      OwnsAfterOtherRow(rows, k, js[k], Row(step, id));
    }
  }

  /** Rows stay dense and owned, because an executor's next index is the one after its last row. */
  lemma OwnsSame(rows: map<nat, Row>, id: ExecId, j: Journal, j': Journal)
    requires Owns(rows, id, j) && j'.written == j.written
    requires j'.base == j.base || (j'.written == [] && j'.base == |rows|)
    ensures Owns(rows, id, j')
  {
  }

  lemma RowsInvSame(rows: map<nat, Row>, js: map<ExecId, Journal>, id: ExecId, j': Journal)
    requires RowsInv(rows, js) && id in js && j'.written == js[id].written
    requires j'.base == js[id].base || (j'.written == [] && j'.base == |rows|)
    ensures RowsInv(rows, js[id := j'])
  {
    OwnsSame(rows, id, js[id], j');
  }

  lemma RowsInvKept(rows: map<nat, Row>, js: map<ExecId, Journal>, id: ExecId, c: Core,
                    rows': map<nat, Row>, j': Journal)
    requires RowsInv(rows, js) && id in js
    requires c.pc.StepPg? ==> c.pc.at == js[id].base + |js[id].written|
    requires c.pc.CountSteps? ==> js[id].written == []
    requires RowChange(id, c, rows, js[id], rows', j')
    ensures RowsInv(rows', js[id := j'])
  {
    if j'.written == js[id].written {
      RowsInvSame(rows, js, id, j');
    } else {
      AppendsAtEnd(rows, js, id, c.pc.at);
      RowsInvAppend(rows, js, id, c.pc.step, j');
    }
  }

  // ----- the mirrored steps -----

  /** The executor's rows have their documents, except perhaps the last one, while its document is being created. */
  ghost predicate MirrorsOwn(docs: map<nat, Step>, e: Exec) {
    var j := e.journal;
    && (forall i: nat :: j.base <= i < j.base + |j.written| - 1 ==> i in docs)
    && (UpToDate(e.core.pc) && j.written != [] ==> j.base + |j.written| - 1 in docs)
    && (e.core.pc.StepMirror? ==> e.core.pc.at !in docs)
  }

  /** Every document is the copy of a row. */
  ghost predicate Copies(docs: map<nat, Step>, rows: map<nat, Row>) {
    forall i: nat :: i in docs ==> i in rows && docs[i] == rows[i].step
  }

  /** What an operation does to documents, rows and the executor's place. */
  ghost predicate DocChange(c: Core, docs: map<nat, Step>, j: Journal, d: Core, docs': map<nat, Step>, j': Journal) {
    && (docs' == docs || (c.pc.StepMirror? && c.pc.at !in docs && docs' == docs[c.pc.at := c.pc.step]))
    && (d.pc.StepMirror? ==> c.pc.StepPg? && d.pc.at == c.pc.at && j'.written == j.written + [c.pc.step])
    && (UpToDate(d.pc) ==>
          && (c.pc.CountSteps? || UpToDate(c.pc) || (c.pc.StepMirror? && c.pc.at in docs'))
          && j'.written == j.written)
    && (j'.written != j.written ==> c.pc.StepPg? && j'.written == j.written + [c.pc.step])
    && (j'.base != j.base ==> c.pc.CountSteps? && j'.written == j.written)
  }

  lemma DocEffect(w: World, id: ExecId, e: Exec, ch: Choice)
    requires e.core.pc.Live() && Conversation(e.core)
    requires AtHead(e.core.pc) || InRound(e.core.pc) ==> e.core.caught.None?
    ensures DocChange(e.core, w.docs, e.journal, Stepped(w, e, ch).core,
                      if Applied(w, e.core, ch) then DocsAfter(w.docs, e.core) else w.docs, Stepped(w, e, ch).journal)
  {
    VerdictSettles(w, e.core, ch);
    ResumeSucceeds(e.core, Verdict(w, e.core, ch));
  }

  lemma MirrorsOwnKept(docs: map<nat, Step>, e: Exec, docs': map<nat, Step>, f: Exec)
    requires MirrorsOwn(docs, e)
    requires DocChange(e.core, docs, e.journal, f.core, docs', f.journal)
    requires e.core.pc.StepPg? ==> e.core.pc.at == e.journal.base + |e.journal.written|
    requires f.journal.written != e.journal.written ==> e.core.pc.StepPg? && e.core.pc.at !in docs
    requires e.core.pc.StepMirror? ==> e.core.pc.at + 1 == e.journal.base + |e.journal.written|
    requires e.core.pc.CountSteps? ==> e.journal.written == []
    ensures MirrorsOwn(docs', f)
  {
  }

  /** The executor's next document copies its last row. */
  lemma CopiesKept(rows: map<nat, Row>, docs: map<nat, Step>, id: ExecId, c: Core, j: Journal,
                   rows': map<nat, Row>, docs': map<nat, Step>, j': Journal, d: Core)
    requires Copies(docs, rows) && Owns(rows, id, j)
    requires RowChange(id, c, rows, j, rows', j') && DocChange(c, docs, j, d, docs', j')
    requires c.pc.StepMirror? ==>
      c.pc.at + 1 == j.base + |j.written| && j.written != [] && j.written[|j.written| - 1] == c.pc.step
    ensures Copies(docs', rows')
  {
    if docs' != docs {
      assert rows[c.pc.at] == Row(j.written[c.pc.at - j.base], id);
    }
  }

  /** Another executor's documents are about other rows. */
  lemma MirrorsOthersKept(rows: map<nat, Row>, docs: map<nat, Step>, id: ExecId, c: Core, j: Journal,
                          docs': map<nat, Step>, k: ExecId, e: Exec)
    requires k != id && Owns(rows, id, j) && Owns(rows, k, e.journal)
    requires MirrorsOwn(docs, e)
    requires docs' == docs || (c.pc.StepMirror? && docs' == docs[c.pc.at := c.pc.step])
    requires c.pc.StepMirror? ==> c.pc.at + 1 == j.base + |j.written| && j.written != []
    requires e.core.pc.StepMirror? ==>
      e.core.pc.at + 1 == e.journal.base + |e.journal.written| && e.journal.written != []
    ensures MirrorsOwn(docs', e)
  {
    if c.pc.StepMirror? && e.core.pc.StepMirror? {
      assert rows[c.pc.at].writer == id;
      assert rows[e.core.pc.at].writer == k;
    }
  }

  // ----- the channel -----

  /** The events an executor sent, in the order of the channel. */
  function SentBy(log: seq<Published>, id: ExecId): seq<Event> {
    if log == [] then []
    else
      var rest := SentBy(log[..|log| - 1], id);
      if log[|log| - 1].sender == id then rest + [log[|log| - 1].event] else rest
  }

  ghost predicate LogInv(log: seq<Published>, js: map<ExecId, Journal>) {
    && (forall id :: id in js ==> SentBy(log, id) == js[id].sent)
    && (forall i :: 0 <= i < |log| ==> log[i].sender in js)
  }

  lemma SentByOwn(log: seq<Published>, event: Event, sender: ExecId, id: ExecId)
    ensures SentBy(log + [Published(event, sender)], id) ==
      if sender == id then SentBy(log, id) + [event] else SentBy(log, id)
  {
    assert (log + [Published(event, sender)])[..|log|] == log;
  }

  lemma SentByNobody(log: seq<Published>, id: ExecId)
    requires forall i :: 0 <= i < |log| ==> log[i].sender != id
    ensures SentBy(log, id) == []
  {
  }

  lemma LogKept(log: seq<Published>, js: map<ExecId, Journal>, id: ExecId, event: Event, j': Journal)
    requires LogInv(log, js) && id in js && j'.sent == js[id].sent + [event]
    ensures LogInv(log + [Published(event, id)], js[id := j'])
  {
    var log', js' := log + [Published(event, id)], js[id := j'];
    forall k | k in js' ensures SentBy(log', k) == js'[k].sent {
      SentByOwn(log, event, id, k);
    }
  }

  lemma LogEffect(w: World, c: Core, j: Journal, ch: Choice)
    requires c.pc.Live()
    ensures var j' := Noted(c, j, Verdict(w, c, ch), Applied(w, c, ch), ch.now);
      j'.sent == if Applied(w, c, ch) && EventOf(c).Some? then j.sent + [EventOf(c).value] else j.sent
  {
  }

  // ----- the sandboxes -----

  /** The ledger: every sandbox belongs to the executor that obtained it, and runs until that executor kills it. */
  ghost predicate Ledger(sandboxes: map<SandboxId, ExecId>, live: set<SandboxId>, execs: map<ExecId, Exec>) {
    && (forall s: SandboxId :: s in sandboxes <==> s < |sandboxes|)
    && (forall s: SandboxId :: s in sandboxes ==>
          sandboxes[s] in execs && execs[sandboxes[s]].core.sandbox == Some(s))
    && (forall id :: id in execs && execs[id].core.sandbox.Some? ==>
          execs[id].core.sandbox.value in sandboxes && sandboxes[execs[id].core.sandbox.value] == id)
    && (forall s: SandboxId :: s in live <==> s in sandboxes && !execs[sandboxes[s]].journal.killed)
  }

  predicate SandboxChange(id: ExecId, e: Exec, f: Exec, sandboxes: map<SandboxId, ExecId>, live: set<SandboxId>,
                          sandboxes': map<SandboxId, ExecId>, live': set<SandboxId>) {
    || (&& e.core.sandbox.None? && f.core.sandbox == Some(|sandboxes|) && f.journal.killed == e.journal.killed
        && sandboxes' == sandboxes[|sandboxes| := id] && live' == live + {|sandboxes|})
    || (&& e.core.sandbox.Some? && f.core.sandbox == e.core.sandbox && f.journal.killed
        && sandboxes' == sandboxes && live' == live - {e.core.sandbox.value})
    || (&& f.core.sandbox == e.core.sandbox && f.journal.killed == e.journal.killed
        && sandboxes' == sandboxes && live' == live)
  }

  lemma SandboxEffect(w: World, id: ExecId, e: Exec, ch: Choice)
    requires e.core.pc.Live() && Conversation(e.core) && UsesSandbox(e)
    requires AtHead(e.core.pc) || InRound(e.core.pc) ==> e.core.caught.None?
    ensures var happens := Applied(w, e.core, ch);
      SandboxChange(id, e, Stepped(w, e, ch), w.sandboxes, w.live,
                    if happens then SandboxesAfter(w.sandboxes, id, e.core) else w.sandboxes,
                    if happens then LiveAfter(w.live, |w.sandboxes|, e.core) else w.live)
  {
    VerdictSettles(w, e.core, ch);
    ResumeSucceeds(e.core, Verdict(w, e.core, ch));
  }

  lemma NewKey<K, V>(m: map<K, V>, k: K, v: V)
    requires k !in m
    ensures |m[k := v]| == |m| + 1
  {
    assert m[k := v].Keys == m.Keys + {k};
    assert |m[k := v].Keys| == |m[k := v]| && |m.Keys| == |m|;
  }

  lemma LedgerObtain(id: ExecId, execs: map<ExecId, Exec>, f: Exec, sandboxes: map<SandboxId, ExecId>,
                     live: set<SandboxId>)
    requires Ledger(sandboxes, live, execs) && id in execs && execs[id].core.sandbox.None?
    requires f.core.sandbox == Some(|sandboxes|) && !f.journal.killed
    ensures Ledger(sandboxes[|sandboxes| := id], live + {|sandboxes|}, execs[id := f])
  {
    NewKey(sandboxes, |sandboxes|, id);
  }

  lemma LedgerKill(id: ExecId, execs: map<ExecId, Exec>, f: Exec, sandboxes: map<SandboxId, ExecId>,
                   live: set<SandboxId>)
    requires Ledger(sandboxes, live, execs) && id in execs && execs[id].core.sandbox.Some?
    requires f.core.sandbox == execs[id].core.sandbox && f.journal.killed
    ensures Ledger(sandboxes, live - {execs[id].core.sandbox.value}, execs[id := f])
  {
  }

  lemma LedgerStays(id: ExecId, execs: map<ExecId, Exec>, f: Exec, sandboxes: map<SandboxId, ExecId>,
                    live: set<SandboxId>)
    requires Ledger(sandboxes, live, execs) && id in execs
    requires f.core.sandbox == execs[id].core.sandbox && f.journal.killed == execs[id].journal.killed
    ensures Ledger(sandboxes, live, execs[id := f])
  {
  }

  lemma LedgerKept(id: ExecId, execs: map<ExecId, Exec>, f: Exec, sandboxes: map<SandboxId, ExecId>,
                   live: set<SandboxId>, sandboxes': map<SandboxId, ExecId>, live': set<SandboxId>)
    requires Ledger(sandboxes, live, execs) && id in execs
    requires execs[id].journal.killed ==> execs[id].core.sandbox.Some?
    requires SandboxChange(id, execs[id], f, sandboxes, live, sandboxes', live')
    ensures Ledger(sandboxes', live', execs[id := f])
  {
    if f.core.sandbox != execs[id].core.sandbox {
      LedgerObtain(id, execs, f, sandboxes, live);
    } else if f.journal.killed == execs[id].journal.killed && sandboxes' == sandboxes && live' == live {
      LedgerStays(id, execs, f, sandboxes, live);
    } else {
      LedgerKill(id, execs, f, sandboxes, live);
    }
  }

  // ----- all together -----

  function Journals(w: World): map<ExecId, Journal> {
    map id | id in w.execs :: w.execs[id].journal
  }

  ghost predicate ExecsInv(w: World) {
    forall id :: id in w.execs ==> Inv(w.execs[id])
  }

  ghost predicate MirrorInv(w: World) {
    Copies(w.docs, w.rows) && forall id :: id in w.execs ==> MirrorsOwn(w.docs, w.execs[id])
  }

  /** What every interleaving keeps. */
  ghost predicate Good(w: World) {
    && ExecsInv(w)
    && RowsInv(w.rows, Journals(w))
    && MirrorInv(w)
    && LogInv(w.log, Journals(w))
    && Ledger(w.sandboxes, w.live, w.execs)
    && (w.execs != map[] ==> w.job)
  }

  /** The parts of an executor's invariant the shared state depends on. */
  ghost predicate Facts(e: Exec) {
    var c, j := e.core, e.journal;
    && Conversation(c) && UsesSandbox(e)
    && (AtHead(c.pc) || InRound(c.pc) ==> c.caught.None?)
    && (c.pc.StepPg? ==> c.pc.at == j.base + |j.written|)
    && (c.pc.StepMirror? ==>
          c.pc.at + 1 == j.base + |j.written| && j.written != [] && j.written[|j.written| - 1] == c.pc.step)
    && (c.pc.CountSteps? ==> j.written == [])
    && (j.killed ==> c.sandbox.Some?)
  }

  lemma InvFacts(e: Exec)
    requires Inv(e)
    ensures Facts(e)
  {
  }

  /** The shared state after the operation of executor `id` settled. */
  ghost predicate AfterSettle(w: World, id: ExecId, ch: Choice, v: World) {
    && id in w.execs && w.execs[id].core.pc.Live()
    && var e := w.execs[id];
    var happens := Applied(w, e.core, ch);
    && v.execs == w.execs[id := Stepped(w, e, ch)]
    && v.rows == (if happens then RowsAfter(w.rows, id, e.core) else w.rows)
    && v.docs == (if happens then DocsAfter(w.docs, e.core) else w.docs)
    && v.log == (if happens then LogAfter(w.log, id, e.core) else w.log)
    && v.sandboxes == (if happens then SandboxesAfter(w.sandboxes, id, e.core) else w.sandboxes)
    && v.live == (if happens then LiveAfter(w.live, |w.sandboxes|, e.core) else w.live)
    && v.job == w.job
  }

  lemma SettleIs(w: World, id: ExecId, ch: Choice)
    requires id in w.execs && w.execs[id].core.pc.Live()
    ensures AfterSettle(w, id, ch, Apply(w, Settle(id, ch)))
  {
  }

  lemma ExecsSettle(w: World, id: ExecId, ch: Choice, v: World)
    requires ExecsInv(w) && AfterSettle(w, id, ch, v)
    ensures ExecsInv(v)
  {
    var e := w.execs[id];
    VerdictSettles(w, e.core, ch);
    AdvanceKeepsInv(e, Verdict(w, e.core, ch), Applied(w, e.core, ch), ch.now);
  }

  lemma JournalsSettle(w: World, id: ExecId, f: Exec)
    requires id in w.execs
    ensures Journals(w.(execs := w.execs[id := f])) == Journals(w)[id := f.journal]
  {
  }

  lemma JournalsOf(w: World, v: World)
    requires v.execs == w.execs
    ensures Journals(v) == Journals(w)
  {
  }

  lemma RowsChange(w: World, id: ExecId, ch: Choice, v: World)
    requires AfterSettle(w, id, ch, v)
    ensures RowChange(id, w.execs[id].core, w.rows, w.execs[id].journal, v.rows, v.execs[id].journal)
  {
    RowEffect(w, id, w.execs[id].core, w.execs[id].journal, ch);
  }

  lemma RowsSettle(w: World, id: ExecId, ch: Choice, v: World)
    requires RowsInv(w.rows, Journals(w)) && AfterSettle(w, id, ch, v) && Facts(w.execs[id])
    ensures RowsInv(v.rows, Journals(v))
  {
    RowsChange(w, id, ch, v);
    RowsInvKept(w.rows, Journals(w), id, w.execs[id].core, v.rows, v.execs[id].journal);
    JournalsSettle(w, id, v.execs[id]);
    JournalsOf(w.(execs := w.execs[id := v.execs[id]]), v);
  }

  lemma MirrorOwnSettle(w: World, id: ExecId, ch: Choice, v: World)
    requires RowsInv(w.rows, Journals(w)) && MirrorInv(w) && AfterSettle(w, id, ch, v) && Facts(w.execs[id])
    ensures MirrorsOwn(v.docs, v.execs[id]) && Copies(v.docs, v.rows)
  {
    var e := w.execs[id];
    var f := Stepped(w, e, ch);
    RowEffect(w, id, e.core, e.journal, ch);
    DocEffect(w, id, e, ch);
    assert Owns(w.rows, id, Journals(w)[id]);
    assert MirrorsOwn(v.docs, f) by { MirrorsOwnKept(w.docs, e, v.docs, f); }
    CopiesKept(w.rows, w.docs, id, e.core, e.journal, v.rows, v.docs, f.journal, f.core);
  }

  lemma MirrorOtherSettle(w: World, id: ExecId, ch: Choice, v: World, k: ExecId)
    requires RowsInv(w.rows, Journals(w)) && MirrorInv(w) && AfterSettle(w, id, ch, v) && Facts(w.execs[id])
    requires k in w.execs && k != id && Facts(w.execs[k])
    ensures MirrorsOwn(v.docs, v.execs[k])
  {
    var e := w.execs[id];
    assert Owns(w.rows, id, Journals(w)[id]);
    assert Owns(w.rows, k, Journals(w)[k]);
    MirrorsOthersKept(w.rows, w.docs, id, e.core, e.journal, v.docs, k, w.execs[k]);
  }

  lemma LogSettle(w: World, id: ExecId, ch: Choice, v: World)
    requires LogInv(w.log, Journals(w)) && AfterSettle(w, id, ch, v)
    ensures LogInv(v.log, Journals(v))
  {
    var e := w.execs[id];
    var j' := Stepped(w, e, ch).journal;
    LogEffect(w, e.core, e.journal, ch);
    assert Journals(v) == Journals(w)[id := j'];
    if Applied(w, e.core, ch) && EventOf(e.core).Some? {
      LogKept(w.log, Journals(w), id, EventOf(e.core).value, j');
    }
  }

  lemma LedgerSettle(w: World, id: ExecId, ch: Choice, v: World)
    requires Ledger(w.sandboxes, w.live, w.execs) && AfterSettle(w, id, ch, v) && Facts(w.execs[id])
    ensures Ledger(v.sandboxes, v.live, v.execs)
  {
    var e := w.execs[id];
    SandboxEffect(w, id, e, ch);
    LedgerKept(id, w.execs, Stepped(w, e, ch), w.sandboxes, w.live, v.sandboxes, v.live);
  }

  lemma GoodSettle(w: World, id: ExecId, ch: Choice, v: World)
    requires Good(w) && AfterSettle(w, id, ch, v)
    ensures Good(v)
  {
    ExecsSettle(w, id, ch, v);
    forall k | k in w.execs ensures Facts(w.execs[k]) {
      InvFacts(w.execs[k]);
    }
    RowsSettle(w, id, ch, v);
    MirrorOwnSettle(w, id, ch, v);
    forall k | k in v.execs ensures MirrorsOwn(v.docs, v.execs[k]) {
      if k != id {
        MirrorOtherSettle(w, id, ch, v, k);
      }
    }
    LogSettle(w, id, ch, v);
    LedgerSettle(w, id, ch, v);
  }

  lemma GoodElsewhere(w: World, v: World)
    requires Good(w)
    requires v.execs == w.execs && v.rows == w.rows && v.docs == w.docs && v.log == w.log
    requires v.sandboxes == w.sandboxes && v.live == w.live && (w.job ==> v.job)
    ensures Good(v)
  {
    assert Journals(v) == Journals(w);
  }

  /** An action about no executor leaves what executors share alone. */
  lemma GoodElsewhereApply(w: World, a: Action)
    requires Good(w) && !a.Settle? && !a.Start? && !a.CrashOf?
    ensures Good(Apply(w, a))
  {
    match a
    case Create(ch) => GoodElsewhere(w, CreateStep(w, ch));
    case AbandonCreate => GoodElsewhere(w, w.(creation := Abandoned));
    case RequestCancel => GoodElsewhere(w, w.(cancel := true));
    case ExpireCancel => GoodElsewhere(w, w.(cancel := false));
  }

  lemma RowsInvStart(rows: map<nat, Row>, js: map<ExecId, Journal>, id: ExecId)
    requires RowsInv(rows, js) && id !in js
    ensures RowsInv(rows, js[id := BLANK])
  {
  }

  lemma LogInvStart(log: seq<Published>, js: map<ExecId, Journal>, id: ExecId)
    requires LogInv(log, js) && id !in js
    ensures LogInv(log, js[id := BLANK])
  {
    SentByNobody(log, id);
  }

  lemma LedgerSwap(sandboxes: map<SandboxId, ExecId>, live: set<SandboxId>, execs: map<ExecId, Exec>, id: ExecId,
                   f: Exec)
    requires Ledger(sandboxes, live, execs)
    requires if id in execs then f.journal == execs[id].journal && f.core.sandbox == execs[id].core.sandbox
             else f.core.sandbox.None?
    ensures Ledger(sandboxes, live, execs[id := f])
  {
  }

  lemma ExecsSwap(w: World, id: ExecId, f: Exec)
    requires ExecsInv(w) && Inv(f)
    ensures ExecsInv(w.(execs := w.execs[id := f]))
  {
  }

  lemma MirrorSwap(w: World, id: ExecId, f: Exec)
    requires MirrorInv(w) && MirrorsOwn(w.docs, f)
    ensures MirrorInv(w.(execs := w.execs[id := f]))
  {
  }

  lemma JournalsStart(w: World, id: ExecId, f: Exec)
    requires f.journal == BLANK
    ensures Journals(w.(execs := w.execs[id := f])) == Journals(w)[id := BLANK]
  {
  }

  lemma GoodStart(w: World, id: ExecId, f: Exec)
    requires Good(w) && w.job && id !in w.execs && Inv(f)
    requires f.core.sandbox.None? && f.journal == BLANK && f.core.pc.Lookup?
    ensures Good(w.(execs := w.execs[id := f]))
  {
    JournalsStart(w, id, f);
    ExecsSwap(w, id, f);
    RowsInvStart(w.rows, Journals(w), id);
    MirrorSwap(w, id, f);
    LogInvStart(w.log, Journals(w), id);
    LedgerSwap(w.sandboxes, w.live, w.execs, id, f);
  }

  lemma MirrorsOwnStopped(docs: map<nat, Step>, e: Exec, f: Exec)
    requires MirrorsOwn(docs, e) && f.journal == e.journal && f.core.pc.Crashed?
    ensures MirrorsOwn(docs, f)
  {
  }

  lemma JournalsSwap(w: World, id: ExecId, f: Exec)
    requires id in w.execs && f.journal == w.execs[id].journal
    ensures Journals(w.(execs := w.execs[id := f])) == Journals(w)
  {
  }

  lemma GoodStopped(w: World, id: ExecId, f: Exec)
    requires Good(w) && id in w.execs && Inv(f)
    requires f.journal == w.execs[id].journal && f.core.sandbox == w.execs[id].core.sandbox && f.core.pc.Crashed?
    ensures Good(w.(execs := w.execs[id := f]))
  {
    assert w.execs != map[];
    JournalsSwap(w, id, f);
    ExecsSwap(w, id, f);
    MirrorsOwnStopped(w.docs, w.execs[id], f);
    MirrorSwap(w, id, f);
    LedgerSwap(w.sandboxes, w.live, w.execs, id, f);
  }

  lemma GoodCrash(w: World, id: ExecId)
    requires Good(w) && id in w.execs && w.execs[id].core.pc.Live()
    ensures Good(w.(execs := w.execs[id := Crash(w.execs[id])]))
  {
    var e := w.execs[id];
    CrashKeepsInv(e);
    GoodStopped(w, id, Crash(e));
  }

  lemma GoodKept(w: World, a: Action)
    requires Good(w)
    ensures Good(Apply(w, a))
  {
    if a.Settle? && a.id in w.execs && w.execs[a.id].core.pc.Live() {
      SettleIs(w, a.id, a.choice);
      GoodSettle(w, a.id, a.choice, Apply(w, a));
    } else if a.CrashOf? && a.id in w.execs && w.execs[a.id].core.pc.Live() {
      GoodCrash(w, a.id);
    } else if a.Start? && w.job && a.id !in w.execs {
      BeginInv(a.prompt, a.maxIterations);
      GoodStart(w, a.id, Exec(Begin(a.prompt, a.maxIterations), BLANK));
    } else if !a.Settle? && !a.Start? && !a.CrashOf? {
      GoodElsewhereApply(w, a);
    }
  }

  /** Every run from nothing is good at its end, and so at every point on the way. */
  lemma {:induction false} EveryRunIsGood(actions: seq<Action>)
    ensures Good(Run(NOTHING, actions))
  {
    if actions != [] {
      EveryRunIsGood(actions[..|actions| - 1]);
      GoodKept(Run(NOTHING, actions[..|actions| - 1]), actions[|actions| - 1]);
    }
  }
}
