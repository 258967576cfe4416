/**
 AgentRunsService.create with its compensations, and cancel. `create` is proved to follow the steps the protocol
 gives it, so a job exists only for a run that both stores hold as RUNNING.
 */
module AgentRuns {
  import opened Wrappers
  import opened AgentTypes
  import opened RunProtocol
  import opened RunRecords

  /** How `create` ends; `at` is the operation that rejected first. */
  datatype CreateResult =
    | Created(record: Record)
    | SessionNotFound
    | Thrown(message: string, at: Creation)

  datatype CancelResult = Requested | RunNotFound | NotRunning | CancelThrew(message: string)

  /** How the stores are left when `create` throws the exception of the operation `at`. */
  predicate Leaves(at: Creation, run: Option<Record>, mirror: Option<Record>) {
    match at
    case InsertRun => mirror.None? && (run.None? || run == Some(FRESH))
    case SetRun =>
      && run.Some? && IsFailure(run.value, "Failed to mirror run to Firestore")
      && (mirror.None? || mirror == Some(FRESH))
    case FailUnmirrored =>
      && run.Some? && (run.value == FRESH || IsFailure(run.value, MIRROR_FAILURE))
      && (mirror.None? || mirror == Some(FRESH))
    case Audit => run == mirror == Some(FRESH)
    case Enqueue =>
      && run.Some? && IsFailure(run.value, "Failed to enqueue agent run for execution")
      && mirror == run
    case FailUnqueued =>
      && run.Some? && (run.value == FRESH || IsFailure(run.value, ENQUEUE_FAILURE))
      && mirror == Some(FRESH)
    case FailUnqueuedMirror(f) =>
      && run == Some(FRESH.With(f)) && IsFailure(run.value, ENQUEUE_FAILURE)
      && (mirror == Some(FRESH) || mirror == run)
    case Accepted => false
    case Refused => false
    case Abandoned => false
  }

  /** One operation of `create`, awaited at `at`, rejected with `fault` or resolved. */
  ghost predicate Did(was: seq<Action>, now: seq<Action>, at: Creation, fault: Option<string>) {
    && |now| == |was| + 1 && now[..|was|] == was
    && now[|was|].Create? && now[|was|].choice.fault == fault
    && Run(NOTHING, was).creation == at
  }

  /** Among the actions of `now` since `was`, the operation awaited at `at` rejected with `message`. */
  ghost predicate SomeRejected(was: seq<Action>, now: seq<Action>, at: Creation, message: string) {
    exists i :: |was| <= i < |now| && FailedAt(now, i, at, message)
  }

  ghost predicate FailedAt(trace: seq<Action>, i: nat, at: Creation, message: string)
    requires i < |trace|
  {
    && trace[i].Create? && trace[i].choice.fault == Some(message)
    && Run(NOTHING, trace[..i]).creation == at
  }

  /** Nothing among the actions of `now` since `was` rejected. */
  ghost predicate Flawless(was: seq<Action>, now: seq<Action>) {
    was <= now && forall i :: |was| <= i < |now| ==> now[i].Create? && now[i].choice.fault.None?
  }

  lemma FailedNow(start: seq<Action>, was: seq<Action>, now: seq<Action>, at: Creation, message: string)
    requires start <= was && Did(was, now, at, Some(message))
    ensures start <= now && SomeRejected(start, now, at, message)
  {
    assert FailedAt(now, |was|, at, message);
  }

  lemma FailedBefore(start: seq<Action>, was: seq<Action>, now: seq<Action>, at: Creation, message: string,
                     other: Creation, fault: Option<string>)
    requires start <= was && SomeRejected(start, was, at, message) && Did(was, now, other, fault)
    ensures start <= now && SomeRejected(start, now, at, message)
  {
    var i :| |start| <= i < |was| && FailedAt(was, i, at, message);
    assert now[..|was|][i] == was[i] && now[..i] == was[..i];
    assert FailedAt(now, i, at, message);
  }

  lemma FlawlessNow(start: seq<Action>, was: seq<Action>, now: seq<Action>, at: Creation)
    requires Flawless(start, was) && Did(was, now, at, None)
    ensures Flawless(start, now)
  {
    assert forall i :: 0 <= i < |was| ==> now[i] == now[..|was|][i];
  }

  /** What a history of `create` leaves when no executor has touched the run. */
  lemma AccountedSince(history: seq<Action>)
    ensures var w := Run(NOTHING, history);
      && (!w.job ==> Accounted(w.run, w.mirror, Effects(history)))
      && (!w.job ==> (InStep(w.run, w.mirror) <==> Balanced(Effects(history))))
      && (w.job ==> Effects(history) == {Inserted, Mirrored})
  {
    CreationIsAccounted(history);
    CreationOfRun(history);
  }

  class AgentRunsService {
    var run: Option<Record>
    var mirror: Option<Record>
    var job: bool
    ghost var creation: Creation
    ghost var trace: seq<Action>

    ghost predicate Valid()
      reads this
    {
      Run(NOTHING, trace) ==
      NOTHING.(run := run, mirror := mirror, job := job, creation := creation)
    }

    constructor ()
      ensures Valid() && creation.InsertRun? && run.None? && mirror.None? && !job
    {
      run, mirror, job, creation, trace := None, None, false, Creation.InsertRun, [];
    }

    /** prisma.agentRun.create */
    method InsertRun() returns (fault: Option<string>)
      requires Valid() && creation.InsertRun?
      modifies this
      ensures Did(old(trace), trace, old(creation), fault)
      ensures Valid() && creation == NextCreation(old(creation), fault.Some?, 0)
      ensures mirror == old(mirror) && job == old(job)
      ensures run == Some(FRESH) || (fault.Some? && run == old(run))
    {
      var ch: Choice := *;
      RunSnoc(NOTHING, trace, Create(ch));
      if ch.fault.None? || ch.applied {
        run := Some(FRESH);
      }
      fault := ch.fault;
      creation, trace := NextCreation(creation, fault.Some?, ch.now), trace + [Create(ch)];
    }

    /** mirror.setRun with the run's fields */
    method SetRun() returns (fault: Option<string>)
      requires Valid() && creation.SetRun?
      modifies this
      ensures Did(old(trace), trace, old(creation), fault)
      ensures Valid() && creation == NextCreation(old(creation), fault.Some?, 0)
      ensures run == old(run) && job == old(job)
      ensures mirror == run || (fault.Some? && mirror == old(mirror))
    {
      var ch: Choice := *;
      RunSnoc(NOTHING, trace, Create(ch));
      if ch.fault.None? || ch.applied {
        mirror := run;
      }
      fault := ch.fault;
      creation, trace := NextCreation(creation, fault.Some?, ch.now), trace + [Create(ch)];
    }

    /** audit.record */
    method RecordAudit() returns (fault: Option<string>)
      requires Valid() && creation.Audit?
      modifies this
      ensures Did(old(trace), trace, old(creation), fault)
      ensures Valid() && creation == NextCreation(old(creation), fault.Some?, 0)
      ensures run == old(run) && mirror == old(mirror) && job == old(job)
    {
      var ch: Choice := *;
      RunSnoc(NOTHING, trace, Create(ch));
      fault := ch.fault;
      creation, trace := NextCreation(creation, fault.Some?, ch.now), trace + [Create(ch)];
    }

    /** queue.enqueue; one that rejects has not enqueued */
    method EnqueueJob() returns (fault: Option<string>)
      requires Valid() && creation.Enqueue?
      modifies this
      ensures Did(old(trace), trace, old(creation), fault)
      ensures Valid() && creation == NextCreation(old(creation), fault.Some?, 0)
      ensures run == old(run) && mirror == old(mirror)
      ensures job == (old(job) || fault.None?)
    {
      var ch: Choice := *;
      RunSnoc(NOTHING, trace, Create(ch));
      if ch.fault.None? {
        job := true;
      }
      fault := ch.fault;
      creation, trace := NextCreation(creation, fault.Some?, ch.now), trace + [Create(ch)];
    }

    /** prisma.agentRun.update to FAILED, as a compensation */
    method FailRun(message: string) returns (fault: Option<string>, f: Finish)
      requires Valid() && run.Some?
      requires if creation.FailUnmirrored? then message == MIRROR_FAILURE
               else creation.FailUnqueued? && message == ENQUEUE_FAILURE
      modifies this
      ensures Did(old(trace), trace, old(creation), fault)
      ensures Valid() && creation == NextCreation(old(creation), fault.Some?, f.finishedAt)
      ensures mirror == old(mirror) && job == old(job)
      ensures f.status.Failed? && f.error == Some(message)
      ensures run == Some(old(run).value.With(f)) || (fault.Some? && run == old(run))
    {
      var ch: Choice := *;
      RunSnoc(NOTHING, trace, Create(ch));
      f := Finish(Failed, Some(message), ch.now);
      if ch.fault.None? || ch.applied {
        run := Some(run.value.With(f));
      }
      fault := ch.fault;
      creation, trace := NextCreation(creation, fault.Some?, ch.now), trace + [Create(ch)];
    }

    /** mirror.updateRun with the same failure */
    method FailMirror(f: Finish) returns (fault: Option<string>)
      requires Valid() && creation == FailUnqueuedMirror(f)
      modifies this
      ensures Did(old(trace), trace, old(creation), fault)
      ensures Valid() && creation == NextCreation(old(creation), fault.Some?, 0)
      ensures run == old(run) && job == old(job)
      ensures old(mirror).Some? ==> mirror == Some(old(mirror).value.With(f)) || (fault.Some? && mirror == old(mirror))
    {
      var ch: Choice := *;
      RunSnoc(NOTHING, trace, Create(ch));
      if (ch.fault.None? || ch.applied) && mirror.Some? {
        mirror := Some(mirror.value.With(f));
      }
      fault := ch.fault;
      creation, trace := NextCreation(creation, fault.Some?, ch.now), trace + [Create(ch)];
    }

    /** `create` from the audit on: the run is in both stores. */
    method AuditAndEnqueue(ghost start: seq<Action>) returns (r: CreateResult)
      requires Valid() && creation.Audit? && run == mirror == Some(FRESH) && !job && Flawless(start, trace)
      modifies this
      ensures Valid() && !r.SessionNotFound?
      ensures r.Created? <==> job
      ensures r.Created? ==> run == mirror == Some(r.record) && r.record == FRESH
      ensures r.Thrown? ==> Leaves(r.at, run, mirror)
      ensures start <= trace
      ensures r.Thrown? ==> SomeRejected(start, trace, r.at, r.message)
      ensures r.Created? ==> Flawless(start, trace) && creation.Accepted?
      ensures r.Thrown? ==> creation.Refused?
    {
      ghost var second := trace;
      var audited := RecordAudit();
      ghost var third := trace;
      if audited.Some? {
        FailedNow(start, second, third, Audit, audited.value);
        return Thrown(audited.value, Audit);
      }
      FlawlessNow(start, second, third, Audit);
      var queued := EnqueueJob();
      ghost var fourth := trace;
      if queued.None? {
        FlawlessNow(start, third, fourth, Enqueue);
        return Created(FRESH);
      }
      FailedNow(start, third, fourth, Enqueue, queued.value);
      r := CompensateEnqueue(queued.value, start);
    }

    /** The enqueue rejected: the run is marked FAILED in both stores, and the exception goes on. */
    method CompensateEnqueue(queued: string, ghost start: seq<Action>) returns (r: CreateResult)
      requires Valid() && creation.FailUnqueued? && run == mirror == Some(FRESH) && !job
      requires start <= trace && SomeRejected(start, trace, Enqueue, queued)
      modifies this
      ensures Valid() && !job && r.Thrown? && Leaves(r.at, run, mirror) && creation.Refused?
      ensures start <= trace && SomeRejected(start, trace, r.at, r.message)
    {
      ghost var fourth := trace;
      var undone, f := FailRun(ENQUEUE_FAILURE);
      ghost var fifth := trace;
      if undone.Some? {
        FailedNow(start, fourth, fifth, FailUnqueued, undone.value);
        return Thrown(undone.value, FailUnqueued);
      }
      FailedBefore(start, fourth, fifth, Enqueue, queued, FailUnqueued, undone);
      var told := FailMirror(f);
      if told.Some? {
        FailedNow(start, fifth, trace, FailUnqueuedMirror(f), told.value);
        return Thrown(told.value, FailUnqueuedMirror(f));
      }
      FailedBefore(start, fifth, trace, Enqueue, queued, FailUnqueuedMirror(f), told);
      return Thrown(queued, Enqueue);
    }

    /** The operations of `create`, with its two compensations. */
    method CreateSteps(sessionFound: bool) returns (r: CreateResult)
      requires Valid() && creation.InsertRun? && run.None? && mirror.None? && !job
      modifies this
      ensures Valid()
      ensures r.SessionNotFound? <==> !sessionFound
      ensures r.SessionNotFound? ==> unchanged(this)
      ensures r.Created? <==> job
      ensures r.Created? ==> run == mirror == Some(r.record) && r.record == FRESH
      ensures r.Thrown? ==> Leaves(r.at, run, mirror)
      ensures old(trace) <= trace
      ensures r.Thrown? ==> SomeRejected(old(trace), trace, r.at, r.message)
      ensures r.Created? ==> Flawless(old(trace), trace) && creation.Accepted?
      ensures r.Thrown? ==> creation.Refused?
    {
      if !sessionFound {
        return SessionNotFound;
      }
      ghost var start := trace;
      var inserted := InsertRun();
      ghost var first := trace;
      if inserted.Some? {
        FailedNow(start, start, first, Creation.InsertRun, inserted.value);
        return Thrown(inserted.value, Creation.InsertRun);
      }
      FlawlessNow(start, start, first, Creation.InsertRun);
      var mirrored := SetRun();
      ghost var second := trace;
      if mirrored.Some? {
        FailedNow(start, first, second, Creation.SetRun, mirrored.value);
        var undone, f := FailRun(MIRROR_FAILURE);
        if undone.Some? {
          FailedNow(start, second, trace, FailUnmirrored, undone.value);
          return Thrown(undone.value, FailUnmirrored);
        }
        FailedBefore(start, second, trace, Creation.SetRun, mirrored.value, FailUnmirrored, undone);
        return Thrown(mirrored.value, Creation.SetRun);
      }
      FlawlessNow(start, first, second, Creation.SetRun);
      r := AuditAndEnqueue(start);
    }

    /**
     `create`, after the session lookup. A job is enqueued exactly when the run is returned, and then both stores
     hold it as RUNNING. Otherwise `at` is the operation whose exception is thrown, and each store is left as the
     writes that took effect leave it, whether they resolved or rejected. A rejected audit leaves a RUNNING run in
     both stores that no job will ever execute.
     */
    method CreateRun(sessionFound: bool) returns (r: CreateResult)
      requires Valid() && creation.InsertRun? && run.None? && mirror.None? && !job
      modifies this
      ensures Valid()
      ensures r.SessionNotFound? <==> !sessionFound
      ensures r.SessionNotFound? ==> unchanged(this)
      ensures r.Created? <==> job
      ensures r.Created? ==> run == mirror == Some(r.record) && r.record == FRESH
      ensures Accounted(run, mirror, Effects(trace)) && (InStep(run, mirror) <==> Balanced(Effects(trace)))
      ensures r.Thrown? ==> Leaves(r.at, run, mirror)
      ensures old(trace) <= trace
      ensures r.Thrown? ==> SomeRejected(old(trace), trace, r.at, r.message)
      ensures r.Created? ==> Flawless(old(trace), trace) && creation.Accepted?
      ensures r.Thrown? ==> creation.Refused?
    {
      r := CreateSteps(sessionFound);
      AccountedSince(trace);
    }
  }

  /** A run once stored stays stored. */
  lemma {:induction false} StoredStays(w: World, actions: seq<Action>)
    requires w.run.Some?
    ensures Run(w, actions).run.Some?
  {
    if actions != [] {
      StoredStays(w, actions[..|actions| - 1]);
      StoredStaysOnce(Run(w, actions[..|actions| - 1]), actions[|actions| - 1]);
    }
  }

  lemma StoredStaysOnce(w: World, a: Action)
    requires w.run.Some?
    ensures Apply(w, a).run.Some?
  {
  }

  /** A history that continues `before` finds the run if `before` did. */
  lemma StillStored(before: seq<Action>, later: seq<Action>)
    requires before <= later
    ensures Run(NOTHING, later).run.None? ==> Run(NOTHING, before).run.None?
  {
    assert later == before + later[|before|..];
    RunConcat(NOTHING, before, later[|before|..]);
    if Run(NOTHING, before).run.Some? {
      StoredStays(Run(NOTHING, before), later[|before|..]);
    }
  }

  /** One `cancel` request, while executors, other requests and crashes go on before each of its operations. */
  class CancelRequest {
    var world: World
    ghost var trace: seq<Action>

    ghost predicate Valid()
      reads this
    {
      Run(NOTHING, trace) == world
    }

    /** The world as it was after `n` of the actions. */
    ghost function At(n: nat): World
      requires n <= |trace|
      reads this
    {
      Run(NOTHING, trace[..n])
    }

    /** The request meets the world that some history led to. */
    constructor (history: seq<Action>)
      ensures Valid() && trace == history
    {
      world, trace := Run(NOTHING, history), history;
    }

    method Interfere()
      requires Valid()
      modifies this
      ensures Valid() && old(trace) <= trace
    {
      var others: seq<Action> := *;
      for i := 0 to |others|
        invariant Valid() && old(trace) <= trace
      {
        RunSnoc(NOTHING, trace, others[i]);
        world, trace := Apply(world, others[i]), trace + [others[i]];
      }
    }

    /** `getById`: the run as it was when it was read, after `read` of the actions. */
    method GetById() returns (found: Option<Record>, ghost read: nat)
      requires Valid()
      modifies this
      ensures Valid() && old(trace) <= trace && |old(trace)| <= read == |trace|
      ensures found == At(read).run
    {
      Interfere();
      found, read := world.run, |trace|;
      assert trace[..read] == trace;
    }

    /** `requestCancellation`: the key is set by action `wrote`, if it is; a rejected write may have set it. */
    method SetKey(ch: Choice) returns (ghost wrote: Option<nat>)
      requires Valid()
      modifies this
      ensures Valid() && old(trace) <= trace
      ensures wrote.Some? <==> ch.fault.None? || ch.applied
      ensures wrote.Some? ==>
        && |old(trace)| <= wrote.value == |trace| - 1
        && trace[wrote.value] == RequestCancel && world.cancel
    {
      Interfere();
      wrote := None;
      if ch.fault.None? || ch.applied {
        RunSnoc(NOTHING, trace, RequestCancel);
        wrote := Some(|trace|);
        world, trace := Apply(world, RequestCancel), trace + [RequestCancel];
      }
    }

    /**
     `cancel`; `look`, `write` and `audit` say how its operations settle. After `read` of the actions the run was
     looked at. A run that was not there, or not RUNNING, is refused, and no key is written for it. Otherwise the key is
     written after that look, unless the write had no effect, and the request throws exactly what rejects first. The run
     may have ended between the look and the write.
     */
    method Cancel(look: Option<string>, write: Choice, audit: Option<string>)
      returns (r: CancelResult, ghost read: nat, ghost wrote: Option<nat>)
      requires Valid()
      modifies this
      ensures Valid() && old(trace) <= trace && |old(trace)| <= read <= |trace|
      ensures var seen := At(read).run;
        && r == (if look.Some? then CancelThrew(look.value)
                 else if seen.None? then RunNotFound
                 else if seen.value.status != Running then NotRunning
                 else if write.fault.Some? then CancelThrew(write.fault.value)
                 else if audit.Some? then CancelThrew(audit.value)
                 else Requested)
        && (wrote.Some? <==>
              look.None? && seen.Some? && seen.value.status == Running && (write.fault.None? || write.applied))
        && (seen.None? ==> old(world).run.None?)
      ensures r.NotRunning? ==> world.run.Some? && world.run.value.status != Running
      ensures wrote.Some? ==>
        read <= wrote.value < |trace| && trace[wrote.value] == RequestCancel && At(wrote.value + 1).cancel
    {
      wrote := None;
      var found;
      found, read := GetById();
      ghost var before, seen := old(trace), trace;
      StillStored(before, seen);
      assert trace[..read] == seen;
      if look.Some? {
        return CancelThrew(look.value), read, wrote;
      }
      if found.None? {
        return RunNotFound, read, wrote;
      }
      if !found.value.status.Running? {
        return NotRunning, read, wrote;
      }
      wrote := SetKey(write);
      assert trace[..read] == seen;
      if wrote.Some? {
        assert trace[..wrote.value + 1] == trace;
      }
      ghost var written := trace;
      if write.fault.Some? {
        return CancelThrew(write.fault.value), read, wrote;
      }
      Interfere();
      assert trace[..read] == seen && trace[..wrote.value + 1] == written;
      r := if audit.Some? then CancelThrew(audit.value) else Requested;
    }
  }
}
