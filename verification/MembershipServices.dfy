/**
 MembershipCacheService and OrganizationsService as they are written, over stores that other requests use too: other
 actions come before every operation they await. Each method is proved to make exactly the actions of its process.
 */
module MembershipServices {
  import opened Wrappers
  import opened Memberships

  /** Whose actions a waiting call excludes from the interference: its own. */
  datatype Caller = Looking(id: nat) | Adding(id: nat) | Founding

  predicate Own(a: Action, c: Caller) {
    match c
    case Looking(id) => a.SettleLookup? && a.id == id
    case Adding(id) => a.SettleAddition? && a.id == id
    case Founding => false
  }

  /** The call is still where it was. */
  predicate Undisturbed(was: World, w: World, c: Caller) {
    match c
    case Looking(id) => id in was.lookups ==> id in w.lookups && w.lookups[id] == was.lookups[id]
    case Adding(id) => id in was.additions ==> id in w.additions && w.additions[id] == was.additions[id]
    case Founding => true
  }

  lemma OthersDoNotDisturb(was: World, w: World, c: Caller, a: Action)
    requires Undisturbed(was, w, c) && !Own(a, c)
    ensures Undisturbed(was, Apply(w, a), c)
  {
  }

  lemma {:induction false} RunConcat(w: World, a: seq<Action>, b: seq<Action>)
    ensures Run(w, a + b) == Run(Run(w, a), b)
    decreases |b|
  {
    if b == [] {
      assert a + b == a;
    } else {
      assert (a + b)[..|a + b| - 1] == a + b[..|b| - 1];
      RunConcat(w, a, b[..|b| - 1]);
    }
  }

  lemma PlainParts(a: seq<Action>, b: seq<Action>)
    requires Plain(a + b)
    ensures Plain(a) && Plain(b)
  {
    forall i | 0 <= i < |a| ensures ColonFree(UserOf(a[i])) {
      assert (a + b)[i] == a[i];
    }
    forall i | 0 <= i < |b| ensures ColonFree(UserOf(b[i])) {
      assert (a + b)[|a| + i] == b[i];
    }
  }

  /** Nothing that was in the table is changed or removed by later actions. */
  lemma TableGrows(before: seq<Action>, later: seq<Action>)
    requires Plain(later) && before <= later
    ensures Grows(Run(NOTHING, before).rows, Run(NOTHING, later).rows)
    ensures Inv(Run(NOTHING, before)) && Inv(Run(NOTHING, later))
  {
    var since := later[|before|..];
    assert later == before + since;
    PlainParts(before, since);
    RunConcat(NOTHING, before, since);
    InvAlways(NOTHING, before);
    InvAlways(Run(NOTHING, before), since);
  }

  lemma OrgStaysOnce(w: World, a: Action, org: string)
    requires org in w.orgs
    ensures org in Apply(w, a).orgs && Apply(w, a).orgs[org] == w.orgs[org]
  {
  }

  lemma {:induction false} OrgStays(w: World, actions: seq<Action>, org: string)
    requires org in w.orgs
    ensures org in Run(w, actions).orgs && Run(w, actions).orgs[org] == w.orgs[org]
  {
    if actions != [] {
      OrgStays(w, actions[..|actions| - 1], org);
      OrgStaysOnce(Run(w, actions[..|actions| - 1]), actions[|actions| - 1], org);
    }
  }

  /** Organizations, and so the slugs taken, are only ever added. */
  lemma OrgsStay(before: seq<Action>, later: seq<Action>)
    requires before <= later
    ensures var was, now := Run(NOTHING, before).orgs, Run(NOTHING, later).orgs;
      && (forall org :: org in was ==> org in now && now[org] == was[org])
      && (forall slug :: slug in was.Values ==> slug in now.Values)
  {
    var since := later[|before|..];
    assert later == before + since;
    RunConcat(NOTHING, before, since);
    var was, now := Run(NOTHING, before).orgs, Run(NOTHING, later).orgs;
    forall org | org in was ensures org in now && now[org] == was[org] {
      OrgStays(Run(NOTHING, before), since, org);
    }
    forall slug | slug in was.Values ensures slug in now.Values {
      var org :| org in was && was[org] == slug;
      assert org in now && now[org] == slug;
    }
  }

  /** Postgres, Redis, and the calls under way, each with the place it is at. */
  class Stores {
    var orgs: map<string, string>
    var rows: map<Pair, Row>
    var cache: map<string, Role>
    var lookups: map<nat, Lookup>
    var additions: map<nat, Addition>
    ghost var trace: seq<Action>

    function State(): World
      reads this
    {
      World(orgs, rows, cache, lookups, additions)
    }

    ghost predicate Valid()
      reads this
    {
      Plain(trace) && Run(NOTHING, trace) == State()
    }

    predicate LookupAt(id: nat, p: Pair, pc: LookupPc)
      reads this
    {
      id in lookups && lookups[id] == Lookup(p, pc)
    }

    predicate AdditionAt(id: nat, p: Pair, role: Role, pc: AddPc)
      reads this
    {
      id in additions && additions[id] == Addition(p, role, pc)
    }

    /** One action, whoever takes it. */
    method Take(a: Action)
      requires Valid() && ColonFree(UserOf(a))
      modifies this
      ensures Valid() && State() == Apply(old(State()), a) && trace == old(trace) + [a]
    {
      var w := Apply(State(), a);
      Note(State(), a);
      orgs, rows, cache, lookups, additions := w.orgs, w.rows, w.cache, w.lookups, w.additions;
    }

    /** The action about to be carried out in state `w`. */
    ghost method Note(w: World, a: Action)
      requires Plain(trace) && Run(NOTHING, trace) == w && ColonFree(UserOf(a))
      modifies this`trace
      ensures trace == old(trace) + [a] && Plain(trace) && Run(NOTHING, trace) == Apply(w, a)
    {
      RunSnoc(NOTHING, trace, a);
      trace := trace + [a];
    }

    /** What other requests do while a call waits. */
    method Interfere(c: Caller)
      requires Valid()
      modifies this
      ensures Valid() && old(trace) <= trace && Undisturbed(old(State()), State(), c)
    {
      var others: seq<Action> := *;
      for i := 0 to |others|
        invariant Valid() && old(trace) <= trace && Undisturbed(old(State()), State(), c)
      {
        if !Own(others[i], c) && ColonFree(UserOf(others[i])) {
          OthersDoNotDisturb(old(State()), State(), c, others[i]);
          Take(others[i]);
        }
      }
    }

    /** prisma.organization.findUnique by slug */
    method FindSlug(slug: string, fault: bool) returns (thrown: bool, taken: bool)
      requires Valid()
      modifies this
      ensures Valid() && old(trace) <= trace && thrown == fault
      ensures slug in old(orgs).Values ==> taken
      ensures taken <==> slug in orgs.Values
    {
      ghost var before := trace;
      assert orgs == Run(NOTHING, before).orgs;
      Interfere(Founding);
      OrgsStay(before, trace);
      assert orgs == Run(NOTHING, trace).orgs;
      thrown := fault;
      taken := slug in orgs.Values;
    }

    /** The transaction of `create`: the organization and its owner's row, both or neither. */
    method Establish(org: string, slug: string, creator: string, ch: Choice) returns (thrown: bool)
      requires Valid() && ColonFree(creator)
      modifies this
      ensures Valid() && old(trace) <= trace
      ensures thrown ==> ch.fault || org in orgs || slug in orgs.Values
      ensures ch.fault ==> thrown
      ensures !thrown ==>
        Pair(creator, org) !in old(rows) && Pair(creator, org) in rows && rows[Pair(creator, org)] == Row(Owner, None)
    {
      ghost var before := trace;
      Interfere(Founding);
      TableGrows(before, trace);
      var refused := org in orgs || slug in orgs.Values;
      if !refused && (!ch.fault || ch.applied) {
        Note(State(), Found(org, slug, creator));
        orgs := orgs[org := slug];
        rows := rows[Pair(creator, org) := Row(Owner, None)];
      }
      thrown := refused || ch.fault;
    }

    /** cache.getJson of a membership */
    method GetJson(id: nat, p: Pair, ch: Choice) returns (thrown: bool, cached: Option<Role>)
      requires Valid() && LookupAt(id, p, Peek)
      modifies this
      ensures Valid() && old(trace) <= trace && thrown == ch.fault
      ensures LookupAt(id, p, if thrown then LookupFailed else if cached.Some? then Answered(cached) else Find)
    {
      Interfere(Looking(id));
      Note(State(), SettleLookup(id, ch));
      thrown := ch.fault;
      cached := if Key(p) in cache then Some(cache[Key(p)]) else None;
      var pc := if thrown then LookupFailed else if cached.Some? then Answered(cached) else Find;
      lookups := lookups[id := Lookup(p, pc)];
    }

    /** prisma.membership.findUnique, for a lookup */
    method FindUnique(id: nat, p: Pair, ch: Choice) returns (thrown: bool, role: Option<Role>)
      requires Valid() && LookupAt(id, p, Find)
      modifies this
      ensures Valid() && old(trace) <= trace && thrown == ch.fault
      ensures LookupAt(id, p, if thrown then LookupFailed else if role.Some? then Fill(role.value) else Answered(None))
    {
      Interfere(Looking(id));
      Note(State(), SettleLookup(id, ch));
      thrown := ch.fault;
      role := if p in rows then Some(rows[p].role) else None;
      var pc := if thrown then LookupFailed else if role.Some? then Fill(role.value) else Answered(None);
      lookups := lookups[id := Lookup(p, pc)];
    }

    /** cache.setJson of a membership */
    method SetJson(id: nat, p: Pair, role: Role, ch: Choice) returns (thrown: bool)
      requires Valid() && LookupAt(id, p, Fill(role))
      modifies this
      ensures Valid() && old(trace) <= trace && thrown == ch.fault
      ensures LookupAt(id, p, if thrown then LookupFailed else Answered(Some(role)))
    {
      Interfere(Looking(id));
      Note(State(), SettleLookup(id, ch));
      thrown := ch.fault;
      if !ch.fault || ch.applied {
        cache := cache[Key(p) := role];
      }
      lookups := lookups[id := Lookup(p, if thrown then LookupFailed else Answered(Some(role)))];
    }

    /** prisma.membership.findUnique, for an addition */
    method FindExisting(id: nat, p: Pair, role: Role, ch: Choice) returns (thrown: bool, present: bool)
      requires Valid() && AdditionAt(id, p, role, Check)
      modifies this
      ensures Valid() && old(trace) <= trace && thrown == ch.fault
      ensures present <==> p in rows
      ensures AdditionAt(id, p, role, if thrown then AddFailed else if present then Conflict else Create)
    {
      Interfere(Adding(id));
      Note(State(), SettleAddition(id, ch));
      thrown, present := ch.fault, p in rows;
      var pc := if thrown then AddFailed else if present then Conflict else AddPc.Create;
      additions := additions[id := Addition(p, role, pc)];
    }

    /** prisma.membership.create: refused for a member already there and for an organization that is not */
    method CreateMember(id: nat, p: Pair, role: Role, ch: Choice) returns (thrown: bool)
      requires Valid() && AdditionAt(id, p, role, Create)
      modifies this
      ensures Valid() && old(trace) <= trace
      ensures thrown ==> ch.fault || p in rows || p.org !in orgs
      ensures ch.fault ==> thrown
      ensures AdditionAt(id, p, role, if thrown then AddFailed else Invalidate)
    {
      Interfere(Adding(id));
      Note(State(), SettleAddition(id, ch));
      var refused := p in rows || p.org !in orgs;
      if !refused && (!ch.fault || ch.applied) {
        rows := rows[p := Row(role, Some(id))];
      }
      thrown := refused || ch.fault;
      additions := additions[id := Addition(p, role, if thrown then AddFailed else Invalidate)];
    }

    /** cache.delete of a membership */
    method Delete(id: nat, p: Pair, role: Role, ch: Choice) returns (thrown: bool)
      requires Valid() && AdditionAt(id, p, role, Invalidate)
      modifies this
      ensures Valid() && old(trace) <= trace && thrown == ch.fault
      ensures AdditionAt(id, p, role, if thrown then AddFailed else Added)
    {
      Interfere(Adding(id));
      Note(State(), SettleAddition(id, ch));
      if !ch.fault || ch.applied {
        cache := cache - {Key(p)};
      }
      thrown := ch.fault;
      additions := additions[id := Addition(p, role, if thrown then AddFailed else Added)];
    }
  }

  class MembershipCacheService {
    const stores: Stores

    constructor (stores: Stores)
      ensures this.stores == stores
    {
      this.stores := stores;
    }

    /** The awaits of `get`. */
    method Await(id: nat, p: Pair, peek: Choice, find: Choice, fill: Choice)
      returns (thrown: bool, answer: Option<Role>)
      requires stores.Valid() && stores.LookupAt(id, p, Peek)
      modifies stores
      ensures stores.Valid() && old(stores.trace) <= stores.trace
      ensures stores.LookupAt(id, p, if thrown then LookupFailed else Answered(answer))
      ensures thrown ==> peek.fault || find.fault || fill.fault
      ensures peek.fault ==> thrown
    {
      thrown, answer := stores.GetJson(id, p, peek);
      if thrown || answer.Some? {
        return;
      }
      thrown, answer := stores.FindUnique(id, p, find);
      if thrown || answer.None? {
        return;
      }
      thrown := stores.SetJson(id, p, answer.value, fill);
    }

    /**
     `get`: a role is the row's when the call returns, and "no membership" was true when it began. It throws only when
     one of its own operations rejects; `peek`, `find` and `fill` say how they settle.
     */
    method Get(userId: string, organizationId: string, id: nat, peek: Choice, find: Choice, fill: Choice)
      returns (thrown: bool, answer: Option<Role>)
      requires stores.Valid() && ColonFree(userId) && id !in stores.lookups
      modifies stores
      ensures stores.Valid() && old(stores.trace) <= stores.trace
      ensures var p := Pair(userId, organizationId);
        !thrown ==>
          && (answer.Some? ==> RoleOf(stores.rows, p) == answer)
          && (answer.None? ==> p !in old(stores.rows))
      ensures thrown ==> peek.fault || find.fault || fill.fault
      ensures peek.fault ==> thrown
    {
      ghost var before := stores.trace;
      var p := Pair(userId, organizationId);
      stores.Take(StartLookup(id, p));
      ghost var start := stores.trace;
      thrown, answer := Await(id, p, peek, find, fill);
      ghost var during := stores.trace[|start|..];
      assert stores.trace == start + during;
      RunSnoc(NOTHING, before, StartLookup(id, p));
      RunConcat(NOTHING, start, during);
      PlainParts(start, during);
      AnswersAreTrueDuringTheCall(before, id, p, during);
    }
  }

  datatype MemberResult = MemberAdded | AlreadyMember | AddThrew

  class OrganizationsService {
    const stores: Stores

    constructor (stores: Stores)
      ensures this.stores == stores
    {
      this.stores := stores;
    }

    /** The awaits of `addMember`, up to the cache invalidation. */
    method Await(id: nat, p: Pair, role: Role, check: Choice, create: Choice, drop: Choice) returns (r: MemberResult)
      requires stores.Valid() && stores.AdditionAt(id, p, role, Check)
      modifies stores
      ensures stores.Valid() && old(stores.trace) <= stores.trace
      ensures stores.AdditionAt(id, p, role, match r
                                             case MemberAdded => Added
                                             case AlreadyMember => Conflict
                                             case AddThrew => AddFailed)
      ensures r.AddThrew? ==>
        || check.fault || create.fault || drop.fault
        || (p !in old(stores.rows) && (p in stores.rows || p.org !in old(stores.orgs)))
      ensures check.fault ==> r.AddThrew?
    {
      ghost var before := stores.trace;
      assert stores.orgs == Run(NOTHING, before).orgs && stores.rows == Run(NOTHING, before).rows;
      var thrown, present := stores.FindExisting(id, p, role, check);
      if thrown {
        return AddThrew;
      }
      if present {
        return AlreadyMember;
      }
      TableGrows(before, stores.trace);
      OrgsStay(before, stores.trace);
      assert stores.orgs == Run(NOTHING, stores.trace).orgs && stores.rows == Run(NOTHING, stores.trace).rows;
      thrown := Insert(id, p, role, create, drop);
      r := if thrown then AddThrew else MemberAdded;
    }

    /** The writes of `addMember`. */
    method Insert(id: nat, p: Pair, role: Role, create: Choice, drop: Choice) returns (thrown: bool)
      requires stores.Valid() && stores.AdditionAt(id, p, role, AddPc.Create)
      modifies stores
      ensures stores.Valid() && old(stores.trace) <= stores.trace
      ensures stores.AdditionAt(id, p, role, if thrown then AddFailed else Added)
      ensures thrown ==> create.fault || drop.fault || p in stores.rows || p.org !in old(stores.orgs)
      ensures create.fault ==> thrown
    {
      ghost var before := stores.trace;
      assert stores.orgs == Run(NOTHING, before).orgs;
      thrown := stores.CreateMember(id, p, role, create);
      OrgsStay(before, stores.trace);
      assert stores.orgs == Run(NOTHING, stores.trace).orgs;
      if !thrown {
        thrown := stores.Delete(id, p, role, drop);
      }
    }

    /**
     `addMember`: when it succeeds the row is new, has the role asked for, and is this call's own; no row that was
     there is changed. It throws only when one of its own operations rejects, or when there is no such organization, or
     when a row has come in between; so for a member there already it reports that.
     */
    method AddMember(userId: string, organizationId: string, role: Role, id: nat,
                     check: Choice, create: Choice, drop: Choice) returns (r: MemberResult)
      requires stores.Valid() && ColonFree(userId) && id !in stores.additions
      modifies stores
      ensures stores.Valid() && Grows(old(stores.rows), stores.rows)
      ensures var p := Pair(userId, organizationId);
        && (r.MemberAdded? ==> p !in old(stores.rows) && p in stores.rows && stores.rows[p] == Row(role, Some(id)))
        && (r.AlreadyMember? ==> p in stores.rows)
        && (r.AddThrew? ==>
              || check.fault || create.fault || drop.fault
              || (p !in old(stores.rows) && (p in stores.rows || organizationId !in old(stores.orgs))))
        && (p in old(stores.rows) && !check.fault && !create.fault && !drop.fault ==> r.AlreadyMember?)
    {
      var p := Pair(userId, organizationId);
      ghost var before := stores.trace;
      stores.Take(StartAddition(id, p, role));
      r := Await(id, p, role, check, create, drop);
      TableGrows(before, stores.trace);
      assert AdditionTrue(stores.rows, id, stores.additions[id]);
    }

    /** `create`, for a creator who exists, up to the transaction; `org` is the id Postgres generates. */
    method Create(creatorId: string, slug: string, org: string, fault: bool, ch: Choice)
      returns (thrown: bool, taken: bool)
      requires stores.Valid() && ColonFree(creatorId)
      modifies stores
      ensures stores.Valid() && Grows(old(stores.rows), stores.rows)
      ensures !thrown && taken ==> slug in stores.orgs.Values
      ensures slug in old(stores.orgs).Values && !fault ==> !thrown && taken
      ensures thrown ==> fault || ch.fault || org in stores.orgs || slug in stores.orgs.Values
      ensures var p := Pair(creatorId, org);
        !thrown && !taken ==> p !in old(stores.rows) && p in stores.rows && stores.rows[p] == Row(Owner, None)
    {
      ghost var before := stores.trace;
      thrown, taken := stores.FindSlug(slug, fault);
      TableGrows(before, stores.trace);
      if thrown || taken {
        return;
      }
      thrown := stores.Establish(org, slug, creatorId, ch);
      TableGrows(before, stores.trace);
    }
  }
}
