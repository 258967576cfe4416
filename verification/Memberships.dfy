/**
 Memberships: the table in Postgres, the read-through cache of MembershipCacheService in front of it, and its only
 writers, `create` and `addMember` of OrganizationsService. Lookups and additions are processes, interleaved at every
 await; an action is one operation settling, or a cache entry going away.
 */
module Memberships {
  import opened Wrappers

  datatype Role = Owner | Admin | Member

  datatype Pair = Pair(user: string, org: string)

  /** A row of memberships. `adder` is history: the addition that created it, unless its organization's creation did. */
  datatype Row = Row(role: Role, adder: Option<nat>)

  /** Where `get` is; a lookup that threw has failed. */
  datatype LookupPc = Peek | Find | Fill(role: Role) | Answered(answer: Option<Role>) | LookupFailed

  datatype Lookup = Lookup(pair: Pair, pc: LookupPc)

  /** Where `addMember` is, up to the writes this model follows. */
  datatype AddPc = Check | Create | Invalidate | Added | Conflict | AddFailed

  datatype Addition = Addition(pair: Pair, role: Role, pc: AddPc)

  datatype World = World(
    orgs: map<string, string>,
    rows: map<Pair, Row>,
    cache: map<string, Role>,
    lookups: map<nat, Lookup>,
    additions: map<nat, Addition>)

  const NOTHING := World(map[], map[], map[], map[], map[])

  /** Whether an operation rejects, and whether a rejected write took effect all the same. */
  datatype Choice = Choice(fault: bool, applied: bool)

  datatype Action =
    | Found(org: string, slug: string, creator: string)
    | StartLookup(id: nat, pair: Pair)
    | SettleLookup(id: nat, choice: Choice)
    | StartAddition(id: nat, pair: Pair, role: Role)
    | SettleAddition(id: nat, choice: Choice)
    | Forget(key: string)

  // ----- keys -----

  function Key(p: Pair): string { "membership:" + p.org + ":" + p.user }

  /** The key of user "u" in organization "o". */
  lemma KeySample()
    ensures Key(Pair("u", "o")) == "membership:o:u"
  {
  }

  predicate ColonFree(s: string) { ':' !in s }

  /** `p`'s organization id is cut short inside `q`'s, and the rest of it went to `p`'s user id. */
  predicate Shifted(p: Pair, q: Pair, t: string) {
    q.org == p.org + ":" + t && p.user == t + ":" + q.user
  }

  lemma SplitAtColon(a: string, b: string, c: string, d: string)
    requires a + ":" + b == c + ":" + d && |a| <= |c|
    ensures (a == c && b == d) || (|a| < |c| && c == a + ":" + c[|a| + 1..] && b == c[|a| + 1..] + ":" + d)
  {
    var s, t := a + ":" + b, c + ":" + d;
    assert a == s[..|a|] && c == t[..|c|] && a == c[..|a|];
    assert b == s[|a| + 1..] && d == t[|c| + 1..];
    if |a| < |c| {
      assert c[|a|] == t[|a|] == s[|a|] == ':';
      assert c == c[..|a|] + [c[|a|]] + c[|a| + 1..];
      assert t[|a| + 1..] == c[|a| + 1..] + ":" + d;
    }
  }

  lemma KeyTail(p: Pair)
    ensures Key(p)[11..] == p.org + ":" + p.user
  {
    assert |"membership:"| == 11;
    assert Key(p) == "membership:" + (p.org + ":" + p.user);
  }

  /** Two keys coincide exactly for equal pairs and for pairs that differ only in which colon ends the organization. */
  lemma KeysCoincide(p: Pair, q: Pair)
    ensures Key(p) == Key(q) <==> p == q || (exists t :: Shifted(p, q, t)) || (exists t :: Shifted(q, p, t))
  {
    KeyTail(p);
    KeyTail(q);
    if Key(p) == Key(q) {
      if |p.org| <= |q.org| {
        SplitAtColon(p.org, p.user, q.org, q.user);
        if p != q {
          assert Shifted(p, q, q.org[|p.org| + 1..]);
        }
      } else {
        SplitAtColon(q.org, q.user, p.org, p.user);
        assert Shifted(q, p, p.org[|q.org| + 1..]);
      }
    }
    ShiftedCoincide(p, q);
    ShiftedCoincide(q, p);
  }

  lemma ShiftedCoincide(p: Pair, q: Pair)
    ensures (exists t :: Shifted(p, q, t)) ==> Key(p) == Key(q)
  {
    if t :| Shifted(p, q, t) {
      assert Key(p) == "membership:" + p.org + ":" + t + ":" + q.user == Key(q);
    }
  }

  lemma ShiftedHasColons(p: Pair, q: Pair, t: string)
    requires Shifted(p, q, t)
    ensures !ColonFree(p.user) && !ColonFree(q.org)
  {
    assert p.user[|t|] == ':' && q.org[|p.org|] == ':';
  }

  /** Keys are injective as soon as the user ids, or the organization ids, have no colon. */
  lemma KeysAreInjective(p: Pair, q: Pair)
    requires Key(p) == Key(q)
    requires (ColonFree(p.user) && ColonFree(q.user)) || (ColonFree(p.org) && ColonFree(q.org))
    ensures p == q
  {
    KeysCoincide(p, q);
    if t :| Shifted(p, q, t) {
      ShiftedHasColons(p, q, t);
    } else if t :| Shifted(q, p, t) {
      ShiftedHasColons(q, p, t);
    }
  }

  // ----- what the operations do -----

  function RoleOf(rows: map<Pair, Row>, p: Pair): Option<Role> {
    if p in rows then Some(rows[p].role) else None
  }

  predicate Happens(ch: Choice) { !ch.fault || ch.applied }

  /** `get`, one await further. */
  function NextLookup(w: World, l: Lookup, ch: Choice): Lookup {
    if l.pc.Answered? || l.pc.LookupFailed? then l
    else if ch.fault then l.(pc := LookupFailed)
    else
      match l.pc
      case Peek => l.(pc := if Key(l.pair) in w.cache then Answered(Some(w.cache[Key(l.pair)])) else Find)
      case Find => l.(pc := if l.pair in w.rows then Fill(w.rows[l.pair].role) else Answered(None))
      case Fill(role) => l.(pc := Answered(Some(role)))
      case _ => l
  }

  function CacheAfterLookup(w: World, l: Lookup, ch: Choice): map<string, Role> {
    if l.pc.Fill? && Happens(ch) then w.cache[Key(l.pair) := l.pc.role] else w.cache
  }

  /** The unique key of memberships and the foreign key to organizations. */
  predicate Insertable(w: World, p: Pair) { p !in w.rows && p.org in w.orgs }

  /** `addMember`, one await further. */
  function NextAddition(w: World, a: Addition, ch: Choice): Addition {
    if a.pc.Added? || a.pc.Conflict? || a.pc.AddFailed? then a
    else if ch.fault then a.(pc := AddFailed)
    else
      match a.pc
      case Check => a.(pc := if a.pair in w.rows then Conflict else Create)
      case Create => a.(pc := if Insertable(w, a.pair) then Invalidate else AddFailed)
      case Invalidate => a.(pc := Added)
      case _ => a
  }

  function RowsAfterAddition(w: World, id: nat, a: Addition, ch: Choice): map<Pair, Row> {
    if a.pc.Create? && Insertable(w, a.pair) && Happens(ch) then w.rows[a.pair := Row(a.role, Some(id))] else w.rows
  }

  function CacheAfterAddition(w: World, a: Addition, ch: Choice): map<string, Role> {
    if a.pc.Invalidate? && Happens(ch) then w.cache - {Key(a.pair)} else w.cache
  }

  function Apply(w: World, action: Action): World {
    match action
    case Found(org, slug, creator) =>
      if org in w.orgs || slug in w.orgs.Values then w
      else w.(orgs := w.orgs[org := slug], rows := w.rows[Pair(creator, org) := Row(Owner, None)])
    case StartLookup(id, pair) =>
      if id in w.lookups then w else w.(lookups := w.lookups[id := Lookup(pair, Peek)])
    case SettleLookup(id, ch) =>
      if id !in w.lookups then w
      else
        var l := w.lookups[id];
        w.(lookups := w.lookups[id := NextLookup(w, l, ch)], cache := CacheAfterLookup(w, l, ch))
    case StartAddition(id, pair, role) =>
      if id in w.additions then w else w.(additions := w.additions[id := Addition(pair, role, Check)])
    case SettleAddition(id, ch) =>
      if id !in w.additions then w
      else
        var a := w.additions[id];
        w.(additions := w.additions[id := NextAddition(w, a, ch)],
           rows := RowsAfterAddition(w, id, a, ch),
           cache := CacheAfterAddition(w, a, ch))
    case Forget(key) => w.(cache := w.cache - {key})
  }

  function Run(w: World, actions: seq<Action>): World {
    if actions == [] then w else Apply(Run(w, actions[..|actions| - 1]), actions[|actions| - 1])
  }

  /** The user an action names. */
  function UserOf(a: Action): string {
    match a
    case Found(_, _, creator) => creator
    case StartLookup(_, pair) => pair.user
    case StartAddition(_, pair, _) => pair.user
    case _ => ""
  }

  /** User ids have no colon. */
  ghost predicate Plain(actions: seq<Action>) {
    forall i :: 0 <= i < |actions| ==> ColonFree(UserOf(actions[i]))
  }

  // ----- the invariant -----

  ghost predicate PlainUsers(w: World) {
    && (forall p :: p in w.rows ==> ColonFree(p.user))
    && (forall id :: id in w.lookups ==> ColonFree(w.lookups[id].pair.user))
    && (forall id :: id in w.additions ==> ColonFree(w.additions[id].pair.user))
  }

  /** Some row has this key and this role. */
  ghost predicate Backed(rows: map<Pair, Row>, key: string, role: Role) {
    exists p :: p in rows && Key(p) == key && rows[p].role == role
  }

  /** Every cached role is the role of a row. */
  ghost predicate CacheInv(w: World) {
    forall key :: key in w.cache ==> Backed(w.rows, key, w.cache[key])
  }

  /** The role a lookup is about to cache or has answered with is its row's. */
  predicate LookupTrue(rows: map<Pair, Row>, l: Lookup) {
    match l.pc
    case Fill(role) => RoleOf(rows, l.pair) == Some(role)
    case Answered(Some(role)) => RoleOf(rows, l.pair) == Some(role)
    case _ => true
  }

  /** The row of an addition that got past its insert is its own; one that reported a conflict saw a row. */
  predicate AdditionTrue(rows: map<Pair, Row>, id: nat, a: Addition) {
    && (a.pc.Invalidate? || a.pc.Added? ==> a.pair in rows && rows[a.pair] == Row(a.role, Some(id)))
    && (a.pc.Conflict? ==> a.pair in rows)
  }

  predicate AdderKnown(row: Row, additions: map<nat, Addition>) {
    row.adder.Some? ==> row.adder.value in additions
  }

  ghost predicate RowsKnown(w: World) {
    forall p :: p in w.rows ==> p.org in w.orgs && AdderKnown(w.rows[p], w.additions)
  }

  ghost predicate LookupsTrue(rows: map<Pair, Row>, lookups: map<nat, Lookup>) {
    forall id :: id in lookups ==> LookupTrue(rows, lookups[id])
  }

  ghost predicate AdditionsTrue(rows: map<Pair, Row>, additions: map<nat, Addition>) {
    forall id :: id in additions ==> AdditionTrue(rows, id, additions[id])
  }

  ghost predicate Inv(w: World) {
    && PlainUsers(w) && RowsKnown(w) && CacheInv(w)
    && LookupsTrue(w.rows, w.lookups) && AdditionsTrue(w.rows, w.additions)
  }

  /** Rows are only ever created. */
  predicate Grows(rows: map<Pair, Row>, later: map<Pair, Row>) {
    forall p :: p in rows ==> p in later && later[p] == rows[p]
  }

  lemma RowsGrow(w: World, a: Action)
    requires forall p :: p in w.rows ==> p.org in w.orgs
    ensures Grows(w.rows, Apply(w, a).rows)
  {
  }

  lemma BackedLater(rows: map<Pair, Row>, later: map<Pair, Row>, key: string, role: Role)
    requires Backed(rows, key, role) && Grows(rows, later)
    ensures Backed(later, key, role)
  {
    var p :| p in rows && Key(p) == key && rows[p].role == role;
    assert p in later;
  }

  lemma CacheLater(w: World, w': World)
    requires CacheInv(w) && Grows(w.rows, w'.rows)
    requires forall key :: key in w'.cache ==> key in w.cache && w'.cache[key] == w.cache[key]
    ensures CacheInv(w')
  {
    forall key | key in w'.cache ensures Backed(w'.rows, key, w'.cache[key]) {
      BackedLater(w.rows, w'.rows, key, w.cache[key]);
    }
  }

  /** A cached role is the lookup's own. */
  lemma CachedIsOwn(w: World, p: Pair)
    requires PlainUsers(w) && CacheInv(w) && ColonFree(p.user) && Key(p) in w.cache
    ensures RoleOf(w.rows, p) == Some(w.cache[Key(p)])
  {
    var q :| q in w.rows && Key(q) == Key(p) && w.rows[q].role == w.cache[Key(p)];
    KeysAreInjective(p, q);
  }

  lemma LookupKeeps(w: World, id: nat, ch: Choice)
    requires Inv(w)
    ensures Inv(Apply(w, SettleLookup(id, ch)))
  {
    if id in w.lookups {
      var w', l := Apply(w, SettleLookup(id, ch)), w.lookups[id];
      if l.pc.Peek? && Key(l.pair) in w.cache {
        CachedIsOwn(w, l.pair);
      }
      forall key | key in w'.cache ensures Backed(w'.rows, key, w'.cache[key]) {
        if l.pc.Fill? && key == Key(l.pair) && Happens(ch) {
          assert l.pair in w.rows;
        } else {
          assert Backed(w.rows, key, w.cache[key]);
        }
      }
    }
  }

  lemma LookupsLater(rows: map<Pair, Row>, later: map<Pair, Row>, lookups: map<nat, Lookup>)
    requires LookupsTrue(rows, lookups) && Grows(rows, later)
    ensures LookupsTrue(later, lookups)
  {
  }

  lemma AdditionsLater(rows: map<Pair, Row>, later: map<Pair, Row>, additions: map<nat, Addition>)
    requires AdditionsTrue(rows, additions) && Grows(rows, later)
    ensures AdditionsTrue(later, additions)
  {
  }

  lemma AdditionAdvances(w: World, id: nat, ch: Choice)
    requires id in w.additions && AdditionTrue(w.rows, id, w.additions[id])
    ensures var a := w.additions[id];
      AdditionTrue(RowsAfterAddition(w, id, a, ch), id, NextAddition(w, a, ch))
  {
  }

  lemma AdditionRowsKnown(w: World, id: nat, ch: Choice)
    requires RowsKnown(w) && PlainUsers(w)
    ensures RowsKnown(Apply(w, SettleAddition(id, ch))) && PlainUsers(Apply(w, SettleAddition(id, ch)))
  {
  }

  lemma AdditionKeeps(w: World, id: nat, ch: Choice)
    requires Inv(w)
    ensures Inv(Apply(w, SettleAddition(id, ch)))
  {
    if id in w.additions {
      var v := Apply(w, SettleAddition(id, ch));
      RowsGrow(w, SettleAddition(id, ch));
      CacheLater(w, v);
      AdditionRowsKnown(w, id, ch);
      LookupsLater(w.rows, v.rows, w.lookups);
      AdditionsLater(w.rows, v.rows, w.additions);
      AdditionAdvances(w, id, ch);
    }
  }

  lemma FoundRowsKnown(w: World, org: string, slug: string, creator: string)
    requires RowsKnown(w) && PlainUsers(w) && ColonFree(creator)
    ensures var v := Apply(w, Found(org, slug, creator)); RowsKnown(v) && PlainUsers(v)
  {
  }

  lemma FoundKeeps(w: World, org: string, slug: string, creator: string)
    requires Inv(w) && ColonFree(creator)
    ensures Inv(Apply(w, Found(org, slug, creator)))
  {
    var v := Apply(w, Found(org, slug, creator));
    RowsGrow(w, Found(org, slug, creator));
    CacheLater(w, v);
    FoundRowsKnown(w, org, slug, creator);
    LookupsLater(w.rows, v.rows, w.lookups);
    AdditionsLater(w.rows, v.rows, w.additions);
  }

  lemma StartKeeps(w: World, a: Action)
    requires Inv(w) && ColonFree(UserOf(a)) && (a.StartLookup? || a.StartAddition?)
    ensures Inv(Apply(w, a))
  {
  }

  lemma ForgetKeeps(w: World, key: string)
    requires Inv(w)
    ensures Inv(Apply(w, Forget(key)))
  {
    CacheLater(w, Apply(w, Forget(key)));
  }

  lemma OtherKeeps(w: World, a: Action)
    requires Inv(w) && ColonFree(UserOf(a)) && !a.SettleLookup? && !a.SettleAddition?
    ensures Inv(Apply(w, a))
  {
    if a.Found? {
      FoundKeeps(w, a.org, a.slug, a.creator);
    } else if a.Forget? {
      ForgetKeeps(w, a.key);
    } else {
      StartKeeps(w, a);
    }
  }

  lemma {:induction false} InvAlways(w: World, actions: seq<Action>)
    requires Inv(w) && Plain(actions)
    ensures Inv(Run(w, actions)) && Grows(w.rows, Run(w, actions).rows)
  {
    if actions != [] {
      var before, last := actions[..|actions| - 1], actions[|actions| - 1];
      InvAlways(w, before);
      RowsGrow(Run(w, before), last);
      match last
      case SettleLookup(id, ch) => LookupKeeps(Run(w, before), id, ch);
      case SettleAddition(id, ch) => AdditionKeeps(Run(w, before), id, ch);
      case _ => OtherKeeps(Run(w, before), last);
    }
  }

  // ----- the results -----

  /** In every history, whatever is in the cache is what the table says. */
  lemma CacheNeverLies(actions: seq<Action>, p: Pair)
    requires Plain(actions) && ColonFree(p.user)
    ensures var w := Run(NOTHING, actions);
      Key(p) in w.cache ==> RoleOf(w.rows, p) == Some(w.cache[Key(p)])
  {
    InvAlways(NOTHING, actions);
    var w := Run(NOTHING, actions);
    if Key(p) in w.cache {
      CachedIsOwn(w, p);
    }
  }

  /** The lookup is on its way, and has not answered that there is no row. */
  predicate Underway(w: World, id: nat, p: Pair) {
    id in w.lookups && w.lookups[id].pair == p && w.lookups[id].pc != Answered(None)
  }

  lemma RowIsSeenOnce(w: World, a: Action, id: nat, p: Pair)
    requires Inv(w) && Underway(w, id, p) && p in w.rows
    ensures Underway(Apply(w, a), id, p)
  {
  }

  /** A lookup under way while the row exists never answers that there is none. */
  lemma {:induction false} RowIsSeen(w: World, actions: seq<Action>, id: nat, p: Pair)
    requires Inv(w) && Plain(actions) && Underway(w, id, p) && p in w.rows
    ensures Underway(Run(w, actions), id, p)
  {
    if actions != [] {
      var before := actions[..|actions| - 1];
      RowIsSeen(w, before, id, p);
      InvAlways(w, before);
      RowIsSeenOnce(Run(w, before), actions[|actions| - 1], id, p);
    }
  }

  predicate LooksUp(w: World, id: nat, p: Pair) { id in w.lookups && w.lookups[id].pair == p }

  lemma PairStaysOnce(w: World, a: Action, id: nat, p: Pair)
    requires LooksUp(w, id, p)
    ensures LooksUp(Apply(w, a), id, p)
  {
  }

  lemma {:induction false} PairStays(w: World, actions: seq<Action>, id: nat, p: Pair)
    requires LooksUp(w, id, p)
    ensures LooksUp(Run(w, actions), id, p)
  {
    if actions != [] {
      PairStays(w, actions[..|actions| - 1], id, p);
      PairStaysOnce(Run(w, actions[..|actions| - 1]), actions[|actions| - 1], id, p);
    }
  }

  /** The table said `answer` of `p` at some moment of the actions. */
  ghost predicate HeldDuring(begun: World, during: seq<Action>, p: Pair, answer: Option<Role>) {
    exists t :: 0 <= t <= |during| && RoleOf(Run(begun, during[..t]).rows, p) == answer
  }

  lemma HeldAtAnEnd(begun: World, during: seq<Action>, p: Pair, answer: Option<Role>)
    requires RoleOf(begun.rows, p) == answer || RoleOf(Run(begun, during).rows, p) == answer
    ensures HeldDuring(begun, during, p, answer)
  {
    if RoleOf(begun.rows, p) == answer {
      assert Run(begun, during[..0]) == begun;
      assert RoleOf(Run(begun, during[..0]).rows, p) == answer;
    } else {
      assert during[..|during|] == during;
      assert RoleOf(Run(begun, during[..|during|]).rows, p) == answer;
    }
  }

  /** A role is the row's when the call returns, and "no membership" was true when it began. */
  lemma AnswerFits(begun: World, during: seq<Action>, id: nat, p: Pair)
    requires Inv(begun) && Plain(during) && id in begun.lookups && begun.lookups[id] == Lookup(p, Peek)
    requires id in Run(begun, during).lookups && Run(begun, during).lookups[id].pc.Answered?
    ensures var end := Run(begun, during);
      var answer := end.lookups[id].pc.answer;
      && (answer.Some? ==> RoleOf(end.rows, p) == answer)
      && (answer.None? ==> p !in begun.rows)
  {
    PairStays(begun, during, id, p);
    InvAlways(begun, during);
    assert LookupTrue(Run(begun, during).rows, Run(begun, during).lookups[id]);
    if p in begun.rows {
      RowIsSeen(begun, during, id, p);
    }
  }

  /**
   Every answer equals the table at some moment of the call, whichever lookups, additions, new organizations and
   expiries come in between: a role is the row's when the call returns, and "no membership" was true when it began.
   So a lookup that begins after the row exists answers with its role.
   */
  lemma AnswersAreTrueDuringTheCall(before: seq<Action>, id: nat, p: Pair, during: seq<Action>)
    requires Plain(before) && ColonFree(p.user) && Plain(during)
    requires id !in Run(NOTHING, before).lookups
    ensures var begun := Apply(Run(NOTHING, before), StartLookup(id, p));
      var end := Run(begun, during);
      && id in end.lookups
      && (end.lookups[id].pc.Answered? ==>
            var answer := end.lookups[id].pc.answer;
            && HeldDuring(begun, during, p, answer)
            && (answer.Some? ==> RoleOf(end.rows, p) == answer)
            && (answer.None? ==> p !in begun.rows))
  {
    InvAlways(NOTHING, before);
    var begun := Apply(Run(NOTHING, before), StartLookup(id, p));
    OtherKeeps(Run(NOTHING, before), StartLookup(id, p));
    PairStays(begun, during, id, p);
    var end := Run(begun, during);
    if end.lookups[id].pc.Answered? {
      AnswerFits(begun, during, id, p);
      HeldAtAnEnd(begun, during, p, end.lookups[id].pc.answer);
    }
  }

  // ----- what the cache is for -----

  /**
   A lookup that found the row caches its role, and one that starts then answers from the cache alone; a lookup that
   found no row caches nothing.
   */
  lemma FoundRolesAreCached(w: World, id: nat, other: nat, ch: Choice)
    requires id in w.lookups && other !in w.lookups && !ch.fault
    ensures var p := w.lookups[id].pair;
      var v := Apply(w, SettleLookup(id, ch));
      var u := Apply(Apply(v, StartLookup(other, p)), SettleLookup(other, ch));
      && (w.lookups[id].pc.Fill? ==> u.lookups[other] == Lookup(p, Answered(Some(w.lookups[id].pc.role))))
      && (w.lookups[id].pc.Find? && p !in w.rows ==>
            v.cache == w.cache && v.lookups[id] == Lookup(p, Answered(None)))
      && (w.lookups[id].pc.Find? && p in w.rows ==> v.lookups[id] == Lookup(p, Fill(w.rows[p].role)))
  {
  }

  /** A lookup that starts when the entry has expired reads the table. */
  lemma ExpiredRolesAreReadAgain(w: World, p: Pair, id: nat, ch: Choice)
    requires id !in w.lookups && !ch.fault
    ensures var v := Apply(Apply(w, Forget(Key(p))), StartLookup(id, p));
      var u := Apply(v, SettleLookup(id, ch));
      && u.lookups[id] == Lookup(p, Find)
      && (p in w.rows ==> Apply(u, SettleLookup(id, ch)).lookups[id] == Lookup(p, Fill(w.rows[p].role)))
      && (p !in w.rows ==> Apply(u, SettleLookup(id, ch)).lookups[id] == Lookup(p, Answered(None)))
  {
  }

  /** An addition that succeeds has dropped what was cached for the member. */
  lemma AdditionsInvalidate(w: World, id: nat, ch: Choice)
    requires id in w.additions && w.additions[id].pc.Invalidate? && !ch.fault
    ensures var v := Apply(w, SettleAddition(id, ch));
      v.additions[id].pc.Added? && Key(w.additions[id].pair) !in v.cache
  {
  }

  /** Of the additions of one member to one organization at most one succeeds, however they race. */
  lemma AdditionsAreExclusive(actions: seq<Action>, a: nat, b: nat)
    requires Plain(actions)
    requires var w := Run(NOTHING, actions);
      && a in w.additions && b in w.additions && w.additions[a].pair == w.additions[b].pair
      && w.additions[a].pc.Added? && w.additions[b].pc.Added?
    ensures a == b
  {
    InvAlways(NOTHING, actions);
    var w := Run(NOTHING, actions);
    assert AdditionTrue(w.rows, a, w.additions[a]) && AdditionTrue(w.rows, b, w.additions[b]);
  }

  ghost predicate SlugsUnique(orgs: map<string, string>) {
    forall a, b :: a in orgs && b in orgs && orgs[a] == orgs[b] ==> a == b
  }

  lemma SlugsStayUnique(w: World, a: Action)
    requires SlugsUnique(w.orgs)
    ensures SlugsUnique(Apply(w, a).orgs)
  {
  }

  /** However requests race, no two organizations have one slug. */
  lemma {:induction false} SlugsAreUnique(actions: seq<Action>)
    ensures SlugsUnique(Run(NOTHING, actions).orgs)
  {
    if actions != [] {
      SlugsAreUnique(actions[..|actions| - 1]);
      SlugsStayUnique(Run(NOTHING, actions[..|actions| - 1]), actions[|actions| - 1]);
    }
  }

  // ----- the condition on ids is needed -----

  const MINE := Pair("b:c", "a")
  const OTHER := Pair("c", "a:b")
  const FINE := Choice(false, true)

  /** An organization is founded, and a lookup of its owner fills the cache. */
  const OWNER_LOOKED_UP := [Found("a", "s", "b:c"), StartLookup(0, MINE)] + [SettleLookup(0, FINE)]
    + [SettleLookup(0, FINE)] + [SettleLookup(0, FINE)]

  lemma RunSnoc(w: World, actions: seq<Action>, a: Action)
    ensures Run(w, actions + [a]) == Apply(Run(w, actions), a)
  {
    assert (actions + [a])[..|actions|] == actions;
  }

  lemma OwnerIsCached()
    ensures var w := Run(NOTHING, OWNER_LOOKED_UP);
      w.rows.Keys == {MINE} && w.cache == map[Key(MINE) := Owner] && 1 !in w.lookups
  {
    var start := [Found("a", "s", "b:c"), StartLookup(0, MINE)];
    assert start == [] + [start[0]] + [start[1]];
    RunSnoc(NOTHING, [], start[0]);
    RunSnoc(NOTHING, [] + [start[0]], start[1]);
    RunSnoc(NOTHING, start, SettleLookup(0, FINE));
    RunSnoc(NOTHING, start + [SettleLookup(0, FINE)], SettleLookup(0, FINE));
    RunSnoc(NOTHING, start + [SettleLookup(0, FINE)] + [SettleLookup(0, FINE)], SettleLookup(0, FINE));
  }

  /** With colons in both ids, a lookup of a pair without a row answers with the role of another pair's row. */
  lemma ColonsBreakAnswers()
    ensures var w := Run(NOTHING, OWNER_LOOKED_UP + [StartLookup(1, OTHER)] + [SettleLookup(1, FINE)]);
      OTHER !in w.rows && 1 in w.lookups && w.lookups[1] == Lookup(OTHER, Answered(Some(Owner)))
  {
    OwnerIsCached();
    assert Key(MINE) == Key(OTHER);
    RunSnoc(NOTHING, OWNER_LOOKED_UP, StartLookup(1, OTHER));
    RunSnoc(NOTHING, OWNER_LOOKED_UP + [StartLookup(1, OTHER)], SettleLookup(1, FINE));
  }
}
