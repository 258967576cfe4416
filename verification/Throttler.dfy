/**
 RedisThrottlerStorage: the increment script over two expiring keys, and what it admits over whole histories of
 calls. A key with deadline d exists at every time before d and is gone from d on.
 */
module Throttler {
  import opened Wrappers

  /** A Redis key: its value and, when it expires, its deadline in milliseconds. */
  datatype Entry = Entry(count: nat, deadline: Option<nat>)

  /** The hits key and the block key of one throttled key; an expired entry may still be here. */
  datatype Slot = Slot(hits: Option<Entry>, block: Option<Entry>)

  datatype Limits = Limits(ttl: nat, limit: nat, block: nat)

  /** The script's reply; the times are PTTL results. */
  datatype Reply = Reply(hits: nat, hitsTtl: int, blocked: bool, blockTtl: int)

  datatype ThrottlerRecord = ThrottlerRecord(
    totalHits: nat, timeToExpire: nat, isBlocked: bool, timeToBlockExpire: nat)

  // ----- the Redis commands -----

  predicate Exists(e: Option<Entry>, now: nat) {
    e.Some? && (e.value.deadline.Some? ==> now < e.value.deadline.value)
  }

  /** PTTL: -2 without the key, -1 without an expiry. */
  function Pttl(e: Option<Entry>, now: nat): int {
    if !Exists(e, now) then -2
    else if e.value.deadline.None? then -1
    else e.value.deadline.value - now
  }

  function Incr(e: Option<Entry>, now: nat): Entry {
    if Exists(e, now) then e.value.(count := e.value.count + 1) else Entry(1, None)
  }

  /** PEXPIRE of an existing key: an expiry of zero deletes it. */
  function Pexpire(e: Entry, now: nat, ms: nat): Option<Entry> {
    if ms == 0 then None else Some(e.(deadline := Some(now + ms)))
  }

  // ----- the script -----

  /** INCREMENT_SCRIPT on the two keys. */
  function Script(s: Slot, p: Limits, now: nat): (Slot, Reply) {
    var blockTtl := Pttl(s.block, now);
    if blockTtl > 0 then
      (s, Reply(if Exists(s.hits, now) then s.hits.value.count else 0, Pttl(s.hits, now), true, blockTtl))
    else
      var hits := Incr(s.hits, now);
      var kept := if hits.count == 1 then Pexpire(hits, now, p.ttl) else Some(hits);
      if hits.count > p.limit && p.block > 0 then
        (Slot(kept, Some(Entry(1, Some(now + p.block)))), Reply(hits.count, Pttl(kept, now), true, p.block))
      else
        (Slot(kept, s.block), Reply(hits.count, Pttl(kept, now), false, 0))
  }

  /** Math.max(0, Math.ceil(ms / 1000)). */
  function Seconds(ms: int): nat {
    if ms <= 0 then 0 else (ms + 999) / 1000
  }

  function RecordOf(r: Reply): ThrottlerRecord {
    ThrottlerRecord(r.hits, Seconds(r.hitsTtl), r.blocked, Seconds(r.blockTtl))
  }

  // ----- histories of one key -----

  /** Call times, in the order the calls are served. */
  ghost predicate Nondecreasing(times: seq<nat>) {
    forall i, j :: 0 <= i <= j < |times| ==> times[i] <= times[j]
  }

  const EMPTY := Slot(None, None)

  /** The keys after the calls. */
  function After(times: seq<nat>, p: Limits): Slot {
    if times == [] then EMPTY
    else Script(After(times[..|times| - 1], p), p, times[|times| - 1]).0
  }

  /** The reply to the last call. */
  function LastReply(times: seq<nat>, p: Limits): Reply
    requires times != []
  {
    Script(After(times[..|times| - 1], p), p, times[|times| - 1]).1
  }

  /** The calls let through between `from` and `from + ttl`. */
  function Admitted(times: seq<nat>, p: Limits, from: nat): nat {
    if times == [] then 0
    else
      var now := times[|times| - 1];
      Admitted(times[..|times| - 1], p, from) +
      if from <= now < from + p.ttl && !LastReply(times, p).blocked then 1 else 0
  }

  function Min(a: nat, b: nat): nat { if a < b then a else b }

  /**
   With the last call at `t`, `n` calls were let through in the interval from `from`: at most limit-1 of a window
   opened before it, whose first call lies outside, and at most limit of the one window opened in it.
   (A window with deadline d opened at d - ttl.)
   */
  predicate Bounded(s: Slot, p: Limits, from: nat, n: nat, t: nat) {
    && (t < from ==> n == 0)
    && match s.hits
       case None => n == 0
       case Some(e) =>
         && e.count >= 1 && e.deadline.Some? && p.ttl <= e.deadline.value <= t + p.ttl
         && n <= (if e.deadline.value < from + p.ttl then Min(e.count, p.limit) - 1
                  else if e.deadline.value < from + 2 * p.ttl then p.limit - 1 + Min(e.count, p.limit)
                  else 2 * p.limit - 1)
  }

  lemma BoundedStep(s: Slot, p: Limits, from: nat, n: nat, t: nat, now: nat)
    requires p.ttl > 0 && p.limit >= 1 && p.block > 0
    requires Bounded(s, p, from, n, t) && t <= now
    ensures var (s', r) := Script(s, p, now);
      Bounded(s', p, from, n + if from <= now < from + p.ttl && !r.blocked then 1 else 0, now)
  {
  }

  lemma {:induction false} BoundedAfter(times: seq<nat>, p: Limits, from: nat)
    requires p.ttl > 0 && p.limit >= 1 && p.block > 0 && Nondecreasing(times)
    ensures Bounded(After(times, p), p, from, Admitted(times, p, from),
                    if times == [] then 0 else times[|times| - 1])
  {
    if times != [] {
      var before, now := times[..|times| - 1], times[|times| - 1];
      BoundedAfter(before, p, from);
      var last := if before == [] then 0 else before[|before| - 1];
      BoundedStep(After(before, p), p, from, Admitted(before, p, from), last, now);
    }
  }

  lemma {:induction false} NothingInNoTime(times: seq<nat>, p: Limits, from: nat)
    requires p.ttl == 0
    ensures Admitted(times, p, from) == 0
  {
    if times != [] {
      NothingInNoTime(times[..|times| - 1], p, from);
    }
  }

  /** No interval of length ttl sees more than 2*limit - 1 calls of one key let through, whatever the history. */
  lemma AdmitsAtMostTwiceLimit(times: seq<nat>, p: Limits, from: nat)
    requires p.limit >= 1 && p.block > 0 && Nondecreasing(times)
    ensures Admitted(times, p, from) <= 2 * p.limit - 1
  {
    if p.ttl == 0 {
      NothingInNoTime(times, p, from);
    } else {
      BoundedAfter(times, p, from);
    }
  }

  // ----- the bound is exact -----

  /** `k` calls at the same time. */
  function Burst(now: nat, k: nat): seq<nat> { seq(k, _ => now) }

  /** The window with deadline `d` has seen `c` calls, nothing is blocked, and `n` calls of the interval passed. */
  predicate Filled(times: seq<nat>, p: Limits, from: nat, c: nat, d: nat, n: nat) {
    After(times, p) == Slot(Some(Entry(c, Some(d))), None) && Admitted(times, p, from) == n
  }

  /** A call inside an open window with room for it is let through. */
  lemma JoinsWindow(times: seq<nat>, p: Limits, from: nat, now: nat, c: nat, d: nat, n: nat)
    requires Filled(times, p, from, c, d, n)
    requires c >= 1 && c + 1 <= p.limit && now < d && from <= now < from + p.ttl
    ensures Filled(times + [now], p, from, c + 1, d, n + 1)
  {
    assert (times + [now])[..|times|] == times;
  }

  lemma BurstCons(times: seq<nat>, now: nat, k: nat)
    requires k > 0
    ensures times + Burst(now, k) == times + [now] + Burst(now, k - 1)
  {
  }

  lemma NoBurst(times: seq<nat>, now: nat)
    ensures times + Burst(now, 0) == times
  {
  }

  /** A burst inside an open window with room for it is let through. */
  lemma {:induction false} BurstIsAdmitted(times: seq<nat>, p: Limits, from: nat, now: nat, k: nat,
                                           c: nat, d: nat, n: nat)
    requires Filled(times, p, from, c, d, n)
    requires c >= 1 && c + k <= p.limit && now < d && from <= now < from + p.ttl
    ensures Filled(times + Burst(now, k), p, from, c + k, d, n + k)
    decreases k
  {
    if k == 0 {
      NoBurst(times, now);
    } else {
      JoinsWindow(times, p, from, now, c, d, n);
      BurstIsAdmitted(times + [now], p, from, now, k - 1, c + 1, d, n + 1);
      BurstCons(times, now, k);
    }
  }

  /** A call that opens a window. */
  lemma OpensWindow(times: seq<nat>, p: Limits, from: nat, now: nat)
    requires p.ttl > 0 && p.limit >= 1
    requires After(times, p).block.None? && !Exists(After(times, p).hits, now)
    ensures After(times + [now], p) == Slot(Some(Entry(1, Some(now + p.ttl))), None)
    ensures Admitted(times + [now], p, from) ==
      Admitted(times, p, from) + if from <= now < from + p.ttl then 1 else 0
  {
    assert (times + [now])[..|times|] == times;
  }

  /** One call opening a window, the rest of it at its very end, and the whole of the next one. */
  function WorstCase(p: Limits): seq<nat>
    requires p.ttl >= 2 && p.limit >= 1
  {
    [0] + Burst(p.ttl - 1, p.limit - 1) + [p.ttl] + Burst(p.ttl, p.limit - 1)
  }

  lemma WorstCaseIsOrdered(p: Limits)
    requires p.ttl >= 2 && p.limit >= 1
    ensures Nondecreasing(WorstCase(p))
  {
  }

  lemma FirstWindow(p: Limits)
    requires p.ttl >= 2 && p.limit >= 1
    ensures Filled([0] + Burst(p.ttl - 1, p.limit - 1), p, p.ttl - 1, p.limit, p.ttl, p.limit - 1)
  {
    OpensWindow([], p, p.ttl - 1, 0);
    assert [] + [0] == [0];
    BurstIsAdmitted([0], p, p.ttl - 1, p.ttl - 1, p.limit - 1, 1, p.ttl, 0);
  }

  /** The bound is reached: for every limit, and every ttl of at least two milliseconds. */
  lemma BoundIsReached(p: Limits)
    requires p.ttl >= 2 && p.limit >= 1
    ensures Nondecreasing(WorstCase(p))
    ensures Admitted(WorstCase(p), p, p.ttl - 1) == 2 * p.limit - 1
  {
    WorstCaseIsOrdered(p);
    FirstWindow(p);
    var from := p.ttl - 1;
    var first := [0] + Burst(p.ttl - 1, p.limit - 1);
    OpensWindow(first, p, from, p.ttl);
    BurstIsAdmitted(first + [p.ttl], p, from, p.ttl, p.limit - 1, 1, 2 * p.ttl, p.limit);
  }

  /** Without a block duration the script blocks nobody: every call of the interval is let through. */
  lemma {:induction false} WithoutBlockNothingIsLimited(times: seq<nat>, p: Limits, from: nat)
    requires p.block == 0
    ensures After(times, p).block.None?
    ensures Admitted(times, p, from) == |set i | 0 <= i < |times| && from <= times[i] < from + p.ttl|
  {
    if times != [] {
      var before := times[..|times| - 1];
      WithoutBlockNothingIsLimited(before, p, from);
      var earlier := set i | 0 <= i < |before| && from <= before[i] < from + p.ttl;
      var all := set i | 0 <= i < |times| && from <= times[i] < from + p.ttl;
      if from <= times[|times| - 1] < from + p.ttl {
        assert all == earlier + {|times| - 1};
      } else {
        assert all == earlier;
      }
    }
  }

  // ----- after a block -----

  /** While the block key exists, the hits window is gone or over its limit. */
  predicate OverLimit(s: Slot, p: Limits, t: nat) {
    !Exists(s.hits, t) || s.hits.value.count > p.limit
  }

  predicate BlockMeansOver(s: Slot, p: Limits, t: nat) {
    && (s.block.Some? ==> s.block.value.deadline.Some?)
    && (s.hits.Some? ==> s.hits.value.deadline.Some?)
    && (Exists(s.block, t) ==> OverLimit(s, p, t))
  }

  lemma {:induction false} BlockMeansOverAfter(times: seq<nat>, p: Limits)
    requires Nondecreasing(times)
    ensures BlockMeansOver(After(times, p), p, if times == [] then 0 else times[|times| - 1])
    ensures times != [] && LastReply(times, p).blocked ==> OverLimit(After(times, p), p, times[|times| - 1])
  {
    if times != [] {
      BlockMeansOverAfter(times[..|times| - 1], p);
    }
  }

  /**
   The first call let through after a blocked one starts a new window: it reports totalHits 1, whichever of the
   block and the hits window ran out first.
   */
  lemma UnblockedStartsAfresh(times: seq<nat>, p: Limits, now: nat)
    requires p.limit >= 1 && p.block > 0 && Nondecreasing(times + [now]) && times != []
    requires LastReply(times, p).blocked && !LastReply(times + [now], p).blocked
    ensures RecordOf(LastReply(times + [now], p)).totalHits == 1
  {
    assert (times + [now])[..|times|] == times;
    assert forall i :: 0 <= i < |times| ==> times[i] == (times + [now])[i];
    assert times[|times| - 1] <= now by {
      assert (times + [now])[|times| - 1] <= (times + [now])[|times|];
    }
    BlockMeansOverAfter(times, p);
  }

  /**
   A block ends when its reply said it would: at every time before that the next call is blocked, with the rest
   of the same block, and a client that waits timeToBlockExpire seconds finds the block key gone.
   */
  lemma {:induction false} BlockEndsAsAnnounced(times: seq<nat>, p: Limits, now: nat)
    requires times != [] && LastReply(times, p).blocked && times[|times| - 1] <= now
    ensures var t, r := times[|times| - 1], LastReply(times, p);
      && (now < t + r.blockTtl ==>
            LastReply(times + [now], p).blocked && LastReply(times + [now], p).blockTtl == t + r.blockTtl - now)
      && (now >= t + 1000 * RecordOf(r).timeToBlockExpire ==> !Exists(After(times, p).block, now))
  {
    assert (times + [now])[..|times|] == times;
  }

  // ----- the keys in Redis -----

  function HitsKey(name: string, key: string): string { "throttle:" + name + ":" + key + ":hits" }

  function BlockKey(name: string, key: string): string { "throttle:" + name + ":" + key + ":block" }

  lemma ConcatCancels(prefix: string, a: string, b: string, suffix: string)
    requires prefix + a + suffix == prefix + b + suffix
    ensures a == b
  {
    var s, t := prefix + a + suffix, prefix + b + suffix;
    assert |a| == |b|;
    assert a == s[|prefix|..|prefix| + |a|];
    assert b == t[|prefix|..|prefix| + |b|];
  }

  /** Under one throttler name no two of the Redis keys in use coincide. */
  lemma KeysAreDistinct(name: string, a: string, b: string)
    ensures HitsKey(name, a) != BlockKey(name, b)
    ensures HitsKey(name, a) == HitsKey(name, b) ==> a == b
    ensures BlockKey(name, a) == BlockKey(name, b) ==> a == b
  {
    var h, k := HitsKey(name, a), BlockKey(name, b);
    assert h[|h| - 1] == 's' && k[|k| - 1] == 'k';
    var prefix := "throttle:" + name + ":";
    if HitsKey(name, a) == HitsKey(name, b) {
      ConcatCancels(prefix, a, b, ":hits");
    }
    if BlockKey(name, a) == BlockKey(name, b) {
      ConcatCancels(prefix, a, b, ":block");
    }
  }

  /** Across names they can: a colon in a key or a name moves the boundary. */
  lemma NamesCanCollide()
    ensures HitsKey("a", "b:c") == HitsKey("a:b", "c")
  {
  }

  function Lookup(keys: map<string, Entry>, k: string): Option<Entry> {
    if k in keys then Some(keys[k]) else None
  }

  function Store(keys: map<string, Entry>, k: string, e: Option<Entry>): map<string, Entry> {
    match e
    case Some(entry) => keys[k := entry]
    case None => keys - {k}
  }

  function SlotOf(keys: map<string, Entry>, name: string, key: string): Slot {
    Slot(Lookup(keys, HitsKey(name, key)), Lookup(keys, BlockKey(name, key)))
  }

  function WithSlot(keys: map<string, Entry>, name: string, key: string, s: Slot): map<string, Entry> {
    Store(Store(keys, HitsKey(name, key), s.hits), BlockKey(name, key), s.block)
  }

  datatype Call = Call(key: string, at: nat)

  /** The Redis keys after calls for many keys under one throttler name. */
  function AfterCalls(calls: seq<Call>, name: string, p: Limits): map<string, Entry> {
    if calls == [] then map[]
    else
      var keys := AfterCalls(calls[..|calls| - 1], name, p);
      var call := calls[|calls| - 1];
      WithSlot(keys, name, call.key, Script(SlotOf(keys, name, call.key), p, call.at).0)
  }

  /** The times of the calls for one key. */
  function TimesOf(calls: seq<Call>, key: string): seq<nat> {
    if calls == [] then []
    else
      var rest := TimesOf(calls[..|calls| - 1], key);
      var call := calls[|calls| - 1];
      if call.key == key then rest + [call.at] else rest
  }

  lemma WithSlotElsewhere(keys: map<string, Entry>, name: string, key: string, s: Slot, other: string)
    ensures SlotOf(WithSlot(keys, name, key, s), name, other) == if other == key then s else SlotOf(keys, name, other)
  {
    KeysAreDistinct(name, key, other);
    KeysAreDistinct(name, other, key);
  }

  /** A key's two Redis keys are what its own calls alone make them: calls on other keys never affect it. */
  lemma {:induction false} KeysAreIndependent(calls: seq<Call>, name: string, p: Limits, key: string)
    ensures SlotOf(AfterCalls(calls, name, p), name, key) == After(TimesOf(calls, key), p)
  {
    if calls != [] {
      var before, call := calls[..|calls| - 1], calls[|calls| - 1];
      KeysAreIndependent(before, name, p, key);
      var keys := AfterCalls(before, name, p);
      WithSlotElsewhere(keys, name, call.key, Script(SlotOf(keys, name, call.key), p, call.at).0, key);
      if call.key == key {
        var rest := TimesOf(before, key);
        assert (rest + [call.at])[..|rest|] == rest;
      }
    }
  }

  // ----- histories of many keys -----

  /** The clock does not go back. */
  ghost predicate Ordered(calls: seq<Call>) {
    forall i, j :: 0 <= i <= j < |calls| ==> calls[i].at <= calls[j].at
  }

  /** The reply to the last call, as Redis gives it. */
  function LastReplyOf(calls: seq<Call>, name: string, p: Limits): Reply
    requires calls != []
  {
    var before, call := calls[..|calls| - 1], calls[|calls| - 1];
    Script(SlotOf(AfterCalls(before, name, p), name, call.key), p, call.at).1
  }

  /** The calls for `key` that were let through between `from` and `from + ttl`. */
  function AdmittedFor(calls: seq<Call>, name: string, p: Limits, key: string, from: nat): nat {
    if calls == [] then 0
    else
      var last := calls[|calls| - 1];
      AdmittedFor(calls[..|calls| - 1], name, p, key, from) +
      if last.key == key && from <= last.at < from + p.ttl && !LastReplyOf(calls, name, p).blocked then 1 else 0
  }

  /** The reply to the latest call for `key`. */
  function LatestReply(calls: seq<Call>, name: string, p: Limits, key: string): Option<Reply> {
    if calls == [] then None
    else if calls[|calls| - 1].key == key then Some(LastReplyOf(calls, name, p))
    else LatestReply(calls[..|calls| - 1], name, p, key)
  }

  /** The reply to a call for `key` is the one of the key's own history. */
  lemma OwnReply(calls: seq<Call>, name: string, p: Limits)
    requires calls != []
    ensures var key := calls[|calls| - 1].key;
      && TimesOf(calls, key) != []
      && LastReplyOf(calls, name, p) == LastReply(TimesOf(calls, key), p)
  {
    var before, call := calls[..|calls| - 1], calls[|calls| - 1];
    KeysAreIndependent(before, name, p, call.key);
    var rest := TimesOf(before, call.key);
    assert (rest + [call.at])[..|rest|] == rest;
  }

  lemma {:induction false} TimesAreOrdered(calls: seq<Call>, key: string)
    requires Ordered(calls)
    ensures Nondecreasing(TimesOf(calls, key))
    ensures calls != [] ==>
      forall i :: 0 <= i < |TimesOf(calls, key)| ==> TimesOf(calls, key)[i] <= calls[|calls| - 1].at
  {
    if calls != [] {
      var before, call := calls[..|calls| - 1], calls[|calls| - 1];
      assert Ordered(before);
      TimesAreOrdered(before, key);
      if before != [] {
        assert before[|before| - 1] == calls[|before| - 1];
      }
    }
  }

  lemma {:induction false} AdmittedForIsOwn(calls: seq<Call>, name: string, p: Limits, key: string, from: nat)
    ensures AdmittedFor(calls, name, p, key, from) == Admitted(TimesOf(calls, key), p, from)
  {
    if calls != [] {
      var before, call := calls[..|calls| - 1], calls[|calls| - 1];
      AdmittedForIsOwn(before, name, p, key, from);
      if call.key == key {
        OwnReply(calls, name, p);
        var rest := TimesOf(before, key);
        assert (rest + [call.at])[..|rest|] == rest;
      }
    }
  }

  /** Whatever is called for other keys in between, at most 2*limit - 1 calls of one key pass in any interval of ttl. */
  lemma EachKeyIsLimited(calls: seq<Call>, name: string, p: Limits, key: string, from: nat)
    requires p.limit >= 1 && p.block > 0 && Ordered(calls)
    ensures AdmittedFor(calls, name, p, key, from) <= 2 * p.limit - 1
  {
    TimesAreOrdered(calls, key);
    AdmittedForIsOwn(calls, name, p, key, from);
    AdmitsAtMostTwiceLimit(TimesOf(calls, key), p, from);
  }

  lemma {:induction false} LatestIsOwn(calls: seq<Call>, name: string, p: Limits, key: string)
    ensures match LatestReply(calls, name, p, key)
      case None => TimesOf(calls, key) == []
      case Some(r) => TimesOf(calls, key) != [] && r == LastReply(TimesOf(calls, key), p)
  {
    if calls != [] {
      if calls[|calls| - 1].key == key {
        OwnReply(calls, name, p);
      } else {
        LatestIsOwn(calls[..|calls| - 1], name, p, key);
      }
    }
  }

  /** Whatever is called for other keys in between, the first call let through after a blocked one reports 1 hit. */
  lemma EachKeyStartsAfresh(calls: seq<Call>, name: string, p: Limits, call: Call)
    requires p.limit >= 1 && p.block > 0 && Ordered(calls + [call])
    requires LatestReply(calls, name, p, call.key).Some? && LatestReply(calls, name, p, call.key).value.blocked
    requires !LastReplyOf(calls + [call], name, p).blocked
    ensures RecordOf(LastReplyOf(calls + [call], name, p)).totalHits == 1
  {
    var all := calls + [call];
    assert all[..|calls|] == calls;
    LatestIsOwn(calls, name, p, call.key);
    OwnReply(all, name, p);
    TimesAreOrdered(all, call.key);
    UnblockedStartsAfresh(TimesOf(calls, call.key), p, call.at);
  }

  /** The storage, its Redis commands and `increment`. */
  class RedisThrottlerStorage {
    var keys: map<string, Entry>

    constructor ()
      ensures keys == map[]
    {
      keys := map[];
    }

    method IncrKey(k: string, now: nat) returns (count: nat)
      modifies this
      ensures keys == old(keys)[k := Incr(Lookup(old(keys), k), now)] && count == keys[k].count
    {
      var e := Lookup(keys, k);
      count := 1;
      if Exists(e, now) {
        count := e.value.count + 1;
        keys := keys[k := e.value.(count := count)];
      } else {
        keys := keys[k := Entry(1, None)];
      }
    }

    method PexpireKey(k: string, now: nat, ms: nat)
      requires k in keys
      modifies this
      ensures keys == Store(old(keys), k, Pexpire(old(keys)[k], now, ms))
    {
      if ms == 0 {
        keys := keys - {k};
      } else {
        keys := keys[k := keys[k].(deadline := Some(now + ms))];
      }
    }

    /** INCREMENT_SCRIPT, which Redis runs without interruption. */
    method Eval(hitsKey: string, blockKey: string, ttl: nat, limit: nat, blockMs: nat, now: nat) returns (r: Reply)
      requires hitsKey != blockKey
      modifies this
      ensures var (s, reply) := Script(Slot(Lookup(old(keys), hitsKey), Lookup(old(keys), blockKey)),
                                       Limits(ttl, limit, blockMs), now);
        r == reply && keys == Store(Store(old(keys), hitsKey, s.hits), blockKey, s.block)
    {
      var blockTtl := Pttl(Lookup(keys, blockKey), now);
      if blockTtl > 0 {
        var e := Lookup(keys, hitsKey);
        var hits := if Exists(e, now) then e.value.count else 0;
        return Reply(hits, Pttl(e, now), true, blockTtl);
      }
      var hits := IncrKey(hitsKey, now);
      if hits == 1 {
        PexpireKey(hitsKey, now, ttl);
      }
      var hitsTtl := Pttl(Lookup(keys, hitsKey), now);
      if hits > limit && blockMs > 0 {
        keys := keys[blockKey := Entry(1, Some(now + blockMs))];
        return Reply(hits, hitsTtl, true, blockMs);
      }
      return Reply(hits, hitsTtl, false, 0);
    }

    /** `increment`: the record it returns is the one of the key's own history. */
    method Increment(key: string, ttl: nat, limit: nat, blockDuration: nat, throttlerName: string, now: nat)
      returns (record: ThrottlerRecord)
      modifies this
      ensures var p := Limits(ttl, limit, blockDuration);
        var (s, reply) := Script(SlotOf(old(keys), throttlerName, key), p, now);
        && record == RecordOf(reply)
        && keys == WithSlot(old(keys), throttlerName, key, s)
    {
      KeysAreDistinct(throttlerName, key, key);
      var r := Eval(HitsKey(throttlerName, key), BlockKey(throttlerName, key), ttl, limit, blockDuration, now);
      record := ThrottlerRecord(r.hits, Seconds(r.hitsTtl), r.blocked, Seconds(r.blockTtl));
    }
  }
}
