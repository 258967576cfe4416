/**
 What the throttler script answers, said in the times of the calls alone: which calls a window counts, until when
 calls are barred, and what a reply therefore holds. No keys, commands or deadlines come into it.
 */
module ThrottlerWindows {
  import opened Wrappers
  import opened Throttler

  /** The calls counted in the latest window: it begins with the first of them and takes calls for `ttl`. */
  function Counted(times: seq<nat>, p: Limits): seq<nat>
    decreases |times|, 0
  {
    if times == [] then []
    else
      var before, now := times[..|times| - 1], times[|times| - 1];
      var window := Counted(before, p);
      if now < BarredUntil(before, p) then window
      else if window != [] && now < window[0] + p.ttl then window + [now]
      else [now]
  }

  /** The time until which calls are barred: a counted call past the limit bars the next ones for `block`. */
  function BarredUntil(times: seq<nat>, p: Limits): nat
    decreases |times|, 1
  {
    if times == [] then 0
    else
      var before, now := times[..|times| - 1], times[|times| - 1];
      if now < BarredUntil(before, p) then BarredUntil(before, p)
      else if |Counted(times, p)| > p.limit && p.block > 0 then now + p.block
      else BarredUntil(before, p)
  }

  /** The window still takes calls at `now`. */
  predicate Open(window: seq<nat>, p: Limits, now: nat) {
    window != [] && now < window[0] + p.ttl
  }

  /** The keys hold the window and the bar. */
  predicate Holds(s: Slot, window: seq<nat>, barred: nat, p: Limits) {
    && s.hits == (if p.ttl == 0 || window == [] then None else Some(Entry(|window|, Some(window[0] + p.ttl))))
    && (s.block == if barred == 0 then None else Some(Entry(1, Some(barred))))
  }

  lemma Snoc(times: seq<nat>, now: nat)
    ensures (times + [now])[..|times|] == times && (times + [now])[|times|] == now
  {
  }

  /** What the reply to a call at `now` is, with the window and the bar there are. */
  predicate Answers(r: Reply, window: seq<nat>, window': seq<nat>, barred: nat, p: Limits, now: nat) {
    if now < barred then
      && r.blocked
      && r.hits == (if Open(window, p, now) then |window| else 0)
      && r.hitsTtl == (if Open(window, p, now) then window[0] + p.ttl - now else -2)
      && r.blockTtl == barred - now
    else
      && r.hits == |window'| && window' != []
      && r.hitsTtl == (if p.ttl == 0 then -2 else window'[0] + p.ttl - now)
      && (r.blocked <==> |window'| > p.limit && p.block > 0)
      && r.blockTtl == (if r.blocked then p.block else 0)
  }

  /** The script, run on keys that hold a window and a bar. */
  lemma ScriptAnswers(s: Slot, window: seq<nat>, barred: nat, p: Limits, now: nat)
    requires Holds(s, window, barred, p) && (window != [] ==> window[0] <= now)
    ensures var window' := if now < barred then window else if Open(window, p, now) then window + [now] else [now];
      var barred' := if now >= barred && |window'| > p.limit && p.block > 0 then now + p.block else barred;
      && Holds(Script(s, p, now).0, window', barred', p)
      && Answers(Script(s, p, now).1, window, window', barred, p, now)
  {
  }

  /** A window counts calls of less than `ttl`, in order, the last of them at most at the last call. */
  lemma {:induction false} WindowSpans(times: seq<nat>, p: Limits)
    requires Nondecreasing(times)
    ensures var w := Counted(times, p);
      && Nondecreasing(w)
      && (forall i :: 0 < i < |w| ==> w[0] <= w[i] < w[0] + p.ttl)
      && (w != [] ==> times != [] && w[|w| - 1] <= times[|times| - 1])
  {
    if times != [] {
      WindowSpans(times[..|times| - 1], p);
    }
  }

  /** A window has begun by the time of the next call. */
  lemma WindowHasBegun(times: seq<nat>, p: Limits, now: nat)
    requires Nondecreasing(times + [now])
    ensures Nondecreasing(times)
    ensures Counted(times, p) != [] ==> Counted(times, p)[0] <= now
  {
    assert forall i :: 0 <= i < |times| ==> times[i] == (times + [now])[i];
    WindowSpans(times, p);
    if times != [] {
      assert (times + [now])[|times| - 1] <= (times + [now])[|times|];
    }
  }

  /** The keys always hold the window and the bar of the history. */
  lemma {:induction false} KeysHoldTheWindow(times: seq<nat>, p: Limits)
    requires Nondecreasing(times)
    ensures Holds(After(times, p), Counted(times, p), BarredUntil(times, p), p)
  {
    if times != [] {
      var before, now := times[..|times| - 1], times[|times| - 1];
      assert before + [now] == times;
      WindowHasBegun(before, p, now);
      KeysHoldTheWindow(before, p);
      ScriptAnswers(After(before, p), Counted(before, p), BarredUntil(before, p), p, now);
    }
  }

  /**
   The reply to every call of every history: while calls are barred it counts the open window and gives the time left;
   otherwise it counts the window with this call in it, gives the rest of that window, and blocks for `block` exactly
   when the window is past the limit.
   */
  lemma RepliesAreTheWindows(times: seq<nat>, p: Limits, now: nat)
    requires Nondecreasing(times + [now])
    ensures Answers(LastReply(times + [now], p), Counted(times, p), Counted(times + [now], p), BarredUntil(times, p),
                    p, now)
  {
    Snoc(times, now);
    WindowHasBegun(times, p, now);
    KeysHoldTheWindow(times, p);
    ScriptAnswers(After(times, p), Counted(times, p), BarredUntil(times, p), p, now);
  }

  /**
   A call that meets no block key is blocked exactly when the window it is counted in is past the limit; then the block
   announced is `block`, and the block key lives for just that long.
   */
  lemma BlockLastsAsConfigured(times: seq<nat>, p: Limits, now: nat, later: nat)
    requires Nondecreasing(times + [now]) && now <= later
    requires !Exists(After(times, p).block, now)
    ensures var r := LastReply(times + [now], p);
      && (r.blocked <==> |Counted(times + [now], p)| > p.limit && p.block > 0)
      && (r.blocked ==>
            && r.blockTtl == p.block
            && (Exists(After(times + [now], p).block, later) <==> later < now + p.block))
      && (!r.blocked ==> r.blockTtl == 0 && !Exists(After(times + [now], p).block, later))
  {
    Snoc(times, now);
    WindowHasBegun(times, p, now);
    KeysHoldTheWindow(times, p);
    KeysHoldTheWindow(times + [now], p);
    RepliesAreTheWindows(times, p, now);
  }

  /** Whole seconds, rounded up. */
  lemma SecondsRoundUp(ms: int)
    ensures ms <= 0 ==> Seconds(ms) == 0
    ensures ms > 0 ==> 1000 * (Seconds(ms) - 1) < ms <= 1000 * Seconds(ms)
  {
  }

  /** `s` is `ms` in seconds, rounded up. */
  predicate RoundsUp(s: nat, ms: int) {
    if ms <= 0 then s == 0 else 1000 * (s - 1) < ms <= 1000 * s
  }

  /** The record of a call that meets no block key, field by field. */
  lemma RecordOfCountedCall(times: seq<nat>, p: Limits, now: nat)
    requires p.ttl > 0 && Nondecreasing(times + [now]) && !(now < BarredUntil(times, p))
    ensures var w, record := Counted(times + [now], p), RecordOf(LastReply(times + [now], p));
      && w != [] && w[|w| - 1] == now
      && record.totalHits == |w|
      && RoundsUp(record.timeToExpire, w[0] + p.ttl - now)
      && (record.isBlocked <==> |w| > p.limit && p.block > 0)
      && RoundsUp(record.timeToBlockExpire, if record.isBlocked then p.block else 0)
  {
    Snoc(times, now);
    RepliesAreTheWindows(times, p, now);
    var r := LastReply(times + [now], p);
    SecondsRoundUp(r.hitsTtl);
    SecondsRoundUp(r.blockTtl);
  }

  /** The record of a call that is barred. */
  lemma RecordOfBarredCall(times: seq<nat>, p: Limits, now: nat)
    requires Nondecreasing(times + [now]) && now < BarredUntil(times, p)
    ensures var w, record := Counted(times, p), RecordOf(LastReply(times + [now], p));
      && record.totalHits == (if Open(w, p, now) then |w| else 0)
      && RoundsUp(record.timeToExpire, if Open(w, p, now) then w[0] + p.ttl - now else 0)
      && record.isBlocked
      && RoundsUp(record.timeToBlockExpire, BarredUntil(times, p) - now)
  {
    RepliesAreTheWindows(times, p, now);
    var r := LastReply(times + [now], p);
    SecondsRoundUp(r.hitsTtl);
    SecondsRoundUp(r.blockTtl);
  }

  /** One call a minute and a minute's block: the second call, a second later, is blocked for 60 seconds. */
  lemma SecondCallIsBlocked()
    ensures RecordOf(LastReply([0, 1000], Limits(60000, 1, 60000))) == ThrottlerRecord(2, 59, true, 60)
  {
    var p := Limits(60000, 1, 60000);
    assert [0] + [1000] == [0, 1000] && [0, 1000][..1] == [0] && [0][..0] == [];
    RepliesAreTheWindows([0], p, 1000);
    assert Counted([0], p) == [0];
    assert Counted([0, 1000], p) == [0, 1000];
  }

  /** The Redis keys of a client. */
  lemma KeySample()
    ensures HitsKey("default", "10.0.0.1") == "throttle:default:10.0.0.1:hits"
    ensures BlockKey("default", "10.0.0.1") == "throttle:default:10.0.0.1:block"
  {
  }
}
