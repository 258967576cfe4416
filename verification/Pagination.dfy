/** Cursor pagination: `buildPage`, and reading a run's steps page by page while steps are appended. */
module Pagination {
  import opened Wrappers
  import opened AgentTypes

  datatype Page<T> = Page(items: seq<T>, nextCursor: Option<string>)

  /** A stored step: its id, and the rest of the row. */
  datatype StepRow = StepRow(id: string, step: Step)

  function BuildPage(rows: seq<StepRow>, limit: nat): Page<StepRow> {
    var hasMore := |rows| > limit;
    var items := if hasMore then rows[..limit] else rows;
    Page(items, if hasMore && items != [] then Some(items[|items| - 1].id) else None)
  }

  /** Where the row with this id is, or the end of the table. */
  function IndexOf(table: seq<StepRow>, id: string): (i: nat)
    ensures i <= |table|
    ensures i < |table| ==> table[i].id == id
    ensures forall j :: 0 <= j < i ==> table[j].id != id
  {
    if table == [] then 0
    else if table[0].id == id then 0
    else 1 + IndexOf(table[1..], id)
  }

  /** findMany in index order: `take` rows, after the cursor's row if there is a cursor; none if its row is unknown. */
  function FindMany(table: seq<StepRow>, take: nat, cursor: Option<string>): seq<StepRow> {
    var start := if cursor.None? then 0 else IndexOf(table, cursor.value) + 1;
    if start >= |table| then []
    else if start + take <= |table| then table[start..start + take]
    else table[start..]
  }

  /** `listSteps`, for a run the actor may see. */
  function ListSteps(table: seq<StepRow>, limit: nat, cursor: Option<string>): Page<StepRow> {
    BuildPage(FindMany(table, limit + 1, cursor), limit)
  }

  /** A cursor that names no row gives an empty page, and no further cursor. */
  lemma UnknownCursorIsEmpty(table: seq<StepRow>, limit: nat, cursor: string)
    requires forall i :: 0 <= i < |table| ==> table[i].id != cursor
    ensures ListSteps(table, limit, Some(cursor)) == Page([], None)
  {
    assert IndexOf(table, cursor) == |table|;
  }

  // ----- reading page by page -----

  /** One fetch: the table as it is then, and the limit asked for. */
  datatype Fetch = Fetch(table: seq<StepRow>, limit: nat)

  /** What the client has read, the cursor it holds, and whether the last page said there is no more. */
  datatype Reading = Reading(items: seq<StepRow>, cursor: Option<string>, done: bool)

  const UNREAD := Reading([], None, false)

  function ReadOn(r: Reading, fetch: Fetch): Reading {
    if r.done then r
    else
      var page := ListSteps(fetch.table, fetch.limit, r.cursor);
      Reading(r.items + page.items, page.nextCursor, page.nextCursor.None?)
  }

  function Read(fetches: seq<Fetch>): Reading {
    if fetches == [] then UNREAD else ReadOn(Read(fetches[..|fetches| - 1]), fetches[|fetches| - 1])
  }

  ghost predicate UniqueIds(table: seq<StepRow>) {
    forall i, j :: 0 <= i < j < |table| ==> table[i].id != table[j].id
  }

  /** The table only grows at its end between fetches, and every limit is at least 1. */
  ghost predicate Appending(fetches: seq<Fetch>) {
    && (forall i :: 0 <= i < |fetches| ==> fetches[i].limit >= 1 && UniqueIds(fetches[i].table))
    && (forall i, j :: 0 <= i <= j < |fetches| ==> fetches[i].table <= fetches[j].table)
  }

  lemma IndexOfRow(table: seq<StepRow>, i: nat)
    requires UniqueIds(table) && i < |table|
    ensures IndexOf(table, table[i].id) == i
  {
  }

  /** How many rows a page from position `n` holds. */
  function PageLength(size: nat, limit: nat, n: nat): (k: nat)
    requires n <= size
    ensures n + k <= size
  {
    if n + limit <= size then limit else size - n
  }

  /** The cursor of a reader that has read the first `n` rows. */
  function CursorAt(table: seq<StepRow>, n: nat): Option<string>
    requires n <= |table|
  {
    if n == 0 then None else Some(table[n - 1].id)
  }

  lemma FindManyAt(table: seq<StepRow>, take: nat, n: nat)
    requires UniqueIds(table) && n <= |table|
    ensures FindMany(table, take, CursorAt(table, n)) == table[n..n + PageLength(|table|, take, n)]
  {
    if n > 0 {
      IndexOfRow(table, n - 1);
    }
  }

  lemma SliceOfSlice(table: seq<StepRow>, n: nat, m: nat, k: nat)
    requires n <= k <= m <= |table|
    ensures |table[n..m]| == m - n && table[n..m][..k - n] == table[n..k]
  {
  }

  /** `buildPage` of the rows from position `n`, one more than the limit when there are that many. */
  lemma BuildPageOf(table: seq<StepRow>, limit: nat, n: nat)
    requires limit >= 1 && n <= |table|
    ensures BuildPage(table[n..n + PageLength(|table|, limit + 1, n)], limit) == PageFrom(table, limit, n)
  {
    if n + limit < |table| {
      SliceOfSlice(table, n, n + limit + 1, n + limit);
      assert table[n..n + limit][limit - 1] == table[n + limit - 1];
    }
  }

  /** The next rows from position `n`, without a cursor exactly when they are the last. */
  function PageFrom(table: seq<StepRow>, limit: nat, n: nat): Page<StepRow>
    requires n <= |table|
  {
    var k := n + PageLength(|table|, limit, n);
    Page(table[n..k], if k < |table| then CursorAt(table, k) else None)
  }

  /** What `listSteps` returns to a reader that has read `n` rows. */
  lemma {:induction false} PageAt(table: seq<StepRow>, limit: nat, n: nat)
    requires UniqueIds(table) && limit >= 1 && n <= |table|
    ensures ListSteps(table, limit, CursorAt(table, n)) == PageFrom(table, limit, n)
  {
    FindManyAt(table, limit + 1, n);
    BuildPageOf(table, limit, n);
  }

  /** Where a reader stands against the table of its last fetch. */
  ghost predicate InStep(r: Reading, table: seq<StepRow>) {
    && r.items <= table
    && (!r.done ==> r.cursor == CursorAt(table, |r.items|))
  }

  lemma TakeMore(table: seq<StepRow>, n: nat, k: nat)
    requires n <= k <= |table|
    ensures table[..n] + table[n..k] == table[..k] && table[..k] <= table
  {
  }

  /** A page read from position `n`. */
  lemma ReadOnAt(table: seq<StepRow>, limit: nat, n: nat)
    requires UniqueIds(table) && limit >= 1 && n <= |table|
    ensures ReadOn(Reading(table[..n], CursorAt(table, n), false), Fetch(table, limit)) ==
      if n + limit < |table| then Reading(table[..n + limit], CursorAt(table, n + limit), false)
      else Reading(table, None, true)
  {
    var k := n + PageLength(|table|, limit, n);
    PageAt(table, limit, n);
    TakeMore(table, n, k);
    assert k == |table| ==> table[..k] == table;
  }

  /** One more fetch, from a table that may have grown. */
  lemma ReadOnKeepsStep(r: Reading, fetch: Fetch)
    requires InStep(r, fetch.table) && UniqueIds(fetch.table) && fetch.limit >= 1
    ensures InStep(ReadOn(r, fetch), fetch.table)
    ensures !r.done && ReadOn(r, fetch).done ==> ReadOn(r, fetch).items == fetch.table
  {
    if !r.done {
      var n := |r.items|;
      assert r == Reading(fetch.table[..n], CursorAt(fetch.table, n), false);
      ReadOnAt(fetch.table, fetch.limit, n);
    }
  }

  lemma InStepLater(r: Reading, table: seq<StepRow>, later: seq<StepRow>)
    requires InStep(r, table) && table <= later
    ensures InStep(r, later)
  {
  }

  lemma AppendingBefore(fetches: seq<Fetch>)
    requires Appending(fetches) && |fetches| > 1
    ensures Appending(fetches[..|fetches| - 1])
    ensures fetches[|fetches| - 2].table <= fetches[|fetches| - 1].table
  {
  }

  /** Before a fetch, the reader is in step with the table that fetch sees. */
  lemma {:induction false} InStepBefore(fetches: seq<Fetch>)
    requires Appending(fetches) && fetches != []
    ensures InStep(Read(fetches[..|fetches| - 1]), fetches[|fetches| - 1].table)
    decreases |fetches|, 0
  {
    var before := fetches[..|fetches| - 1];
    if before != [] {
      AppendingBefore(fetches);
      ReadKeepsStep(before);
      InStepLater(Read(before), before[|before| - 1].table, fetches[|fetches| - 1].table);
    }
  }

  lemma {:induction false} ReadKeepsStep(fetches: seq<Fetch>)
    requires Appending(fetches) && fetches != []
    ensures InStep(Read(fetches), fetches[|fetches| - 1].table)
    decreases |fetches|, 1
  {
    InStepBefore(fetches);
    ReadOnKeepsStep(Read(fetches[..|fetches| - 1]), fetches[|fetches| - 1]);
  }

  /**
   However many rows are appended between fetches, and whatever the limits, the pages read so far are together an
   exact prefix of the transcript: nothing is missing and nothing comes twice.
   */
  lemma {:induction false} PagesArePrefix(fetches: seq<Fetch>)
    requires Appending(fetches) && fetches != []
    ensures Read(fetches).items <= fetches[|fetches| - 1].table
  {
    ReadKeepsStep(fetches);
  }

  /** When a page has no cursor, the pages are the whole transcript as it was at that fetch. */
  lemma {:induction false} LastPageCompletes(fetches: seq<Fetch>)
    requires Appending(fetches) && fetches != []
    requires !Read(fetches[..|fetches| - 1]).done && Read(fetches).done
    ensures Read(fetches).items == fetches[|fetches| - 1].table
  {
    InStepBefore(fetches);
    ReadOnKeepsStep(Read(fetches[..|fetches| - 1]), fetches[|fetches| - 1]);
  }

  /** max(1, ceil(n / limit)) */
  function PageCount(n: nat, limit: nat): nat
    requires limit >= 1
  {
    if n == 0 then 1 else (n + limit - 1) / limit
  }

  function Same(table: seq<StepRow>, limit: nat, k: nat): seq<Fetch> { seq(k, _ => Fetch(table, limit)) }

  lemma SameSnoc(table: seq<StepRow>, limit: nat, k: nat)
    requires k > 0
    ensures Same(table, limit, k)[..k - 1] == Same(table, limit, k - 1)
    ensures Same(table, limit, k)[k - 1] == Fetch(table, limit)
  {
  }

  /** The reader after `k` pages of a table that stands still. */
  function Standing(table: seq<StepRow>, limit: nat, k: nat): Reading
    requires limit >= 1
  {
    if k == 0 then UNREAD
    else if k * limit < |table| then Reading(table[..k * limit], CursorAt(table, k * limit), false)
    else Reading(table, None, true)
  }

  lemma NextMultiple(k: nat, d: nat)
    ensures (k + 1) * d == k * d + d
    ensures k == 0 ==> k * d == 0
  {
  }

  lemma StandingStep(table: seq<StepRow>, limit: nat, k: nat)
    requires UniqueIds(table) && limit >= 1
    ensures ReadOn(Standing(table, limit, k), Fetch(table, limit)) == Standing(table, limit, k + 1)
  {
    var n := k * limit;
    NextMultiple(k, limit);
    if k == 0 || n < |table| {
      ReadOnAt(table, limit, n);
    }
  }

  lemma {:induction false} ReadOfFixedTable(table: seq<StepRow>, limit: nat, k: nat)
    requires UniqueIds(table) && limit >= 1
    ensures Read(Same(table, limit, k)) == Standing(table, limit, k)
  {
    if k > 0 {
      SameSnoc(table, limit, k);
      ReadOfFixedTable(table, limit, k - 1);
      StandingStep(table, limit, k - 1);
    }
  }

  lemma MulGrows(a: int, b: int, d: nat)
    requires a <= b
    ensures a * d <= b * d
  {
  }

  lemma CeilingOf(n: nat, limit: nat)
    requires limit >= 1 && n > 0
    ensures var c := (n + limit - 1) / limit;
      c >= 1 && (c - 1) * limit < n <= c * limit
  {
    var c := (n + limit - 1) / limit;
    assert c * limit + (n + limit - 1) % limit == n + limit - 1;
    assert (c - 1) * limit == c * limit - limit;
  }

  lemma CeilingBounds(n: nat, limit: nat, k: nat)
    requires limit >= 1
    ensures k >= PageCount(n, limit) <==> k >= 1 && k * limit >= n
  {
    if n > 0 {
      var c := (n + limit - 1) / limit;
      CeilingOf(n, limit);
      if k >= c {
        MulGrows(c, k, limit);
      } else {
        MulGrows(k, c - 1, limit);
      }
    }
  }

  /** A table of n rows that stands still is read in exactly max(1, ceil(n / limit)) pages. */
  lemma PagesNeeded(table: seq<StepRow>, limit: nat, k: nat)
    requires UniqueIds(table) && limit >= 1
    ensures Read(Same(table, limit, k)).done <==> k >= PageCount(|table|, limit)
  {
    ReadOfFixedTable(table, limit, k);
    CeilingBounds(|table|, limit, k);
  }
}
