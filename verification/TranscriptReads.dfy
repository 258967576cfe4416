/** A client that pages through the transcript of a run while its executors are at work. */
module TranscriptReads {
  import opened RunProtocol
  import opened Interleavings
  import opened RunTheorems
  import opened Pagination

  /** The table as `listSteps` orders it; `ids` are the generated ids of the rows. */
  function Listed(rows: map<nat, Row>, ids: nat -> string): seq<StepRow>
    requires Dense(rows)
  {
    seq(|rows|, i requires 0 <= i < |rows| => StepRow(ids(i), rows[i].step))
  }

  ghost predicate Injective(ids: nat -> string) {
    forall i: nat, j: nat :: ids(i) == ids(j) ==> i == j
  }

  ghost predicate InTime(actions: seq<Action>, times: seq<nat>) {
    && (forall k :: 0 <= k < |times| ==> times[k] <= |actions|)
    && (forall j, k :: 0 <= j <= k < |times| ==> times[j] <= times[k])
  }

  lemma DenseAt(actions: seq<Action>)
    ensures Dense(Run(NOTHING, actions).rows)
  {
    EveryRunIsGood(actions);
  }

  lemma ListedExtends(rows: map<nat, Row>, later: map<nat, Row>, ids: nat -> string)
    requires Dense(rows) && Dense(later)
    requires forall i: nat :: i in rows ==> i in later && later[i] == rows[i]
    ensures Listed(rows, ids) <= Listed(later, ids)
  {
    if rows != map[] {
      assert |rows| - 1 in later;
    }
  }

  /** A later table continues an earlier one. */
  lemma ListedGrows(actions: seq<Action>, s: nat, t: nat, ids: nat -> string)
    requires s <= t <= |actions|
    requires Dense(Run(NOTHING, actions[..s]).rows) && Dense(Run(NOTHING, actions[..t]).rows)
    ensures Listed(Run(NOTHING, actions[..s]).rows, ids) <= Listed(Run(NOTHING, actions[..t]).rows, ids)
  {
    var w, v := Run(NOTHING, actions[..s]), Run(NOTHING, actions[..t]);
    assert actions[..t] == actions[..s] + actions[s..t];
    RunConcat(NOTHING, actions[..s], actions[s..t]);
    forall i: nat | i in w.rows ensures i in v.rows && v.rows[i] == w.rows[i] {
      RowsAreForever(w, actions[s..t], i);
    }
    ListedExtends(w.rows, v.rows, ids);
  }

  /** The table after `t` of the actions. */
  function TableAt(actions: seq<Action>, t: nat, ids: nat -> string): seq<StepRow>
    requires t <= |actions|
  {
    DenseAt(actions[..t]);
    Listed(Run(NOTHING, actions[..t]).rows, ids)
  }

  /** The fetches of a reader, one for each time. */
  ghost predicate Serves(fetches: seq<Fetch>, actions: seq<Action>, times: seq<nat>, ids: nat -> string) {
    && |fetches| == |times| && InTime(actions, times)
    && forall k :: 0 <= k < |fetches| ==> fetches[k].limit >= 1 && fetches[k].table == TableAt(actions, times[k], ids)
  }

  lemma ServedAppending(fetches: seq<Fetch>, actions: seq<Action>, times: seq<nat>, ids: nat -> string)
    requires Serves(fetches, actions, times, ids) && Injective(ids)
    ensures Appending(fetches)
  {
    forall i, j | 0 <= i <= j < |fetches| ensures fetches[i].table <= fetches[j].table {
      DenseAt(actions[..times[i]]);
      DenseAt(actions[..times[j]]);
      ListedGrows(actions, times[i], times[j], ids);
    }
  }

  /** The pages read are a prefix of `transcript`, and all of it when the last of them said so. */
  ghost predicate Faithful(fetches: seq<Fetch>, transcript: seq<StepRow>)
    requires fetches != []
  {
    && Read(fetches).items <= transcript
    && (!Read(fetches[..|fetches| - 1]).done && Read(fetches).done ==> Read(fetches).items == transcript)
  }

  lemma ReadSoFar(fetches: seq<Fetch>)
    requires Appending(fetches) && fetches != []
    ensures Faithful(fetches, fetches[|fetches| - 1].table)
  {
    PagesArePrefix(fetches);
    if !Read(fetches[..|fetches| - 1]).done && Read(fetches).done {
      LastPageCompletes(fetches);
    }
  }

  /** The pages read hold the steps of the rows in index order, and all of them when the last page said so. */
  ghost predicate FollowsRows(fetches: seq<Fetch>, rows: map<nat, Row>, ids: nat -> string)
    requires fetches != []
  {
    var items := Read(fetches).items;
    && |items| <= |rows|
    && (forall k: nat :: k < |items| ==> k in rows && items[k] == StepRow(ids(k), rows[k].step))
    && (!Read(fetches[..|fetches| - 1]).done && Read(fetches).done ==> |items| == |rows|)
  }

  lemma ListedRows(fetches: seq<Fetch>, rows: map<nat, Row>, ids: nat -> string)
    requires fetches != [] && Dense(rows) && Faithful(fetches, Listed(rows, ids))
    ensures FollowsRows(fetches, rows, ids)
  {
    var items, table := Read(fetches).items, Listed(rows, ids);
    forall k: nat | k < |items| ensures k in rows && items[k] == StepRow(ids(k), rows[k].step) {
      assert items[k] == table[k];
    }
  }

  /**
   Reading page by page while executors write, crash and race: item k of the pages read so far is the step stored at
   index k, and when a fetch returns no cursor there is an item for every row there is at that fetch.
   */
  lemma PagesFollowTheRun(fetches: seq<Fetch>, actions: seq<Action>, times: seq<nat>, ids: nat -> string)
    requires Serves(fetches, actions, times, ids) && Injective(ids) && fetches != []
    ensures FollowsRows(fetches, Run(NOTHING, actions[..times[|fetches| - 1]]).rows, ids)
  {
    var last := actions[..times[|fetches| - 1]];
    DenseAt(last);
    ServedAppending(fetches, actions, times, ids);
    ReadSoFar(fetches);
    ListedRows(fetches, Run(NOTHING, last).rows, ids);
  }
}
