/** The store slice of warehouse items: the items of the current page and
    their count, the per-item statistics and their count, the overall
    statistics, and the request status the three requests update. */
module WarehouseItemSlice {
  import opened Common

  /** The three requests this slice follows. */
  predicate IsWarehouseThunk(t: Thunk) {
    t == GetWarehouseItems || t == GetWarehouseItemStats || t == GetWarehouseItemAllStats
  }

  class ItemSlice {
    var status: Status
    var errors: Option<ServerError>
    var update: bool
    var items: Option<seq<Values>>
    var count: int
    var stats: Option<seq<Values>>
    var statsCount: int
    var allStats: Option<Values>

    /** At most one status flag is set, and nothing in this slice ever
        raises `update`. */
    predicate Valid()
      reads this
    {
      OneFlagAtMost(status) && !update
    }

    /** `initialState`: idle, no errors, no data, zero counts. */
    constructor ()
      ensures Valid()
      ensures status == IDLE && errors == None && !update
      ensures items == None && count == 0 && stats == None && statsCount == 0 && allStats == None
    {
      status := IDLE;
      errors := None;
      update := false;
      items := None;
      count := 0;
      stats := None;
      statsCount := 0;
      allStats := None;
    }

    /** `resetState`: everything back to the initial state except the
        statistics count and the overall statistics, which survive. */
    method ResetState()
      requires Valid()
      modifies this
      ensures Valid()
      ensures status == IDLE && errors == None && !update && items == None && count == 0 && stats == None
      ensures statsCount == old(statsCount) && allStats == old(allStats)
    {
      status := IDLE;
      update := false;
      errors := None;
      items := None;
      count := 0;
      stats := None;
    }

    /** The pending case of each request: loading that request, errors
        cleared, data untouched. */
    method Pending(t: Thunk)
      requires IsWarehouseThunk(t)
      requires Valid()
      modifies this
      ensures Valid()
      ensures status == Loading(t) && errors == None
      ensures update == old(update) && items == old(items) && count == old(count)
      ensures stats == old(stats) && statsCount == old(statsCount) && allStats == old(allStats)
    {
      status := Loading(t);
      errors := None;
    }

    /** The rejected case of each request: that request failed with the
        payload as errors, data untouched. */
    method Rejected(t: Thunk, payload: Option<ServerError>)
      requires IsWarehouseThunk(t)
      requires Valid()
      modifies this
      ensures Valid()
      ensures status == Failed(t) && errors == payload
      ensures update == old(update) && items == old(items) && count == old(count)
      ensures stats == old(stats) && statsCount == old(statsCount) && allStats == old(allStats)
    {
      status := Failed(t);
      errors := payload;
    }

    /** `getWarehouseItems.fulfilled`: the page of items and their count,
        and `update` cleared. */
    method ItemsFulfilled(results: seq<Values>, total: int)
      requires Valid()
      modifies this
      ensures Valid()
      ensures status == Succeeded(GetWarehouseItems) && items == Some(results) && count == total && !update
      ensures errors == old(errors) && stats == old(stats) && statsCount == old(statsCount) && allStats == old(allStats)
    {
      status := Succeeded(GetWarehouseItems);
      items := Some(results);
      count := total;
      update := false;
    }

    /** `getWarehouseItemStats.fulfilled`: the statistics and their count only. */
    method StatsFulfilled(results: seq<Values>, total: int)
      requires Valid()
      modifies this
      ensures Valid()
      ensures status == Succeeded(GetWarehouseItemStats) && stats == Some(results) && statsCount == total
      ensures errors == old(errors) && update == old(update) && items == old(items) && count == old(count)
      ensures allStats == old(allStats)
    {
      status := Succeeded(GetWarehouseItemStats);
      stats := Some(results);
      statsCount := total;
    }

    /** `getWarehouseItemAllStats.fulfilled`: the overall statistics only. */
    method AllStatsFulfilled(payload: Values)
      requires Valid()
      modifies this
      ensures Valid()
      ensures status == Succeeded(GetWarehouseItemAllStats) && allStats == Some(payload)
      ensures errors == old(errors) && update == old(update) && items == old(items) && count == old(count)
      ensures stats == old(stats) && statsCount == old(statsCount)
    {
      status := Succeeded(GetWarehouseItemAllStats);
      allStats := Some(payload);
    }
  }

  /** A failed request of the statistics leaves the page of items as the
      list request left it: a table and its statistics fail independently. */
  method StatsFailureKeepsItems(s: ItemSlice, results: seq<Values>, total: int, err: Option<ServerError>)
    requires s.Valid()
    modifies s
    ensures s.Valid()
    ensures s.items == Some(results) && s.count == total
    ensures s.status == Failed(GetWarehouseItemStats) && s.errors == err
  {
    s.Pending(GetWarehouseItems);
    s.ItemsFulfilled(results, total);
    s.Pending(GetWarehouseItemStats);
    s.Rejected(GetWarehouseItemStats, err);
  }
}
