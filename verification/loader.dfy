/** The incremental loader of the catalogue page: the shared state of script.js
    (`allTradeupData`, `filteredTradeupData`, `currentBatchIndex`, `currentJsonIndex`,
    `isLoading`, the rendered container and the "load more" button), and the
    functions that change it. Each `await fetch(...)` is split in two: a Begin method
    runs the code up to the fetch, and a Complete method takes the fetch's outcome
    and runs the rest. The filter bounds and the sort key are the values the input
    boxes and the selector hold at the moment of the call. */
module Loader {
  import opened Wrappers
  import opened Tradeups
  import opened Filtering
  import opened Sorting

  /** `batchSize`: how many records one render appends. */
  const BatchSize: nat := 20

  /** `Math.min` */
  function Min(a: int, b: int): int {
    if a <= b then a else b
  }

  /** The cursor after one `renderTradeupsBatch` over a view of `len` records. */
  function NextCursor(cursor: nat, len: nat): (next: nat)
    requires cursor <= len
    ensures cursor <= next <= len
    ensures next - cursor == Min(BatchSize, len - cursor)
  {
    if cursor + BatchSize <= len then cursor + BatchSize else len
  }

  /** The cursor after `calls` renders. */
  function CursorAfter(cursor: nat, len: nat, calls: nat): nat
    requires cursor <= len
    decreases calls
  {
    if calls == 0 then cursor else CursorAfter(NextCursor(cursor, len), len, calls - 1)
  }

  /** Repeated renders advance by whole batches until the view is exhausted. */
  lemma {:induction false} CursorAfterCalls(cursor: nat, len: nat, calls: nat)
    requires cursor <= len
    ensures CursorAfter(cursor, len, calls) == Min(cursor + calls * BatchSize, len)
    decreases calls
  {
    if calls > 0 {
      CursorAfterCalls(NextCursor(cursor, len), len, calls - 1);
    }
  }

  /** A rendered trade-up block: its heading number ("Tradeup #n") and its record. */
  datatype Card = Card(number: nat, tradeup: Tradeup)

  /** What a shard fetch resolves to: the parsed records, or an HTTP or parse failure. */
  datatype FetchOutcome = Fetched(records: seq<Tradeup>) | FetchFailed

  /** What the synchronous part of `loadMoreHandler` did. */
  datatype HandlerStep = AlreadyLoading | AwaitingFile(file: nat) | RenderedBatch | NothingMore

  /** The `batch.forEach` of `renderTradeupsBatch`: one card per record, numbered on
      from the records already shown. */
  method BuildFragment(batch: seq<Tradeup>, start: nat) returns (fragment: seq<Card>)
    ensures |fragment| == |batch|
    ensures forall i :: 0 <= i < |batch| ==> fragment[i] == Card(start + i + 1, batch[i])
  {
    fragment := [];
    var index := 0;
    while index < |batch|
      invariant 0 <= index <= |batch|
      invariant |fragment| == index
      invariant forall i :: 0 <= i < index ==> fragment[i] == Card(start + i + 1, batch[i])
    {
      fragment := fragment + [Card(start + index + 1, batch[index])];
      index := index + 1;
    }
  }

  /** The cards of the first `n` records of the view, numbered from 1. */
  function Cards(view: seq<Tradeup>, n: nat): seq<Card>
    requires n <= |view|
  {
    if n == 0 then [] else Cards(view, n - 1) + [Card(n, view[n - 1])]
  }

  /** Card `i` shows record `i` of the view under the heading number `i + 1`. */
  lemma {:induction false} CardsNumbered(view: seq<Tradeup>, n: nat)
    requires n <= |view|
    ensures |Cards(view, n)| == n
    ensures forall i :: 0 <= i < n ==> Cards(view, n)[i] == Card(i + 1, view[i])
  {
    if n > 0 {
      CardsNumbered(view, n - 1);
    }
  }

  /** Appending the cards of the next slice extends the numbered prefix to the slice's end. */
  lemma {:induction false} CardsExtend(view: seq<Tradeup>, cursor: nat, end: nat, fragment: seq<Card>)
    requires cursor <= end <= |view|
    requires |fragment| == end - cursor
    requires forall i :: 0 <= i < |fragment| ==> fragment[i] == Card(cursor + i + 1, view[cursor + i])
    ensures Cards(view, end) == Cards(view, cursor) + fragment
    decreases end
  {
    if end > cursor {
      var front := fragment[..|fragment| - 1];
      CardsExtend(view, cursor, end - 1, front);
      assert fragment == front + [fragment[|fragment| - 1]];
    }
  }

  /** The view after `keys` were applied one after the other: each selector change
      re-sorts the view as it stands, and the sort is stable, so the order of the view
      depends on the whole sequence of keys chosen since the last filter. */
  ghost function Resorted(view: seq<Tradeup>, keys: seq<SortKey>): seq<Tradeup>
    decreases |keys|
  {
    if keys == [] then view else SortView(Resorted(view, keys[..|keys| - 1]), keys[|keys| - 1])
  }

  /** Re-sorting keeps exactly the filtered records, and leaves them ordered by the last key. */
  lemma {:induction false} ResortedView(view: seq<Tradeup>, keys: seq<SortKey>)
    ensures multiset(Resorted(view, keys)) == multiset(view)
    ensures keys != [] ==> Sorted(Resorted(view, keys), keys[|keys| - 1])
    decreases |keys|
  {
    if keys != [] {
      var front := Resorted(view, keys[..|keys| - 1]);
      ResortedView(view, keys[..|keys| - 1]);
      SortViewPermutation(front, keys[|keys| - 1]);
      SortViewSorted(front, keys[|keys| - 1]);
    }
  }

  /** A record is in the sorted view exactly when it is among the loaded records and
      passes the bounds. */
  lemma ViewMembership(all: seq<Tradeup>, bounds: Bounds, keys: seq<SortKey>, t: Tradeup)
    ensures t in Resorted(FilterView(all, bounds), keys) <==> t in all && Matches(t, bounds)
  {
    var view := Resorted(FilterView(all, bounds), keys);
    FilterMembership(all, bounds, t);
    ResortedView(FilterView(all, bounds), keys);
    assert t in view <==> t in multiset(view);
  }

  /** After the filters are cleared, a record is shown at some point exactly when its
      average input float is defined. */
  lemma ClearedViewMembership(all: seq<Tradeup>, keys: seq<SortKey>, t: Tradeup)
    ensures t in Resorted(FilterView(all, NoFilters), keys) <==> t in all && AverageFloat(t.inputs).Some?
  {
    ViewMembership(all, NoFilters, keys, t);
    NoFiltersKeepsDefinedAverages(t);
  }

  class Catalogue {
    /** `jsonFiles.length` */
    const fileCount: nat
    /** `allTradeupData` */
    var all: seq<Tradeup>
    /** `filteredTradeupData` */
    var filtered: seq<Tradeup>
    /** `currentBatchIndex` */
    var batchIndex: nat
    /** `currentJsonIndex` */
    var jsonIndex: nat
    var isLoading: bool
    /** The trade-up blocks in the container, in order. */
    var shown: seq<Card>
    /** `loadMoreButton.style.display != 'none'` */
    var buttonVisible: bool
    /** `loadMoreButton.disabled` */
    var buttonDisabled: bool
    /** The bounds of the last filter, and the sort keys applied since. */
    ghost var applied: Bounds
    ghost var sorts: seq<SortKey>
    /** The initial load has requested its shard and not yet received the outcome. */
    ghost var pendingInitial: bool

    ghost predicate Valid()
      reads this`jsonIndex, this`shown, this`filtered, this`batchIndex
    {
      && jsonIndex <= fileCount
      && batchIndex <= |filtered|
      && shown == Cards(filtered, batchIndex)
    }

    /** The view is the records passing the last-applied bounds, re-sorted by each key since. */
    ghost predicate Consistent()
      reads this`filtered, this`all, this`applied, this`sorts
    {
      filtered == Resorted(FilterView(all, applied), sorts)
    }

    /** Some filtered record is not rendered yet, or some shard is not requested yet. */
    predicate MoreAvailable()
      reads this`batchIndex, this`filtered, this`jsonIndex
      ensures batchIndex <= |filtered| ==>
        (MoreAvailable() <==> NextCursor(batchIndex, |filtered|) > batchIndex || jsonIndex < fileCount)
    {
      batchIndex < |filtered| || jsonIndex < fileCount
    }

    /** The page before its first load. The HTML's initial button state is taken as shown and enabled. */
    constructor (fileCount: nat)
      ensures Valid() && Consistent() && this.fileCount == fileCount
      ensures all == [] && filtered == [] && shown == []
      ensures batchIndex == 0 && jsonIndex == 0 && !isLoading && !pendingInitial
    {
      this.fileCount := fileCount;
      all, filtered, shown := [], [], [];
      batchIndex, jsonIndex := 0, 0;
      isLoading := false;
      buttonVisible, buttonDisabled := true, false;
      applied, sorts := NoFilters, [];
      pendingInitial := false;
    }

    /** `updateLoadMoreButtonVisibility` */
    method UpdateLoadMoreButtonVisibility()
      modifies this`buttonVisible, this`buttonDisabled
      ensures buttonVisible == MoreAvailable()
      ensures buttonVisible ==> !buttonDisabled
      ensures !buttonVisible ==> buttonDisabled == old(buttonDisabled)
    {
      var moreFilteredItemsToRender := batchIndex < |filtered|;
      var moreJsonFilesToLoad := jsonIndex < fileCount;
      if moreFilteredItemsToRender || moreJsonFilesToLoad {
        buttonVisible := true;
        buttonDisabled := false;
      } else {
        buttonVisible := false;
      }
    }

    /** `renderTradeupsBatch`: append the next slice of at most BatchSize records. */
    method RenderTradeupsBatch()
      requires Valid()
      modifies this`batchIndex, this`shown, this`buttonVisible, this`buttonDisabled
      ensures Valid()
      ensures batchIndex == NextCursor(old(batchIndex), |filtered|)
      ensures old(batchIndex) == |filtered| ==>
        shown == old(shown) && buttonVisible == old(buttonVisible) && buttonDisabled == old(buttonDisabled)
      ensures old(batchIndex) < |filtered| ==> buttonVisible == MoreAvailable()
      ensures old(batchIndex) < |filtered| ==> if buttonVisible then !buttonDisabled else buttonDisabled == old(buttonDisabled)
    {
      var batchEndIndex := Min(batchIndex + BatchSize, |filtered|);
      var batch := filtered[batchIndex..batchEndIndex];
      if |batch| == 0 {
        return;
      }
      var fragment := BuildFragment(batch, batchIndex);
      CardsExtend(filtered, batchIndex, batchEndIndex, fragment);
      shown := shown + fragment;
      batchIndex := batchIndex + |batch|;
      UpdateLoadMoreButtonVisibility();
    }

    /** The tail shared by `filterAndSortData` and `sortTradeups(key, true)`: reset the
        cursor, clear the container, render the first batch and update the button. */
    method RenderFromStart()
      requires jsonIndex <= fileCount
      modifies this`batchIndex, this`shown, this`buttonVisible, this`buttonDisabled
      ensures Valid()
      ensures batchIndex == NextCursor(0, |filtered|)
      ensures buttonVisible == MoreAvailable() && (buttonVisible ==> !buttonDisabled)
      ensures !buttonVisible ==> buttonDisabled == old(buttonDisabled)
    {
      batchIndex := 0;
      shown := [];
      RenderTradeupsBatch();
      UpdateLoadMoreButtonVisibility();
    }

    /** `filterAndSortData` with the given box values and selector value: recompute the
        view from all records, sort it, clear the container and render the first batch. */
    method FilterAndSortData(bounds: Bounds, key: SortKey)
      requires jsonIndex <= fileCount
      modifies this`filtered, this`applied, this`sorts, this`batchIndex, this`shown, this`buttonVisible, this`buttonDisabled
      ensures Valid() && Consistent()
      ensures applied == bounds
      ensures filtered == SortView(FilterView(all, bounds), key)
      ensures batchIndex == NextCursor(0, |filtered|)
      ensures buttonVisible == MoreAvailable() && (buttonVisible ==> !buttonDisabled)
      ensures !buttonVisible ==> buttonDisabled == old(buttonDisabled)
    {
      ApplyFilter(bounds);
      SortFiltered(key);
      RenderFromStart();
    }

    /** The "clear filters" button: empty every box, then filter and sort. */
    method ClearFilters(key: SortKey)
      requires Valid()
      modifies this`filtered, this`applied, this`sorts, this`batchIndex, this`shown, this`buttonVisible, this`buttonDisabled
      ensures Valid() && Consistent()
      ensures applied == NoFilters
      ensures filtered == SortView(FilterView(all, NoFilters), key)
      ensures batchIndex == NextCursor(0, |filtered|)
      ensures buttonVisible == MoreAvailable() && (buttonVisible ==> !buttonDisabled)
      ensures !buttonVisible ==> buttonDisabled == old(buttonDisabled)
    {
      FilterAndSortData(NoFilters, key);
    }

    /** The `allTradeupData.filter(...)` step of `filterAndSortData`. */
    method ApplyFilter(bounds: Bounds)
      modifies this`filtered, this`applied, this`sorts
      ensures filtered == FilterView(all, bounds) && applied == bounds && sorts == []
      ensures Consistent()
    {
      filtered := FilterView(all, bounds);
      applied, sorts := bounds, [];
    }

    /** `sortTradeups(key, false)`: reorder the view in place by the comparator; the
        view keeps the same records. */
    method SortFiltered(key: SortKey)
      modifies this`filtered, this`sorts
      ensures filtered == SortView(old(filtered), key)
      ensures sorts == old(sorts) + [key]
      ensures old(Consistent()) ==> Consistent()
    {
      filtered := SortView(filtered, key);
      sorts := sorts + [key];
      assert sorts[..|sorts| - 1] == old(sorts);
    }

    /** `sortTradeups(key, true)`, run when the selector changes: re-sort the current view
        and render it again from the start. */
    method SortTradeups(key: SortKey)
      requires Valid() && Consistent()
      modifies this`filtered, this`sorts, this`batchIndex, this`shown, this`buttonVisible, this`buttonDisabled
      ensures Valid() && Consistent()
      ensures filtered == SortView(old(filtered), key)
      ensures batchIndex == NextCursor(0, |filtered|)
      ensures buttonVisible == MoreAvailable() && (buttonVisible ==> !buttonDisabled)
      ensures !buttonVisible ==> buttonDisabled == old(buttonDisabled)
    {
      SortFiltered(key);
      RenderFromStart();
    }

    /** `loadNextJsonFile` up to its fetch: give up when every shard was requested, else
        claim the next shard. The cursor moves before the fetch, so a shard that fails is
        never requested again. */
    method BeginLoadNextJsonFile() returns (file: Option<nat>)
      requires Valid()
      modifies this`jsonIndex
      ensures Valid()
      ensures old(jsonIndex) >= fileCount ==> file == None && jsonIndex == old(jsonIndex)
      ensures old(jsonIndex) < fileCount ==> file == Some(old(jsonIndex)) && jsonIndex == old(jsonIndex) + 1
    {
      if jsonIndex >= fileCount {
        return None;
      }
      file := Some(jsonIndex);
      jsonIndex := jsonIndex + 1;
    }

    /** `loadNextJsonFile` after its fetch: on success append the shard's records after
        the existing ones and filter, sort and render from the start; on failure change nothing. */
    method CompleteLoadNextJsonFile(outcome: FetchOutcome, bounds: Bounds, key: SortKey) returns (loaded: bool)
      requires Valid() && Consistent()
      modifies this`all, this`filtered, this`applied, this`sorts, this`batchIndex, this`shown, this`buttonVisible, this`buttonDisabled
      ensures Valid() && Consistent()
      ensures loaded == outcome.Fetched?
      ensures !loaded ==> (all == old(all) && filtered == old(filtered) && batchIndex == old(batchIndex)
        && shown == old(shown) && buttonVisible == old(buttonVisible) && buttonDisabled == old(buttonDisabled))
      ensures loaded ==> all == old(all) + outcome.records
      ensures loaded ==> filtered == SortView(FilterView(all, bounds), key)
      ensures loaded ==> FilterView(all, bounds) == FilterView(old(all), bounds) + FilterView(outcome.records, bounds)
      ensures loaded ==> batchIndex == NextCursor(0, |filtered|)
      ensures loaded ==> buttonVisible == MoreAvailable() && (buttonVisible ==> !buttonDisabled)
      ensures loaded ==> (!buttonVisible ==> buttonDisabled == old(buttonDisabled))
    {
      if outcome.FetchFailed? {
        return false;
      }
      ghost var before := all;
      all := all + outcome.records;
      FilterAndSortData(bounds, key);
      FilterAppend(before, outcome.records, bounds);
      loaded := true;
    }

    /** The initial load up to its fetch. With no shard to request the load has failed
        and the button is hidden. */
    method BeginInitialLoad() returns (file: Option<nat>)
      requires Valid()
      modifies this`jsonIndex, this`buttonVisible, this`pendingInitial
      ensures Valid()
      ensures pendingInitial <==> file.Some?
      ensures old(jsonIndex) >= fileCount ==> file == None && jsonIndex == old(jsonIndex) && !buttonVisible
      ensures old(jsonIndex) < fileCount ==>
        file == Some(old(jsonIndex)) && jsonIndex == old(jsonIndex) + 1 && buttonVisible == old(buttonVisible)
    {
      file := BeginLoadNextJsonFile();
      if file.None? {
        buttonVisible := false;
      }
      pendingInitial := file.Some?;
    }

    /** The initial load after its fetch: a failed first shard hides the button. Only a
        shard the initial load requested can complete it. */
    method CompleteInitialLoad(outcome: FetchOutcome, bounds: Bounds, key: SortKey) returns (loaded: bool)
      requires Valid() && Consistent() && pendingInitial
      modifies this`all, this`filtered, this`applied, this`sorts, this`batchIndex, this`shown, this`buttonVisible, this`buttonDisabled
      modifies this`pendingInitial
      ensures Valid() && Consistent() && !pendingInitial
      ensures loaded == outcome.Fetched?
      ensures !loaded ==> all == old(all) && filtered == old(filtered) && batchIndex == old(batchIndex) && !buttonVisible
      ensures !loaded ==> buttonDisabled == old(buttonDisabled)
      ensures loaded ==> all == old(all) + outcome.records
      ensures loaded ==> filtered == SortView(FilterView(all, bounds), key)
      ensures loaded ==> batchIndex == NextCursor(0, |filtered|)
      ensures loaded ==> buttonVisible == MoreAvailable() && (buttonVisible ==> !buttonDisabled)
      ensures loaded ==> (!buttonVisible ==> buttonDisabled == old(buttonDisabled))
    {
      loaded := CompleteLoadNextJsonFile(outcome, bounds, key);
      if !loaded {
        buttonVisible := false;
      }
      pendingInitial := false;
    }

    /** `loadMoreHandler` up to its `await`. A call while another is in flight does nothing.
        Otherwise: when every filtered record is shown and a shard remains, request it and
        stay loading; when records remain, render the next batch; else hide the button. */
    method BeginLoadMore() returns (step: HandlerStep)
      requires Valid()
      modifies this`isLoading, this`buttonDisabled, this`buttonVisible, this`batchIndex, this`shown, this`jsonIndex
      ensures Valid()
      ensures old(isLoading) ==>
        step == AlreadyLoading && batchIndex == old(batchIndex) && jsonIndex == old(jsonIndex) && isLoading
        && buttonVisible == old(buttonVisible) && buttonDisabled == old(buttonDisabled)
      ensures !old(isLoading) && old(batchIndex) == |filtered| && old(jsonIndex) < fileCount ==>
        step == AwaitingFile(old(jsonIndex)) && jsonIndex == old(jsonIndex) + 1 && isLoading
        && batchIndex == old(batchIndex) && buttonVisible == old(buttonVisible) && buttonDisabled
      ensures !old(isLoading) && old(batchIndex) < |filtered| ==>
        step == RenderedBatch && batchIndex == NextCursor(old(batchIndex), |filtered|)
        && jsonIndex == old(jsonIndex) && !isLoading
        && buttonVisible == MoreAvailable() && buttonDisabled == !buttonVisible
      ensures !old(isLoading) && old(batchIndex) == |filtered| && old(jsonIndex) >= fileCount ==>
        step == NothingMore && batchIndex == old(batchIndex) && jsonIndex == old(jsonIndex) && !isLoading
        && !buttonVisible && buttonDisabled
    {
      if isLoading {
        return AlreadyLoading;
      }
      isLoading := true;
      buttonDisabled := true;
      var moreFilteredItemsAvailable := batchIndex < |filtered|;
      var moreJsonFilesAvailable := jsonIndex < fileCount;
      if !moreFilteredItemsAvailable && moreJsonFilesAvailable {
        var file := BeginLoadNextJsonFile();
        return AwaitingFile(file.value);
      } else if moreFilteredItemsAvailable {
        RenderTradeupsBatch();
        step := RenderedBatch;
      } else {
        UpdateLoadMoreButtonVisibility();
        step := NothingMore;
      }
      isLoading := false;
      if buttonVisible {
        buttonDisabled := false;
      }
    }

    /** `loadMoreHandler` after its `await loadNextJsonFile()`: finish the load, update the
        button and release the guard. */
    method CompleteLoadMore(outcome: FetchOutcome, bounds: Bounds, key: SortKey)
      requires Valid() && Consistent() && isLoading
      modifies this`all, this`filtered, this`applied, this`sorts, this`batchIndex, this`shown, this`buttonVisible, this`buttonDisabled, this`isLoading
      ensures Valid() && Consistent()
      ensures !isLoading
      ensures outcome.FetchFailed? ==> all == old(all) && filtered == old(filtered) && batchIndex == old(batchIndex)
      ensures outcome.Fetched? ==> all == old(all) + outcome.records
      ensures outcome.Fetched? ==> filtered == SortView(FilterView(all, bounds), key)
      ensures outcome.Fetched? ==> batchIndex == NextCursor(0, |filtered|)
      ensures buttonVisible == MoreAvailable() && (buttonVisible ==> !buttonDisabled)
      ensures !buttonVisible ==> buttonDisabled == old(buttonDisabled)
    {
      var loaded := CompleteLoadNextJsonFile(outcome, bounds, key);
      UpdateAndRelease();
    }

    /** The rest of the load branch of `loadMoreHandler`: update the button, drop the
        guard and re-enable the button if it is shown. */
    method UpdateAndRelease()
      modifies this`buttonVisible, this`buttonDisabled, this`isLoading
      ensures !isLoading
      ensures buttonVisible == MoreAvailable() && (buttonVisible ==> !buttonDisabled)
      ensures !buttonVisible ==> buttonDisabled == old(buttonDisabled)
    {
      UpdateLoadMoreButtonVisibility();
      isLoading := false;
      if buttonVisible {
        buttonDisabled := false;
      }
    }
  }

  /** The first shard of 15 records, each passing the empty filters: the initial load
      shows all 15 and leaves the button up, since a second shard remains. */
  method InitialLoadSession(first: seq<Tradeup>) returns (page: Catalogue)
    requires |first| == 15
    requires forall t :: t in first ==> Matches(t, NoFilters)
    ensures fresh(page) && page.Valid() && page.Consistent()
    ensures page.fileCount == 2 && page.jsonIndex == 1 && !page.isLoading
    ensures page.all == first && |page.filtered| == 15
    ensures page.batchIndex == 15 && page.buttonVisible && !page.buttonDisabled
  {
    FilterKeepsAll(first, NoFilters);
    page := new Catalogue(2);
    var file := page.BeginInitialLoad();
    var loaded := page.CompleteInitialLoad(Fetched(first), NoFilters, Profitability);
  }

  /** A second shard of 15 records on top of that: the next click loads it and, rendering
      from the start, shows 20 of the 30; a click made while that fetch is in flight is
      dropped; the click after it shows the last 10 and hides the button. */
  method SecondShardSession(page: Catalogue, second: seq<Tradeup>)
    returns (overlapping: HandlerStep, afterLoad: nat, afterClick: nat)
    requires page.Valid() && page.Consistent()
    requires page.fileCount == 2 && page.jsonIndex == 1 && !page.isLoading
    requires |page.all| == 15 && |page.filtered| == 15 && page.batchIndex == 15
    requires forall t :: t in page.all ==> Matches(t, NoFilters)
    requires |second| == 15 && forall t :: t in second ==> Matches(t, NoFilters)
    modifies page
    ensures overlapping == AlreadyLoading
    ensures afterLoad == 20 && afterClick == 30
    ensures page.jsonIndex == 2 && !page.buttonVisible
    ensures page.Valid() && page.Consistent() && |page.all| == 30 && |page.filtered| == 30
  {
    FilterKeepsAll(page.all, NoFilters);
    FilterKeepsAll(second, NoFilters);
    FilterAppend(page.all, second, NoFilters);
    ghost var records := page.all + second;
    assert FilterView(records, NoFilters) == records;
    var step := page.BeginLoadMore();
    assert page.isLoading && page.jsonIndex == 2 && page.all + second == records;
    overlapping := page.BeginLoadMore();
    page.CompleteLoadMore(Fetched(second), NoFilters, Profitability);
    assert page.all == records && |page.filtered| == 30;
    afterLoad := page.batchIndex;
    step := page.BeginLoadMore();
    afterClick := page.batchIndex;
  }
}
