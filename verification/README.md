# Trade-up catalogue page: filter, sort and incremental loader

`script.js` drives a single-page catalogue of trade-up records. The records come
from static JSON shards. The page keeps every loaded record in `allTradeupData`. It
derives a filtered and sorted view, `filteredTradeupData`, and renders that view 20
records at a time behind a "load more" button. Another shard is fetched only when
the whole view is on screen.

This project models the logic of the page in Dafny:

- `Filtering`: the filter callback of `filterAndSortData`. It computes the weighted
  average input float in a loop. It defaults missing fields (cost to 0, mean profit
  and odds to -Infinity). It makes the four inclusive range checks, with an empty
  input box meaning an infinite bound. It also defines the view the callback carves
  out of all loaded records.
- `Sorting`: the comparator of `sortTradeups`. Cost sorts ascending with a missing
  cost as +Infinity. Every other key sorts descending with a missing value as
  -Infinity. Any unknown selector value falls back to `profitability`. The sort of
  the view by that comparator is a stable insertion sort.
- `Loader`: the shared page state as a class, `Catalogue`. It holds the records, the
  view, the batch cursor, the shard cursor, the `isLoading` guard, the rendered
  cards and the button. Methods model `renderTradeupsBatch`,
  `updateLoadMoreButtonVisibility`, `filterAndSortData`, the selector and
  clear-filters handlers, `loadNextJsonFile`, the initial load and
  `loadMoreHandler`. Each `await fetch` is split into a Begin method and a Complete
  method. Begin runs up to the fetch. Complete receives the fetch outcome, the parsed
  records or a failure, and runs the rest.
- `Frames`: the per-skin rules of `createSkinsSection`. They decide which skins get
  frames, how many copies each gets, and the tint of an output frame against the
  trade-up cost.
- `ExtReals`, `Tradeups` and `Wrappers`: JavaScript numbers with their infinities
  (NaN excluded), the record shapes, and `Option`.

Where `script.js` behaves differently from a plain reading of the page's intent, the
model follows the code:

- The average input float ignores skins without a numeric float. It is undefined
  only when no skin with a float has a positive weight. A `times` strictly between 0
  and 1 gives weight `Math.floor(times) == 0`.
- An undefined average is `NaN`, and `NaN >= -Infinity` is false. Such a record
  fails the float check even when both float boxes are empty, so clearing the
  filters still hides it (`Filtering.NoFiltersKeepsDefinedAverages`).
- A successful shard load filters and sorts all records again. It resets the batch
  cursor to 0 and re-renders the first batch. It does not continue after the cards
  already shown.
- `createSkinsSection` repeats an input skin `times || 1` times. The average float
  weighs it `Math.floor(times)` when `times` is positive and 1 otherwise. The two
  agree for a missing, zero or whole positive `times`
  (`Frames.CopiesMatchQuantity`). They differ for a fractional one: 2.5 gives three
  frames and weight two (`Frames.FractionalTimesDiffer`). They also differ for a
  negative one: -2 gives no frame and weight one (`Frames.NegativeTimesDiffer`).

## Model

| member | source | states |
|---|---|---|
| Filtering.Quantity | script.js:78 | a skin counts `floor(times)` times when `times` is a positive number, else once; the count lies within one below `times` |
| Filtering.AverageFloat | script.js:66-91 | a defined average comes from a list with positive total weight, and times that weight it gives back the weighted sum of the floats |
| Filtering.AverageInputFloat | script.js:66-91 | the `forEach` accumulation loop computes exactly Σ(float·q)/Σq over the skins with a float, or undefined when no list is present or Σq is 0 |
| Filtering.AverageUndefinedIff | script.js:70-91 | the average is undefined iff there is no input list, or every skin lacks a float or weighs 0 |
| Filtering.CountedWeightZero | script.js:74-88 | the accumulated skin count is 0 iff every skin contributes weight 0 |
| Filtering.AverageWithin | script.js:74-90 | a defined average lies between any lower and upper bound of the counted floats (a weighted mean) |
| Filtering.CostValue | script.js:97 | the cost checked is always finite: the record's cost, or 0 when it is missing |
| Filtering.ProfitValue | script.js:98 | the mean profit checked is never +Infinity, and is -Infinity exactly when it is missing |
| Filtering.OddsValue | script.js:99 | the odds checked are never +Infinity, and are -Infinity exactly when they are missing |
| Filtering.Matches | script.js:102-109 | a kept record has a defined average float; one kept without a cost has a lower cost bound of at most 0; one kept without mean profit or odds has that lower box empty |
| Filtering.KeepTradeup | script.js:96-109 | the callback keeps a record iff cost, profit, odds and average float all lie within their inclusive ranges |
| Filtering.MissingCostIsZero | script.js:97-102 | a missing cost is range-checked as the cost 0 |
| Filtering.MissingProfitOrOddsIsNegInf | script.js:98-104 | a missing mean profit or odds passes its range iff the lower box is empty, whatever the upper bound |
| Filtering.NoFiltersKeepsDefinedAverages | script.js:70-106 | with every box empty a record is kept iff its average float is defined |
| Filtering.FilterView | script.js:64-110 | the filtered view is never longer than the record list |
| Filtering.FilterIsSubsequence | script.js:64 | the view is an order-preserving subsequence of all loaded records |
| Filtering.FilterOccurrences | script.js:64-110 | a matching record occurs in the view as often as in the input, and a non-matching one not at all |
| Filtering.FilterMembership | script.js:64-110 | a record is in the view iff it was loaded and passes every range |
| Filtering.FilterAppend | script.js:150-153 | filtering the concatenation of old and new records equals the old view followed by the new records' view |
| Filtering.FilterIdempotent | script.js:64-110 | filtering the view again with the same bounds changes nothing |
| Filtering.FilterSingle | script.js:64-110 | a single record is kept iff it matches |
| Filtering.FilterKeepsAll | script.js:64-110 | when every record matches, the view is the whole input in order |
| Filtering.WorkedExample | script.js:74-106 | inputs 0.1×2 and 0.3×1 average 0.5/3, which a float minimum of 0.2 excludes and one of 0.1 keeps |
| Sorting.ParseSortKey | script.js:335-352 | the switch picks odds, cost or profitPerTrade for exactly those strings and profitability for anything else |
| Sorting.SortValue | script.js:337-351 | the comparator's value is infinite exactly when the key's field is missing, and then +Infinity for cost and -Infinity for every other key |
| Sorting.InOrder | script.js:343-360 | a record with the field goes before one without, two records both without it are tied; between two with the field, cost compares ascending and odds, mean profit and profitability descending |
| Sorting.InOrderTotal | script.js:333-360 | the comparator orders any two records one way or the other |
| Sorting.InOrderTransitive | script.js:333-360 | the comparator's order is transitive |
| Sorting.SortView | script.js:333 | sorting keeps the length of the view |
| Sorting.SortViewPermutation | script.js:333 | the sorted view is a permutation of the view |
| Sorting.SortViewSorted | script.js:333-360 | the sorted view is ordered by the comparator |
| Sorting.MissingSortLast | script.js:337-351 | in a sorted view, records missing the key's field come after every record that has it |
| Sorting.SortedByField | script.js:340-360 | between records that have the field, cost is non-decreasing and odds, mean profit and profitability are non-increasing |
| Frames.QuantityBound | script.js:273 | the loop bound is never 0: 1 for an output, else `times` when it is present and non-zero, and 1 otherwise |
| Frames.Copies | script.js:268-274 | a skin without a name or an image gets no frame, an output skin one, and an input skin with a positive `times` the ceiling of `times` |
| Frames.SkinTint | script.js:287-302 | every input frame gets the input tint; an output frame is above, below or even only when the cost and sell price are present, as the price compares with the cost, and transparent exactly when the cost is missing or 0 or the price is missing |
| Frames.Iterations | script.js:274 | the copy loop runs the least whole number of times not below its bound |
| Frames.CreateSkinsSection | script.js:246-328 | the nested loops emit, skin by skin, the specified frames: none for a missing list, `Copies` frames per skin, each with `SkinTint` |
| Frames.FrameOrigin | script.js:267-304 | every frame comes from a skin with a name and an image and carries that skin's tint |
| Frames.OutputFrameTint | script.js:287-302 | an output frame is above, below or even exactly as the sell price compares with a present non-zero cost, and transparent otherwise |
| Frames.OutputFramesOnePerSkin | script.js:268-274 | the output section has exactly one frame per skin with a name and an image |
| Frames.InputCopies | script.js:273-274 | an input skin gets one frame for a missing or zero `times`, none for a negative one, and the ceiling of a positive one |
| Frames.CopiesMatchQuantity | script.js:273 | for a missing, zero or whole positive `times` the number of frames equals the weight in the average float |
| Frames.FractionalTimesDiffer | script.js:273 | `times` 2.5 gives three frames but weight two |
| Frames.NegativeTimesDiffer | script.js:273-274 | `times` -2 gives no frame, since the copy loop never runs, but weight one in the average float |
| Loader.NextCursor | script.js:166-183 | one render advances the cursor by exactly min(20, remaining) and never past the view's end |
| Loader.CursorAfterCalls | script.js:166-183 | n renders from a cursor leave it at min(cursor + 20n, length) |
| Loader.BuildFragment | script.js:178-181 | the fragment has one card per batch record, numbered on from the old cursor |
| Loader.CardsNumbered | script.js:178-181 | the first n cards show the first n records of the view, numbered 1 to n |
| Loader.CardsExtend | script.js:178-183 | appending the next batch's cards extends the numbered prefix to the batch's end |
| Loader.ResortedView | script.js:333-361 | however many times the view is re-sorted it keeps the same records and is ordered by the last key |
| Loader.ViewMembership | script.js:64-116 | a record is in the sorted view iff it was loaded and passes the bounds |
| Loader.ClearedViewMembership | script.js:448-463 | after clearing the filters, a record is in the view iff its average float is defined |
| Loader.Catalogue.constructor | script.js:3-8 | the page starts with no records, both cursors at 0 and no load in flight |
| Loader.Catalogue.MoreAvailable | script.js:193-196 | more is available iff another render would add cards or a shard is still unrequested |
| Loader.Catalogue.UpdateLoadMoreButtonVisibility | script.js:191-203 | the button is shown (and enabled) iff a filtered record is unrendered or a shard is unrequested; hiding it leaves `disabled` as it was |
| Loader.Catalogue.RenderTradeupsBatch | script.js:164-187 | the cursor moves to NextCursor and the shown cards stay exactly the numbered prefix of the view; an empty batch changes nothing; otherwise the button is updated |
| Loader.Catalogue.RenderFromStart | script.js:119-130 | after resetting the cursor and the container, exactly the first batch of the view is shown, and the button is visible iff more is available and enabled when visible; a hidden button keeps its `disabled` |
| Loader.Catalogue.FilterAndSortData | script.js:36-131 | the view becomes the sorted filtered records, the cursor the first batch's end, and the button visible iff more is available; a hidden button keeps its `disabled` |
| Loader.Catalogue.ClearFilters | script.js:448-463 | clearing the filters re-filters with unbounded ranges and renders the first batch, and the button is visible iff more is available and enabled when visible; a hidden button keeps its `disabled` |
| Loader.Catalogue.ApplyFilter | script.js:64-110 | the view becomes the records passing the bounds |
| Loader.Catalogue.SortFiltered | script.js:332-361 | the view is replaced by its sorted version and stays consistent with the records and bounds |
| Loader.Catalogue.SortTradeups | script.js:332-374 | a selector change re-sorts the view and re-renders the first batch from the start; a hidden button keeps its `disabled` |
| Loader.Catalogue.BeginLoadNextJsonFile | script.js:135-141 | with no shard left nothing changes; otherwise the shard cursor advances before the fetch, so a failed shard is never requested again |
| Loader.Catalogue.CompleteLoadNextJsonFile | script.js:142-159 | on failure nothing changes; on success the records are appended after the old ones, the view is refiltered and sorted, and the cursor is reset to render the first batch; a hidden button keeps its `disabled` |
| Loader.Catalogue.BeginInitialLoad | script.js:469-475 | the first load requests the next shard and leaves the button as it was, or hides the button when there is no shard; a pending initial load is recorded exactly when a shard was requested |
| Loader.Catalogue.CompleteInitialLoad | script.js:471-479 | it completes only a pending initial load and clears it; a failed first shard hides the button and leaves `disabled` as it was; a loaded one is filtered, sorted and rendered, and the button is visible iff more is available and enabled when visible; a hidden button keeps its `disabled` |
| Loader.Catalogue.BeginLoadMore | script.js:378-412 | while loading it does nothing; it loads a shard only when the whole view is rendered and shards remain; otherwise it renders the next batch or hides the button; the guard is released unless a fetch is pending |
| Loader.Catalogue.CompleteLoadMore | script.js:394-411 | after the fetch the guard is released and the button is visible iff more is available, and enabled when visible; a hidden button keeps its `disabled` |
| Loader.Catalogue.UpdateAndRelease | script.js:396-411 | after the load the guard is down, the button is visible iff more is available and enabled when visible, and a hidden button keeps its `disabled` |
| Loader.InitialLoadSession | script.js:467-479 | a first shard of 15 matching records shows all 15 and keeps the button shown and enabled for the second shard |
| Loader.SecondShardSession | script.js:378-412 | the next click loads the second shard and shows 20 of 30 from the start; a click during the fetch is dropped; the following click shows all 30 and hides the button; the page stays valid with 30 records, none duplicated, all 30 in the view |

## Left out

- DOM construction, the `innerHTML` templates, the CSS colour strings and the `toFixed` formatting. A rendered trade-up is a `Card` holding its heading number and record, and a skin frame is its skin index and tint.
- The "No tradeups match the current filters." message.
- Loader.Catalogue.CompleteInitialLoad: on failure the page replaces the whole container with a failure message. That also removes any cards a load-more click rendered while the first fetch was pending, since the initial load never raises `isLoading`. The model hides the button but keeps those cards in `shown`.
- `fetch`, the HTTP status check and `response.json()` are I/O. The Complete methods take the outcome as a parameter: the parsed records or a failure.
- Reading the input boxes with `parseFloat` and the missing-element checks. `FilterAndSortData` takes the bounds and the sort key that the boxes and the selector hold at the call. An empty box is an infinite bound.
- IEEE-754 behaviour: there is no NaN from `parseFloat` and no NaN float value. An undefined average is `None`, which fails every float check as `NaN` does. The comparator's `Infinity - Infinity`, for two records that both lack the key, is NaN, and `Array.prototype.sort` treats a NaN result as 0. The model's order also ties two equal infinities, so this case is covered.
- Records and skins whose fields have the wrong JavaScript type: `null` skins, a non-array `input_skins`, a string `times`. A field of the wrong type is modelled as absent.
- The concurrency of the `await` steps. Only the `isLoading` guard is kept. Other events during a fetch, such as a selector change, are separate method calls on the same state.
- The `IntersectionObserver` stub, the event-listener wiring and all `console` logging.
- Buy price, chance and collection name in a skin frame. They are display only.
- Sorting.SortView: `Array.prototype.sort` sorts the array in place. The model reassigns the `filtered` field with an insertion sort over a sequence. The insertion sort places a record before the later records it ties with, so it is stable like `Array.prototype.sort`. Because the comparator is a total preorder, it therefore gives the same order as the engine. Stability is stated here but not proved; the proved claims are order and permutation.
- Filtering.FilterView: membership in the view is stated by the separate lemma `FilterMembership` rather than in the function's own contract.
