# Virtual-list range trackers in Dafny

This project models the range tracker at the heart of a virtual-list
library. A virtual list renders only the slice of a long list that is
visible in a scrolling viewport. The tracker measures the rendered
elements, estimates the sizes of the items it has not seen, and decides
which contiguous window of indices to render. It also keeps the padding
before the window (`front`), the padding after it (`behind`) and the total
size of the list.

The repository ships two generations of the tracker, and both are modelled:

- **The ledger tracker** (`dist/tiny-virtual-list.js`). Each index holds a
  record `{size, front, behind}`, and the records are chained, so each
  `front` is the previous `behind`. The average size for unmeasured items
  is damped: each new batch mean is averaged with the old value. An
  offset is mapped to an index by binary search, and the window is
  widened by a `buffer` on both sides.
  - `tiny_ledger.dfy` (module `TinyLedger`) holds the ledger as values and
    the functions that specify each loop.
  - `tiny_virtual_list.dfy` (module `TinyVirtualList`) holds the tracker
    object as a class, `TinyVirtualList.Virtual`.
- **The linear-scan tracker** (`src/index.js`). Sizes are a plain array,
  offsets are prefix sums, and the window is found by two linear scans
  from index 0. The direction dead band is ±1, and the total never
  shrinks.
  - `scan_sizes.dfy` (module `ScanSizes`) holds the specification
    functions.
  - `virtual_list.dfy` (module `VirtualList`) holds the class
    `VirtualList.Virtual`.
  - `dist/virtual-list.js` is the compiled form of the same source, and
    the same members model it. The line spans match one to one:
    - `getSize` is at 204-206 and `scrollToIndex` at 219-226.
    - `refresh` is at 187-189.
    - `_onCreate` is at 259-286 and `_onUpdate` at 320-337.
    - `_updateRange` is at 338-350.
    - `_getRangeByOffset` is at 351-391 and `_getOffsetByRange` at 392-398.
    - `_getLength` is at 399-401.
    Its one divergence is modelled separately, under "Findings".
- `rounding.dfy` (module `Rounding`) holds JavaScript's `Math.round` of a
  quotient, and `Math.max`, `Math.min` and `Math.abs`, on integers.

How the source is mapped:

- **DOM and outputs.** Every DOM reading becomes a parameter: viewport
  size, scroll offset, scroll size, visibility, the rendered elements'
  sizes and data indices, and the scroll-start offset. A write to the
  scroll position becomes a returned command or correction. A dispatched
  event becomes a returned value.
- **TypeError.** A JavaScript `TypeError` (reading a field of a missing
  ledger record) becomes the `TypeError` case of a `Completion` result,
  or a `thrown` flag.
- **Division by zero.** A division by zero, which would produce `NaN`,
  becomes a precondition that says what keeps the divisor positive. The
  one exception is `_onCreate`'s division by the walk's end: a walk ending
  at index 0 or before is modelled as a branch that reports `degenerate`
  (see "## Left out").

## Model

| member | source | states |
|---|---|---|
| Rounding.RoundDiv | dist/tiny-virtual-list.js:306 | `Math.round(a / b)` is the integer nearest to a/b, halves rounded up: b(2r-1) <= 2a < b(2r+1) |
| TinyLedger.SizeAt | dist/tiny-virtual-list.js:176-179 | `getSize(i)` is the measured size when a record with a non-zero size exists, else `options.size` when non-zero, else the average; it is 0 exactly when all three are missing or zero |
| TinyLedger.Place | dist/tiny-virtual-list.js:298-302 | writing a record at index i grows the array to i+1 when needed (holes in between) and changes no other slot |
| TinyLedger.BehindBefore | dist/tiny-virtual-list.js:295 | where a record starts: the previous slot's `behind`, or 0 at index 0 or after a hole; MeasureChain and FillSpec state that every record either loop writes starts there |
| TinyLedger.Resize | dist/tiny-virtual-list.js:307 | assigning `sizes.length = count` truncates or pads with holes and keeps every slot below `count` |
| TinyLedger.Positives | dist/tiny-virtual-list.js:293-294 | the sizes the first loop keeps are positive, and there are no more of them than the batch has elements |
| TinyLedger.PositivesSpec | dist/tiny-virtual-list.js:291-304 | a size is kept exactly when it is in the batch and positive; the kept sizes add up to the batch's whole total, so `renderSize` loses nothing by skipping zeros |
| TinyLedger.Measure | dist/tiny-virtual-list.js:291-304 | the first loop of `_updateSizes` as a value; what it computes is stated by MeasureFrame, MeasureSizes and MeasureChain |
| TinyLedger.MeasureFrame | dist/tiny-virtual-list.js:288-304 | the first loop advances the index once per positive size, adds their sum to the rendered size, grows the array exactly to the last index written and leaves every other slot alone |
| TinyLedger.MeasureSizes | dist/tiny-virtual-list.js:290-302 | the k-th positive size is recorded at index start+k: zero sizes are skipped and do not advance the index |
| TinyLedger.MeasureChain | dist/tiny-virtual-list.js:294-297 | each recorded slot has `behind == front + size` and `front` equal to the previous slot's `behind`, or 0 at index 0 |
| TinyLedger.Fill | dist/tiny-virtual-list.js:308-318 | the trailing loop of `_updateSizes` as a value; FillSpec states what it computes |
| TinyLedger.FillSpec | dist/tiny-virtual-list.js:308-318 | the trailing loop keeps the length and every slot before it, gives each later slot the size `getSize` reported for it, and chains those slots contiguously to the last index |
| TinyLedger.AverageAfter | dist/tiny-virtual-list.js:305-306 | the new average is the nearest integer to the batch mean when there was no average, and to the mean of batch mean and old average otherwise |
| TinyLedger.AverageAfterPositive | dist/tiny-virtual-list.js:305-306 | a batch of positive sizes gives a positive average |
| TinyLedger.AverageOfBatch | dist/tiny-virtual-list.js:305-306 | the average after a batch with a positive size is at least 1 |
| TinyLedger.Rebuilt | dist/tiny-virtual-list.js:288-318 | the ledger after `_updateSizes` as a value: both loops with the resize between them; RebuiltSpec states its contents |
| TinyLedger.MidSpec | dist/tiny-virtual-list.js:288-307 | between the two loops the ledger has length `count`, holds the batch from `range.start`, is chained over the batch and has every other slot unchanged |
| TinyLedger.MidMeasured | dist/tiny-virtual-list.js:290-307 | between the two loops, the slots of the measured run hold the batch's positive sizes in order |
| TinyLedger.MidFrame | dist/tiny-virtual-list.js:290-307 | between the two loops, every slot below `count` outside the measured run is the old one |
| TinyLedger.MidRunChained | dist/tiny-virtual-list.js:290-307 | between the two loops, the measured run is one chain |
| TinyLedger.RebuiltSpec | dist/tiny-virtual-list.js:288-318 | after `_updateSizes` the ledger has length `count`, the batch's sizes sit from `range.start`, every slot after `range.end` outside the batch holds `getSize` of the old ledger, slots up to `range.end` outside the batch are unchanged, and both runs are chained |
| TinyLedger.RebuiltMeasured | dist/tiny-virtual-list.js:288-307 | the batch's sizes survive both loops from `range.start` on, and slots up to `range.end` outside the batch keep their old contents |
| TinyLedger.RebuiltEstimated | dist/tiny-virtual-list.js:308-318 | every slot after `range.end` holds the size `getSize` gave for it before the trailing loop ran |
| TinyLedger.RebuiltChain | dist/tiny-virtual-list.js:294-318 | the measured run and the run after `range.end` are each contiguous chains |
| TinyLedger.RebuiltLength | dist/tiny-virtual-list.js:307 | the rebuilt ledger has exactly `count` slots |
| TinyLedger.RebuiltNoHoles | dist/tiny-virtual-list.js:288-318 | from a full ledger of length `count`, or from the empty first one with a positive batch, the rebuilt ledger has no holes |
| TinyLedger.RebuiltConsistent | dist/tiny-virtual-list.js:295-317 | both loops write every record with `behind = front + size`, so a ledger whose records all satisfy this keeps that property |
| TinyLedger.RebuiltSound | dist/tiny-virtual-list.js:288-318 | the rebuilt ledger has `count` slots, no holes and only consistent records |
| TinyLedger.RebuiltKeepsChain | dist/tiny-virtual-list.js:288-318 | when the ledger is chained up to `range.start` and the batch has a positive size for every index of the range, the rebuilt ledger is one chain from offset 0 to the last index |
| TinyLedger.RebuiltChained | dist/tiny-virtual-list.js:290-318 | `_updateSizes` with the trailing loop started right after the measured run when that run ends before `range.end`; RebuiltChainedSpec states what it keeps |
| TinyLedger.RebuiltChainedSpec | dist/tiny-virtual-list.js:290-318 | for every batch, a ledger chained up to `start` rebuilds into one chain over all `count` slots holding the batch's positive sizes from `start`, and it is the as-written ledger whenever the batch covers the range |
| TinyLedger.MidChained | dist/tiny-virtual-list.js:290-307 | a ledger chained up to `start` is, between the two loops, one chain from 0 up to any point within the measured run |
| TinyLedger.FillKeepsChain | dist/tiny-virtual-list.js:308-318 | the trailing loop started at the end of a chain from 0 extends it over every slot |
| TinyLedger.RebuiltBreaksOrder | dist/tiny-virtual-list.js:290-304 | a chained four-record ledger with range 0..2 and batch `[20, 0, 0]` rebuilds into a ledger that is no longer ordered: record 0 ends at 20 while record 1 still starts at 10 |
| TinyLedger.Search | dist/tiny-virtual-list.js:351-369 | the binary search answers 0 or an index of the ledger |
| TinyLedger.SearchFindsHit | dist/tiny-virtual-list.js:358-361 | on an ordered ledger, when some record in the searched range brackets the offset (`front <= offset <= behind`), the answer brackets it too |
| TinyLedger.SearchBeforeAll | dist/tiny-virtual-list.js:364-368 | an offset before every record gives 0 |
| TinyLedger.SearchAfterAll | dist/tiny-virtual-list.js:362-368 | an offset past every record gives the last index |
| TinyLedger.IndexByOffsetSpec | dist/tiny-virtual-list.js:351-369 | `_getIndexByOffset` gives an index in `[0, max(0, length-1)]`; a hit when one exists on an ordered ledger; 0 before every record on any ledger whose records each end no earlier than they start; the last index past every record |
| TinyLedger.IndexFindsHit | dist/tiny-virtual-list.js:351-369 | on an ordered ledger with a record bracketing the offset, `_getIndexByOffset` answers a bracketing record |
| TinyLedger.IndexBeforeAll | dist/tiny-virtual-list.js:351-369 | an offset before every record gives 0 when every record ends no earlier than it starts |
| TinyLedger.IndexAfterAll | dist/tiny-virtual-list.js:351-369 | an offset past every record gives the last index, or 0 for an empty ledger |
| TinyLedger.ConsistentRecordsSpan | dist/tiny-virtual-list.js:295-300 | each record written as `behind = front + size` ends no earlier than it starts |
| TinyLedger.IndexByOffset | dist/tiny-virtual-list.js:351-369 | `_getIndexByOffset` as a value; IndexByOffsetSpec and IndexMonotone state what it answers |
| TinyLedger.ChainCovers | dist/tiny-virtual-list.js:294-317 | a chain from offset 0 brackets every offset from 0 to the `behind` of its last record |
| TinyLedger.PastAll | dist/tiny-virtual-list.js:362-368 | on an ordered ledger an offset past the last `behind` is past every record |
| TinyLedger.IndexMonotone | dist/tiny-virtual-list.js:351-369 | on a chained ledger a larger offset never gives a smaller index |
| TinyLedger.SpanOfChain | dist/tiny-virtual-list.js:294-297 | on a chained ledger the sizes from a to b add up to `behind` of b-1 less `front` of a |
| TinyLedger.ChainedMonotone | dist/tiny-virtual-list.js:294-297 | a chained ledger is ordered: each record's `front <= behind`, and a record's `behind` is at most every later record's `front` |
| TinyLedger.FrontIsPrefixSum | dist/tiny-virtual-list.js:294-297 | on a chained ledger each `front` is the sum of the sizes before it |
| TinyLedger.TotalIsSum | dist/tiny-virtual-list.js:320-323 | on a chained ledger the last `behind` is the sum of all sizes |
| TinyLedger.SearchAtFront | dist/tiny-virtual-list.js:351-369 | searching a record's own `front` on a chained ledger of positive sizes finds that record or the one just before it |
| TinyLedger.WalkEnd | dist/tiny-virtual-list.js:339-343 | the end walk of `_getRangeByOffset` as a value; WalkEndSpec states where it stops |
| TinyLedger.WalkEndSpec | dist/tiny-virtual-list.js:339-343 | the walk stops one past the first item whose running sum from the start exceeds the viewport, or at `count`, and no shorter run exceeds it |
| TinyLedger.WindowFor | dist/tiny-virtual-list.js:330-350 | `_getRangeByOffset` as a value; WindowForSpec states the window's bounds |
| TinyLedger.WindowForSpec | dist/tiny-virtual-list.js:330-350 | the window satisfies `0 <= start <= end <= lastIndex`; start is the searched index less the buffer; the items through `end` overfill the viewport unless `end` is the last index |
| TinyVirtualList.RangeOf | dist/tiny-virtual-list.js:278-285 | the stored range for a window: its bounds, the total size, the `front` of its first record and `total` less the `behind` of its last; RangeOfChain states what these mean |
| TinyVirtualList.RangeOfChain | dist/tiny-virtual-list.js:278-285 | on a chained ledger, `front` is the size before the window, `behind` the size after it and `total` the whole size; with the window they add up to `total` |
| TinyVirtualList.MeasureBatch | dist/tiny-virtual-list.js:288-304 | the first loop of `_updateSizes` computes exactly the measured ledger, next index and rendered size |
| TinyVirtualList.FillTrailing | dist/tiny-virtual-list.js:308-318 | the trailing loop computes exactly the estimated ledger |
| TinyVirtualList.Rebuild | dist/tiny-virtual-list.js:288-318 | the body of `_updateSizes` on a copy computes the rebuilt ledger and the damped average, which is at least 1; the ledger has `count` slots, no holes and consistent records |
| TinyVirtualList.Keeps | dist/tiny-virtual-list.js:275 | the guard of `_updateRange`: same start and end, or a start that moved against the direction |
| TinyVirtualList.Virtual.constructor | dist/tiny-virtual-list.js:123-133 | the tracker starts with an empty ledger, a zero range, offset and average, and no direction |
| TinyVirtualList.Virtual.LastIndex | dist/tiny-virtual-list.js:324-326 | `_getLastIndex` is `count - 1`, and 0 for an empty list |
| TinyVirtualList.Virtual.GetSize | dist/tiny-virtual-list.js:176-179 | `getSize(i)` on the tracker state is `SizeAt` of its ledger, option size and average |
| TinyVirtualList.Virtual.TotalSize | dist/tiny-virtual-list.js:320-323 | `_getTotalSize` is the `behind` of the last record, or 0; TotalSizeIsSum states its meaning |
| TinyVirtualList.Virtual.TotalSizeIsSum | dist/tiny-virtual-list.js:320-323 | on a chained full ledger, `_getTotalSize` is the sum of all sizes |
| TinyVirtualList.Virtual.ScrollToIndex | dist/tiny-virtual-list.js:192-200 | past the last index it scrolls to the bottom; otherwise to the record's `front` plus the start offset; it throws exactly when that record is missing |
| TinyVirtualList.Virtual.ScrollToIndexRoundTrip | dist/tiny-virtual-list.js:192-200 | on a chained ledger of positive sizes, the offset `scrollToIndex(i)` goes to searches back to i or to i-1 |
| TinyVirtualList.Virtual.GetIndexByOffset | dist/tiny-virtual-list.js:351-369 | the while loop computes the binary search `IndexByOffset` |
| TinyVirtualList.Virtual.GetRangeByOffset | dist/tiny-virtual-list.js:330-350 | it throws exactly when the ledger is empty and the list is not; otherwise it gives the clamped, buffered window of the specification |
| TinyVirtualList.Virtual.Target | dist/tiny-virtual-list.js:330-350 | the window `_getRangeByOffset` settles on at the stored offset less the scroll start; WindowForSpec states its clamped bounds and that it covers the viewport |
| TinyVirtualList.Virtual.UpdateSizes | dist/tiny-virtual-list.js:288-319 | the ledger becomes the rebuilt ledger of length `count` with no holes, the average becomes the damped one and is positive, and range, offset and direction stay |
| TinyVirtualList.Virtual.UpdateRange | dist/tiny-virtual-list.js:269-287 | `RangeUpdated`: nothing changes for an empty list or a hidden element; on an empty ledger the nested `refresh` rebuilds it and folds in the average; it throws exactly when the ledger is still empty; otherwise the range is kept with nothing emitted when the guard holds for the window at the current offset, and else becomes `RangeOf` that window and is emitted once; offset and direction stay, and the start never moves against the direction |
| TinyVirtualList.Virtual.FirstRange | dist/tiny-virtual-list.js:270-276 | on a visible list with an empty ledger, the nested `refresh` settles the range and the window read after it is the same one, so the outcome is `RangeUpdated` with nothing emitted twice |
| TinyVirtualList.Virtual.Settle | dist/tiny-virtual-list.js:272-286 | it throws exactly while the ledger is empty, changing nothing; otherwise the range settles on the window (`Settled`), and ledger, average, offset and direction stay |
| TinyVirtualList.Virtual.Refresh | dist/tiny-virtual-list.js:155-169 | nothing changes for a hidden element or no children; otherwise it returns the correction `offset + size of the first element - getSize(start)` when scrolling front and none otherwise, rebuilds the ledger, folds in the average (then at least 1), and settles the range on the window at the current offset, emitting it exactly when it moves; the nested `_updateRange` never throws |
| TinyVirtualList.Virtual.HandleScroll | dist/tiny-virtual-list.js:246-268 | sets the direction front/behind/none by the sign of the offset change, always stores the offset, emits the top/bottom flags; at no direction or an end already reached nothing else changes; otherwise the outcome is that of `_updateRange` (`RangeUpdated`); the start never moves against the direction |
| TinyVirtualList.ScrollDirection | dist/tiny-virtual-list.js:251 | the direction is front exactly when the offset decreased and behind exactly when it increased |
| TinyVirtualList.IdleScrollOnFreshTracker | dist/tiny-virtual-list.js:262-265 | a fresh tracker scrolled without moving returns at the early exit: no direction, no range emitted, no throw and an empty ledger, even for a batch of zero sizes |
| TinyVirtualList.Virtual.Halts | dist/tiny-virtual-list.js:263 | the early exit of `_handleScroll`: no direction, scrolling front at start 0, or scrolling behind at the last index |

| ScanSizes.SizeOf | src/index.js:109-111 | `getSize(i)` is `sizes[i]` when non-zero, otherwise the average size |
| ScanSizes.OffsetByRange | src/index.js:312-318 | the sum of `getSize(i)` over a range as a value; OffsetSplit, OffsetMonotone and OffsetAtLeastCount state its properties |
| ScanSizes.OffsetSplit | src/index.js:312-318 | the sum over [a, c) is the sum over [a, b) plus the sum over [b, c) |
| ScanSizes.OffsetMonotone | src/index.js:312-318 | a longer range from the same start has at least the same offset |
| ScanSizes.OffsetAtLeastCount | src/index.js:312-318 | with a positive average, every item adds at least 1 to the offset |
| ScanSizes.Store | src/index.js:187 | writing a size at index k grows the array to k+1 when needed and changes no other slot |
| ScanSizes.StoreAll | src/index.js:245-248 | the recording loop of `_onUpdate` as a value; StoreAllUntouched and StoreAllLastWins state its effect |
| ScanSizes.StoreAllUntouched | src/index.js:245-248 | recording the rendered elements leaves every index that none of them carries unchanged |
| ScanSizes.StoreAllLastWins | src/index.js:245-248 | the size recorded for an index is that of the last element carrying it |
| ScanSizes.StoreItem | src/index.js:246-247 | one element's size recorded at its index, and nothing for an element without one; StoreAllUntouched and StoreAllLastWins state its effect over a batch |
| ScanSizes.Resize | src/index.js:193 | `sizes.length = itemCount` gives exactly `itemCount` slots and keeps the ones below it |
| ScanSizes.CreateWalk | src/index.js:175-190 | the walk of `_onCreate` as a value; CreateWalkSpec and CreateWalkUnfilled state where it stops |
| ScanSizes.CreateWalkSpec | src/index.js:175-190 | the walk of `_onCreate` records a prefix of the elements in order, adds their sizes, and stops exactly when the viewport is filled, the count is reached or the elements run out |
| ScanSizes.CreateWalkStops | src/index.js:178-190 | the walk ends at or past its start, within the rendered elements, and only once the viewport is filled, the count is reached or there is no next element |
| ScanSizes.CreateWalkStores | src/index.js:178-187 | the array the walk leaves is the one it started from with the consumed elements recorded in order |
| ScanSizes.CreateWalkRendering | src/index.js:178-188 | the rendered size the walk leaves is the one it started from plus the sizes of exactly the consumed elements |
| ScanSizes.CreateWalkUnfilled | src/index.js:175-190 | before each element the walk consumes, the rendered size is still below the viewport and the index below the count, so it stops at the first place where one of them fails |
| ScanSizes.FirstPass | src/index.js:282-291 | the first scan ends between its start and the item count, and at the count when it finds nothing |
| ScanSizes.SecondPass | src/index.js:294-298 | the second scan never moves backwards and advances at least one item unless already at the count |
| ScanSizes.Passes | src/index.js:282-298 | for a non-empty list, the scans end past index 0, so the average's divisor is positive |
| ScanSizes.FirstPassSpec | src/index.js:282-291 | the first scan stops at the first item whose bottom edge reaches the scroll position, with the offset before it, or covers every item |
| ScanSizes.SecondPassSpec | src/index.js:294-298 | the second scan stops at the first end whose items from the start exceed the viewport, or at the count |
| ScanSizes.RangeByOffset | src/index.js:272-310 | `_getRangeByOffset` as a value; RangeByOffsetSpec states the window and average it gives |
| ScanSizes.RangeByOffsetSpec | src/index.js:272-310 | start is the first item reaching the scroll position and front its offset; the run from start overfills the viewport unless at the count; the end is `min(lastIndex, end+1)`; the average is the rounded mean; with no item reaching the offset the fallback start is a viewport of average items before the end |
| ScanSizes.ScrollRoundTrip | src/index.js:129-136 | scrolling to item i makes the first scan start at i-1 (or 0) |
| ScanSizes.DirectionOf | src/index.js:212-218 | forward exactly when the offset fell by more than 1, backward exactly when it rose by more than 1, none exactly within the ±1 dead band |
| VirtualList.Moved | src/index.js:259-268 | `behind = (lastIndex - end) * average`, never negative for a clamped end; the total is the larger of the old total and front + window + behind |
| VirtualList.Virtual.constructor | src/index.js:56-61 | the tracker starts with no sizes, a zero range, offset, start and average, and no direction |
| VirtualList.Virtual.LastIndex | src/index.js:320-322 | `_getLength` is `itemCount - 1`, and 0 for an empty list |
| VirtualList.Virtual.GetSize | src/index.js:109-111 | `getSize(i)` on the tracker state is `SizeOf` of its sizes and average |
| VirtualList.Virtual.GetOffsetByRange | src/index.js:312-318 | the loop computes the sum of `getSize(i)` for start <= i < end, 0 for an empty range |
| VirtualList.Virtual.ScrollToIndex | src/index.js:129-136 | past `_getLength()` it scrolls to the bottom; otherwise to the offset before the index plus `ignoreSize` |
| VirtualList.Virtual.ScrollToIndexRoundTrip | src/index.js:129-136 | after `scrollToIndex(i)` the next scan starts at i-1 (or 0) |
| VirtualList.Virtual.GetRangeByOffset | src/index.js:272-310 | the two loops compute the window and average of the specification; the average is stored and nothing else changes |
| VirtualList.Virtual.UpdateRange | src/index.js:259-270 | stores and emits the moved range; the total never decreases and the stored end stays clamped |
| VirtualList.Virtual.OnUpdate | src/index.js:242-257 | `Updated`: records the indexed elements, stores the old start, rescans with the old average and stores the new one; the range and nothing emitted when start and end are unchanged, otherwise the moved range, emitted |
| VirtualList.Virtual.CreateRendering | src/index.js:173-176 | the rendered size the `_onCreate` walk starts from: how far the stored front reaches past the scroll position taken from `ignoreSize`, never negative; `Created` states the walk from it |
| VirtualList.Virtual.CreateRun | src/index.js:175-190 | the `_onCreate` walk from the stored start as a value; CreateWalkSpec states what it records and where it stops, and OnCreate's loop is proved to end in it |
| VirtualList.Virtual.OnCreate | src/index.js:164-197 | `Created`: nothing for a hidden element or no children; otherwise the walked sizes resized to the count and, when the walk ends past index 0, the rounded mean up to the walk's end as average and the moved range from the stored start to one past the walk, emitted; a walk ending at index 0 or before is reported as `degenerate`, with average and range unchanged |
| VirtualList.Virtual.OnRefresh | src/index.js:199-240 | without an average the outcome is `_onCreate`'s (`Created`, its `degenerate` flag passed on), with no scroll event and a range emitted exactly when the element is visible, has children and the walk is not degenerate; otherwise never degenerate, and `Scrolled`: nothing for a hidden element; for a visible one the dead-band direction, the new offset and the top/bottom flags, then nothing else at no direction or an end already reached and `_onUpdate`'s outcome (`Updated`) otherwise; the total never decreases |
| VirtualList.Virtual.Halts | src/index.js:231-235 | the early exit of `_onRefresh`: no direction, forward at start 0, or backward at the last index |
| VirtualList.Virtual.Refresh | src/index.js:88-90 | with an average above 1 the outcome is `_onRefresh`'s (`Scrolled`); otherwise (an average of exactly 1 included) `_onCreate`'s (`Created`, its `degenerate` flag passed on) with no scroll event; the total never decreases |
| VirtualList.Virtual.OnRefreshCompiled | dist/virtual-list.js:287-319 | it throws exactly when there is no average yet, changing nothing; otherwise its outcome is the source form's `Scrolled` |
| VirtualList.FreshTrackerScroll | dist/virtual-list.js:288-290 | on a fresh tracker with three rendered items, the compiled `_onRefresh` throws where the source form emits a range |

## Left out

- `on`/`off`, `throttle` and `debounce` (src/utils.js, and their inlined copies in both dist files) are timer-based rate limiting. Each scroll is modelled as one direct call.
- The `scrollToBottom` retry loop polls the live DOM on a timer. `scrollToIndex` returns `ToBottom` instead.
- The DOM readers become parameters: `getOffset`, `getScrollSize`, `getClientSize`, `_getElementSize`, `_getItemSize`, `_getItemIndex`, `_getRenderingItems`, `_contentVisible`/`_invisible`, `_getScrollElement` and `_getScrollStartOffset`.
- The scroll-position write in the ledger tracker's `refresh` is not performed. Its amount is returned as `correction`.
- These are option handling, listener wiring and callback calls, so they are left out: the constructors' option defaulting and initial measuring call, `option`, `destroy`, `_dispatchEvent`, `_updateOnScrollFunction` and `_addScrollEventListener`. The ledger tracker's `isFront`/`isBehind` are not separate members: they appear inline as the direction tests `d == Front` and `d == Behind` in Keeps, Halts and Refresh.
- Emitted `onUpdate` payloads are returned by value. The ledger tracker hands out its live `this.range` object, so the aliasing of that payload is not modelled.
- Types and build configuration (types/index.d.ts, rollup.config.js) hold no logic.
- The scroll offset (`scrollTop` or `scrollLeft`) can be fractional in a browser. Both models take it as an integer, so the ledger tracker's sign test and the linear-scan tracker's ±1 dead band only ever see whole numbers. Element sizes (`offsetHeight` or `offsetWidth`) are integers already, and the ledger tracker also rounds them.
- A data index that is not a non-negative integer has no model. In JavaScript it would create a named property instead of a slot.
- TinyVirtualList.Virtual.UpdateSizes: requires a positive measured size, because otherwise `renderSize / 0` is `NaN` and the average becomes `NaN`.
- TinyVirtualList.Virtual.UpdateSizes: builds the ledger as the code writes it (`Rebuilt`), not the corrected `RebuiltChained` of "Findings", so the tracker's ledger is one chain only when the batch covers the range (`RebuiltKeepsChain`).
- TinyVirtualList.Virtual.UpdateRange: requires `Measurable` only when the call reaches the nested `refresh` (a non-empty visible list with an empty ledger), because that `refresh` would make the average `NaN` from a batch of zero sizes. HandleScroll asks it only of a scroll that passes the early exit and so reaches `_updateRange`.
- TinyVirtualList.Virtual.Refresh: requires `Measurable` for a visible element, for the same `NaN` average.
- TinyVirtualList.Virtual.FirstRange: the scroll correction that the nested `refresh` computes is not passed on. Neither `_updateRange` nor `_handleScroll` returns it, and the model performs no scroll writes.
- VirtualList.Virtual.GetRangeByOffset: requires `ScanReady`. This excludes an empty list (`offset / 0`) and a fallback whose new average rounds to 0 (`clientSize / 0`).
- VirtualList.Virtual.OnCreate: a walk that ends at index 0 or before is reported as `degenerate` and keeps only the walked sizes and the new length. The source goes on: it stores `Math.round((front + rendering) / end)` as the average, which is `NaN` or an infinity at end 0 and `-0` or a negative number at a negative end (reachable after `_getRangeByOffset`'s fallback stored a negative start; for example three items of size 1 ending the walk at -495 give `Math.round(3 / -495)`). It then calls `_updateRange` with that average. `averageSize` is a `nat`, so none of these averages, the range computed from them or the `onUpdate` emitted with it is modelled. OnRefresh and Refresh pass the flag on.
- Both classes run their loops on a copy of the array and assign it back, so they do not model in-place updates while a loop runs. Nothing else reads the array in between.
- TinyLedger.IndexByOffsetSpec: the hit clause needs an ordered ledger, and a rebuilt ledger is not ordered in general (see "Findings"). The before-all clause needs only records that end no earlier than they start, which `ConsistentRecordsSpan` proves of every consistent ledger, rebuilt or not. `ChainedMonotone` proves a chained ledger ordered, and `RebuiltKeepsChain` proves the rebuilt ledger chained when the batch covers the whole range.

## Findings

| source | as written | input that shows it | evidently intended | confidence | as-written member | corrected member |
|---|---|---|---|---|---|---|
| dist/virtual-list.js:288-290 | `_onRefresh` calls `this._onInit()` when the average is below 1, and no such method exists, so it throws a `TypeError` | a tracker whose creation found no rendered items (average 0), scrolled once with three items rendered | call `_onCreate`, as src/index.js:200-202 does | high; not executed | VirtualList.Virtual.OnRefreshCompiled | VirtualList.Virtual.OnRefresh |
| dist/tiny-virtual-list.js:290-318 | `_updateSizes` rewrites only the records of the batch's positive sizes and those after `range.end`. Records in between keep their old `front` and `behind`, even when an earlier record changed size | a chained ledger of sizes 10, 10, 10, 10 with range 0..2, re-measured as `[20, 0, 0]`: record 0 becomes 0..20 while record 1 stays 10..20 | the trailing estimates start right after the measured run when it ends before `range.end`, so the ledger stays one chain and the binary search of `_getIndexByOffset` can rely on its order | medium; not executed | TinyLedger.RebuiltBreaksOrder | TinyLedger.RebuiltChainedSpec |
