/**
 * The ledger-based range tracker of dist/tiny-virtual-list.js: a `Virtual`
 * object that keeps one `{size, front, behind}` record per item, measures
 * the rendered elements on `refresh`, and on every scroll recomputes which
 * slice of the list should be rendered and how much space to pad in front
 * of and behind it.
 *
 * The DOM is not modelled: the rendered elements arrive as their rounded
 * sizes, the viewport size, scroll offset, scroll size, visibility and the
 * scroll-start offset are parameters, a write to the scroll position is a
 * returned command, and a dispatched `onUpdate`/`onScroll` event is a
 * returned value.
 */
module TinyVirtualList {
  import opened Rounding
  import opened Wrappers
  import opened TinyLedger

  /** How a call ends: normally with a value, or by throwing a JavaScript `TypeError`. */
  datatype Completion<T> = Normal(value: T) | TypeError

  /** `scrollDirection`: `''`, `'front'` or `'behind'`. */
  datatype Direction = NoDirection | Front | Behind

  /** `this.range`: the rendered slice and the padding before and after it. */
  datatype Range = Range(start: nat, end: nat, total: nat, front: nat, behind: int)

  /** The payload of `onScroll`. */
  datatype ScrollEvent = ScrollEvent(top: bool, bottom: bool, offset: int, direction: Direction)

  /** What `scrollToIndex` writes: the scroll size (`scrollToBottom`), or an offset. */
  datatype ScrollCommand = ToBottom | ToOffset(offset: int)

  /**
   * The range `_updateRange` stores for a window: the total size, the
   * `front` of the first rendered record, and the space after the last one.
   */
  function RangeOf(s: Ledger, count: nat, w: Window): Range
    requires NoHoles(s) && w.start < |s| && w.end < |s|
  {
    var total := BehindBefore(s, Max(0, count - 1) + 1);
    Range(w.start, w.end, total, s[w.start].value.front, total - s[w.end].value.behind)
  }

  /**
   * On a contiguous ledger, the stored range splits the total size exactly:
   * `front` is the size of the items before the window, `behind` that of the
   * items after it, and with the window's own size they add up to `total`.
   */
  lemma RangeOfChain(s: Ledger, count: nat, w: Window)
    requires Chained(s, 0, |s|) && |s| == count && w.start <= w.end < count
    ensures NoHoles(s)
    ensures var r := RangeOf(s, count, w);
      r.front == Span(s, 0, w.start) &&
      r.behind == Span(s, w.end + 1, count) &&
      r.total == Span(s, 0, count) &&
      r.front + Span(s, w.start, w.end + 1) + r.behind == r.total
  {
    ChainedNoHoles(s);
    FrontIsPrefixSum(s, w.start);
    TotalIsSum(s);
    SpanOfChain(s, 0, w.end + 1);
    assert Linked(s, 0);
    SpanSplit(s, 0, w.end + 1, count);
    SpanSplit(s, 0, w.start, w.end + 1);
  }

  /** The measured sizes are usable: an empty batch, or one with a positive size (otherwise the average is NaN). */
  predicate Measurable(elements: seq<nat>)
  {
    elements == [] || |Positives(elements)| > 0
  }

  /** The first loop of `_updateSizes`, on a copy of the ledger: record each positive size from `index` on. */
  method MeasureBatch(s: Ledger, index: nat, elements: seq<nat>) returns (t: Ledger, next: nat, renderSize: nat)
    ensures (t, next, renderSize) == Measure(s, index, 0, elements)
  {
    t, next, renderSize := s, index, 0;
    var i := 0;
    while i < |elements|
      invariant i <= |elements|
      invariant Measure(s, index, 0, elements) == Measure(t, next, renderSize, elements[i..])
    {
      assert elements[i..][1..] == elements[i + 1..];
      var elementSize := elements[i];
      if elementSize != 0 {
        var front := BehindBefore(t, next);
        t := Place(t, next, Record(elementSize, front, front + elementSize));
        renderSize := renderSize + elementSize;
        next := next + 1;
      }
      i := i + 1;
    }
    assert elements[i..] == [];
  }

  /** The second loop of `_updateSizes`, on a copy of the ledger: estimate every slot from `from` on. */
  method FillTrailing(s: Ledger, from: nat, optionSize: nat, average: nat) returns (t: Ledger)
    ensures t == Fill(s, from, optionSize, average)
  {
    t := s;
    var j := from;
    while j < |t|
      invariant |t| == |s|
      invariant Fill(s, from, optionSize, average) == Fill(t, j, optionSize, average)
      decreases |t| - j
    {
      var estimate := SizeAt(t, j, optionSize, average);
      var front := BehindBefore(t, j);
      t := t[j := Some(Record(estimate, front, front + estimate))];
      j := j + 1;
    }
  }

  /**
   * The body of `_updateSizes` on a copy of the ledger: the two loops and
   * the new average between them. The result has `count` slots, no holes
   * and consistent records.
   */
  method Rebuild(s: Ledger, start: nat, end: nat, count: nat, elements: seq<nat>, optionSize: nat, prior: nat)
    returns (t: Ledger, average: nat)
    requires Consistent(s) && |Positives(elements)| > 0
    requires (NoHoles(s) && |s| == count) || (s == [] && start == 0 && end == 0)
    ensures average == AverageAfter(prior, Sum(Positives(elements)), |Positives(elements)|) && average >= 1
    ensures t == Rebuilt(s, start, end, count, elements, optionSize, average)
    ensures |t| == count && NoHoles(t) && Consistent(t)
  {
    var ledger, index, renderSize := MeasureBatch(s, start, elements);
    MeasureFrame(s, start, 0, elements);
    average := AverageAfter(prior, renderSize, index - start);
    SumOfPositives(Positives(elements));
    AverageAfterPositive(prior, renderSize, index - start);
    t := FillTrailing(Resize(ledger, count), end + 1, optionSize, average);
    RebuiltSound(s, start, end, count, elements, optionSize, average);
  }

  /**
   * The guard of `_updateRange` that keeps the stored range `r`: the window
   * has not moved, or its start moved against the scroll direction `d`.
   */
  predicate Keeps(r: Range, d: Direction, w: Window)
  {
    (w.start == r.start && w.end == r.end) ||
    (d == Front && w.start > r.start) ||
    (d == Behind && w.start < r.start)
  }

  /**
   * The direction `_handleScroll` reads from a move of the scroll offset
   * from `prior` to `next`: toward the front, toward the back, or none.
   */
  function ScrollDirection(prior: int, next: int): (d: Direction)
    ensures d == Front <==> next < prior
    ensures d == Behind <==> next > prior
  {
    if next < prior then Front else if next > prior then Behind else NoDirection
  }

  class Virtual {
    /** `options.count`, `options.buffer`, `options.size`. */
    const count: nat
    const buffer: nat
    const size: nat

    var sizes: Ledger
    var range: Range
    var offset: int
    var averageSize: nat
    var scrollDirection: Direction

    /**
     * The ledger has no holes; it is empty (nothing measured yet, and the
     * range still at its initial slot 0) or has one record per item; the
     * range lies within `[0, lastIndex]`.
     */
    ghost predicate Valid()
      reads this
    {
      NoHoles(sizes) && Consistent(sizes) &&
      (|sizes| == 0 || |sizes| == count) &&
      (|sizes| == 0 ==> range.start == 0 && range.end == 0) &&
      range.start <= range.end <= LastIndex()
    }

    /** The state the constructor sets up before its first `refresh`. */
    constructor (count: nat, buffer: nat, size: nat)
      ensures Valid()
      ensures this.count == count && this.buffer == buffer && this.size == size
      ensures sizes == [] && range == Range(0, 0, 0, 0, 0) && offset == 0 && averageSize == 0
      ensures scrollDirection == NoDirection
    {
      this.count := count;
      this.buffer := buffer;
      this.size := size;
      sizes := [];
      range := Range(0, 0, 0, 0, 0);
      offset := 0;
      averageSize := 0;
      scrollDirection := NoDirection;
    }

    /** `_getLastIndex()`. */
    function LastIndex(): (r: nat)
      reads this
      ensures count == 0 ==> r == 0
      ensures count > 0 ==> r + 1 == count
    {
      Max(0, count - 1)
    }

    /** `getSize(index)`. */
    function GetSize(index: nat): nat
      reads this
    {
      SizeAt(sizes, index, size, averageSize)
    }

    /** `_getTotalSize()`: the `behind` of the last record, or 0 without one. */
    function TotalSize(): nat
      reads this
    {
      BehindBefore(sizes, LastIndex() + 1)
    }

    /** On a contiguous ledger of `count` records, the total size is the sum of all record sizes. */
    lemma TotalSizeIsSum()
      requires Chained(sizes, 0, |sizes|) && |sizes| == count && count > 0
      ensures NoHoles(sizes)
      ensures TotalSize() == Span(sizes, 0, count)
    {
      TotalIsSum(sizes);
    }

    /**
     * `scrollToIndex(index)`: past the last index, scroll to the bottom;
     * otherwise to the record's `front` plus the scroll-start offset, which
     * throws when there is no record at `index`.
     */
    function ScrollToIndex(index: int, startOffset: int): (r: Completion<ScrollCommand>)
      reads this
      ensures r == Normal(ToBottom) <==> index > LastIndex()
      ensures r == TypeError <==> index <= LastIndex() && !(0 <= index < |sizes| && sizes[index].Some?)
      ensures r.Normal? && r.value.ToOffset? ==>
        0 <= index < |sizes| && sizes[index].Some? && r.value.offset == sizes[index].value.front + startOffset
    {
      if index > LastIndex() then Normal(ToBottom)
      else if 0 <= index < |sizes| && sizes[index].Some? then Normal(ToOffset(sizes[index].value.front + startOffset))
      else TypeError
    }

    /**
     * Round trip of `scrollToIndex` with `_getIndexByOffset`: on a contiguous
     * ledger of positive sizes, the offset scrolled to for item `index`
     * searches back to `index`, or to the item just before it, which ends
     * exactly there.
     */
    lemma ScrollToIndexRoundTrip(index: int, startOffset: int)
      requires Chained(sizes, 0, |sizes|)
      requires forall k :: 0 <= k < |sizes| ==> sizes[k].Some? && sizes[k].value.size > 0
      requires ScrollToIndex(index, startOffset).Normal? && ScrollToIndex(index, startOffset).value.ToOffset?
      ensures NoHoles(sizes)
      ensures var found := IndexByOffset(sizes, ScrollToIndex(index, startOffset).value.offset - startOffset);
        found == index || found + 1 == index
    {
      SearchAtFront(sizes, index);
    }

    /** `_getIndexByOffset(target)`: the binary search over the ledger. */
    method GetIndexByOffset(target: int) returns (r: nat)
      requires NoHoles(sizes)
      ensures r == IndexByOffset(sizes, target)
    {
      var low := 0;
      var high := |sizes| - 1;
      while low <= high
        invariant 0 <= low && high < |sizes|
        invariant Search(sizes, target, low, high) == IndexByOffset(sizes, target)
        decreases high - low + 1
      {
        var middle := (low + high) / 2;
        var rec := sizes[middle].value;
        if target >= rec.front && target <= rec.behind {
          high := middle;
          break;
        } else if target > rec.behind {
          low := middle + 1;
        } else {
          high := middle - 1;
        }
      }
      r := if high > 0 then high else 0;
    }

    /**
     * The window `_getRangeByOffset` computes for the current scroll offset,
     * once the ledger is long enough for its walk.
     */
    function Target(clientSize: int, startOffset: int): Window
      reads this
      requires Valid() && !(|sizes| == 0 && count > 0)
    {
      WindowFor(sizes, count, buffer, offset - startOffset, clientSize)
    }

    /**
     * `_getRangeByOffset()`: search the first visible index, walk forward
     * until the viewport is filled, widen by `buffer`. With an empty ledger
     * and items to show, the walk reads a missing record and throws.
     */
    method GetRangeByOffset(clientSize: int, startOffset: int) returns (r: Completion<Window>)
      requires Valid()
      ensures |sizes| == 0 && count > 0 ==> r == TypeError
      ensures !(|sizes| == 0 && count > 0) ==> r == Normal(Target(clientSize, startOffset))
    {
      var first := GetIndexByOffset(offset - startOffset);
      var end := first;
      var acc := 0;
      while end < count
        invariant first <= end
        invariant |sizes| < count ==> end == 0
        invariant count <= |sizes| ==>
          end <= count && WalkEnd(sizes, first, count, 0, clientSize) == WalkEnd(sizes, end, count, acc, clientSize)
        decreases count - end
      {
        if end >= |sizes| {
          return TypeError;
        }
        acc := acc + sizes[end].value.size;
        end := end + 1;
        if acc > clientSize {
          break;
        }
      }
      r := Normal(Window(Max(0, first - buffer), Min(LastIndex(), end + buffer)));
    }

    /**
     * `_updateSizes(elements)`: record each positive measured size from
     * `range.start` on, fold their mean into `averageSize`, set the ledger's
     * length to `count`, and re-estimate every record after `range.end`.
     */
    method UpdateSizes(elements: seq<nat>)
      requires Valid() && |Positives(elements)| > 0
      modifies this
      ensures Valid()
      ensures averageSize == AverageAfter(old(averageSize), Sum(Positives(elements)), |Positives(elements)|)
      ensures averageSize >= 1
      ensures sizes == Rebuilt(old(sizes), range.start, range.end, count, elements, size, averageSize)
      ensures |sizes| == count
      ensures range == old(range) && offset == old(offset) && scrollDirection == old(scrollDirection)
    {
      var ledger, average := Rebuild(sizes, range.start, range.end, count, elements, size, averageSize);
      averageSize := average;
      sizes := ledger;
    }

    /**
     * Where `_updateRange` leaves the range once the ledger is full: the
     * window for the current offset, unless the guard keeps `prior`; an
     * `onUpdate` carrying the new range is emitted exactly when it moves.
     */
    predicate Settled(prior: Range, clientSize: int, startOffset: int, emitted: seq<Range>)
      reads this
    {
      NoHoles(sizes) && |sizes| == count &&
      var w := WindowFor(sizes, count, buffer, offset - startOffset, clientSize);
      if Keeps(prior, scrollDirection, w) then range == prior && emitted == []
      else w.start < count && w.end < count && range == RangeOf(sizes, count, w) && emitted == [range]
    }

    /**
     * What one `_updateRange` call does, from the state before it: nothing
     * for an empty list or a hidden element; a first `refresh` when the
     * ledger is empty; a `TypeError` exactly when the ledger is still empty
     * afterwards; otherwise the range settles on the window.
     */
    twostate predicate RangeUpdated(invisible: bool, elements: seq<nat>, clientSize: int, startOffset: int,
                                    emitted: seq<Range>, thrown: bool)
      reads this
    {
      (thrown <==> count > 0 && !invisible && |sizes| == 0) &&
      (count == 0 || invisible || thrown ==>
         sizes == old(sizes) && range == old(range) && averageSize == old(averageSize) && emitted == []) &&
      (old(|sizes|) > 0 ==> sizes == old(sizes) && averageSize == old(averageSize)) &&
      (count > 0 && !invisible && old(|sizes|) == 0 && |Positives(elements)| > 0 ==>
         averageSize == AverageAfter(old(averageSize), Sum(Positives(elements)), |Positives(elements)|) &&
         sizes == Rebuilt(old(sizes), old(range.start), old(range.end), count, elements, size, averageSize)) &&
      (count > 0 && !invisible && !thrown ==> Settled(old(range), clientSize, startOffset, emitted))
    }

    /**
     * `_updateRange()`: nothing for an empty list or a hidden element; with
     * an empty ledger, `refresh` first; then compute the window and, unless
     * the guard keeps the old one, store the new range and emit `onUpdate`.
     * The stored start never moves against the scroll direction.
     */
    method UpdateRange(invisible: bool, elements: seq<nat>, clientSize: int, startOffset: int)
      returns (emitted: seq<Range>, thrown: bool)
      requires Valid()
      requires count > 0 && !invisible && |sizes| == 0 ==> Measurable(elements)
      modifies this
      decreases if count > 0 && |sizes| == 0 then 3 else 0
      ensures Valid()
      ensures RangeUpdated(invisible, elements, clientSize, startOffset, emitted, thrown)
      ensures offset == old(offset) && scrollDirection == old(scrollDirection)
      ensures scrollDirection == Front ==> range.start <= old(range.start)
      ensures scrollDirection == Behind ==> range.start >= old(range.start)
    {
      emitted := [];
      thrown := false;
      if count == 0 || invisible {
        return;
      }
      if |sizes| == 0 {
        emitted, thrown := FirstRange(elements, clientSize, startOffset);
        return;
      }
      emitted, thrown := Settle(clientSize, startOffset);
    }

    /**
     * `_updateRange` on a visible list whose ledger is still empty: the
     * nested `refresh` measures the batch and settles the range; the window
     * computed after it is the one `refresh` settled on, so nothing more is
     * emitted. With no rendered element the ledger stays empty and the
     * window computation throws.
     */
    method FirstRange(elements: seq<nat>, clientSize: int, startOffset: int) returns (emitted: seq<Range>, thrown: bool)
      requires Valid() && count > 0 && |sizes| == 0 && Measurable(elements)
      modifies this
      decreases 2
      ensures Valid()
      ensures RangeUpdated(false, elements, clientSize, startOffset, emitted, thrown)
      ensures offset == old(offset) && scrollDirection == old(scrollDirection)
      ensures scrollDirection == Front ==> range.start <= old(range.start)
      ensures scrollDirection == Behind ==> range.start >= old(range.start)
    {
      var _, inner := Refresh(false, elements, clientSize, startOffset);
      if |sizes| > 0 {
        assert Keeps(range, scrollDirection, WindowFor(sizes, count, buffer, offset - startOffset, clientSize));
      }
      var more;
      more, thrown := Settle(clientSize, startOffset);
      emitted := inner + more;
    }

    /**
     * The rest of `_updateRange` once the list is known to be non-empty and
     * visible: compute the window (a `TypeError` while the ledger is still
     * empty) and, unless the guard keeps the stored range, store the new
     * one and emit `onUpdate`.
     */
    method Settle(clientSize: int, startOffset: int) returns (emitted: seq<Range>, thrown: bool)
      requires Valid() && count > 0
      modifies this
      ensures Valid()
      ensures thrown <==> |sizes| == 0
      ensures sizes == old(sizes) && averageSize == old(averageSize)
      ensures offset == old(offset) && scrollDirection == old(scrollDirection)
      ensures thrown ==> range == old(range) && emitted == []
      ensures !thrown ==> Settled(old(range), clientSize, startOffset, emitted)
      ensures scrollDirection == Front ==> range.start <= old(range.start)
      ensures scrollDirection == Behind ==> range.start >= old(range.start)
    {
      emitted := [];
      thrown := false;
      var result := GetRangeByOffset(clientSize, startOffset);
      if result.TypeError? {
        thrown := true;
        return;
      }
      var w := result.value;
      if Keeps(range, scrollDirection, w) {
        return;
      }
      WindowForSpec(sizes, count, buffer, offset - startOffset, clientSize);
      range := RangeOf(sizes, count, w);
      emitted := [range];
    }

    /**
     * `refresh()`: for a visible element with rendered children, first
     * correct the scroll offset by how much the first rendered item differs
     * from its recorded size (only when scrolling towards the front), then
     * `_updateSizes` and `_updateRange`. The nested `_updateRange` cannot
     * throw: the ledger is full by the time it reads it.
     */
    method Refresh(invisible: bool, elements: seq<nat>, clientSize: int, startOffset: int)
      returns (correction: Option<int>, emitted: seq<Range>)
      requires Valid()
      requires !invisible ==> Measurable(elements)
      modifies this
      decreases 1
      ensures Valid()
      ensures invisible || elements == [] ==>
        sizes == old(sizes) && range == old(range) && averageSize == old(averageSize) &&
        correction == None && emitted == []
      ensures !invisible && elements != [] ==>
        correction == (if old(scrollDirection) == Front
                       then Some(old(offset) + elements[0] - old(GetSize(range.start)))
                       else None) &&
        averageSize == AverageAfter(old(averageSize), Sum(Positives(elements)), |Positives(elements)|) &&
        averageSize >= 1 &&
        sizes == Rebuilt(old(sizes), old(range.start), old(range.end), count, elements, size, averageSize) &&
        (count == 0 ==> range == old(range) && emitted == []) &&
        (count > 0 ==> Settled(old(range), clientSize, startOffset, emitted))
      ensures offset == old(offset) && scrollDirection == old(scrollDirection)
      ensures scrollDirection == Front ==> range.start <= old(range.start)
      ensures scrollDirection == Behind ==> range.start >= old(range.start)
    {
      correction := None;
      emitted := [];
      if invisible || elements == [] {
        return;
      }
      if scrollDirection == Front {
        correction := Some(offset + elements[0] - GetSize(range.start));
      }
      UpdateSizes(elements);
      var thrown;
      emitted, thrown := UpdateRange(invisible, elements, clientSize, startOffset);
      assert !thrown;
    }

    /**
     * `_handleScroll()` for a new scroll offset: classify the direction,
     * store offset and direction, emit `onScroll`, and unless there is no
     * direction or the range already touches the end being scrolled to,
     * `_updateRange`.
     */
    method HandleScroll(newOffset: int, clientSize: int, scrollSize: int, invisible: bool,
                        elements: seq<nat>, startOffset: int)
      returns (event: ScrollEvent, emitted: seq<Range>, thrown: bool)
      requires Valid()
      requires count > 0 && !invisible && |sizes| == 0 && !Halts(ScrollDirection(offset, newOffset)) ==>
        Measurable(elements)
      modifies this
      ensures Valid()
      ensures event.top <==> count != 0 && newOffset <= 0
      ensures event.bottom <==> clientSize + newOffset + 1 >= scrollSize
      ensures event.offset == newOffset && offset == newOffset
      ensures event.direction == Front <==> newOffset < old(offset)
      ensures event.direction == Behind <==> newOffset > old(offset)
      ensures scrollDirection == event.direction
      ensures scrollDirection == Front ==> range.start <= old(range.start)
      ensures scrollDirection == Behind ==> range.start >= old(range.start)
      ensures old(Halts(event.direction)) ==>
        sizes == old(sizes) && range == old(range) && averageSize == old(averageSize) &&
        emitted == [] && !thrown
      ensures !old(Halts(event.direction)) ==>
        RangeUpdated(invisible, elements, clientSize, startOffset, emitted, thrown)
    {
      var direction := ScrollDirection(offset, newOffset);
      event := ScrollEvent(count != 0 && newOffset <= 0, clientSize + newOffset + 1 >= scrollSize, newOffset, direction);
      offset := newOffset;
      scrollDirection := direction;
      emitted := [];
      thrown := false;
      if Halts(direction) {
        return;
      }
      emitted, thrown := UpdateRange(invisible, elements, clientSize, startOffset);
    }

    /** The early exit of `_handleScroll`: no direction, or the range already at the end being scrolled to. */
    predicate Halts(d: Direction)
      reads this
    {
      d == NoDirection || (d == Front && range.start == 0) || (d == Behind && range.end == LastIndex())
    }
  }

  /**
   * A fresh tracker with an empty ledger, scrolled without moving: the
   * early exit returns before `_updateRange`, so even a batch of zero sizes
   * emits no range, throws nothing and leaves the ledger empty.
   */
  method IdleScrollOnFreshTracker() returns (event: ScrollEvent, emitted: seq<Range>, thrown: bool, ledger: Ledger)
    ensures event.direction == NoDirection && event.offset == 0
    ensures emitted == [] && !thrown && ledger == []
  {
    var tracker := new Virtual(3, 2, 0);
    event, emitted, thrown := tracker.HandleScroll(0, 100, 300, false, [0], 0);
    ledger := tracker.sizes;
  }
}
