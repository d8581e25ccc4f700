/**
 * The size ledger of the ledger-based tracker (dist/tiny-virtual-list.js):
 * a JavaScript array of `{size, front, behind}` records, one per item index,
 * where `front` is the cumulative size before the item and `behind` the
 * cumulative size through it. The array may have holes (a slot never written,
 * or past its end), modelled as `None`.
 *
 * This module holds the value-level definitions that the tracker's loops are
 * proved against: the two loops of `_updateSizes`, the binary search of
 * `_getIndexByOffset` and the window walk of `_getRangeByOffset`.
 */
module TinyLedger {
  import opened Rounding
  import opened Wrappers

  /** One ledger entry. */
  datatype Record = Record(size: nat, front: nat, behind: nat)

  type Ledger = seq<Option<Record>>

  /** `sizes[i]`: a slot past the end of the array reads as a hole. */
  function At(s: Ledger, i: nat): Option<Record>
  {
    if i < |s| then s[i] else None
  }

  /** Every slot of the array holds a record. */
  predicate NoHoles(s: Ledger)
  {
    forall i :: 0 <= i < |s| ==> s[i].Some?
  }

  /**
   * `getSize(i)`: `sizes[i]?.size || options.size || averageSize`. A
   * record of size 0 counts as missing, as JavaScript's `||` treats 0.
   */
  function SizeAt(s: Ledger, i: nat, optionSize: nat, average: nat): (r: nat)
    ensures At(s, i).Some? && At(s, i).value.size > 0 ==> r == At(s, i).value.size
    ensures !(At(s, i).Some? && At(s, i).value.size > 0) ==> r == if optionSize > 0 then optionSize else average
    ensures r == 0 <==> !(At(s, i).Some? && At(s, i).value.size > 0) && optionSize == 0 && average == 0
  {
    if At(s, i).Some? && At(s, i).value.size != 0 then At(s, i).value.size
    else if optionSize != 0 then optionSize
    else average
  }

  /** `sizes[i - 1]?.behind || 0`: where the record at i starts. */
  function BehindBefore(s: Ledger, i: nat): nat
  {
    if i == 0 then 0
    else if At(s, i - 1).Some? then At(s, i - 1).value.behind
    else 0
  }

  /** `sizes[i] = r`, which grows the array with holes when i is past its end. */
  function Place(s: Ledger, i: nat, r: Record): (t: Ledger)
    ensures |t| == Max(|s|, i + 1)
    ensures forall j :: 0 <= j < |t| ==> t[j] == if j == i then Some(r) else At(s, j)
  {
    if i < |s| then s[i := Some(r)] else s + seq(i - |s|, _ => None) + [Some(r)]
  }

  /** `sizes.length = n`: truncates, or extends with holes. */
  function Resize(s: Ledger, n: nat): (t: Ledger)
    ensures |t| == n
    ensures forall j :: 0 <= j < n ==> t[j] == At(s, j)
  {
    if n <= |s| then s[..n] else s + seq(n - |s|, _ => None)
  }

  /** The positive sizes of a batch, in order: the elements `_updateSizes` records. */
  function Positives(e: seq<nat>): (p: seq<nat>)
    ensures |p| <= |e|
    ensures forall k :: 0 <= k < |p| ==> p[k] > 0
  {
    if e == [] then []
    else if e[0] == 0 then Positives(e[1..])
    else [e[0]] + Positives(e[1..])
  }

  /** Dropping the zero sizes keeps exactly the positive ones and does not change the total. */
  lemma {:induction false} PositivesSpec(e: seq<nat>)
    ensures forall x :: x in Positives(e) <==> x in e && x > 0
    ensures Sum(Positives(e)) == Sum(e)
  {
    if e != [] {
      PositivesSpec(e[1..]);
      assert forall x :: x in e <==> x == e[0] || x in e[1..];
      if e[0] != 0 {
        assert ([e[0]] + Positives(e[1..]))[1..] == Positives(e[1..]);
      }
    }
  }

  function Sum(e: seq<nat>): nat
  {
    if e == [] then 0 else e[0] + Sum(e[1..])
  }

  /**
   * The records of `s` from `lo` up to `hi` form a contiguous chain: each
   * has `behind == front + size`, and each starts where the slot before it
   * ends (at 0 for index 0, or after a hole).
   */
  predicate Chained(s: Ledger, lo: nat, hi: nat)
  {
    forall k :: lo <= k < hi ==> Linked(s, k)
  }

  /** The record at k exists, ends `size` after its front, and starts where slot k - 1 ends. */
  predicate Linked(s: Ledger, k: nat)
  {
    k < |s| && s[k].Some? && s[k].value.behind == s[k].value.front + s[k].value.size &&
    s[k].value.front == BehindBefore(s, k)
  }

  // ---------------------------------------------------------------------------
  // The first loop of `_updateSizes`: record each measured element

  /**
   * Records the batch `e` of measured sizes at consecutive indices from
   * `index`, skipping zero sizes; returns the new ledger, the next index and
   * the accumulated rendered size.
   */
  function Measure(s: Ledger, index: nat, renderSize: nat, e: seq<nat>): (Ledger, nat, nat)
    decreases |e|
  {
    if e == [] then (s, index, renderSize)
    else if e[0] == 0 then Measure(s, index, renderSize, e[1..])
    else
      var front := BehindBefore(s, index);
      Measure(Place(s, index, Record(e[0], front, front + e[0])), index + 1, renderSize + e[0], e[1..])
  }

  /**
   * The bookkeeping of the first loop: the index advances once per positive
   * size, the rendered size grows by their sum, the array grows to the last
   * index written, and no slot outside the measured run changes.
   */
  lemma {:induction false} MeasureFrame(s: Ledger, index: nat, renderSize: nat, e: seq<nat>)
    ensures var m := Measure(s, index, renderSize, e);
      m.1 == index + |Positives(e)| &&
      m.2 == renderSize + Sum(Positives(e)) &&
      |m.0| == (if m.1 == index then |s| else Max(|s|, m.1)) &&
      (forall j :: 0 <= j < |m.0| && !(index <= j < m.1) ==> m.0[j] == At(s, j))
    decreases |e|
  {
    if e == [] {
    } else if e[0] == 0 {
      MeasureFrame(s, index, renderSize, e[1..]);
    } else {
      var front := BehindBefore(s, index);
      var s' := Place(s, index, Record(e[0], front, front + e[0]));
      MeasureFrame(s', index + 1, renderSize + e[0], e[1..]);
      var m := Measure(s', index + 1, renderSize + e[0], e[1..]);
      assert Measure(s, index, renderSize, e) == m;
      assert Positives(e) == [e[0]] + Positives(e[1..]);
      forall j | 0 <= j < |m.0| && !(index <= j < m.1)
        ensures m.0[j] == At(s, j)
      {
        assert m.0[j] == At(s', j);
      }
    }
  }

  /** The positive sizes of the batch land at consecutive indices from `index`. */
  lemma {:induction false} MeasureSizes(s: Ledger, index: nat, renderSize: nat, e: seq<nat>)
    ensures var m := Measure(s, index, renderSize, e);
      m.1 == index + |Positives(e)| &&
      forall j :: index <= j < m.1 ==> j < |m.0| && m.0[j].Some? && m.0[j].value.size == Positives(e)[j - index]
    decreases |e|
  {
    MeasureFrame(s, index, renderSize, e);
    if e == [] {
    } else if e[0] == 0 {
      MeasureSizes(s, index, renderSize, e[1..]);
      assert Positives(e) == Positives(e[1..]);
    } else {
      var front := BehindBefore(s, index);
      var s' := Place(s, index, Record(e[0], front, front + e[0]));
      MeasureSizes(s', index + 1, renderSize + e[0], e[1..]);
      MeasureFrame(s', index + 1, renderSize + e[0], e[1..]);
      var m := Measure(s', index + 1, renderSize + e[0], e[1..]);
      assert Measure(s, index, renderSize, e) == m;
      var p := Positives(e);
      assert p == [e[0]] + Positives(e[1..]);
      forall j | index <= j < m.1
        ensures j < |m.0| && m.0[j].Some? && m.0[j].value.size == p[j - index]
      {
        if j == index {
          assert m.0[index] == At(s', index);
        } else {
          assert p[j - index] == Positives(e[1..])[j - (index + 1)];
        }
      }
    }
  }

  /**
   * The records the first loop writes form a contiguous chain that starts
   * where the slot before `index` ends.
   */
  lemma {:induction false} MeasureChain(s: Ledger, index: nat, renderSize: nat, e: seq<nat>)
    ensures var m := Measure(s, index, renderSize, e);
      Chained(m.0, index, m.1)
    decreases |e|
  {
    if e == [] {
    } else if e[0] == 0 {
      MeasureChain(s, index, renderSize, e[1..]);
    } else {
      var front := BehindBefore(s, index);
      var r := Record(e[0], front, front + e[0]);
      var s' := Place(s, index, r);
      MeasureChain(s', index + 1, renderSize + e[0], e[1..]);
      MeasureFrame(s', index + 1, renderSize + e[0], e[1..]);
      var m := Measure(s', index + 1, renderSize + e[0], e[1..]);
      var t := m.0;
      assert Measure(s, index, renderSize, e) == m;
      assert Linked(t, index) by {
        assert t[index] == At(s', index);
        if index > 0 {
          assert t[index - 1] == At(s', index - 1);
        }
      }
    }
  }

  // ---------------------------------------------------------------------------
  // The second loop of `_updateSizes`: estimate the trailing entries

  /**
   * Rewrites every slot from `i` to the end of `s` with an estimated record:
   * size `getSize(i)`, chained after the slot before it.
   */
  function Fill(s: Ledger, i: nat, optionSize: nat, average: nat): Ledger
    decreases |s| - i
  {
    if i >= |s| then s
    else
      var size := SizeAt(s, i, optionSize, average);
      var front := BehindBefore(s, i);
      Fill(s[i := Some(Record(size, front, front + size))], i + 1, optionSize, average)
  }

  /**
   * What the trailing loop does: the length stays, slots before `i` stay,
   * and from `i` on every slot holds a record whose size is what `getSize`
   * gave for it beforehand, chained contiguously to the last index.
   */
  lemma {:induction false} FillSpec(s: Ledger, i: nat, optionSize: nat, average: nat)
    ensures var t := Fill(s, i, optionSize, average);
      |t| == |s| &&
      (forall j :: 0 <= j < |s| && j < i ==> t[j] == s[j]) &&
      (forall j :: i <= j < |s| ==> t[j].Some? && t[j].value.size == SizeAt(s, j, optionSize, average)) &&
      Chained(t, i, |s|)
    decreases |s| - i
  {
    if i < |s| {
      var size := SizeAt(s, i, optionSize, average);
      var front := BehindBefore(s, i);
      var s' := s[i := Some(Record(size, front, front + size))];
      FillSpec(s', i + 1, optionSize, average);
      var t := Fill(s', i + 1, optionSize, average);
      assert Fill(s, i, optionSize, average) == t;
      forall j | i <= j < |s|
        ensures t[j].Some? && t[j].value.size == SizeAt(s, j, optionSize, average)
      {
        if j > i {
          assert SizeAt(s', j, optionSize, average) == SizeAt(s, j, optionSize, average);
        }
      }
      assert BehindBefore(t, i) == front by {
        if i > 0 {
          assert t[i - 1] == s'[i - 1];
        }
      }
    }
  }

  // ---------------------------------------------------------------------------
  // `_updateSizes` as a whole

  /**
   * The new damped average: `round(batchMean)` without a prior estimate,
   * otherwise `round((batchMean + prior) / 2)`, where the batch mean is
   * `renderSize / n`.
   */
  function AverageAfter(prior: nat, renderSize: nat, n: nat): (r: nat)
    requires n > 0
    ensures prior == 0 ==> n * (2 * r - 1) <= 2 * renderSize < n * (2 * r + 1)
    ensures prior != 0 ==> n * (2 * r - 1) <= renderSize + prior * n < n * (2 * r + 1)
  {
    if prior == 0 then RoundDiv(renderSize, n)
    else
      var r := RoundDiv(renderSize + prior * n, 2 * n);
      assert 2 * n * (2 * r - 1) <= 2 * (renderSize + prior * n) < 2 * n * (2 * r + 1);
      r
  }

  /** A batch with at least one positive size gives a positive average. */
  lemma AverageAfterPositive(prior: nat, renderSize: nat, n: nat)
    requires n > 0 && renderSize >= n
    ensures AverageAfter(prior, renderSize, n) >= 1
  {
    var r := AverageAfter(prior, renderSize, n);
    if prior == 0 {
      RoundDivAtLeastOne(renderSize, n);
    } else {
      RoundDivAtLeastOne(renderSize + prior * n, 2 * n);
    }
  }

  /** A batch with a positive size moves the average to at least 1. */
  lemma AverageOfBatch(prior: nat, e: seq<nat>)
    requires |Positives(e)| > 0
    ensures AverageAfter(prior, Sum(Positives(e)), |Positives(e)|) >= 1
  {
    SumOfPositives(Positives(e));
    AverageAfterPositive(prior, Sum(Positives(e)), |Positives(e)|);
  }

  /** The sizes of a batch of positive sizes sum to at least their count. */
  lemma {:induction false} SumOfPositives(p: seq<nat>)
    requires forall k :: 0 <= k < |p| ==> p[k] > 0
    ensures Sum(p) >= |p|
  {
    if p != [] {
      SumOfPositives(p[1..]);
    }
  }

  /**
   * The ledger after `_updateSizes`: record the batch from `start`, set the
   * length to `count`, then estimate every slot after `end`.
   */
  function Rebuilt(s: Ledger, start: nat, end: nat, count: nat, e: seq<nat>, optionSize: nat, average: nat): Ledger
  {
    Fill(Resize(Measure(s, start, 0, e).0, count), end + 1, optionSize, average)
  }

  /**
   * The ledger between the two loops: the measured batch recorded, then the
   * length set to `count`.
   */
  lemma MidSpec(s: Ledger, start: nat, count: nat, e: seq<nat>)
    ensures var mid := Resize(Measure(s, start, 0, e).0, count);
      var p := Positives(e);
      |mid| == count &&
      (forall j :: start <= j < start + |p| && j < count ==> mid[j].Some? && mid[j].value.size == p[j - start]) &&
      Chained(mid, start, Min(start + |p|, count)) &&
      (forall j :: 0 <= j < count && !(start <= j < start + |p|) ==> mid[j] == At(s, j))
  {
    MidMeasured(s, start, count, e);
    MidFrame(s, start, count, e);
    MidRunChained(s, start, count, e);
  }

  /** Between the loops, the slots of the measured run hold the batch's positive sizes. */
  lemma MidMeasured(s: Ledger, start: nat, count: nat, e: seq<nat>)
    ensures var mid := Resize(Measure(s, start, 0, e).0, count);
      var p := Positives(e);
      forall j :: start <= j < start + |p| && j < count ==> mid[j].Some? && mid[j].value.size == p[j - start]
  {
    var p := Positives(e);
    var m := Measure(s, start, 0, e).0;
    var next := Measure(s, start, 0, e).1;
    MeasureFrame(s, start, 0, e);
    MeasureSizes(s, start, 0, e);
    assert next == start + |p|;
    var mid := Resize(m, count);
    forall j | start <= j < next && j < count
      ensures mid[j].Some? && mid[j].value.size == p[j - start]
    {
      assert mid[j] == At(m, j) == m[j];
    }
  }

  /** Between the loops, every slot outside the measured run is the old one. */
  lemma MidFrame(s: Ledger, start: nat, count: nat, e: seq<nat>)
    ensures var mid := Resize(Measure(s, start, 0, e).0, count);
      var p := Positives(e);
      forall j :: 0 <= j < count && !(start <= j < start + |p|) ==> mid[j] == At(s, j)
  {
    var p := Positives(e);
    var m := Measure(s, start, 0, e).0;
    MeasureFrame(s, start, 0, e);
    var mid := Resize(m, count);
    forall j | 0 <= j < count && !(start <= j < start + |p|)
      ensures mid[j] == At(s, j)
    {
      assert mid[j] == At(m, j);
      if j < |m| {
        assert m[j] == At(s, j);
      }
    }
  }

  /** Between the loops, the measured run is one chain. */
  lemma MidRunChained(s: Ledger, start: nat, count: nat, e: seq<nat>)
    ensures Chained(Resize(Measure(s, start, 0, e).0, count), start, Min(start + |Positives(e)|, count))
  {
    var m := Measure(s, start, 0, e).0;
    var next := Measure(s, start, 0, e).1;
    MeasureFrame(s, start, 0, e);
    MeasureChain(s, start, 0, e);
    var mid := Resize(m, count);
    forall k | start <= k < Min(next, count)
      ensures Linked(mid, k)
    {
      assert Linked(m, k);
      assert mid[k] == m[k];
      if k > 0 {
        assert mid[k - 1] == m[k - 1];
      }
    }
  }

  /**
   * What `_updateSizes` leaves in the ledger: exactly `count` slots; the
   * positive measured sizes at consecutive indices from `start`; a contiguous
   * chain over the measured run up to `end`, and another from `end + 1` to
   * the last index; every trailing slot holds the measured size where the
   * batch measured it and `getSize` of the old ledger otherwise; no other
   * slot below `count` changes.
   */
  lemma RebuiltSpec(s: Ledger, start: nat, end: nat, count: nat, e: seq<nat>, optionSize: nat, average: nat)
    ensures var t := Rebuilt(s, start, end, count, e, optionSize, average);
      var p := Positives(e);
      |t| == count &&
      (forall j :: start <= j < start + |p| && j < count ==> t[j].Some? && t[j].value.size == p[j - start]) &&
      Chained(t, start, Min(Min(start + |p|, end + 1), count)) &&
      Chained(t, end + 1, count) &&
      (forall j :: end < j < count && !(start <= j < start + |p|) ==>
         t[j].Some? && t[j].value.size == SizeAt(s, j, optionSize, average)) &&
      (forall j :: 0 <= j < count && j <= end && !(start <= j < start + |p|) ==> t[j] == At(s, j))
  {
    RebuiltMeasured(s, start, end, count, e, optionSize, average);
    RebuiltEstimated(s, start, end, count, e, optionSize, average);
    RebuiltChain(s, start, end, count, e, optionSize, average);
  }

  /** The measured sizes survive both loops, and slots up to `end` outside the batch keep their old contents. */
  lemma RebuiltMeasured(s: Ledger, start: nat, end: nat, count: nat, e: seq<nat>, optionSize: nat, average: nat)
    ensures var t := Rebuilt(s, start, end, count, e, optionSize, average);
      var p := Positives(e);
      |t| == count &&
      (forall j :: start <= j < start + |p| && j < count ==> t[j].Some? && t[j].value.size == p[j - start]) &&
      (forall j :: 0 <= j < count && j <= end && !(start <= j < start + |p|) ==> t[j] == At(s, j))
  {
    var p := Positives(e);
    var mid := Resize(Measure(s, start, 0, e).0, count);
    MidSpec(s, start, count, e);
    FillSpec(mid, end + 1, optionSize, average);
    var t := Fill(mid, end + 1, optionSize, average);
    forall j | start <= j < start + |p| && j < count
      ensures t[j].Some? && t[j].value.size == p[j - start]
    {
      if j > end {
        assert SizeAt(mid, j, optionSize, average) == p[j - start];
      }
    }
  }

  /** Each trailing slot outside the batch holds what `getSize` gave for it before the update. */
  lemma RebuiltEstimated(s: Ledger, start: nat, end: nat, count: nat, e: seq<nat>, optionSize: nat, average: nat)
    ensures var t := Rebuilt(s, start, end, count, e, optionSize, average);
      var p := Positives(e);
      |t| == count &&
      (forall j :: end < j < count && !(start <= j < start + |p|) ==>
         t[j].Some? && t[j].value.size == SizeAt(s, j, optionSize, average))
  {
    var p := Positives(e);
    var mid := Resize(Measure(s, start, 0, e).0, count);
    MidSpec(s, start, count, e);
    FillSpec(mid, end + 1, optionSize, average);
    var t := Fill(mid, end + 1, optionSize, average);
    forall j | end < j < count && !(start <= j < start + |p|)
      ensures t[j].Some? && t[j].value.size == SizeAt(s, j, optionSize, average)
    {
      assert mid[j] == At(s, j);
    }
  }

  /** The measured run up to `end` and the estimated tail are each contiguous chains. */
  lemma RebuiltChain(s: Ledger, start: nat, end: nat, count: nat, e: seq<nat>, optionSize: nat, average: nat)
    ensures var t := Rebuilt(s, start, end, count, e, optionSize, average);
      var p := Positives(e);
      Chained(t, start, Min(Min(start + |p|, end + 1), count)) &&
      Chained(t, end + 1, count)
  {
    var p := Positives(e);
    var mid := Resize(Measure(s, start, 0, e).0, count);
    MidSpec(s, start, count, e);
    FillSpec(mid, end + 1, optionSize, average);
    var t := Fill(mid, end + 1, optionSize, average);
    var hi := Min(Min(start + |p|, end + 1), count);
    forall k | start <= k < hi
      ensures Linked(t, k)
    {
      assert Linked(mid, k);
      assert t[k] == mid[k];
      if k > 0 {
        assert t[k - 1] == mid[k - 1];
      }
    }
  }

  /** `_updateSizes` leaves exactly `count` slots. */
  lemma RebuiltLength(s: Ledger, start: nat, end: nat, count: nat, e: seq<nat>, optionSize: nat, average: nat)
    ensures |Rebuilt(s, start, end, count, e, optionSize, average)| == count
  {
    FillSpec(Resize(Measure(s, start, 0, e).0, count), end + 1, optionSize, average);
  }

  /** `_updateSizes` never leaves a hole in a ledger that had none, nor in a fresh one measured from index 0. */
  lemma RebuiltNoHoles(s: Ledger, start: nat, end: nat, count: nat, e: seq<nat>, optionSize: nat, average: nat)
    requires (NoHoles(s) && |s| == count) || (s == [] && start == 0 && end == 0 && |Positives(e)| > 0)
    ensures NoHoles(Rebuilt(s, start, end, count, e, optionSize, average))
  {
    RebuiltSpec(s, start, end, count, e, optionSize, average);
    var t := Rebuilt(s, start, end, count, e, optionSize, average);
    var p := Positives(e);
    forall j | 0 <= j < |t|
      ensures t[j].Some?
    {
      if !(start <= j < start + |p|) && j <= end {
        assert t[j] == At(s, j);
      }
    }
  }

  /** Every record ends `size` after its front: `behind == front + size`. */
  predicate Consistent(s: Ledger)
  {
    forall k :: 0 <= k < |s| ==> Sound(s, k)
  }

  /** The slot at k is a hole or a record with `behind == front + size`. */
  predicate Sound(s: Ledger, k: nat)
    requires k < |s|
  {
    s[k].Some? ==> s[k].value.behind == s[k].value.front + s[k].value.size
  }

  /** `_updateSizes` writes every record it touches with `behind = front + size`, so consistency is kept. */
  lemma RebuiltConsistent(s: Ledger, start: nat, end: nat, count: nat, e: seq<nat>, optionSize: nat, average: nat)
    requires Consistent(s)
    ensures Consistent(Rebuilt(s, start, end, count, e, optionSize, average))
  {
    RebuiltSpec(s, start, end, count, e, optionSize, average);
    var t := Rebuilt(s, start, end, count, e, optionSize, average);
    var p := Positives(e);
    forall k | 0 <= k < |t|
      ensures Sound(t, k)
    {
      if t[k].None? {
      } else if end < k {
        assert Linked(t, k);
      } else if start <= k < start + |p| {
        assert Linked(t, k);
      } else {
        assert t[k] == At(s, k);
        assert Sound(s, k);
      }
    }
  }

  /** What `Valid` needs of the rebuilt ledger: `count` slots, no holes, every record consistent. */
  lemma RebuiltSound(s: Ledger, start: nat, end: nat, count: nat, e: seq<nat>, optionSize: nat, average: nat)
    requires Consistent(s)
    requires (NoHoles(s) && |s| == count) || (s == [] && start == 0 && end == 0 && |Positives(e)| > 0)
    ensures var t := Rebuilt(s, start, end, count, e, optionSize, average);
      |t| == count && NoHoles(t) && Consistent(t)
  {
    RebuiltLength(s, start, end, count, e, optionSize, average);
    RebuiltNoHoles(s, start, end, count, e, optionSize, average);
    RebuiltConsistent(s, start, end, count, e, optionSize, average);
  }

  /**
   * When the ledger is a chain up to `start` and the batch records a
   * positive size for every index of the range `start..end`, the rebuilt
   * ledger is one chain from offset 0 to its last slot.
   */
  lemma RebuiltKeepsChain(s: Ledger, start: nat, end: nat, count: nat, e: seq<nat>, optionSize: nat, average: nat)
    requires Chained(s, 0, start)
    requires start <= end < count && end + 1 <= start + |Positives(e)|
    ensures Chained(Rebuilt(s, start, end, count, e, optionSize, average), 0, count)
  {
    RebuiltSpec(s, start, end, count, e, optionSize, average);
    var t := Rebuilt(s, start, end, count, e, optionSize, average);
    forall k | 0 <= k < count
      ensures Linked(t, k)
    {
      if k < start {
        assert Linked(s, k);
        assert t[k] == At(s, k);
        if k > 0 {
          assert t[k - 1] == At(s, k - 1);
        }
      }
    }
  }

  /**
   * `_updateSizes` with its trailing loop starting right after the measured
   * run when that run stops short of `end`: the slots the batch did not
   * reach are estimated again instead of keeping stale offsets.
   */
  function RebuiltChained(s: Ledger, start: nat, end: nat, count: nat, e: seq<nat>, optionSize: nat, average: nat): Ledger
  {
    Fill(Resize(Measure(s, start, 0, e).0, count), Min(start + |Positives(e)|, end + 1), optionSize, average)
  }

  /**
   * The corrected ledger is one chain from offset 0 to its last slot for
   * every batch, holds the batch's positive sizes from `start`, and is the
   * ledger `_updateSizes` already builds when the batch covers the range.
   */
  lemma RebuiltChainedSpec(s: Ledger, start: nat, end: nat, count: nat, e: seq<nat>, optionSize: nat, average: nat)
    requires Chained(s, 0, start)
    requires start <= end < count
    ensures var t := RebuiltChained(s, start, end, count, e, optionSize, average);
      var p := Positives(e);
      |t| == count && Chained(t, 0, count) &&
      (forall j :: start <= j < Min(start + |p|, end + 1) ==> t[j].Some? && t[j].value.size == p[j - start]) &&
      (end + 1 <= start + |p| ==> t == Rebuilt(s, start, end, count, e, optionSize, average))
  {
    var p := Positives(e);
    var f := Min(start + |p|, end + 1);
    var mid := Resize(Measure(s, start, 0, e).0, count);
    MidSpec(s, start, count, e);
    MidChained(s, start, count, e, f);
    FillSpec(mid, f, optionSize, average);
    FillKeepsChain(mid, f, optionSize, average);
    var t := Fill(mid, f, optionSize, average);
    forall j | start <= j < f
      ensures t[j].Some? && t[j].value.size == p[j - start]
    {
      assert t[j] == mid[j];
    }
  }

  /** The ledger between the loops is one chain up to any point within the measured run. */
  lemma MidChained(s: Ledger, start: nat, count: nat, e: seq<nat>, f: nat)
    requires Chained(s, 0, start)
    requires start <= f <= start + |Positives(e)| && f <= count
    ensures Chained(Resize(Measure(s, start, 0, e).0, count), 0, f)
  {
    var mid := Resize(Measure(s, start, 0, e).0, count);
    MidSpec(s, start, count, e);
    forall k | 0 <= k < start
      ensures Linked(mid, k)
    {
      assert Linked(s, k);
      assert mid[k] == At(s, k);
      if k > 0 {
        assert mid[k - 1] == At(s, k - 1);
      }
    }
    assert Chained(mid, start, f);
  }

  /** The trailing loop run from the end of a chain extends it to the last slot. */
  lemma FillKeepsChain(s: Ledger, i: nat, optionSize: nat, average: nat)
    requires Chained(s, 0, i)
    ensures Chained(Fill(s, i, optionSize, average), 0, |s|)
  {
    FillSpec(s, i, optionSize, average);
    var t := Fill(s, i, optionSize, average);
    forall k | 0 <= k < i
      ensures Linked(t, k)
    {
      assert Linked(s, k);
      assert t[k] == s[k];
      if k > 0 {
        assert t[k - 1] == s[k - 1];
      }
    }
    assert Chained(t, i, |s|);
  }

  /**
   * A batch with a zero size inside the range leaves the slots after the
   * measured run as they were, so a chain whose first record grows is no
   * longer ordered: here the first record ends at 20 while the second
   * still starts at 10.
   */
  lemma RebuiltBreaksOrder()
    ensures var s := [Some(Record(10, 0, 10)), Some(Record(10, 10, 20)), Some(Record(10, 20, 30)), Some(Record(10, 30, 40))];
      Chained(s, 0, 4) && !Monotone(Rebuilt(s, 0, 2, 4, [20, 0, 0], 0, 10))
  {
    var s := [Some(Record(10, 0, 10)), Some(Record(10, 10, 20)), Some(Record(10, 20, 30)), Some(Record(10, 30, 40))];
    assert Linked(s, 0) && Linked(s, 1) && Linked(s, 2) && Linked(s, 3);
    RebuiltSpec(s, 0, 2, 4, [20, 0, 0], 0, 10);
    var t := Rebuilt(s, 0, 2, 4, [20, 0, 0], 0, 10);
    assert Positives([20, 0, 0]) == [20];
    assert Linked(t, 0);
    assert t[1] == s[1];
    assert t[0].value.behind > t[1].value.front;
  }

  // ---------------------------------------------------------------------------
  // `_getIndexByOffset`: binary search over the ledger

  /** The record at k brackets `offset`: `front <= offset <= behind`. */
  predicate Hit(s: Ledger, k: nat, offset: int)
    requires k < |s| && s[k].Some?
  {
    s[k].value.front <= offset <= s[k].value.behind
  }

  /**
   * The search loop from bounds `low`, `high`: probe the middle record;
   * stop on a hit, otherwise halve towards the offset. When the bounds
   * cross, `high` clamped to 0 is the answer.
   */
  function Search(s: Ledger, offset: int, low: int, high: int): (r: nat)
    requires NoHoles(s) && 0 <= low && high < |s|
    ensures r == 0 || r < |s|
    decreases high - low + 1
  {
    if low > high then (if high > 0 then high else 0)
    else
      var middle := (low + high) / 2;
      var rec := s[middle].value;
      if offset >= rec.front && offset <= rec.behind then middle
      else if offset > rec.behind then Search(s, offset, middle + 1, high)
      else Search(s, offset, low, middle - 1)
  }

  /** `_getIndexByOffset(offset)`. */
  function IndexByOffset(s: Ledger, offset: int): (r: nat)
    requires NoHoles(s)
  {
    Search(s, offset, 0, |s| - 1)
  }

  /** Records are ordered: each ends no later than any later one starts. */
  predicate Monotone(s: Ledger)
  {
    NoHoles(s) &&
    (forall k :: 0 <= k < |s| ==> s[k].value.front <= s[k].value.behind) &&
    (forall i, j :: 0 <= i < j < |s| ==> s[i].value.behind <= s[j].value.front)
  }

  /** On an ordered ledger, a search whose bounds enclose every hit finds one. */
  lemma {:induction false} SearchFindsHit(s: Ledger, offset: int, low: int, high: int, k: nat)
    requires Monotone(s) && 0 <= low && high < |s|
    requires low <= k <= high && Hit(s, k, offset)
    ensures Hit(s, Search(s, offset, low, high), offset)
    decreases high - low + 1
  {
    var middle := (low + high) / 2;
    var rec := s[middle].value;
    if offset >= rec.front && offset <= rec.behind {
    } else if offset > rec.behind {
      SearchFindsHit(s, offset, middle + 1, high, k);
    } else {
      SearchFindsHit(s, offset, low, middle - 1, k);
    }
  }

  /** An offset before every record clamps to index 0. */
  lemma {:induction false} SearchBeforeAll(s: Ledger, offset: int, high: int)
    requires NoHoles(s) && high < |s|
    requires forall k :: 0 <= k < |s| ==> s[k].value.front <= s[k].value.behind
    requires forall k :: 0 <= k < |s| ==> offset < s[k].value.front
    ensures Search(s, offset, 0, high) == 0
    decreases high + 1
  {
    if 0 <= high {
      var middle := (0 + high) / 2;
      assert offset < s[middle].value.front;
      SearchBeforeAll(s, offset, middle - 1);
    }
  }

  /** An offset past every record gives the upper bound, clamped to 0. */
  lemma {:induction false} SearchAfterAll(s: Ledger, offset: int, low: int, high: int)
    requires NoHoles(s) && 0 <= low && high < |s|
    requires forall k :: 0 <= k < |s| ==> offset > s[k].value.behind
    ensures Search(s, offset, low, high) == if high > 0 then high else 0
    decreases high - low + 1
  {
    if low <= high {
      var middle := (low + high) / 2;
      assert offset > s[middle].value.behind;
      SearchAfterAll(s, offset, middle + 1, high);
    }
  }

  /** Every record of a consistent ledger ends no earlier than it starts. */
  lemma ConsistentRecordsSpan(s: Ledger)
    requires NoHoles(s) && Consistent(s)
    ensures forall k :: 0 <= k < |s| ==> s[k].value.front <= s[k].value.behind
  {
    forall k | 0 <= k < |s|
      ensures s[k].value.front <= s[k].value.behind
    {
      assert Sound(s, k);
    }
  }

  /**
   * `_getIndexByOffset` always answers an index in `[0, max(0, length-1)]`;
   * on an ordered ledger it answers a record that brackets the offset when
   * one exists; an offset before every record gives 0 on any ledger whose
   * records each end no earlier than they start (a consistent one, ordered
   * or not); and one past every record gives the last index.
   */
  lemma IndexByOffsetSpec(s: Ledger, offset: int)
    requires NoHoles(s)
    ensures var r := IndexByOffset(s, offset);
      (r == 0 || r < |s|) &&
      (Monotone(s) && (exists k :: 0 <= k < |s| && Hit(s, k, offset)) ==> Hit(s, r, offset)) &&
      ((forall k :: 0 <= k < |s| ==> s[k].value.front <= s[k].value.behind) &&
         (forall k :: 0 <= k < |s| ==> offset < s[k].value.front)
       ==> r == 0) &&
      ((forall k :: 0 <= k < |s| ==> offset > s[k].value.behind) ==> r == Max(0, |s| - 1))
  {
    if Monotone(s) && exists k :: 0 <= k < |s| && Hit(s, k, offset) {
      var k :| 0 <= k < |s| && Hit(s, k, offset);
      IndexFindsHit(s, offset, k);
    }
    if (forall k :: 0 <= k < |s| ==> s[k].value.front <= s[k].value.behind) &&
       (forall k :: 0 <= k < |s| ==> offset < s[k].value.front) {
      IndexBeforeAll(s, offset);
    }
    if forall k :: 0 <= k < |s| ==> offset > s[k].value.behind {
      IndexAfterAll(s, offset);
    }
  }

  /** The hit clause of IndexByOffsetSpec, for one bracketing record `k`. */
  lemma IndexFindsHit(s: Ledger, offset: int, k: nat)
    requires NoHoles(s) && Monotone(s) && k < |s| && Hit(s, k, offset)
    ensures Hit(s, IndexByOffset(s, offset), offset)
  {
    SearchFindsHit(s, offset, 0, |s| - 1, k);
  }

  /** The before-all clause of IndexByOffsetSpec. */
  lemma IndexBeforeAll(s: Ledger, offset: int)
    requires NoHoles(s)
    requires forall k :: 0 <= k < |s| ==> s[k].value.front <= s[k].value.behind
    requires forall k :: 0 <= k < |s| ==> offset < s[k].value.front
    ensures IndexByOffset(s, offset) == 0
  {
    SearchBeforeAll(s, offset, |s| - 1);
  }

  /** The after-all clause of IndexByOffsetSpec. */
  lemma IndexAfterAll(s: Ledger, offset: int)
    requires NoHoles(s)
    requires forall k :: 0 <= k < |s| ==> offset > s[k].value.behind
    ensures IndexByOffset(s, offset) == Max(0, |s| - 1)
  {
    SearchAfterAll(s, offset, 0, |s| - 1);
  }

  // ---------------------------------------------------------------------------
  // Chained ledgers

  /** Sum of the record sizes at indices `a` up to `b`. */
  function Span(s: Ledger, a: nat, b: nat): nat
    requires NoHoles(s) && b <= |s|
    decreases b
  {
    if b <= a then 0 else Span(s, a, b - 1) + s[b - 1].value.size
  }

  /** Spans over adjacent index ranges add up. */
  lemma {:induction false} SpanSplit(s: Ledger, a: nat, b: nat, c: nat)
    requires NoHoles(s) && a <= b <= c <= |s|
    ensures Span(s, a, c) == Span(s, a, b) + Span(s, b, c)
    decreases c
  {
    if b < c {
      SpanSplit(s, a, b, c - 1);
    }
  }

  /** A chain over the whole ledger has no holes. */
  lemma ChainedNoHoles(s: Ledger)
    requires Chained(s, 0, |s|)
    ensures NoHoles(s)
  {
    forall k | 0 <= k < |s|
      ensures s[k].Some?
    {
      assert Linked(s, k);
    }
  }

  /** Along a chain, the sizes from `a` to `b` add up to the distance from `a`'s front to the `behind` of `b - 1`. */
  lemma {:induction false} SpanOfChain(s: Ledger, a: nat, b: nat)
    requires Chained(s, 0, |s|) && a < b <= |s|
    ensures NoHoles(s)
    ensures Span(s, a, b) == s[b - 1].value.behind - s[a].value.front
    decreases b
  {
    ChainedNoHoles(s);
    assert Linked(s, b - 1);
    if b - 1 > a {
      SpanOfChain(s, a, b - 1);
      assert Linked(s, b - 2);
    }
  }

  /** A contiguous chain over the whole ledger is ordered. */
  lemma {:induction false} ChainedMonotone(s: Ledger)
    requires Chained(s, 0, |s|)
    ensures Monotone(s)
  {
    ChainedNoHoles(s);
    forall k | 0 <= k < |s|
      ensures s[k].value.front <= s[k].value.behind
    {
      assert Linked(s, k);
    }
    forall i, j | 0 <= i < j < |s|
      ensures s[i].value.behind <= s[j].value.front
    {
      assert Linked(s, j);
      if i + 1 < j {
        assert Linked(s, i + 1);
        SpanOfChain(s, i + 1, j);
      }
    }
  }

  /** In a chain from offset 0, an entry's `front` is the total size of all entries before it. */
  lemma FrontIsPrefixSum(s: Ledger, i: nat)
    requires Chained(s, 0, |s|) && i < |s|
    ensures NoHoles(s)
    ensures s[i].value.front == Span(s, 0, i)
  {
    ChainedNoHoles(s);
    assert Linked(s, 0);
    if i > 0 {
      SpanOfChain(s, 0, i);
      assert Linked(s, i);
    }
  }

  /** In a chain from offset 0, the behind of the last entry is the total size. */
  lemma TotalIsSum(s: Ledger)
    requires Chained(s, 0, |s|) && |s| > 0
    ensures NoHoles(s)
    ensures BehindBefore(s, |s|) == Span(s, 0, |s|)
  {
    SpanOfChain(s, 0, |s|);
    assert Linked(s, 0);
  }

  /**
   * Round trip of `scrollToIndex` and `_getIndexByOffset`: on a chain of
   * positive sizes, searching the `front` of entry i lands on i or on the
   * entry just before it, whose `behind` is that same offset.
   */
  lemma SearchAtFront(s: Ledger, i: nat)
    requires Chained(s, 0, |s|) && i < |s|
    requires forall k :: 0 <= k < |s| ==> s[k].Some? && s[k].value.size > 0
    ensures NoHoles(s)
    ensures var r := IndexByOffset(s, s[i].value.front); r == i || r + 1 == i
  {
    ChainedMonotone(s);
    var o := s[i].value.front;
    IndexByOffsetSpec(s, o);
    assert Hit(s, i, o) by {
      assert Linked(s, i);
    }
    if i > 0 {
      assert Linked(s, i - 1);
    }
    var r := IndexByOffset(s, o);
    assert Hit(s, r, o);
  }

  /** A chain from offset 0 covers every offset up to the `behind` of entry `n - 1`. */
  lemma {:induction false} ChainCovers(s: Ledger, n: nat, offset: int)
    requires Chained(s, 0, |s|) && NoHoles(s) && 0 < n <= |s|
    requires 0 <= offset <= s[n - 1].value.behind
    ensures exists k :: 0 <= k < n && Hit(s, k, offset)
    decreases n
  {
    assert Linked(s, n - 1);
    if offset < s[n - 1].value.front {
      assert n - 1 > 0;
      assert Linked(s, n - 2);
      ChainCovers(s, n - 1, offset);
    } else {
      assert Hit(s, n - 1, offset);
    }
  }

  /** On an ordered ledger, an offset past the last record's `behind` is past every record. */
  lemma PastAll(s: Ledger, offset: int)
    requires Monotone(s) && |s| > 0 && offset > s[|s| - 1].value.behind
    ensures forall k :: 0 <= k < |s| ==> offset > s[k].value.behind
  {
    forall k | 0 <= k < |s| - 1
      ensures offset > s[k].value.behind
    {
      assert s[k].value.behind <= s[|s| - 1].value.front;
    }
  }

  /** On a chain from offset 0, `_getIndexByOffset` never answers a smaller index for a larger offset. */
  lemma IndexMonotone(s: Ledger, o: int, o': int)
    requires Chained(s, 0, |s|) && o <= o'
    ensures NoHoles(s)
    ensures IndexByOffset(s, o) <= IndexByOffset(s, o')
  {
    ChainedMonotone(s);
    if |s| == 0 || o == o' {
      return;
    }
    var r, r' := IndexByOffset(s, o), IndexByOffset(s, o');
    if o < 0 {
      IndexByOffsetSpec(s, o);
      assert forall k :: 0 <= k < |s| ==> o < s[k].value.front;
    } else if o' > s[|s| - 1].value.behind {
      PastAll(s, o');
      IndexByOffsetSpec(s, o');
    } else {
      ChainCovers(s, |s|, o);
      ChainCovers(s, |s|, o');
      IndexByOffsetSpec(s, o);
      IndexByOffsetSpec(s, o');
      assert Hit(s, r, o) && Hit(s, r', o');
    }
  }

  // ---------------------------------------------------------------------------
  // The window walk of `_getRangeByOffset`

  /**
   * From `end`, adds record sizes to `acc` and advances until the sum
   * exceeds `clientSize` (the item that crossed it included) or `count` is reached.
   */
  function WalkEnd(s: Ledger, end: nat, count: nat, acc: int, clientSize: int): nat
    requires NoHoles(s) && count <= |s|
    decreases count - end
  {
    if end >= count then end
    else
      var acc' := acc + s[end].value.size;
      if acc' > clientSize then end + 1 else WalkEnd(s, end + 1, count, acc', clientSize)
  }

  lemma {:induction false} WalkEndSpec(s: Ledger, start: nat, end: nat, count: nat, clientSize: int)
    requires NoHoles(s) && count <= |s| && start <= end <= count
    requires forall j :: start < j <= end ==> Span(s, start, j) <= clientSize
    ensures var e := WalkEnd(s, end, count, Span(s, start, end), clientSize);
      end <= e <= count && (end < count ==> end < e) &&
      (e == count || Span(s, start, e) > clientSize) &&
      (forall j :: start < j < e ==> Span(s, start, j) <= clientSize)
    decreases count - end
  {
    if end < count {
      var acc' := Span(s, start, end) + s[end].value.size;
      assert acc' == Span(s, start, end + 1);
      if acc' <= clientSize {
        WalkEndSpec(s, start, end + 1, count, clientSize);
      }
    }
  }

  datatype Window = Window(start: nat, end: nat)

  /**
   * `_getRangeByOffset` on a ledger long enough for the walk: search the
   * start index, walk the end forward, then widen both by `buffer`,
   * clamped to `[0, lastIndex]`.
   */
  function WindowFor(s: Ledger, count: nat, buffer: nat, offset: int, clientSize: int): Window
    requires NoHoles(s) && count <= |s|
  {
    var first := IndexByOffset(s, offset);
    var e := WalkEnd(s, first, count, 0, clientSize);
    Window(Max(0, first - buffer), Min(Max(0, count - 1), e + buffer))
  }

  /**
   * The window is clamped (`0 <= start <= end <= lastIndex`); its start is
   * the searched index less the buffer; and it covers the viewport: the
   * items from the searched index through `end` add up to more than
   * `clientSize` unless `end` is the last index, while no shorter walk from
   * the searched index would have exceeded it.
   */
  lemma WindowForSpec(s: Ledger, count: nat, buffer: nat, offset: int, clientSize: int)
    requires NoHoles(s) && |s| == count && count > 0
    ensures var w := WindowFor(s, count, buffer, offset, clientSize);
      var first := IndexByOffset(s, offset);
      var e := WalkEnd(s, first, count, 0, clientSize);
      w.start <= first < e <= count && w.start <= w.end <= count - 1 &&
      w.start == Max(0, first - buffer) &&
      (w.end == count - 1 || Span(s, first, w.end + 1) > clientSize) &&
      (forall j :: first < j < e ==> Span(s, first, j) <= clientSize)
  {
    var first := IndexByOffset(s, offset);
    WalkEndSpec(s, first, first, count, clientSize);
    var e := WalkEnd(s, first, count, 0, clientSize);
    var w := WindowFor(s, count, buffer, offset, clientSize);
    if w.end != count - 1 {
      assert w.end == e + buffer;
      SpanGrows(s, first, e, w.end + 1);
    }
  }

  lemma {:induction false} SpanGrows(s: Ledger, a: nat, b: nat, c: nat)
    requires NoHoles(s) && b <= c <= |s|
    ensures Span(s, a, b) <= Span(s, a, c)
    decreases c
  {
    if b < c {
      SpanGrows(s, a, b, c - 1);
    }
  }
}
