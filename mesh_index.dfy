/**
 * The mesh index resolver: maps a 1-based, end-exclusive range of path IDs
 * onto a range of buffer indices, using a per-path table of index ranges that
 * may be stored in ascending or descending order (`getMeshIndexRange` in
 * renderer.cpp), and the offset-plus-count formulation of the same lookup used
 * by the mesh-coverage strategy (`calculateStartFromIndexRanges`,
 * `calculateCountFromIndexRanges` in xcaa-strategy.cpp).
 */
module MeshIndex {
  import opened Geometry

  /**
   * `i >= v.size()` where `i` is a C++ `int`: the int is converted to
   * `size_t`, so a negative index compares as a huge value and is "past the
   * end" as well.
   */
  predicate AtOrPastEnd(i: int, size: nat) {
    i < 0 || i >= size
  }

  function Last(table: seq<Range>): Range
    requires |table| > 0
  {
    table[|table| - 1]
  }

  /** The direction test: the table is read as descending iff its first start exceeds its last start. */
  predicate IsDescending(table: seq<Range>)
    requires |table| > 0
  {
    table[0].start > Last(table).start
  }

  /**
   * What `getMeshIndexRange` reads without a bound check: in the descending
   * case the entry `pathRange.end - 2` must exist.
   */
  predicate MeshIndexRangeDefined(table: seq<Range>, pathRange: Range) {
    |table| > 0 && IsDescending(table) ==> 0 <= pathRange.end - 2 < |table|
  }

  /** True iff `x` is the start or the end of some entry of `table`. */
  predicate IsTableBound(table: seq<Range>, x: int) {
    exists i :: 0 <= i < |table| && (table[i].start == x || table[i].end == x)
  }

  /** renderer.cpp `getMeshIndexRange`. */
  function GetMeshIndexRange(table: seq<Range>, pathRange: Range): (r: Range)
    requires MeshIndexRangeDefined(table, pathRange)
    ensures |table| == 0 ==> r == Range(0, 0)
    ensures |table| > 0 ==> IsTableBound(table, r.start) && IsTableBound(table, r.end)
  {
    if |table| == 0 then
      Range(0, 0)
    else
      var last := Last(table);
      var descending := IsDescending(table);
      var s := pathRange.start - 1;
      var e := pathRange.end - 1;
      var startIndex :=
        if AtOrPastEnd(s, |table|) then last.end
        else if !descending then table[s].start
        else table[s].end;
      var endIndex :=
        if descending then table[e - 1].start
        else if AtOrPastEnd(e, |table|) then last.end
        else table[e].start;
      if descending then Range(endIndex, startIndex) else Range(startIndex, endIndex)
  }

  /** xcaa-strategy.cpp `calculateStartFromIndexRanges`: the first buffer index of the path range. */
  function CalculateStartFromIndexRanges(pathRange: Range, table: seq<Range>): (r: int)
    requires |table| > 0 ==> 1 <= pathRange.start <= |table|
    ensures |table| == 0 ==> r == 0
    ensures |table| > 0 ==> IsTableBound(table, r)
  {
    if |table| == 0 then 0 else table[pathRange.start - 1].start
  }

  /** xcaa-strategy.cpp `calculateCountFromIndexRanges`: how many buffer entries the path range spans. */
  function CalculateCountFromIndexRanges(pathRange: Range, table: seq<Range>): (r: int)
    requires |table| > 0 ==> 1 <= pathRange.start <= |table|
    ensures |table| == 0 ==> r == 0
    ensures |table| > 0 ==> IsTableBound(table, CalculateStartFromIndexRanges(pathRange, table) + r)
  {
    if |table| == 0 then
      0
    else
      var lastIndex :=
        if AtOrPastEnd(pathRange.end - 1, |table|) then Last(table).end
        else table[pathRange.end - 1].start;
      var firstIndex := table[pathRange.start - 1].start;
      lastIndex - firstIndex
  }

  // ---------------------------------------------------------------------------
  // Laws of the resolver, case by case.

  /** An empty table resolves every path range to `(0, 0)`. */
  lemma EmptyTableLaw(pathRange: Range)
    ensures GetMeshIndexRange([], pathRange) == Range(0, 0)
  {
  }

  /** Ascending tables: the start is the first path's start; the end is the next path's start, or the last end. */
  lemma AscendingLaw(table: seq<Range>, s: int, e: int)
    requires |table| > 0 && !IsDescending(table)
    requires 1 <= s <= |table|
    ensures GetMeshIndexRange(table, Range(s, e)) ==
      Range(table[s - 1].start, if 0 <= e - 1 < |table| then table[e - 1].start else Last(table).end)
  {
  }

  /** Descending tables: after the swap the result is `(T[e-2].start, T[s-1].end)`. */
  lemma DescendingLaw(table: seq<Range>, s: int, e: int)
    requires |table| > 0 && IsDescending(table)
    requires 1 <= s <= |table|
    requires 0 <= e - 2 < |table|
    ensures GetMeshIndexRange(table, Range(s, e)) == Range(table[e - 2].start, table[s - 1].end)
  {
  }

  /**
   * A 0-based start at or past the table size (including a negative one)
   * clamps to the last entry's end: the result's start when ascending, its
   * end after the swap when descending.
   */
  lemma StartClampLaw(table: seq<Range>, pathRange: Range)
    requires |table| > 0 && MeshIndexRangeDefined(table, pathRange)
    requires AtOrPastEnd(pathRange.start - 1, |table|)
    ensures !IsDescending(table) ==> GetMeshIndexRange(table, pathRange).start == Last(table).end
    ensures IsDescending(table) ==> GetMeshIndexRange(table, pathRange).end == Last(table).end
  {
  }

  /** The `(0, 0)` path range of an object without meshes resolves, in an ascending table, to an empty range at the last end. */
  lemma ZeroPathRangeLaw(table: seq<Range>)
    requires |table| > 0 && !IsDescending(table)
    ensures GetMeshIndexRange(table, Range(0, 0)) == Range(Last(table).end, Last(table).end)
    ensures GetMeshIndexRange(table, Range(0, 0)).IsEmpty()
  {
  }

  /** The worked example: paths 1..2 of `[(0,2),(2,5),(5,9)]` occupy indices `[0,5)`. */
  lemma WorkedExample()
    ensures GetMeshIndexRange([Range(0, 2), Range(2, 5), Range(5, 9)], Range(1, 3)) == Range(0, 5)
  {
  }

  /**
   * The two formulations agree on ascending tables: the mesh-coverage
   * strategy's offset is the resolver's start and its count the resolver's
   * length.
   */
  lemma StartCountAgreeWithResolver(table: seq<Range>, pathRange: Range)
    requires |table| > 0 && !IsDescending(table)
    requires 1 <= pathRange.start <= |table|
    ensures CalculateStartFromIndexRanges(pathRange, table) == GetMeshIndexRange(table, pathRange).start
    ensures CalculateCountFromIndexRanges(pathRange, table) == GetMeshIndexRange(table, pathRange).Length()
  {
  }

  /**
   * They do not agree on descending tables: `calculateCountFromIndexRanges`
   * has no descending case and yields a negative count where the resolver
   * yields the right range.
   */
  lemma StartCountDisagreeOnDescending()
    ensures var t := [Range(5, 9), Range(2, 5), Range(0, 2)];
            GetMeshIndexRange(t, Range(1, 4)) == Range(0, 9) &&
            CalculateCountFromIndexRanges(Range(1, 4), t) == -3
  {
  }

  // ---------------------------------------------------------------------------
  // Monotonic tables, as the mesh supplier builds them.

  /** Every entry is a valid range and each entry ends at or before the next begins. */
  predicate AscendingTable(table: seq<Range>) {
    (forall i :: 0 <= i < |table| ==> table[i].Valid()) &&
    (forall i :: 0 <= i < |table| - 1 ==> table[i].end <= table[i + 1].start)
  }

  /** Every entry is a valid range and each entry begins at or after the next ends. */
  predicate DescendingTable(table: seq<Range>) {
    (forall i :: 0 <= i < |table| ==> table[i].Valid()) &&
    (forall i :: 0 <= i < |table| - 1 ==> table[i + 1].end <= table[i].start)
  }

  lemma {:induction false} AscendingOrder(table: seq<Range>, i: int, j: int)
    requires AscendingTable(table)
    requires 0 <= i <= j < |table|
    ensures table[i].start <= table[j].start && table[i].end <= table[j].end
    ensures i < j ==> table[i].end <= table[j].start
    decreases j - i
  {
    if i < j {
      AscendingOrder(table, i, j - 1);
      assert table[j - 1].end <= table[j].start;
    }
  }

  lemma {:induction false} DescendingOrder(table: seq<Range>, i: int, j: int)
    requires DescendingTable(table)
    requires 0 <= i <= j < |table|
    ensures table[j].start <= table[i].start && table[j].end <= table[i].end
    ensures i < j ==> table[j].end <= table[i].start
    decreases j - i
  {
    if i < j {
      DescendingOrder(table, i, j - 1);
      assert table[j].end <= table[j - 1].start;
    }
  }

  /** An ascending table is never taken for a descending one. */
  lemma AscendingDetected(table: seq<Range>)
    requires |table| > 0 && AscendingTable(table)
    ensures !IsDescending(table)
  {
    AscendingOrder(table, 0, |table| - 1);
  }

  /** A descending table of two or more entries whose last entry is non-empty is detected as descending. */
  lemma DescendingDetected(table: seq<Range>)
    requires |table| >= 2 && DescendingTable(table)
    requires !Last(table).IsEmpty()
    ensures IsDescending(table)
  {
    DescendingOrder(table, 0, |table| - 1);
  }

  /**
   * In an ascending table, a path range starting inside the table resolves to
   * a valid range that contains the index range of every path it names.
   */
  lemma AscendingResolvedCoversPaths(table: seq<Range>, s: int, e: int)
    requires |table| > 0 && AscendingTable(table)
    requires 1 <= s <= e && s <= |table|
    ensures !IsDescending(table)
    ensures GetMeshIndexRange(table, Range(s, e)).Valid()
    ensures forall k :: s - 1 <= k < e - 1 && k < |table| ==>
      GetMeshIndexRange(table, Range(s, e)).Contains(table[k])
  {
    AscendingDetected(table);
    var r := GetMeshIndexRange(table, Range(s, e));
    var n := |table|;
    AscendingOrder(table, s - 1, n - 1);
    if e - 1 < n {
      AscendingOrder(table, s - 1, e - 1);
    }
    forall k | s - 1 <= k < e - 1 && k < n
      ensures r.Contains(table[k])
    {
      AscendingOrder(table, s - 1, k);
      if e - 1 < n {
        AscendingOrder(table, k, e - 1);
      } else {
        AscendingOrder(table, k, n - 1);
      }
    }
  }

  /**
   * In a descending table the swap normalises direction: a non-empty path
   * range starting inside the table resolves to a valid (low, high) range
   * that contains the index range of every path it names.
   */
  lemma DescendingResolvedCoversPaths(table: seq<Range>, s: int, e: int)
    requires |table| > 0 && DescendingTable(table) && IsDescending(table)
    requires 1 <= s < e && e - 2 < |table|
    ensures GetMeshIndexRange(table, Range(s, e)).Valid()
    ensures forall k :: s - 1 <= k < e - 1 ==> GetMeshIndexRange(table, Range(s, e)).Contains(table[k])
  {
    var r := GetMeshIndexRange(table, Range(s, e));
    DescendingOrder(table, s - 1, e - 2);
    forall k | s - 1 <= k < e - 1
      ensures r.Contains(table[k])
    {
      DescendingOrder(table, s - 1, k);
      DescendingOrder(table, k, e - 2);
    }
  }

  /**
   * In an ascending table without gaps the resolved range is exactly the span
   * from the first named path's start to the last named path's end.
   */
  lemma AscendingContiguousExact(table: seq<Range>, s: int, e: int)
    requires |table| > 0 && AscendingTable(table)
    requires forall i :: 0 <= i < |table| - 1 ==> table[i].end == table[i + 1].start
    requires 1 <= s < e <= |table| + 1
    ensures !IsDescending(table)
    ensures GetMeshIndexRange(table, Range(s, e)) == Range(table[s - 1].start, table[e - 2].end)
  {
    AscendingDetected(table);
  }

  /** On an ascending table the mesh-coverage instance count is never negative for a forward path range. */
  lemma AscendingCountNonNegative(table: seq<Range>, pathRange: Range)
    requires |table| > 0 && AscendingTable(table)
    requires 1 <= pathRange.start <= pathRange.end && pathRange.start <= |table|
    ensures CalculateCountFromIndexRanges(pathRange, table) >= 0
  {
    AscendingResolvedCoversPaths(table, pathRange.start, pathRange.end);
    AscendingDetected(table);
    StartCountAgreeWithResolver(table, pathRange);
  }
}
