/** The slice windows the history views plot, and their 1-based x-axis labels. */
module Windows {
  import opened Js

  /** `column.slice(start, start + width)`: at most `width` consecutive points from `start`. */
  function Window<T>(column: seq<T>, start: nat, width: nat): (r: seq<T>)
    ensures |r| <= width
    ensures start + width <= |column| ==> |r| == width
    ensures start < |column| ==> |r| == Min(width, |column| - start)
    ensures |column| <= start ==> r == []
    ensures forall i :: 0 <= i < |r| ==> start + i < |column| && r[i] == column[start + i]
  {
    Slice(column, start, start + width)
  }

  /** `Array.from({ length: n }, (_, i) => start + i + 1)`. */
  function XLabels(start: int, n: nat): (r: seq<int>)
    ensures |r| == n
  {
    seq(n, i requires 0 <= i < n => start + i + 1)
  }

  /** Each label is the 1-based position, in the whole column, of the point drawn above it. */
  lemma LabelsLocatePoints<T>(column: seq<T>, start: nat, width: nat)
    ensures |XLabels(start, |Window(column, start, width)|)| == |Window(column, start, width)|
    ensures forall i :: 0 <= i < |Window(column, start, width)| ==>
              var pos := XLabels(start, |Window(column, start, width)|)[i];
              1 <= pos <= |column| && Window(column, start, width)[i] == column[pos - 1]
  {
  }
}
