/** The recorded-session history view: a loaded file's columns, a chosen set of them, and a
    zoom/scroll window of `zoomLevel` points starting at `startIndex`, cut from every
    selected column alike. */
module History {
  import opened Js
  import opened Windows
  import opened ChartSelection

  /** Initial and reset zoom level, and the fallback zoom cap. */
  const MaxVisiblePoints: int := 100
  /** The zoom level never drops below this. */
  const MinZoom: int := 20
  /** One zoom click widens or narrows the window by this many points. */
  const ZoomStep: int := 20

  /** A loaded file: column name to its samples. */
  type ChartData = map<string, seq<real>>

  /** The channel whose length bounds zooming and scrolling. */
  const ReferenceColumn: string := "pelvis_tx"

  /** `chartData?.pelvis_tx?.length || MAX_VISIBLE_POINTS`: the reference column's length,
      or 100 when there is no file, no such column, or the column is empty. */
  function ZoomCap(chartData: Option<ChartData>): (r: int)
    ensures r >= 1
    ensures chartData.Some? && ReferenceColumn in chartData.value && |chartData.value[ReferenceColumn]| > 0 ==>
              r == |chartData.value[ReferenceColumn]|
    ensures !(chartData.Some? && ReferenceColumn in chartData.value && |chartData.value[ReferenceColumn]| > 0) ==>
              r == MaxVisiblePoints
  {
    if chartData.Some? && ReferenceColumn in chartData.value && |chartData.value[ReferenceColumn]| > 0
    then |chartData.value[ReferenceColumn]|
    else MaxVisiblePoints
  }

  /** The zoom updater: step by 20, then clamp to `[20, cap]`, the lower bound winning. */
  function NextZoom(prev: int, zoomIn: bool, cap: int): (r: int)
    ensures MinZoom <= r <= Max(MinZoom, cap)
  {
    var newZoom := if zoomIn then prev - ZoomStep else prev + ZoomStep;
    Max(MinZoom, Min(newZoom, cap))
  }

  /** Zooming in at the floor stays at the floor; zooming out at the cap stays at the cap. */
  lemma ZoomFixedPoints(cap: int)
    ensures NextZoom(MinZoom, true, cap) == MinZoom
    ensures cap >= MinZoom ==> NextZoom(cap, false, cap) == cap
  {
  }

  /** Zooming in never widens a window at or above the floor, and lands exactly 20 points
      narrower when that stays within `[20, cap]`; zooming out never narrows a window at or
      below the cap, and lands exactly 20 points wider when that stays within the cap. */
  lemma ZoomDirection(prev: int, cap: int)
    ensures MinZoom <= prev ==> NextZoom(prev, true, cap) <= Max(prev, MinZoom)
    ensures MinZoom <= prev - ZoomStep <= cap ==> NextZoom(prev, true, cap) == prev - ZoomStep
    ensures prev <= cap ==> prev <= NextZoom(prev, false, cap)
    ensures MinZoom <= prev + ZoomStep <= cap ==> NextZoom(prev, false, cap) == prev + ZoomStep
  {
  }

  /** `(chartData?.pelvis_tx?.length || 0) - zoomLevel`: the scrollbar's maximum, which is
      negative when the reference column is shorter than the window. */
  function MaxScrollIndex(chartData: Option<ChartData>, zoomLevel: int): (r: int)
    ensures chartData.Some? && ReferenceColumn in chartData.value ==>
              r + zoomLevel == |chartData.value[ReferenceColumn]|
    ensures !(chartData.Some? && ReferenceColumn in chartData.value) ==> r == -zoomLevel
  {
    (if chartData.Some? && ReferenceColumn in chartData.value then |chartData.value[ReferenceColumn]| else 0)
      - zoomLevel
  }

  /** One chart's details: its label and its visible samples. */
  datatype Series = Series(title: string, data: seq<real>)

  /** The `reduce` over the selected columns, left to right: each column present in the
      file gets its label and its `slice(start, start + zoom)` window. */
  function ChartDetailsFrom(data: ChartData, columns: seq<string>, start: nat, zoom: nat): (r: map<string, Series>)
    ensures forall k :: k in r <==> k in columns && k in data
    ensures forall k :: k in r ==> r[k] == Series(FormatLabel(k), Window(data[k], start, zoom))
    ensures forall k :: k in r ==> |r[k].data| <= zoom
    decreases |columns|
  {
    if |columns| == 0 then map[]
    else
      var acc := ChartDetailsFrom(data, columns[..|columns| - 1], start, zoom);
      var column := columns[|columns| - 1];
      assert columns == columns[..|columns| - 1] + [column];
      if column in data then acc[column := Series(FormatLabel(column), Window(data[column], start, zoom))]
      else acc
  }

  /** `getChartDetails`: `{}` before any file is loaded. */
  function GetChartDetails(chartData: Option<ChartData>, columns: seq<string>, start: nat, zoom: nat): (r: map<string, Series>)
    ensures chartData.None? ==> r == map[]
    ensures chartData.Some? ==> r == ChartDetailsFrom(chartData.value, columns, start, zoom)
  {
    if chartData.None? then map[] else ChartDetailsFrom(chartData.value, columns, start, zoom)
  }

  /** The keys are exactly the selected columns the file has, and each series is that
      column's window, never wider than the zoom level. */
  lemma ChartDetailsSpec(chartData: Option<ChartData>, columns: seq<string>, start: nat, zoom: nat, k: string)
    ensures k in GetChartDetails(chartData, columns, start, zoom) <==>
              chartData.Some? && k in columns && k in chartData.value
    ensures k in GetChartDetails(chartData, columns, start, zoom) ==>
              GetChartDetails(chartData, columns, start, zoom)[k].title == FormatLabel(k) &&
              |GetChartDetails(chartData, columns, start, zoom)[k].data| <= zoom &&
              forall i :: 0 <= i < |GetChartDetails(chartData, columns, start, zoom)[k].data| ==>
                GetChartDetails(chartData, columns, start, zoom)[k].data[i] == chartData.value[k][start + i]
  {
  }

  /** The x labels of one chart: `startIndex + 1 ...`, one per visible point (none when the
      column has no details). */
  function ChartLabels(details: map<string, Series>, chartType: string, start: int): (r: seq<int>)
    ensures chartType in details ==> |r| == |details[chartType].data|
    ensures chartType !in details ==> r == []
    ensures forall i :: 0 <= i < |r| ==> r[i] == start + i + 1
  {
    XLabels(start, if chartType in details then |details[chartType].data| else 0)
  }

  /** Scrolled to the end of a reference column at least as long as the window, the chart
      shows exactly its last `zoom` samples. */
  lemma ScrollEndShowsLatest(column: seq<real>, zoom: nat)
    requires zoom <= |column|
    ensures Window(column, |column| - zoom, zoom) == column[|column| - zoom..]
  {
  }

  /** The view's state. */
  class HistoryView {
    var chartData: Option<ChartData>
    var selectedColumns: seq<string>
    var startIndex: int
    var zoomLevel: int

    ghost predicate Valid()
      reads this
    {
      0 <= startIndex && MinZoom <= zoomLevel
    }

    constructor ()
      ensures Valid()
      ensures chartData == None && selectedColumns == [ReferenceColumn]
      ensures startIndex == 0 && zoomLevel == MaxVisiblePoints
    {
      chartData, selectedColumns := None, [ReferenceColumn];
      startIndex, zoomLevel := 0, MaxVisiblePoints;
    }

    /** A file's data arrived: it replaces the old data and scrolling restarts at 0; the
        zoom level and selection are kept. */
    method FileDataLoaded(data: ChartData)
      requires Valid()
      modifies this`chartData, this`startIndex
      ensures Valid()
      ensures chartData == Some(data) && startIndex == 0
    {
      chartData := Some(data);
      startIndex := 0;
    }

    method HandleColumnToggle(columnName: string)
      modifies this`selectedColumns
      ensures selectedColumns == Toggle(old(selectedColumns), columnName)
    {
      selectedColumns := Toggle(selectedColumns, columnName);
    }

    /** The Zoom In / Zoom Out buttons. */
    method HandleZoom(zoomIn: bool)
      requires Valid()
      modifies this`zoomLevel
      ensures Valid()
      ensures zoomLevel == NextZoom(old(zoomLevel), zoomIn, ZoomCap(chartData))
      ensures MinZoom <= zoomLevel <= Max(MinZoom, ZoomCap(chartData))
    {
      zoomLevel := NextZoom(zoomLevel, zoomIn, ZoomCap(chartData));
    }

    /** The scrollbar, whose range is `0 .. maxScrollIndex` (just 0 when that is negative). */
    method HandleScroll(value: int)
      requires Valid()
      requires 0 <= value <= Max(0, MaxScrollIndex(chartData, zoomLevel))
      modifies this`startIndex
      ensures Valid()
      ensures startIndex == value
    {
      startIndex := value;
    }

    method ResetZoomAndScroll()
      requires Valid()
      modifies this`zoomLevel, this`startIndex
      ensures Valid()
      ensures zoomLevel == MaxVisiblePoints && startIndex == 0
    {
      zoomLevel := MaxVisiblePoints;
      startIndex := 0;
    }

    /** The chart details for the current state. */
    function ChartDetails(): (r: map<string, Series>)
      reads this
      requires Valid()
      ensures forall k :: k in r ==> |r[k].data| <= zoomLevel
    {
      GetChartDetails(chartData, selectedColumns, startIndex, zoomLevel)
    }
  }
}
