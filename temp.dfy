/** The earlier history view: one chart group at a time (pelvis, knees or ankles), each
    series cut to a 50-point window starting at `currentIndex`. */
module TempHistory {
  import opened Js
  import opened Windows

  /** Points per window. */
  const DataLimit: int := 50

  type ChartData = map<string, seq<real>>

  /** `Math.max(pelvis_tx.length - dataLimit, 0)`: the last start that still fills a window,
      or 0 when the column is shorter than one window. */
  function MaxIndexFor(column: seq<real>): (r: nat)
    ensures |column| <= r + DataLimit
    ensures |column| >= DataLimit ==> r + DataLimit == |column|
    ensures |column| < DataLimit ==> r == 0
  {
    Max(|column| - DataLimit, 0)
  }

  /** `getLimitedData`: at most 50 points, the first being the one at `currentIndex`. */
  function GetLimitedData(column: seq<real>, currentIndex: nat): (r: seq<real>)
    ensures |r| <= DataLimit
    ensures forall i :: 0 <= i < |r| ==> currentIndex + i < |column| && r[i] == column[currentIndex + i]
  {
    Window(column, currentIndex, DataLimit)
  }

  /** Any start the range input allows fills the window when the column holds one; a start
      past `MaxIndexFor` never does. */
  lemma FullWindowWhenInRange(column: seq<real>, currentIndex: nat)
    ensures currentIndex <= MaxIndexFor(column) && |column| >= DataLimit ==>
              |GetLimitedData(column, currentIndex)| == DataLimit
    ensures currentIndex > MaxIndexFor(column) ==> |GetLimitedData(column, currentIndex)| < DataLimit
  {
  }

  /** The chart group buttons. */
  datatype ChartGroup = Pelvis | Knees | Ankles

  /** The columns each group plots, in dataset order. */
  function GroupColumns(group: ChartGroup): (r: seq<string>)
    ensures |r| >= 1
  {
    match group
    case Pelvis => ["pelvis_tx", "pelvis_ty", "pelvis_tz"]
    case Knees => ["knee_angle_r", "knee_angle_l"]
    case Ankles => ["ankle_angle_r", "ankle_angle_l"]
  }

  /** The dataset labels of each group, parallel to its columns. */
  function GroupTitles(group: ChartGroup): (r: seq<string>)
    ensures |r| == |GroupColumns(group)|
  {
    match group
    case Pelvis => ["Pelvis TX", "Pelvis TY", "Pelvis TZ"]
    case Knees => ["Knee Angle Right", "Knee Angle Left"]
    case Ankles => ["Ankle Angle Right", "Ankle Angle Left"]
  }

  datatype Dataset = Dataset(title: string, data: seq<real>)

  /** A drawn chart: its x labels and its datasets. */
  datatype Rendered = Rendered(labels: seq<int>, datasets: seq<Dataset>)

  /** The datasets of the given columns, each cut with the same window. */
  function Datasets(data: ChartData, columns: seq<string>, titles: seq<string>, currentIndex: nat): (r: seq<Dataset>)
    requires |titles| == |columns|
    requires forall c :: c in columns ==> c in data
    ensures |r| == |columns|
    ensures forall i :: 0 <= i < |r| ==>
              r[i].title == titles[i] && r[i].data == GetLimitedData(data[columns[i]], currentIndex)
  {
    seq(|columns|, i requires 0 <= i < |columns| =>
      Dataset(titles[i], GetLimitedData(data[columns[i]], currentIndex)))
  }

  /** Renders the selected group; `None` when one of its columns is missing from the file,
      where the component's `slice` on `undefined` throws. The x labels are counted off
      the first column's window. */
  function RenderChart(data: ChartData, group: ChartGroup, currentIndex: nat): (r: Option<Rendered>)
    ensures r.Some? <==> forall c :: c in GroupColumns(group) ==> c in data
  {
    var columns := GroupColumns(group);
    if forall c :: c in columns ==> c in data then
      var first := GetLimitedData(data[columns[0]], currentIndex);
      Some(Rendered(XLabels(currentIndex, |first|), Datasets(data, columns, GroupTitles(group), currentIndex)))
    else None
  }

  /** Every dataset of a drawn chart is its column's window at `currentIndex`, with the
      group's titles in order; the labels are `currentIndex + 1 ...`, one per point of the
      first dataset, each the 1-based position of that point in its column. */
  lemma SeriesShareWindow(data: ChartData, group: ChartGroup, currentIndex: nat)
    requires RenderChart(data, group, currentIndex).Some?
    ensures var chart := RenderChart(data, group, currentIndex).value;
            |chart.datasets| == |GroupColumns(group)| &&
            |chart.labels| == |chart.datasets[0].data| &&
            (forall i :: 0 <= i < |chart.datasets| ==>
               chart.datasets[i].title == GroupTitles(group)[i] &&
               chart.datasets[i].data == Window(data[GroupColumns(group)[i]], currentIndex, DataLimit)) &&
            (forall j :: 0 <= j < |chart.labels| ==>
               chart.labels[j] == currentIndex + j + 1 &&
               1 <= chart.labels[j] <= |data[GroupColumns(group)[0]]|)
  {
  }

  /** The view's state. */
  class TempHistoryView {
    var chartData: Option<ChartData>
    var currentIndex: int
    var maxIndex: int
    var selectedChart: ChartGroup

    ghost predicate Valid()
      reads this
    {
      0 <= currentIndex && 0 <= maxIndex
    }

    constructor ()
      ensures Valid()
      ensures chartData == None && currentIndex == 0 && maxIndex == 0 && selectedChart == Pelvis
    {
      chartData, currentIndex, maxIndex, selectedChart := None, 0, 0, Pelvis;
    }

    /** A file's data arrived. The data is stored first; the range maximum follows the
        `pelvis_tx` column, and a file without that column leaves it as it was (the lookup
        throws after the data is stored). The window start is not reset. */
    method FileDataLoaded(data: ChartData)
      requires Valid()
      modifies this`chartData, this`maxIndex
      ensures Valid()
      ensures chartData == Some(data)
      ensures "pelvis_tx" in data ==> maxIndex == MaxIndexFor(data["pelvis_tx"])
      ensures "pelvis_tx" !in data ==> maxIndex == old(maxIndex)
    {
      chartData := Some(data);
      if "pelvis_tx" in data {
        maxIndex := MaxIndexFor(data["pelvis_tx"]);
      }
    }

    /** The range input, bounded by `0 .. maxIndex`. */
    method HandleRangeChange(value: int)
      requires Valid()
      requires 0 <= value <= maxIndex
      modifies this`currentIndex
      ensures Valid()
      ensures currentIndex == value
    {
      currentIndex := value;
    }

    method HandleChartChange(group: ChartGroup)
      modifies this`selectedChart
      ensures selectedChart == group
    {
      selectedChart := group;
    }

    /** The chart drawn for the loaded file. */
    function CurrentChart(): (r: Option<Rendered>)
      reads this
      requires Valid() && chartData.Some?
      ensures r.Some? ==> forall d :: d in r.value.datasets ==> |d.data| <= DataLimit
    {
      RenderChart(chartData.value, selectedChart, currentIndex)
    }
  }
}
