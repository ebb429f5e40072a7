/** The live dashboard's chart panel: the fixed list of channel names the feed delivers, the
    operator's selection of them, and one chart per selected name, drawing the channel at
    that name's position in the list. */
module Dashboard {
  import opened Js
  import opened ChartSelection
  import Telemetry
  import MainCharts

  /** The channel names, in the order of the values in each feed sample. */
  const ChartDetails: seq<string> := [
    "pelvis_tilt", "pelvis_list", "pelvis_rotation",
    "pelvis_tx", "pelvis_ty", "pelvis_tz",
    "hip_flexion_r", "hip_adduction_r", "hip_rotation_r",
    "hip_flexion_l", "hip_adduction_l", "hip_rotation_l",
    "lumbar_extension", "lumbar_bending", "lumbar_rotation",
    "knee_angle_r", "knee_angle_l",
    "ankle_angle_r", "ankle_angle_l"
  ]

  const InitialSelectedCharts: seq<string> := ["pelvis_tx"]

  /** `chartDetails.indexOf(chartName)`: the channel a chart draws. */
  function DataIndex(name: string): (r: int)
    ensures -1 <= r < |ChartDetails|
    ensures r == -1 <==> name !in ChartDetails
    ensures 0 <= r ==> ChartDetails[r] == name
  {
    IndexOf(ChartDetails, name)
  }

  /** Every channel name is listed once. */
  lemma ChartDetailsDistinct()
    ensures |ChartDetails| == 19 && Distinct(ChartDetails)
  {
  }

  /** Each listed name draws the channel at its own position, so the name-to-channel map
      is the inverse of the list. */
  lemma DataIndexOfListed(i: int)
    requires 0 <= i < |ChartDetails|
    ensures DataIndex(ChartDetails[i]) == i
  {
    ChartDetailsDistinct();
    IndexOfDistinct(ChartDetails, i);
  }

  /** The initially selected chart draws channel 3. */
  lemma PelvisTxIsChannel3()
    ensures InitialSelectedCharts == ["pelvis_tx"] && DataIndex("pelvis_tx") == 3
  {
    var name := ChartDetails[3];
    assert name == "pelvis_tx";
    DataIndexOfListed(3);
  }

  /** The channels the feed leaves unconverted are exactly the three pelvis translations. */
  lemma UnconvertedChannelsArePelvisTranslations()
    ensures |Telemetry.SkipConversionIndices| == 3
    ensures forall k :: 0 <= k < 3 ==>
              ChartDetails[Telemetry.SkipConversionIndices[k]] == ["pelvis_tx", "pelvis_ty", "pelvis_tz"][k]
    ensures forall i :: 0 <= i < |ChartDetails| ==>
              (i in Telemetry.SkipConversionIndices <==> ChartDetails[i] in ["pelvis_tx", "pelvis_ty", "pelvis_tz"])
  {
    ChartDetailsDistinct();
  }

  /** `handleChartToggle`, applied to names from the dropdown, keeps every selected name a
      listed channel. */
  lemma ToggleKeepsListedCharts(selected: seq<string>, name: string)
    requires forall x :: x in selected ==> x in ChartDetails
    requires name in ChartDetails
    ensures forall x :: x in Toggle(selected, name) ==> x in ChartDetails
  {
  }

  /** One chart on the panel: the channel it draws and its heading. */
  datatype Panel = Panel(dataIndex: int, title: string)

  /** One panel per selected name, in selection order. */
  function ChartPanels(selected: seq<string>): (r: seq<Panel>)
    ensures |r| == |selected|
    ensures forall i :: 0 <= i < |r| ==> r[i] == Panel(DataIndex(selected[i]), FormatLabel(selected[i]))
  {
    seq(|selected|, i requires 0 <= i < |selected| => Panel(DataIndex(selected[i]), FormatLabel(selected[i])))
  }

  /** The dashboard first shows a single panel, channel 3 headed "Pelvis Tx". */
  lemma InitialPanels()
    ensures ChartPanels(InitialSelectedCharts) == [Panel(3, "Pelvis Tx")]
  {
    PelvisTxIsChannel3();
    FormatPelvisTx();
  }

  /** A panel for a listed name plots, from every buffered sample long enough to have it,
      the value at that name's position. */
  lemma PanelPlotsItsChannel(rows: seq<seq<real>>, i: int)
    requires 0 <= i < |ChartDetails|
    ensures var values := MainCharts.ChannelValues(rows, DataIndex(ChartDetails[i]));
            |values| == |rows| &&
            forall t :: 0 <= t < |rows| && i < |rows[t]| ==> values[t] == Some(rows[t][i])
  {
    DataIndexOfListed(i);
  }
}
