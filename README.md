# ROS-OpenSimRT operator console — Dafny model

The console is a React admin page for running a ROS-OpenSimRT motion-capture session.
This project models the logic behind the page's widgets:

- **A seven-step ROS control wizard** (`RosControl`). Next, Previous and the breadcrumbs move through a fixed step table. Execute publishes a setup command. A set-name-and-path form builds the file path of the recording. Three recording buttons take turns being enabled.
- **The four-step behavior modal** (`BehaviorModal`). Its Next resolves the operator's chosen option against the step's `next` object, falling back to `default`.
- **The live telemetry provider** (`Telemetry`). Socket frames are converted from radians to degrees, except channels 3–5. Each frame is appended to a buffer holding the latest 1000 samples. A periodic tick publishes copies of the buffers.
- **The live charts** (`MainCharts`). A chart shows the latest `floor(1000·zoom)` samples, keeps every `interval`-th one, and draws at most 100 of them. Zoom in, zoom out and reset change the zoom level and the sampling interval.
- **The history views** (`History`, `TempHistory`). A recorded file is drawn through a zoom/scroll window or a fixed 50-point window. The x labels are 1-based positions.
- **The dashboard's chart panel** (`Dashboard`, `ChartSelection`). The operator toggles channel names in a selection. Each selected name is drawn from the channel at its position in the channel list, under a label derived from the name.

Shared modules:

- `Js` holds the JavaScript built-ins the components rely on: `slice` with negative and clamped bounds, and `indexOf`.
- `Steps` holds the step tables and transition lookup shared by both wizards.
- `Windows` holds the slice windows and their x labels.

State that the components change step by step is modelled as classes: the wizard, the modal, the provider, a chart, and the two history views. Button `disabled` conditions, and the bounds of the range inputs, become the preconditions of the click and change methods. Pure computations (sampling, windows, labels, path building, transition resolution) are functions, and lemmas state their properties.

## Model

| member | source | states |
|---|---|---|
| Js.IndexOf | src/views/dashboard/Dashboard.js:479 | the first position holding the value, or -1 exactly when it is absent |
| Js.IndexOfDistinct | src/views/dashboard/Dashboard.js:58-78 | in a list without repeats, `indexOf` finds each element at its own position |
| Js.SliceFrom | src/views/dashboard/WebSocketProvider.js:64 | `slice(-k)` is the suffix of length `min(k, n)`; a non-negative start drops that many elements |
| Js.Slice | src/views/history/History.js:89 | `slice(b, e)` has length `max(e' - b', 0)` for the clamped bounds, and element `i` is the input's element `b' + i` |
| Steps.Keys | src/views/dashboard/BehaviorControlModal.js:37 | one key per entry of a `next` object, in order |
| Steps.Lookup | src/views/dashboard/ROSControlSection.js:88 | a property lookup is missing exactly when the key is absent, and otherwise returns that key's target |
| Steps.Destination | src/views/dashboard/ROSControlSection.js:89-90 | a transition happens exactly when the looked-up target is neither `null` nor missing, and goes to that target |
| Steps.DefaultOfLinear | src/views/dashboard/ROSControlSection.js:25-68 | in a table whose every step points to its successor, the `default` lookup of step `i` is `i + 1` |
| Steps.SetupCommand | src/views/dashboard/ROSControlSection.js:100-107 | the published command carries the fixed transition topic, the message and the branch value |
| RosControl.RosStepsLinear | src/views/dashboard/ROSControlSection.js:25-68 | the table has seven steps and each step's `default` is the next position |
| RosControl.LastStepLeavesTable | src/views/dashboard/ROSControlSection.js:66 | the last step's `default` is the table length, one past the end |
| RosControl.SetFileIndexIsSetFileStep | src/views/dashboard/ROSControlSection.js:57-58 | position 5 is the `set_file` step |
| RosControl.NextIndex | src/views/dashboard/ROSControlSection.js:87-92 | Next either stays on the current step or goes to a target the step declares under `default` |
| RosControl.NextIndexFollowsDefault | src/views/dashboard/ROSControlSection.js:87-92 | Next goes to the `default` target when it is a position and stays put when it is `null` or missing |
| RosControl.NextIndexIsSuccessor | src/views/dashboard/ROSControlSection.js:87-92 | from every step of the table, Next moves to exactly the next position |
| RosControl.ExecuteShownSteps | src/views/dashboard/ROSControlSection.js:308 | Execute is offered exactly on steps 1–4 |
| RosControl.SetNameAndPath | src/views/dashboard/ROSControlSection.js:130-145 | an empty file name is refused before any request; otherwise the absolute path is the projects root followed by the relative path |
| RosControl.RelativePathRoundTrip | src/views/dashboard/ROSControlSection.js:137 | splitting the relative path at "/" gives back project, subject, session and file name |
| RosControl.UnsetPropsPath | src/views/dashboard/Dashboard.js:318 | with the project, subject and session props missing, a recording named `f` is saved under `undefined/undefined/undefined/f` |
| RosControl.RosControlSection.constructor | src/views/dashboard/ROSControlSection.js:69-81 | keeps the props as passed (each possibly missing); starts at step 0, not loading, no file name, with only Start Recording enabled |
| RosControl.RosControlSection.NextEnabled | src/views/dashboard/ROSControlSection.js:318 | Next is clickable only when nothing is loading and a following step exists |
| RosControl.RosControlSection.PreviousEnabled | src/views/dashboard/ROSControlSection.js:302 | Previous is clickable only when nothing is loading and an earlier step exists |
| RosControl.RosControlSection.HandleNextState | src/views/dashboard/ROSControlSection.js:87-92 | under the button guard, the index goes up by exactly one and stays within the table |
| RosControl.RosControlSection.HandlePreviousState | src/views/dashboard/ROSControlSection.js:94-98 | goes back one step, and is a no-op on step 0 |
| RosControl.RosControlSection.HandleBreadcrumbClick | src/views/dashboard/ROSControlSection.js:161-165 | moves to a step at or before the current one, and never forward |
| RosControl.RosControlSection.HandleSetupClick | src/views/dashboard/ROSControlSection.js:100-116 | returns the command to publish and sets the loading flag |
| RosControl.RosControlSection.SetupDelayElapsed | src/views/dashboard/ROSControlSection.js:120-121 | clears the loading flag |
| RosControl.RosControlSection.HandleExecute | src/views/dashboard/ROSControlSection.js:308-309 | publishes the current step's identifier |
| RosControl.RosControlSection.HandleFileNameChange | src/views/dashboard/ROSControlSection.js:208 | stores the typed file name |
| RosControl.RosControlSection.NameAndPathRequest | src/views/dashboard/ROSControlSection.js:130-137 | the Submit request is refused exactly when the typed name is empty; otherwise it carries that name and a path below the projects root, with a missing prop written as `undefined` |
| RosControl.RosControlSection.OpenRecordModal | src/views/dashboard/ROSControlSection.js:225-229 | Start Recording opens the confirmation modal |
| RosControl.RosControlSection.CloseRecordModal | src/views/dashboard/ROSControlSection.js:258-259 | closing the modal hides it |
| RosControl.RosControlSection.ConfirmStartRecording | src/views/dashboard/ROSControlSection.js:266-272 | publishes the start command and leaves only Stop enabled |
| RosControl.RosControlSection.HandleStop | src/views/dashboard/ROSControlSection.js:233-241 | publishes the stop command and leaves only Record Another enabled |
| RosControl.RosControlSection.HandleRecordAnother | src/views/dashboard/ROSControlSection.js:245-254 | publishes `record_another`, leaves only Start Recording enabled, and returns to the `set_file` step |
| BehaviorModal.ModalStepsLinear | src/views/dashboard/BehaviorControlModal.js:20-27 | the modal's table has four steps, each pointing to its successor |
| BehaviorModal.ResolveNext | src/views/dashboard/BehaviorControlModal.js:76 | Next only goes to a target the step declares, under the chosen option's key or under `default`; it finds none only when the step has no `default` |
| BehaviorModal.ResolveTakesChoice | src/views/dashboard/BehaviorControlModal.js:76 | a chosen option with a non-zero target wins over `default` |
| BehaviorModal.ResolveFallsBack | src/views/dashboard/BehaviorControlModal.js:76 | no option, an unknown option, or an option whose target is `null` or 0 falls back to `default` |
| BehaviorModal.ZeroTargetIsNotFollowed | src/views/dashboard/BehaviorControlModal.js:76-78 | with targets `{yes: 2, no: 0}` and no `default`, "no" resolves to nothing while "yes" resolves to 2 |
| BehaviorModal.ModalNextIsSuccessor | src/views/dashboard/BehaviorControlModal.js:20-27 | on the modal's table, every selection resolves to the next position |
| BehaviorModal.HasOptions | src/views/dashboard/BehaviorControlModal.js:37 | a step has options exactly when its `next` object has more than one entry |
| BehaviorModal.OptionButtons | src/views/dashboard/BehaviorControlModal.js:138-143 | one button per `next` key when the step has options, and none otherwise |
| BehaviorModal.NoModalStepHasOptions | src/views/dashboard/BehaviorControlModal.js:37 | no step of the modal's table has options |
| BehaviorModal.BehaviorControlModal.constructor | src/views/dashboard/BehaviorControlModal.js:30-32 | starts at step 0, with no option and not loading |
| BehaviorModal.BehaviorControlModal.NextEnabled | src/views/dashboard/BehaviorControlModal.js:150 | Next is clickable only when nothing is loading and, on this table, a following step exists |
| BehaviorModal.BehaviorControlModal.HandleOptionClick | src/views/dashboard/BehaviorControlModal.js:70-73 | records the option and publishes the current step's identifier without moving |
| BehaviorModal.BehaviorControlModal.HandleNextState | src/views/dashboard/BehaviorControlModal.js:75-81 | moves to the resolved target and clears the option, or changes nothing when there is no target; under the button guard, moves exactly one step |
| BehaviorModal.BehaviorControlModal.HandleBreadcrumbClick | src/views/dashboard/BehaviorControlModal.js:83-88 | an earlier or current step is entered and the option cleared; a later one changes nothing |
| BehaviorModal.BehaviorControlModal.HandleSetupClick | src/views/dashboard/BehaviorControlModal.js:40-56 | returns the command to publish and sets the loading flag |
| BehaviorModal.BehaviorControlModal.SetupDelayElapsed | src/views/dashboard/BehaviorControlModal.js:60-61 | clears the loading flag |
| Telemetry.RadToDeg | src/views/dashboard/WebSocketProvider.js:22 | the degree value has the sign of the radian value, and is zero exactly when it is |
| Telemetry.RadToDegOrder | src/views/dashboard/WebSocketProvider.js:22 | a larger angle never converts to a smaller value, and a half turn (`Math.PI`) converts to 180 |
| Telemetry.ConvertData | src/views/dashboard/WebSocketProvider.js:25-35 | same number of channels in the same order; channels 3, 4 and 5 are passed through unchanged, and every other channel is its value converted to degrees |
| Telemetry.Accept | src/views/dashboard/WebSocketProvider.js:51-60 | a frame is ignored exactly when it is `null` or lacks `msg` or `msg.data`, and otherwise yields its converted channels and its time |
| Telemetry.Latest | src/views/dashboard/WebSocketProvider.js:64-65 | the buffer is the last `min(n, 1000)` arrivals, in arrival order |
| Telemetry.LatestAppend | src/views/dashboard/WebSocketProvider.js:64 | truncating after each append keeps what truncating the whole history keeps |
| Telemetry.LatestOf1500 | src/views/dashboard/WebSocketProvider.js:64 | after 1500 arrivals the buffer holds 1000 samples, the first being arrival 500 |
| Telemetry.LatestLockstep | src/views/dashboard/WebSocketProvider.js:64-65 | buffers fed the same arrivals have equal length, at most 1000 |
| Telemetry.WebSocketProvider.constructor | src/views/dashboard/WebSocketProvider.js:9-12 | all buffers start empty |
| Telemetry.WebSocketProvider.HandleMessage | src/views/dashboard/WebSocketProvider.js:50-68 | an accepted frame is appended to both buffers, which keep their latest 1000 entries; anything else changes nothing; the published copies are untouched |
| Telemetry.WebSocketProvider.Tick | src/views/dashboard/WebSocketProvider.js:38-47 | publishes copies equal to the current buffers, of equal length at most 1000 |
| MainCharts.EveryNth | src/views/dashboard/MainCharts.js:22 | the filter never lengthens the buffer and always keeps its first element |
| MainCharts.StrideCountStep | src/views/dashboard/MainCharts.js:22 | the count of multiples of `k` below `m` grows by one exactly at multiples of `k` |
| MainCharts.EveryNthSpec | src/views/dashboard/MainCharts.js:22 | the index filter keeps exactly the elements at multiples of `k`, in order |
| MainCharts.SampleData | src/views/dashboard/MainCharts.js:20-23 | with an interval of at least 1, at most 100 points |
| MainCharts.SampleDataSpec | src/views/dashboard/MainCharts.js:20-23 | the result is the last at most 100 elements at multiples of the interval, in order; an interval below 1 returns the input |
| MainCharts.GetVisibleData | src/views/dashboard/MainCharts.js:37-39 | with an interval of at least 1, at most 100 points |
| MainCharts.ZoomSpan | src/views/dashboard/MainCharts.js:38 | the number of newest samples in range is never negative, and never more than the 1000 the buffer holds while the zoom level is at most 1 |
| MainCharts.TailSampledAt | src/views/dashboard/MainCharts.js:38 | sampling the last `span` entries draws `VisibleCount` points, each the buffer entry at its `VisiblePosition` |
| MainCharts.VisibleDataAt | src/views/dashboard/MainCharts.js:37-39 | each visible point is the sample at its computed position in the buffer |
| MainCharts.VisibleAligned | src/views/dashboard/MainCharts.js:37-43 | visible samples and visible timestamps have equal length and come from the same positions |
| MainCharts.ChannelValues | src/views/dashboard/MainCharts.js:95 | one value per sample: the channel's value when the sample has it, and missing otherwise |
| MainCharts.ZoomInInterval | src/views/dashboard/MainCharts.js:55 | the zoomed-in stride is at least 1, and strictly smaller than any old stride of 2 or more |
| MainCharts.ZoomOutInterval | src/views/dashboard/MainCharts.js:65 | the zoomed-out stride is at most 10, and strictly larger than any old stride from 1 to 9 |
| MainCharts.ZoomInBounds | src/views/dashboard/MainCharts.js:55 | the zoomed-in interval is at least 1 and never above the old one |
| MainCharts.ZoomOutBounds | src/views/dashboard/MainCharts.js:65 | the zoomed-out interval is at most 10, and never below the old one when that was within 0–10 |
| MainCharts.IntervalStaysInRange | src/views/dashboard/MainCharts.js:32-74 | any sequence of zoom in, zoom out and reset keeps the interval within 1–10 |
| MainCharts.ZoomSpanPositive | src/views/dashboard/MainCharts.js:38 | within the zoom levels the buttons reach, the visible span is between 83 and 1199 samples |
| MainCharts.DataChart.constructor | src/views/dashboard/MainCharts.js:31-32 | zoom level 1 and interval `floor(1000/100) = 10` |
| MainCharts.DataChart.ZoomInX | src/views/dashboard/MainCharts.js:52-60 | above level 0.1, divides the zoom by 1.2 and sets the interval to `max(1, floor(s/1.2))`; otherwise changes nothing |
| MainCharts.DataChart.ZoomOutX | src/views/dashboard/MainCharts.js:62-70 | below level 1, multiplies the zoom by 1.2 and sets the interval to `min(10, ceil(s·1.2))`; otherwise changes nothing |
| MainCharts.DataChart.ResetZoom | src/views/dashboard/MainCharts.js:71-74 | restores zoom 1 and interval 10 |
| MainCharts.DataChart.VisibleData | src/views/dashboard/MainCharts.js:37-39 | a chart never draws more than 100 points |
| ChartSelection.RemoveAll | src/views/dashboard/Dashboard.js:193 | the filter keeps exactly the elements other than the name |
| ChartSelection.RemoveAllOrdered | src/views/dashboard/Dashboard.js:193 | the filter keeps the other names in their original order |
| ChartSelection.RemoveAllCounts | src/views/dashboard/Dashboard.js:193 | the filter drops every occurrence of the name and no occurrence of anything else |
| ChartSelection.RemoveAllAbsent | src/views/dashboard/Dashboard.js:193 | filtering out an absent name changes nothing |
| ChartSelection.RemoveAllAppend | src/views/dashboard/Dashboard.js:193 | filtering distributes over appending |
| ChartSelection.Toggle | src/views/dashboard/Dashboard.js:190-196 | the name is selected afterwards exactly when it was not before; other names keep their membership |
| ChartSelection.ToggleSpec | src/views/dashboard/Dashboard.js:190-196 | an absent name is appended at the end; a present one is removed, the rest kept in order and multiplicity |
| ChartSelection.ToggleTwiceRestores | src/views/dashboard/Dashboard.js:190-196 | toggling an absent name twice restores the selection |
| ChartSelection.CheckboxClick | src/views/dashboard/Dashboard.js:449-454 | a click on a dropdown checkbox runs the toggle twice, and leaves every other name's membership as it was |
| ChartSelection.CheckboxClickChangesNothing | src/views/dashboard/Dashboard.js:449-454 | after the double toggle every name is selected exactly when it was before; an unselected name leaves the selection unchanged, and a selected one moves to the end |
| ChartSelection.ToUpper | src/views/dashboard/Dashboard.js:456 | upper-casing keeps a word character a word character |
| ChartSelection.ReplaceFirstUnderscore | src/views/dashboard/Dashboard.js:456 | the replacement keeps the length |
| ChartSelection.CapitalizeWords | src/views/dashboard/Dashboard.js:456 | the capitalisation keeps the length |
| ChartSelection.FormatLabel | src/views/dashboard/Dashboard.js:480 | the label has the name's length, and the name's first underscore is a space in it |
| ChartSelection.FormatLabelSpec | src/views/dashboard/Dashboard.js:456-480 | every other character is upper-cased exactly when it is a word character at the front of the name, after the first underscore, or after a non-word character, and is kept otherwise; so later underscores stay and the letter after one stays lower-case |
| ChartSelection.ReplaceAtFirstUnderscore | src/views/dashboard/Dashboard.js:456 | only the first underscore, the one after an underscore-free prefix, becomes a space |
| ChartSelection.FormatPelvisTx | src/views/dashboard/Dashboard.js:480 | "pelvis_tx" is labelled "Pelvis Tx" |
| ChartSelection.FormatHipFlexionR | src/views/dashboard/Dashboard.js:456 | "hip_flexion_r" is labelled "Hip Flexion_r": the second underscore stays, and the letter after it is not capitalised |
| Windows.Window | src/views/history/History.js:89 | at most `width` points, the first at `start`; a full window when the column holds one; empty past the end |
| Windows.XLabels | src/views/history/History.js:201 | one label per point |
| Windows.LabelsLocatePoints | src/views/history/History.js:201 | each label is the 1-based position, in the column, of the point drawn above it |
| History.ZoomCap | src/views/history/History.js:65 | the reference column's length, or 100 when there is no file, no such column, or an empty column |
| History.NextZoom | src/views/history/History.js:62-67 | the zoom level is at least 20 and at most `max(20, cap)` |
| History.ZoomFixedPoints | src/views/history/History.js:64-65 | zooming in at 20 stays at 20; zooming out at the cap stays at the cap |
| History.ZoomDirection | src/views/history/History.js:64-65 | zooming in never widens and zooming out never narrows the window; within bounds, each moves by exactly 20 |
| History.MaxScrollIndex | src/views/history/History.js:145 | the scroll maximum is the reference column's length minus the zoom level, or minus the zoom level with no column |
| History.ChartDetailsFrom | src/views/history/History.js:85-95 | keys are exactly the selected columns present in the file; each series is the column's label and its window, at most `zoom` points |
| History.GetChartDetails | src/views/history/History.js:82-96 | `{}` without a file, and otherwise the fold over the selection |
| History.ChartDetailsSpec | src/views/history/History.js:82-96 | a column has details exactly when a file is loaded, the column is selected and the file has it; its points are the column's from `startIndex` on |
| History.ChartLabels | src/views/history/History.js:201 | labels `startIndex + 1 …`, one per visible point, and none for a column without details |
| History.ScrollEndShowsLatest | src/views/history/History.js:145 | scrolled to the maximum, the window is exactly the last `zoom` samples |
| History.HistoryView.constructor | src/views/history/History.js:16-20 | no file, `pelvis_tx` selected, start 0, zoom 100 |
| History.HistoryView.FileDataLoaded | src/views/history/History.js:41-44 | the file replaces the data and scrolling restarts at 0; zoom and selection are kept |
| History.HistoryView.HandleColumnToggle | src/views/history/History.js:53-59 | the selection is toggled |
| History.HistoryView.HandleZoom | src/views/history/History.js:62-67 | the zoom level steps by 20 and is clamped to between 20 and `max(20, cap)` |
| History.HistoryView.HandleScroll | src/views/history/History.js:70-73 | the window start becomes the scrollbar's value |
| History.HistoryView.ResetZoomAndScroll | src/views/history/History.js:76-79 | zoom 100, start 0 |
| History.HistoryView.ChartDetails | src/views/history/History.js:144 | no series is wider than the zoom level |
| TempHistory.MaxIndexFor | src/views/dashboard/Temp.js:39 | never negative; the last start that still fills a 50-point window, or 0 for a shorter column |
| TempHistory.GetLimitedData | src/views/dashboard/Temp.js:55-57 | at most 50 points, the first at `currentIndex` |
| TempHistory.FullWindowWhenInRange | src/views/dashboard/Temp.js:39-56 | any start up to the maximum fills the window when the column holds one; a start past it never does |
| TempHistory.GroupColumns | src/views/dashboard/Temp.js:59-182 | each chart group plots at least one column |
| TempHistory.GroupTitles | src/views/dashboard/Temp.js:67-166 | one dataset title per plotted column |
| TempHistory.Datasets | src/views/dashboard/Temp.js:65-89 | one dataset per column, each with its title and the column's window |
| TempHistory.RenderChart | src/views/dashboard/Temp.js:59-104 | a chart is drawn exactly when the file has all of the group's columns |
| TempHistory.SeriesShareWindow | src/views/dashboard/Temp.js:64-150 | every dataset is its column's window at the same start; the labels are `currentIndex + 1 …`, one per point of the first dataset, each a 1-based position in the column |
| TempHistory.TempHistoryView.constructor | src/views/dashboard/Temp.js:11-15 | no file, Pelvis selected, index and maximum 0 |
| TempHistory.TempHistoryView.FileDataLoaded | src/views/dashboard/Temp.js:36-39 | stores the file; the maximum follows `pelvis_tx`, and is unchanged when that column is missing |
| TempHistory.TempHistoryView.HandleRangeChange | src/views/dashboard/Temp.js:51-53 | the window start becomes the range value |
| TempHistory.TempHistoryView.HandleChartChange | src/views/dashboard/Temp.js:47-49 | the chosen group becomes the selected one |
| TempHistory.TempHistoryView.CurrentChart | src/views/dashboard/Temp.js:226-228 | no dataset of the drawn chart exceeds 50 points |
| Dashboard.DataIndex | src/views/dashboard/Dashboard.js:479 | a chart's channel is its name's position in the channel list, or -1 for an unlisted name |
| Dashboard.ChartDetailsDistinct | src/views/dashboard/Dashboard.js:58-78 | the 19 channel names are distinct |
| Dashboard.DataIndexOfListed | src/views/dashboard/Dashboard.js:58-78 | each listed name draws the channel at its own position |
| Dashboard.PelvisTxIsChannel3 | src/views/dashboard/Dashboard.js:479 | the selection starts as `pelvis_tx`, which draws channel 3 |
| Dashboard.UnconvertedChannelsArePelvisTranslations | src/views/dashboard/Dashboard.js:62-64 | the channels the feed leaves unconverted are exactly the three pelvis translations |
| Dashboard.ToggleKeepsListedCharts | src/views/dashboard/Dashboard.js:449-454 | toggling names from the dropdown keeps every selected name a listed channel |
| Dashboard.ChartPanels | src/views/dashboard/Dashboard.js:476-481 | one panel per selected name, in order, with its channel and its label |
| Dashboard.InitialPanels | src/views/dashboard/Dashboard.js:476-481 | the dashboard first shows one panel: channel 3, headed "Pelvis Tx" |
| Dashboard.PanelPlotsItsChannel | src/views/dashboard/MainCharts.js:95 | a listed name's panel plots, from every sample long enough, the value at that name's position |

## Left out

- HTTP requests (`fetch` to publish a command, set the name and path, list files and load a file) are left out. Their responses, the alerts and `console` logging are left out too. A command is returned as a value instead of being sent. A file's data arrives as a method argument.
- The WebSocket connection and `JSON.parse` of frames are left out. A frame arrives already parsed, as an optional message.
- Timers are left out: the simulated 1000 ms setup delay, the 2 s success message, and the 150 ms publishing interval. The delay's end and the tick are explicit methods (`SetupDelayElapsed`, `Tick`) called by the environment.
- `Telemetry.Accept`: the frame's time is kept as the raw number. It is not formatted as a local `HH:MM:SS` string, because locale formatting is outside the model.
- Floating point is modelled as exact rational arithmetic. `Math.PI` is a fixed decimal constant. Rounding errors of the degree conversion and of the zoom factor 1.2 are not modelled.
- Telemetry.ConvertData: each converted channel is the exact product, not the rounded double one. For a magnitude above about 3.1e306 radians the double product overflows to `Infinity`, which the model does not show.
- Telemetry.RadToDegOrder: the half-turn value 180 is exact here; in doubles the product may differ from 180 in the last bit. The ordering holds for the rounded product too, but only weakly.
- The `error` and `transitionMessage` flags of the two wizards are left out.
- The control section's behaviour-log panel is left out. It reads `logs` from the telemetry context (ROSControlSection.js:83). That context provides only `data` and `timestamps` (WebSocketProvider.js:71), so `logs` is `undefined`. The guard `logs && logs.length === 0` is then false, and `logs.map` at ROSControlSection.js:288 throws. So, as written, the control section fails on every render; this comes from reading the code, not from running it. The model gives the wizard's behaviour as if the panel rendered.
- React state batching and re-rendering are left out. Each handler is one atomic state change. The ROS wizard's Next and the live chart's zoom read the state of the current render, and this is modelled as the state before the call.
- The dashboard's own `handleSetupClick` is left out, because it calls state setters the component never defines. So are its unused form state and its file-path field.
- The Babylon.js motion viewer is left out: scene, pose application and camera zoom.
- Chart.js options, colours, styling, layout and the large-chart toggle are left out.
- The live chart's y-range editing window is left out.
- Commented-out code is left out: the old recording block of the dashboard, and the `record_another` entry of the modal's table.
- The history views' file list and loading spinner are left out. A failed file load leaves the state unchanged.
- The dropdown's `Object.keys(chartData)` listing of a file's columns is left out. A map has no key order.
- `History.ChartDetailsFrom` assumes every column of a loaded file is an array, so that any present column is truthy. A non-array value in the file is not modelled.
- The behavior modal's `visible`/`onClose` props are left out. The dashboard mounts the modal with `visible={ctrlVisible}` (Dashboard.js:435). The only call that sets `ctrlVisible` to true is inside commented-out code (Dashboard.js:331), so, as written, the modal is never shown. The model gives the modal's behaviour once it is open.
- `BehaviorModal.ResolveNext` follows the code's `||`. A selected option whose target is `0` or `null` falls back to `default`. A description that reads as "use the option's target when one exists" would differ here.

## Findings

Both rows come from reading the code; nothing was executed.

| source | as written | input that shows it | evidently intended | confidence | as-written member | corrected member |
|---|---|---|---|---|---|---|
| src/views/dashboard/Dashboard.js:318 | the dashboard mounts `<ROSControlSection />` without the project, subject and session props, and the save path is built from them by template literals | file name "trial" on the `set_file` step: the relative path is `undefined/undefined/undefined/trial` | the selected project, subject and session, which `DatafileManager.js:52` does pass, so that the path splits back into them | medium; not executed | RosControl.UnsetPropsPath | RosControl.RelativePathRoundTrip |
| src/views/dashboard/Dashboard.js:449-454 | both the checkbox's `onChange` and the enclosing dropdown item's `onClick` call the functional-update toggle; a click on the checkbox bubbles to the item, so both updates apply. `History.js:176-180` does the same | a click on the checkbox of the unselected `pelvis_ty`: it is appended, then filtered out again, so the selection is unchanged | one toggle per click: the name's membership flips | medium; not executed | ChartSelection.CheckboxClickChangesNothing | ChartSelection.Toggle |
