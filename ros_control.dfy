/** The ROS-OpenSimRT control section: a seven-step wizard walked by Next, Previous and
    breadcrumb clicks, the Execute button that publishes the current step, the three
    recording buttons of the last step, and the save path built for a recording. */
module RosControl {
  import opened Js
  import opened Steps

  const RosSteps: seq<Step> := [
    Step("ROS-OpenSimRT Control", "intro",
      "This section allows you to control and set up the ROS-OpenSimRT system, including configurations for the IMU and insole sensors. Use the following steps to initialize, calibrate, and run the system as needed.",
      [Branch("default", To(1))]),
    Step("Turn on IMUs", "turn_on_imus", "Please turn on all IMUs.", [Branch("default", To(2))]),
    Step("Check if IMUs are on", "check_if_imus_on",
      "Checking if devices are on. Please proceed after IMUs flash white light.", [Branch("default", To(3))]),
    Step("IMUs Worn", "don_imus", "Please confirm that the IMUs are worn correctly.", [Branch("default", To(4))]),
    Step("Wait for Nodes", "wait_for_nodes_to_be_ready", "Waiting for all nodes to be ready.", [Branch("default", To(5))]),
    Step("Set File Name", "set_file",
      "Please provide the file name and path of the record you want to save. If no file path is provided, the default path `/srv/host_data/tmp` will be used.",
      [Branch("default", To(6))]),
    Step("Record Movement", "record_movement", "Record the movement once all systems are ready.", [Branch("default", To(7))])
  ]

  /** Position of the `set_file` step, where Record Another jumps back to. */
  const SetFileIndex: int := 5

  /** Every step's default target is the next position. */
  lemma RosStepsLinear()
    ensures |RosSteps| == 7 && Linear(RosSteps)
  {
    forall i | 0 <= i < |RosSteps| ensures RosSteps[i].next == [Branch("default", To(i + 1))] {
      if i == 0 {} else if i == 1 {} else if i == 2 {} else if i == 3 {} else if i == 4 {} else if i == 5 {} else {}
    }
  }

  /** The last step's default target is the table length: following it would leave the
      table, which is why Next is disabled on the last step. */
  lemma LastStepLeavesTable()
    ensures Lookup(RosSteps[|RosSteps| - 1].next, "default") == Some(To(|RosSteps|))
  {
  }

  /** Record Another lands on the step that asks for the file name. */
  lemma SetFileIndexIsSetFileStep()
    ensures 0 <= SetFileIndex < |RosSteps| && RosSteps[SetFileIndex].id == "set_file"
  {
  }

  /** Where `handleNextState` leaves the index: the step's `default` target when it is a
      position, and the old index when it is `null` or missing. */
  function NextIndex(step: Step, current: int): (r: int)
    ensures r == current || Branch("default", To(r)) in step.next
  {
    match Destination(Lookup(step.next, "default"))
    case Some(i) => i
    case None => current
  }

  lemma NextIndexFollowsDefault(step: Step, current: int)
    ensures Lookup(step.next, "default").Some? && Lookup(step.next, "default").value.To? ==>
              NextIndex(step, current) == Lookup(step.next, "default").value.index
    ensures Lookup(step.next, "default") in {None, Some(Null)} ==> NextIndex(step, current) == current
  {
  }

  /** From every step of the table, Next moves exactly one step forward. */
  lemma NextIndexIsSuccessor(i: int)
    requires 0 <= i < |RosSteps|
    ensures NextIndex(RosSteps[i], i) == i + 1
  {
    RosStepsLinear();
    DefaultOfLinear(RosSteps, i);
  }

  /** Steps without an Execute button: the intro, the file-name form and the recording step. */
  predicate ExecuteShown(step: Step)
  {
    step.id != "intro" && step.id != "set_file" && step.id != "record_movement"
  }

  /** Execute is offered on exactly the four device-setup steps. */
  lemma ExecuteShownSteps(i: int)
    requires 0 <= i < |RosSteps|
    ensures ExecuteShown(RosSteps[i]) <==> 1 <= i <= 4
  {
    if i == 0 {} else if i == 1 {} else if i == 2 {} else if i == 3 {} else if i == 4 {} else if i == 5 {} else {}
  }

  /** Exactly one of the Start Recording, Stop and Record Another buttons is enabled. */
  predicate ExactlyOneEnabled(recordDisabled: bool, stopDisabled: bool, reRecordDisabled: bool)
  {
    (if recordDisabled then 0 else 1) + (if stopDisabled then 0 else 1) + (if reRecordDisabled then 0 else 1) == 1
  }

  datatype Result<T> = Ok(value: T) | Err(message: string)

  /** The body posted to the set-name-and-path endpoint. */
  datatype PathRequest = PathRequest(filename: string, filepath: string, relativePath: string)

  const ProjectsRoot: string := "/srv/host_data/Projects/"

  /** `handleSetNameAndPath`: an empty file name is refused before any request; otherwise
      the recording is saved under project/subject/session/file below the projects root. */
  function SetNameAndPath(project: string, subject: string, session: string, fileName: string): (r: Result<PathRequest>)
    ensures r.Err? <==> fileName == ""
    ensures r.Ok? ==> r.value.filename == fileName && r.value.filepath == ProjectsRoot + r.value.relativePath
  {
    if fileName == "" then Err("Please provide a filename")
    else
      var relativePath := project + "/" + subject + "/" + session + "/" + fileName;
      Ok(PathRequest(fileName, "/srv/host_data/Projects/" + relativePath, relativePath))
  }

  /** The relative path names its four parts unambiguously: splitting it at "/" gives
      back project, subject, session and file when none of them holds a "/". */
  lemma {:induction false} RelativePathRoundTrip(project: string, subject: string, session: string, fileName: string)
    requires fileName != ""
    requires '/' !in project && '/' !in subject && '/' !in session && '/' !in fileName
    ensures SetNameAndPath(project, subject, session, fileName).Ok?
    ensures Split(SetNameAndPath(project, subject, session, fileName).value.relativePath, '/')
         == [project, subject, session, fileName]
  {
    var rel := SetNameAndPath(project, subject, session, fileName).value.relativePath;
    assert rel == project + ['/'] + (subject + ['/'] + (session + ['/'] + fileName));
    SplitJoined(project, '/', subject + ['/'] + (session + ['/'] + fileName));
    SplitJoined(subject, '/', session + ['/'] + fileName);
    SplitJoined(session, '/', fileName);
    SplitNoSeparator(fileName, '/');
  }

  /** The dashboard mounts the section without props, so each part of the path is
      `undefined`: a recording "trial" would be saved under "undefined/undefined/undefined/trial". */
  lemma UnsetPropsPath(fileName: string)
    requires fileName != ""
    ensures SetNameAndPath(Interpolate(None), Interpolate(None), Interpolate(None), fileName).Ok?
    ensures SetNameAndPath(Interpolate(None), Interpolate(None), Interpolate(None), fileName).value.relativePath
         == "undefined/undefined/undefined/" + fileName
  {
  }

  /** The control section's component state. */
  class RosControlSection {
    /** The props; each is missing when the parent does not pass it. */
    const projectName: Option<string>
    const subjectId: Option<string>
    const sessionName: Option<string>
    var currentStateIndex: int
    var loading: bool
    var fileName: string
    var recordVisible: bool
    var recordDisabled: bool
    var stopDisabled: bool
    var reRecordDisabled: bool

    /** The index names a step, exactly one recording button is enabled, and the
        confirmation modal is never open while Record Another is enabled. */
    ghost predicate Valid()
      reads this
    {
      0 <= currentStateIndex < |RosSteps| &&
      ExactlyOneEnabled(recordDisabled, stopDisabled, reRecordDisabled) &&
      (recordVisible ==> reRecordDisabled)
    }

    constructor (projectName: Option<string>, subjectId: Option<string>, sessionName: Option<string>)
      ensures Valid()
      ensures this.projectName == projectName && this.subjectId == subjectId && this.sessionName == sessionName
      ensures currentStateIndex == 0 && !loading && fileName == "" && !recordVisible
      ensures !recordDisabled && stopDisabled && reRecordDisabled
    {
      this.projectName, this.subjectId, this.sessionName := projectName, subjectId, sessionName;
      currentStateIndex, loading, fileName, recordVisible := 0, false, "", false;
      recordDisabled, stopDisabled, reRecordDisabled := false, true, true;
    }

    function CurrentState(): Step
      reads this
      requires Valid()
    {
      RosSteps[currentStateIndex]
    }

    /** The Next button: disabled on the last step and while an action is loading. */
    predicate NextEnabled(): (b: bool)
      reads this
      ensures b ==> !loading
      ensures Valid() && b ==> currentStateIndex + 1 < |RosSteps|
    {
      !(currentStateIndex == |RosSteps| - 1 || loading)
    }

    /** The Previous button: disabled on the first step and while an action is loading. */
    predicate PreviousEnabled(): (b: bool)
      reads this
      ensures b ==> !loading
      ensures Valid() && b ==> 1 <= currentStateIndex
    {
      !(currentStateIndex == 0 || loading)
    }

    method HandleNextState()
      requires Valid() && NextEnabled()
      modifies this`currentStateIndex
      ensures Valid()
      ensures currentStateIndex == NextIndex(old(CurrentState()), old(currentStateIndex))
      ensures currentStateIndex == old(currentStateIndex) + 1
    {
      NextIndexIsSuccessor(currentStateIndex);
      var nextIndex := Lookup(CurrentState().next, "default");
      if nextIndex.Some? && nextIndex.value.To? {
        currentStateIndex := nextIndex.value.index;
      }
    }

    /** Goes back one step; a no-op on the first step (where the button is also disabled). */
    method HandlePreviousState()
      requires Valid()
      modifies this`currentStateIndex
      ensures Valid()
      ensures currentStateIndex == if old(currentStateIndex) > 0 then old(currentStateIndex) - 1 else old(currentStateIndex)
    {
      if currentStateIndex > 0 {
        currentStateIndex := currentStateIndex - 1;
      }
    }

    /** Breadcrumbs only go back to steps already reached. */
    method HandleBreadcrumbClick(index: int)
      requires Valid() && 0 <= index < |RosSteps|
      modifies this`currentStateIndex
      ensures Valid()
      ensures currentStateIndex == if index <= old(currentStateIndex) then index else old(currentStateIndex)
      ensures currentStateIndex <= old(currentStateIndex)
    {
      if index <= currentStateIndex {
        currentStateIndex := index;
      }
    }

    /** Starts a setup action: returns the command to publish and shows the spinner. */
    method HandleSetupClick(message: string, branchValue: int) returns (cmd: Command)
      modifies this`loading
      ensures loading
      ensures cmd == SetupCommand(message, branchValue)
    {
      cmd := SetupCommand(message, branchValue);
      loading := true;
    }

    /** The simulated delay of a setup action has elapsed. */
    method SetupDelayElapsed()
      modifies this`loading
      ensures !loading
    {
      loading := false;
    }

    /** The Execute button publishes the current step's identifier. */
    method HandleExecute() returns (cmd: Command)
      requires Valid() && ExecuteShown(CurrentState())
      modifies this`loading
      ensures Valid() && loading
      ensures cmd == SetupCommand(CurrentState().id, 0)
    {
      cmd := HandleSetupClick(CurrentState().id, 0);
    }

    method HandleFileNameChange(name: string)
      modifies this`fileName
      ensures fileName == name
    {
      fileName := name;
    }

    /** The request the Submit button of the `set_file` step sends, or the refusal. */
    function NameAndPathRequest(): (r: Result<PathRequest>)
      reads this
      ensures r.Err? <==> fileName == ""
      ensures r.Ok? ==> r.value.filename == fileName && r.value.filepath == ProjectsRoot + r.value.relativePath
    {
      SetNameAndPath(Interpolate(projectName), Interpolate(subjectId), Interpolate(sessionName), fileName)
    }

    /** Start Recording opens the confirmation modal. */
    method OpenRecordModal()
      requires Valid() && CurrentState().id == "record_movement" && !recordDisabled
      modifies this`recordVisible
      ensures Valid() && recordVisible
    {
      recordVisible := true;
    }

    method CloseRecordModal()
      requires Valid()
      modifies this`recordVisible
      ensures Valid() && !recordVisible
    {
      recordVisible := false;
    }

    /** The modal's Start button: only Stop stays enabled. */
    method ConfirmStartRecording() returns (cmd: Command)
      requires Valid() && recordVisible
      modifies this`loading, this`stopDisabled, this`recordDisabled
      ensures Valid()
      ensures recordDisabled && !stopDisabled && reRecordDisabled
      ensures cmd == SetupCommand("Start_Recording_Question_Mark", 0)
    {
      cmd := HandleSetupClick("Start_Recording_Question_Mark", 0);
      stopDisabled := false;
      recordDisabled := true;
    }

    /** Stop: only Record Another stays enabled. The modal's backdrop keeps the page's
        buttons out of reach while it is open. */
    method HandleStop() returns (cmd: Command)
      requires Valid() && CurrentState().id == "record_movement" && !stopDisabled && !recordVisible
      modifies this`loading, this`stopDisabled, this`reRecordDisabled
      ensures Valid()
      ensures recordDisabled && stopDisabled && !reRecordDisabled
      ensures cmd == SetupCommand("stop_recording_question_mark", 0)
    {
      cmd := HandleSetupClick("stop_recording_question_mark", 0);
      reRecordDisabled := false;
      stopDisabled := true;
    }

    /** Record Another: only Start Recording stays enabled and the wizard goes back to
        the file-name step. */
    method HandleRecordAnother() returns (cmd: Command)
      requires Valid() && CurrentState().id == "record_movement" && !reRecordDisabled && !recordVisible
      modifies this`loading, this`reRecordDisabled, this`recordDisabled, this`currentStateIndex
      ensures Valid()
      ensures !recordDisabled && stopDisabled && reRecordDisabled
      ensures currentStateIndex == SetFileIndex && CurrentState().id == "set_file"
      ensures cmd == SetupCommand("record_another", 0)
    {
      cmd := HandleSetupClick("record_another", 0);
      reRecordDisabled := true;
      recordDisabled := false;
      currentStateIndex := SetFileIndex;
      SetFileIndexIsSetFileStep();
    }
  }
}
