/** The behavior control modal: a four-step wizard whose Next resolves the operator's
    chosen option against the step's `next` object, falling back to `default`. */
module BehaviorModal {
  import opened Js
  import opened Steps

  const ModalSteps: seq<Step> := [
    Step("Turn on IMUs", "turn_on_imus", "Please turn on all IMUs.", [Branch("default", To(1))]),
    Step("Check if IMUs are on", "check_if_imus_on",
      "Checking if devices are on. Please proceed after IMUs flashing white light.", [Branch("default", To(2))]),
    Step("don_imus", "don_imus", "This state logs a message indicating that IMUs are worn.", [Branch("default", To(3))]),
    Step("Wait for nodes to be ready", "wait_for_nodes_to_be_ready", "This state waits until nodes are ready.",
      [Branch("default", To(4))])
  ]

  lemma ModalStepsLinear()
    ensures |ModalSteps| == 4 && Linear(ModalSteps)
  {
    forall i | 0 <= i < |ModalSteps| ensures ModalSteps[i].next == [Branch("default", To(i + 1))] {
      if i == 0 {} else if i == 1 {} else if i == 2 {} else {}
    }
  }

  /** The property name a selected option is looked up under: JavaScript turns a `null`
      key into the string "null". */
  function OptionKey(selected: Option<string>): string
  {
    if selected.None? then "null" else selected.value
  }

  /** JavaScript truthiness of a looked-up target: `undefined`, `null` and `0` are falsy. */
  predicate Truthy(t: Option<Target>)
  {
    t.Some? && t.value.To? && t.value.index != 0
  }

  /** `next[selectedOption] || next.default`. */
  function ResolveNext(next: seq<Branch>, selected: Option<string>): (r: Option<Target>)
    ensures r.Some? ==> Branch(OptionKey(selected), r.value) in next || Branch("default", r.value) in next
    ensures r.None? ==> "default" !in Keys(next)
  {
    var chosen := Lookup(next, OptionKey(selected));
    if Truthy(chosen) then chosen else Lookup(next, "default")
  }

  /** A chosen option whose target is a non-zero position wins over `default`. */
  lemma ResolveTakesChoice(next: seq<Branch>, option: string, j: int)
    requires Lookup(next, option) == Some(To(j)) && j != 0
    ensures ResolveNext(next, Some(option)) == Some(To(j))
  {
  }

  /** Otherwise -- no option, an unknown option, or an option whose target is `null` or
      position 0 -- Next follows `default`. */
  lemma ResolveFallsBack(next: seq<Branch>, selected: Option<string>)
    requires Lookup(next, OptionKey(selected)) in {None, Some(Null), Some(To(0))}
    ensures ResolveNext(next, selected) == Lookup(next, "default")
  {
  }

  /** A step `{ yes: 2, no: 0 }` without `default`: choosing "no" does not go to
      position 0; Next then finds no target and stays where it is. */
  lemma ZeroTargetIsNotFollowed()
    ensures ResolveNext([Branch("yes", To(2)), Branch("no", To(0))], Some("no")) == None
    ensures ResolveNext([Branch("yes", To(2)), Branch("no", To(0))], Some("yes")) == Some(To(2))
  {
    var next := [Branch("yes", To(2)), Branch("no", To(0))];
    assert Lookup(next, "no") == Some(To(0)) by {
      assert next[0].key != "no";
      assert next[1..] == [Branch("no", To(0))];
    }
    assert Lookup(next, "default") == None by {
      assert "default" !in Keys(next) by {
        assert Keys(next) == ["yes", "no"];
      }
    }
  }

  /** On the modal's table every selection resolves to the next position. */
  lemma ModalNextIsSuccessor(i: int, selected: Option<string>)
    requires 0 <= i < |ModalSteps|
    ensures ResolveNext(ModalSteps[i].next, selected) == Some(To(i + 1))
  {
    ModalStepsLinear();
    DefaultOfLinear(ModalSteps, i);
  }

  /** `hasOptions`: the step's `next` object has more than one key. */
  predicate HasOptions(step: Step): (b: bool)
    ensures b <==> |step.next| > 1
  {
    |Keys(step.next)| > 1
  }

  /** The option buttons offered: one per key of `next` when the step has options,
      otherwise none (the Setup button is shown instead). */
  function OptionButtons(step: Step): (r: seq<string>)
    ensures HasOptions(step) ==> r == Keys(step.next)
    ensures !HasOptions(step) ==> r == []
    ensures r != [] ==> |r| > 1
  {
    if HasOptions(step) then Keys(step.next) else []
  }

  /** No step of the modal's table has options, so each shows the Setup button. */
  lemma NoModalStepHasOptions(i: int)
    requires 0 <= i < |ModalSteps|
    ensures !HasOptions(ModalSteps[i]) && OptionButtons(ModalSteps[i]) == []
  {
    ModalStepsLinear();
  }

  /** The modal's component state. */
  class BehaviorControlModal {
    var currentStateIndex: int
    var selectedOption: Option<string>
    var loading: bool

    ghost predicate Valid()
      reads this
    {
      0 <= currentStateIndex < |ModalSteps|
    }

    constructor ()
      ensures Valid() && currentStateIndex == 0 && selectedOption == None && !loading
    {
      currentStateIndex, selectedOption, loading := 0, None, false;
    }

    function CurrentState(): Step
      reads this
      requires Valid()
    {
      ModalSteps[currentStateIndex]
    }

    /** The Next button: disabled while loading, and on the last step unless it has options. */
    predicate NextEnabled(): (b: bool)
      reads this
      requires Valid()
      ensures b ==> !loading
      ensures b ==> currentStateIndex + 1 < |ModalSteps|
    {
      NoModalStepHasOptions(currentStateIndex);
      !(loading || (!HasOptions(CurrentState()) && currentStateIndex == |ModalSteps| - 1))
    }

    /** An option button records the choice and publishes the current step; the step
        does not change. */
    method HandleOptionClick(option: string) returns (cmd: Command)
      requires Valid()
      modifies this`selectedOption, this`loading
      ensures Valid() && selectedOption == Some(option) && loading
      ensures cmd == SetupCommand(CurrentState().id, 0)
    {
      selectedOption := Some(option);
      cmd := HandleSetupClick(CurrentState().id, 0);
    }

    method HandleNextState()
      requires Valid() && NextEnabled()
      modifies this`currentStateIndex, this`selectedOption
      ensures Valid()
      ensures match Destination(ResolveNext(old(CurrentState()).next, old(selectedOption)))
              case Some(i) => currentStateIndex == i && selectedOption == None
              case None => currentStateIndex == old(currentStateIndex) && selectedOption == old(selectedOption)
      ensures currentStateIndex == old(currentStateIndex) + 1 && selectedOption == None
    {
      ModalNextIsSuccessor(currentStateIndex, selectedOption);
      var nextIndex := ResolveNext(CurrentState().next, selectedOption);
      if nextIndex.Some? && nextIndex.value.To? {
        currentStateIndex := nextIndex.value.index;
        selectedOption := None;
      }
    }

    /** Breadcrumbs only go back to steps already reached, and clear the choice. */
    method HandleBreadcrumbClick(index: int)
      requires Valid() && 0 <= index < |ModalSteps|
      modifies this`currentStateIndex, this`selectedOption
      ensures Valid()
      ensures index <= old(currentStateIndex) ==> currentStateIndex == index && selectedOption == None
      ensures old(currentStateIndex) < index ==>
                currentStateIndex == old(currentStateIndex) && selectedOption == old(selectedOption)
    {
      if index <= currentStateIndex {
        currentStateIndex := index;
        selectedOption := None;
      }
    }

    /** Starts a setup action: returns the command to publish and shows the spinner. */
    method HandleSetupClick(message: string, branchValue: int) returns (cmd: Command)
      modifies this`loading
      ensures loading
      ensures cmd == SetupCommand(message, branchValue)
    {
      cmd := SetupCommand(message, branchValue);
      loading := true;
    }

    /** The simulated delay of a setup action has elapsed. */
    method SetupDelayElapsed()
      modifies this`loading
      ensures !loading
    {
      loading := false;
    }
  }
}
