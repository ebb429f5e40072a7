/** Steps of an operator workflow and the command a step sends to the robot controller.
    Both wizards (the control section and the behavior modal) hold a table of these. */
module Steps {
  import opened Js

  /** A value of a step's `next` object: a step position, or an explicit `null`. */
  datatype Target = To(index: int) | Null

  /** One `key: target` entry of a step's `next` object, in the order the object literal
      lists it. Every table here has distinct keys that are not integer-like, and for such
      keys JavaScript enumerates in that same order. */
  datatype Branch = Branch(key: string, target: Target)

  datatype Step = Step(name: string, id: string, info: string, next: seq<Branch>)

  /** `Object.keys(next)`. */
  function Keys(next: seq<Branch>): (r: seq<string>)
    ensures |r| == |next|
    ensures forall i :: 0 <= i < |next| ==> r[i] == next[i].key
  {
    seq(|next|, i requires 0 <= i < |next| => next[i].key)
  }

  /** `next[key]`: the target stored under `key`, or `None` for `undefined`. */
  function Lookup(next: seq<Branch>, key: string): (r: Option<Target>)
    ensures r.None? <==> key !in Keys(next)
    ensures r.Some? ==> Branch(key, r.value) in next
  {
    if |next| == 0 then None
    else if next[0].key == key then Some(next[0].target)
    else
      assert Keys(next) == [next[0].key] + Keys(next[1..]);
      Lookup(next[1..], key)
  }

  /** The `nextIndex !== null && nextIndex !== undefined` guard: the position a
      resolved target moves to, if any. */
  function Destination(t: Option<Target>): (r: Option<int>)
    ensures r.Some? <==> t.Some? && t.value.To?
    ensures r.Some? ==> t == Some(To(r.value))
  {
    match t
    case Some(To(i)) => Some(i)
    case _ => None
  }

  /** Every step of the table has exactly the entry `default: i + 1`. */
  ghost predicate Linear(steps: seq<Step>)
  {
    forall i :: 0 <= i < |steps| ==> steps[i].next == [Branch("default", To(i + 1))]
  }

  /** On a linear table the default target of step `i` is its successor. */
  lemma DefaultOfLinear(steps: seq<Step>, i: int)
    requires Linear(steps) && 0 <= i < |steps|
    ensures Lookup(steps[i].next, "default") == Some(To(i + 1))
  {
  }

  /** The topic every setup action is published on. */
  const CommandTopic: string := "/flexbe/command/transition"

  /** The body `{ topic, message, branchValue }` posted to the publish endpoint. */
  datatype Command = Command(topic: string, message: string, branchValue: int)

  function SetupCommand(message: string, branchValue: int): (c: Command)
    ensures c.topic == CommandTopic && c.message == message && c.branchValue == branchValue
  {
    Command(CommandTopic, message, branchValue)
  }
}
