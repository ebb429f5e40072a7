/** The live telemetry provider: socket frames are converted and appended to a buffer of
    the latest 1000 samples (with a parallel buffer of timestamps), and a periodic tick
    publishes copies of both buffers to the charts. */
module Telemetry {
  import opened Js

  /** Samples kept: `.slice(-1000)` after every append. */
  const BufferCapacity: int := 1000

  /** Channels delivered as they are; every other channel is converted from radians to degrees. */
  const SkipConversionIndices: seq<int> := [3, 4, 5]

  /** `Math.PI`, as an exact decimal. */
  const Pi: real := 3.141592653589793

  /** `radToDeg`: an angle in radians, in degrees. */
  function RadToDeg(rad: real): (deg: real)
    ensures deg < 0.0 <==> rad < 0.0
    ensures deg == 0.0 <==> rad == 0.0
  {
    rad * (180.0 / Pi)
  }

  /** A larger angle never shows as a smaller one, and a half turn shows as 180 degrees. */
  lemma RadToDegOrder(x: real, y: real)
    ensures x <= y ==> RadToDeg(x) <= RadToDeg(y)
    ensures RadToDeg(Pi) == 180.0
  {
  }

  /** `convertData`: same channels, same order; channels 3, 4 and 5 untouched, every
      other channel converted from radians to degrees. */
  function ConvertData(newData: seq<real>): (r: seq<real>)
    ensures |r| == |newData|
    ensures forall i :: 0 <= i < |r| && i in SkipConversionIndices ==> r[i] == newData[i]
    ensures forall i :: 0 <= i < |r| && i !in SkipConversionIndices ==> r[i] == RadToDeg(newData[i])
  {
    seq(|newData|, i requires 0 <= i < |newData| =>
      if i in SkipConversionIndices then newData[i] else RadToDeg(newData[i]))
  }

  /** The payload of a frame: `msg.data` and `msg.time`, each possibly missing. */
  datatype Payload = Payload(data: Option<seq<real>>, time: Option<real>)

  /** A parsed socket frame; `msg` may be missing. */
  datatype Message = Message(msg: Option<Payload>)

  /** The timestamp kept for a sample: the frame's `time` (missing when the frame had none). */
  type TimeLabel = Option<real>

  datatype Sample = Sample(values: seq<real>, time: TimeLabel)

  /** What a `lastMessage` contributes: nothing when it is `null` or lacks `msg` or
      `msg.data`; otherwise the converted channels and the frame's time. */
  function Accept(lastMessage: Option<Message>): (r: Option<Sample>)
    ensures r.None? <==> lastMessage.None? || lastMessage.value.msg.None? || lastMessage.value.msg.value.data.None?
    ensures r.Some? ==>
              r.value.values == ConvertData(lastMessage.value.msg.value.data.value) &&
              r.value.time == lastMessage.value.msg.value.time
  {
    match lastMessage
    case Some(Message(Some(Payload(Some(data), time)))) => Some(Sample(ConvertData(data), time))
    case _ => None
  }

  /** The latest `BufferCapacity` entries, in arrival order. */
  function Latest<T>(s: seq<T>): (r: seq<T>)
    ensures |r| == Min(|s|, BufferCapacity)
    ensures r == s[|s| - |r|..]
  {
    SliceFrom(s, -BufferCapacity)
  }

  /** Truncating after each append keeps exactly what truncating the whole history keeps. */
  lemma LatestAppend<T>(s: seq<T>, x: T)
    ensures Latest(Latest(s) + [x]) == Latest(s + [x])
  {
    var a, b := Latest(Latest(s) + [x]), Latest(s + [x]);
    assert |a| == |b|;
    forall i | 0 <= i < |a| ensures a[i] == b[i] {
      var k := |Latest(s)| + 1 - |a| + i;
      if k < |Latest(s)| {
        assert a[i] == Latest(s)[k] == s[|s| - |Latest(s)| + k];
      }
    }
  }

  /** After 1500 arrivals the buffer holds 1000 samples, the first being arrival 500. */
  lemma LatestOf1500<T>(s: seq<T>)
    requires |s| == 1500
    ensures |Latest(s)| == 1000 && Latest(s)[0] == s[500] && Latest(s) == s[500..]
  {
  }

  /** Buffers fed the same number of arrivals have the same length, at most the capacity. */
  lemma LatestLockstep<A, B>(a: seq<A>, b: seq<B>)
    requires |a| == |b|
    ensures |Latest(a)| == |Latest(b)| <= BufferCapacity
  {
  }

  /** The provider's state: the two buffers being filled (`dataRef`, `timestampsRef`)
      and the copies last published to the charts (`data`, `timestamps`). */
  class WebSocketProvider {
    var dataRef: seq<seq<real>>
    var timestampsRef: seq<TimeLabel>
    var data: seq<seq<real>>
    var timestamps: seq<TimeLabel>
    /** Every accepted sample's channels and time, in arrival order. */
    ghost var arrivedData: seq<seq<real>>
    ghost var arrivedTimes: seq<TimeLabel>

    /** The buffers are the latest arrivals, and both buffers saw the same arrivals. */
    ghost predicate Valid()
      reads this
    {
      |arrivedData| == |arrivedTimes| &&
      dataRef == Latest(arrivedData) && timestampsRef == Latest(arrivedTimes)
    }

    constructor ()
      ensures Valid()
      ensures dataRef == [] && timestampsRef == [] && data == [] && timestamps == []
      ensures arrivedData == [] && arrivedTimes == []
    {
      dataRef, timestampsRef, data, timestamps := [], [], [], [];
      arrivedData, arrivedTimes := [], [];
    }

    /** The message listener: appends an accepted sample to both buffers and keeps the
        latest 1000 of each; ignores anything else. Published copies do not change. */
    method HandleMessage(lastMessage: Option<Message>)
      requires Valid()
      modifies this`dataRef, this`timestampsRef, this`arrivedData, this`arrivedTimes
      ensures Valid()
      ensures |dataRef| == |timestampsRef| <= BufferCapacity
      ensures match Accept(lastMessage)
              case None =>
                dataRef == old(dataRef) && timestampsRef == old(timestampsRef) &&
                arrivedData == old(arrivedData) && arrivedTimes == old(arrivedTimes)
              case Some(sample) =>
                dataRef == SliceFrom(old(dataRef) + [sample.values], -BufferCapacity) &&
                timestampsRef == SliceFrom(old(timestampsRef) + [sample.time], -BufferCapacity) &&
                arrivedData == old(arrivedData) + [sample.values] &&
                arrivedTimes == old(arrivedTimes) + [sample.time]
      ensures data == old(data) && timestamps == old(timestamps)
    {
      var accepted := Accept(lastMessage);
      if accepted.Some? {
        var sample := accepted.value;
        LatestAppend(arrivedData, sample.values);
        LatestAppend(arrivedTimes, sample.time);
        dataRef := SliceFrom(dataRef + [sample.values], -BufferCapacity);
        timestampsRef := SliceFrom(timestampsRef + [sample.time], -BufferCapacity);
        arrivedData := arrivedData + [sample.values];
        arrivedTimes := arrivedTimes + [sample.time];
      }
      LatestLockstep(arrivedData, arrivedTimes);
    }

    /** The 150 ms tick: publishes copies of the current buffers. */
    method Tick()
      requires Valid()
      modifies this`data, this`timestamps
      ensures Valid()
      ensures data == dataRef && timestamps == timestampsRef
      ensures |data| == |timestamps| <= BufferCapacity
    {
      data := dataRef;
      timestamps := timestampsRef;
      LatestLockstep(arrivedData, arrivedTimes);
    }
  }
}
