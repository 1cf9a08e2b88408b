/** The guarded per-axis driver batch: a custom property on the driven
    object records that its drivers were added, and only the call that sets
    it issues the three per-axis driver requests. */
module Drivers {
  import opened Base
  import opened CustomProperties

  /** One request to the host's driver helper: the driven object's name, the
      source object's name, the two property names, the data path and axis
      index of this component, its transform expression and the optional
      evaluation rig. */
  datatype DriverCall = DriverCall(target: string, source: string, propSource: string,
                                   propTarget: string, dataPath: string, axis: nat,
                                   func: string, rig: Option<string>)

  /** The arguments of one batch; `funcs` is None when the caller gives none. */
  datatype BatchArgs = BatchArgs(target: string, source: string, propSource: string,
                                 propTarget: string, dataPaths: seq<string>,
                                 funcs: Option<seq<string>>, rig: Option<string>)

  /** The transform expressions, three empty ones by default. */
  function Funcs(a: BatchArgs): seq<string> {
    if a.funcs.None? then ["", "", ""] else a.funcs.value
  }

  /** How many axes the loop gets through before a subscript fails. */
  function AxesReached(a: BatchArgs): (n: nat)
    ensures n <= 3 && n <= |a.dataPaths| && n <= |Funcs(a)|
    ensures n < 3 ==> n == |a.dataPaths| || n == |Funcs(a)|
  {
    if |a.dataPaths| < 3 || |Funcs(a)| < 3 then
      if |a.dataPaths| < |Funcs(a)| then |a.dataPaths| else |Funcs(a)|
    else 3
  }

  function AxisCall(a: BatchArgs, i: nat): DriverCall
    requires i < |a.dataPaths| && i < |Funcs(a)|
  {
    DriverCall(a.target, a.source, a.propSource, a.propTarget, a.dataPaths[i], i, Funcs(a)[i], a.rig)
  }

  /** The requests for axes 0 to n - 1, in axis order. */
  function AxisCalls(a: BatchArgs, n: nat): seq<DriverCall>
    requires n <= AxesReached(a)
  {
    seq(n, i requires 0 <= i < n => AxisCall(a, i))
  }

  /** What `add_driver_batch` leaves: the driven object's properties, the
      driver requests issued, and how it ended. */
  datatype BatchEffect = BatchEffect(props: PropertyTable, calls: seq<DriverCall>, outcome: Outcome)

  function DriverBatch(props: PropertyTable, a: BatchArgs): (e: BatchEffect)
    ensures e.calls != [] ==> GetCustomProperty(props, a.propTarget) == NoneValue
    ensures GetCustomProperty(e.props, a.propTarget) != NoneValue
    ensures forall k :: k != a.propTarget ==> GetCustomProperty(e.props, k) == GetCustomProperty(props, k)
    ensures |e.calls| <= AxesReached(a) <= 3
    ensures forall i :: 0 <= i < |e.calls| ==>
      e.calls[i].axis == i && e.calls[i].dataPath == a.dataPaths[i] && e.calls[i].func == Funcs(a)[i]
    ensures e.outcome == Done || e.outcome == Raised(IndexError)
  {
    var tag := Tag(props, a.propTarget, BoolValue(true));
    if tag.added then
      var n := AxesReached(a);
      BatchEffect(tag.props, AxisCalls(a, n), if n == 3 then Done else Raised(IndexError))
    else
      BatchEffect(props, [], Done)
  }

  /** The first batch on an untagged object tags it with True and issues
      exactly three requests, for axes 0, 1 and 2 in that order. */
  lemma DriverBatchFirst(props: PropertyTable, a: BatchArgs)
    requires GetCustomProperty(props, a.propTarget) == NoneValue
    requires |a.dataPaths| >= 3 && (a.funcs.Some? ==> |a.funcs.value| >= 3)
    ensures var e := DriverBatch(props, a);
      && e.outcome == Done
      && e.props == props[a.propTarget := BoolValue(true)]
      && e.calls == [AxisCall(a, 0), AxisCall(a, 1), AxisCall(a, 2)]
      && (a.funcs.None? ==> forall i :: 0 <= i < 3 ==> e.calls[i].func == "")
  {
    var e := DriverBatch(props, a);
    assert |e.calls| == 3;
  }

  /** A batch on an object that already carries the tag issues no request
      and changes nothing. */
  lemma DriverBatchRepeat(props: PropertyTable, a: BatchArgs)
    requires GetCustomProperty(props, a.propTarget) != NoneValue
    ensures DriverBatch(props, a) == BatchEffect(props, [], Done)
  {
  }

  /** Too few data paths or expressions: the tag is set, the axes before the
      failing subscript keep their drivers, and IndexError is raised. */
  lemma DriverBatchPartial(props: PropertyTable, a: BatchArgs)
    requires GetCustomProperty(props, a.propTarget) == NoneValue
    requires |a.dataPaths| < 3 || (a.funcs.Some? && |a.funcs.value| < 3)
    ensures var e := DriverBatch(props, a);
      && e.outcome == Raised(IndexError)
      && e.props == props[a.propTarget := BoolValue(true)]
      && |e.calls| < 3
      && (|e.calls| == |a.dataPaths| || |e.calls| == |Funcs(a)|)
  {
  }

  /** Two batches for the same object and property: the second issues
      nothing and leaves the properties as the first left them, so the pair
      issues at most three requests, and exactly three on an untagged object
      with enough data paths and expressions. */
  lemma DriverBatchTwice(props: PropertyTable, a: BatchArgs, b: BatchArgs)
    requires b.propTarget == a.propTarget
    ensures var first := DriverBatch(props, a);
      var second := DriverBatch(first.props, b);
      && second == BatchEffect(first.props, [], Done)
      && |first.calls + second.calls| <= 3
      && ((GetCustomProperty(props, a.propTarget) == NoneValue && |a.dataPaths| >= 3
           && (a.funcs.Some? ==> |a.funcs.value| >= 3)) ==> |first.calls + second.calls| == 3)
  {
    var first := DriverBatch(props, a);
    DriverBatchRepeat(first.props, b);
    if GetCustomProperty(props, a.propTarget) == NoneValue && |a.dataPaths| >= 3
       && (a.funcs.Some? ==> |a.funcs.value| >= 3) {
      DriverBatchFirst(props, a);
    }
  }
}
