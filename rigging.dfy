/** The rigging helper object. Its state is the handler table it was built
    with and a record of the calls it has made into the host's helpers:
    the constraint setup functions and the driver helper. */
module Rigging {
  import opened Base
  import opened Strings
  import opened CustomProperties
  import opened ConstraintTable
  import opened Constraints
  import opened Drivers

  class BpyRigging {
    /** The class-level table from constraint type to handler. */
    const constraintMapping: map<string, Handler>
    /** Requests made to the driver helper, oldest first. */
    var drivers: seq<DriverCall>
    /** Calls made to constraint setup functions, oldest first. */
    var setups: seq<SetupCall>

    constructor ()
      ensures constraintMapping == ConstraintMapping
      ensures drivers == [] && setups == []
    {
      constraintMapping := ConstraintMapping;
      drivers := [];
      setups := [];
    }

    /** `add_constraint`: scan a snapshot of the bone's constraints, removing
        each one whose normalised name is the requested type, then create a
        constraint of that type and call its handler. */
    method AddConstraint(bone: PoseBone, target: string, constraint: string, host: Host)
      returns (outcome: Outcome)
      modifies this, bone
      ensures var e := AddConstraintSpec(old(bone.constraints), target, constraint,
                                         constraintMapping, host);
        bone.constraints == e.constraints && setups == old(setups) + e.calls && outcome == e.outcome
      ensures drivers == old(drivers)
    {
      outcome := RemoveMatching(bone, constraint);
      if outcome.Raised? {
        return;
      }
      var created := constraint in host.kinds;
      if created {
        var added := bone.New(constraint, host.newName);
      }
      if constraint !in constraintMapping {
        return Raised(KeyError);
      }
      match constraintMapping[constraint]
      case Placeholder(_) =>
        // an integer is not callable, with either argument
        return Raised(TypeError);
      case Setup(f) =>
        var rejected := !created;
        if created {
          setups := setups + [SetupCall(f, OnConstraint, target)];
          rejected := (f, OnConstraint) in host.rejects;
        }
        if rejected {
          setups := setups + [SetupCall(f, OnBone, target)];
          if (f, OnBone) in host.rejects {
            return Raised(TypeError);
          }
        }
        return Done;
    }

    /** The removal loop of `add_constraint`, over a snapshot of the list. */
    method RemoveMatching(bone: PoseBone, constraint: string) returns (outcome: Outcome)
      modifies bone
      ensures var stop := StopIndex(old(bone.constraints));
        && bone.constraints == Kept(old(bone.constraints)[..stop], constraint) + old(bone.constraints)[stop..]
        && outcome == if stop < |old(bone.constraints)| then Raised(AttributeError) else Done
    {
      var snapshot := bone.constraints;
      for i := 0 to |snapshot|
        invariant bone.constraints == Kept(snapshot[..i], constraint) + snapshot[i..]
        invariant forall j :: 0 <= j < i ==> !CallsRemove(snapshot[j].name)
      {
        var c := snapshot[i];
        var name := c.name;
        if Contains(name, "_WORLD") {
          // `name.remove("_WORLD")`: strings have no `remove`
          StopAt(snapshot, i);
          return Raised(AttributeError);
        } else if Contains(name, "_OFFSET") {
          // `name.remove("_OFFSET", name)`: likewise
          StopAt(snapshot, i);
          return Raised(AttributeError);
        }
        name := Normalize(name);
        if name == constraint {
          ScanRemoves(snapshot, i, constraint);
          bone.Remove(c);
        } else {
          ScanKeeps(snapshot, i, constraint);
        }
      }
      StopAt(snapshot, |snapshot|);
      assert snapshot[..|snapshot|] == snapshot;
      return Done;
    }

    /** `set_custom_property`: store `prop` under `propName` only when the
        lookup gives None, and say whether it did. */
    method SetCustomProperty(targetObj: HostObject, propName: string, prop: Value)
      returns (added: bool)
      modifies targetObj
      ensures var e := Tag(old(targetObj.props), propName, prop);
        added == e.added && targetObj.props == e.props
    {
      if GetCustomProperty(targetObj.props, propName) == NoneValue {
        targetObj.props := targetObj.props[propName := prop];
        added := true;
      } else {
        added := false;
      }
    }

    /** `add_driver_batch`: tag the driven object, and only if the tag was
        new request one driver per axis 0, 1, 2. */
    method AddDriverBatch(driverTarget: HostObject, driverSource: string, propSource: string,
                          propTarget: string, dataPath: seq<string>,
                          func: Option<seq<string>>, targetRig: Option<string>)
      returns (outcome: Outcome)
      modifies this, driverTarget
      ensures var e := DriverBatch(old(driverTarget.props),
                                   BatchArgs(driverTarget.name, driverSource, propSource,
                                             propTarget, dataPath, func, targetRig));
        driverTarget.props == e.props && drivers == old(drivers) + e.calls && outcome == e.outcome
      ensures setups == old(setups)
    {
      ghost var a := BatchArgs(driverTarget.name, driverSource, propSource, propTarget,
                               dataPath, func, targetRig);
      var added := SetCustomProperty(driverTarget, propTarget, BoolValue(true));
      if added {
        var funcs := if func.None? then ["", "", ""] else func.value;
        assert funcs == Funcs(a);
        for i := 0 to 3
          invariant i <= AxesReached(a)
          invariant drivers == old(drivers) + AxisCalls(a, i)
          invariant driverTarget.props == old(driverTarget.props)[propTarget := BoolValue(true)]
          invariant setups == old(setups)
        {
          if i >= |dataPath| || i >= |funcs| {
            return Raised(IndexError);
          }
          drivers := drivers + [DriverCall(driverTarget.name, driverSource, propSource,
                                           propTarget, dataPath[i], i, funcs[i], targetRig)];
        }
      }
      return Done;
    }
  }
}
