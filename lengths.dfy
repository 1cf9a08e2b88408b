/** Bone-length helpers: gathering the head locations of named bones group
    by group, and averaging the distance between the first two points of each
    group. The distance between two points is the host's vector library,
    passed in as `dist`. */
module Lengths {
  import opened Base

  /** A location in 3D space. */
  datatype Vector = Vector(x: real, y: real, z: real)

  /** Every name of every group is a bone of the armature. */
  predicate AllKnown(jointNames: seq<seq<string>>, poseHeads: map<string, Vector>) {
    forall g, k :: 0 <= g < |jointNames| && 0 <= k < |jointNames[g]| ==> jointNames[g][k] in poseHeads
  }

  /** The head of each named bone, in the shape of the name groups. */
  function Heads(jointNames: seq<seq<string>>, poseHeads: map<string, Vector>): seq<seq<Vector>>
    requires AllKnown(jointNames, poseHeads)
  {
    seq(|jointNames|, g requires 0 <= g < |jointNames| =>
      seq(|jointNames[g]|, k requires 0 <= k < |jointNames[g]| => poseHeads[jointNames[g][k]]))
  }

  /** `get_joints`: one list per name group, of the same length and in the
      same order, holding the head of each named bone; a name that is not a
      bone raises KeyError. */
  method GetJoints(jointNames: seq<seq<string>>, poseHeads: map<string, Vector>)
    returns (r: Result<seq<seq<Vector>>>)
    ensures r.Ok? <==> AllKnown(jointNames, poseHeads)
    ensures r.Err? ==> r.error == KeyError
    ensures r.Ok? ==> |r.value| == |jointNames|
    ensures r.Ok? ==> forall g :: 0 <= g < |jointNames| ==> |r.value[g]| == |jointNames[g]|
    ensures r.Ok? ==> forall g, k :: 0 <= g < |jointNames| && 0 <= k < |jointNames[g]| ==>
      r.value[g][k] == poseHeads[jointNames[g][k]]
    ensures r.Ok? ==> r.value == Heads(jointNames, poseHeads)
  {
    var armJoints: seq<seq<Vector>> := [];
    for g := 0 to |jointNames|
      invariant |armJoints| == g
      invariant forall h, k :: 0 <= h < g && 0 <= k < |jointNames[h]| ==> jointNames[h][k] in poseHeads
      invariant forall h :: 0 <= h < g ==> |armJoints[h]| == |jointNames[h]|
      invariant forall h, k :: 0 <= h < g && 0 <= k < |jointNames[h]| ==>
        armJoints[h][k] == poseHeads[jointNames[h][k]]
    {
      var names := jointNames[g];
      var joint: seq<Vector> := [];
      for k := 0 to |names|
        invariant |joint| == k
        invariant forall j :: 0 <= j < k ==> names[j] in poseHeads && joint[j] == poseHeads[names[j]]
      {
        if names[k] !in poseHeads {
          assert jointNames[g][k] !in poseHeads;
          return Err(KeyError);
        }
        joint := joint + [poseHeads[names[k]]];
      }
      armJoints := armJoints + [joint];
    }
    ghost var heads := Heads(jointNames, poseHeads);
    forall g | 0 <= g < |jointNames| ensures armJoints[g] == heads[g] {
      assert |armJoints[g]| == |heads[g]|;
    }
    return Ok(armJoints);
  }

  /** Every group has the two points its length is measured between. */
  predicate AllMeasurable(joints: seq<seq<Vector>>) {
    forall g :: 0 <= g < |joints| ==> |joints[g]| >= 2
  }

  /** The distance between the first two points of each group; any further
      points are ignored. */
  function Distances(joints: seq<seq<Vector>>, dist: (Vector, Vector) -> real): seq<real>
    requires AllMeasurable(joints)
  {
    seq(|joints|, g requires 0 <= g < |joints| => dist(joints[g][0], joints[g][1]))
  }

  /** Python's `sum` over a list of numbers. */
  function Sum(xs: seq<real>): real {
    if xs == [] then 0.0 else Sum(xs[..|xs| - 1]) + xs[|xs| - 1]
  }

  /** What `get_average_length` yields: a group with fewer than two points
      raises IndexError while the distances are gathered, and an empty list
      then raises ZeroDivisionError; otherwise the mean distance. */
  function AverageLength(joints: seq<seq<Vector>>, dist: (Vector, Vector) -> real): (r: Result<real>)
    ensures r.Ok? <==> joints != [] && AllMeasurable(joints)
    ensures r.Err? ==> (r.error == IndexError <==> !AllMeasurable(joints))
    ensures r.Err? ==> (r.error == ZeroDivisionError <==> AllMeasurable(joints))
  {
    if !AllMeasurable(joints) then Err(IndexError)
    else if joints == [] then Err(ZeroDivisionError)
    else Ok(Sum(Distances(joints, dist)) / (|joints| as real))
  }

  /** `get_average_length`: gather the distance of each group in order, then
      divide their sum by their number. */
  method GetAverageLength(jointArray: seq<seq<Vector>>, dist: (Vector, Vector) -> real)
    returns (r: Result<real>)
    ensures r == AverageLength(jointArray, dist)
  {
    var distances: seq<real> := [];
    for g := 0 to |jointArray|
      invariant AllMeasurable(jointArray[..g])
      invariant distances == Distances(jointArray[..g], dist)
    {
      var joint := jointArray[g];
      if |joint| < 2 {
        return Err(IndexError);
      }
      distances := distances + [dist(joint[0], joint[1])];
      assert jointArray[..g + 1] == jointArray[..g] + [joint];
    }
    assert jointArray[..|jointArray|] == jointArray;
    if |distances| == 0 {
      return Err(ZeroDivisionError);
    }
    return Ok(Sum(distances) / (|distances| as real));
  }

  /** `get_average_joint_bone_length`: the heads of the named bones, then
      their average group length. */
  method GetAverageJointBoneLength(jointNames: seq<seq<string>>, poseHeads: map<string, Vector>,
                                   dist: (Vector, Vector) -> real)
    returns (r: Result<real>)
    ensures !AllKnown(jointNames, poseHeads) ==> r == Err(KeyError)
    ensures AllKnown(jointNames, poseHeads) ==> r == AverageLength(Heads(jointNames, poseHeads), dist)
  {
    var joints := GetJoints(jointNames, poseHeads);
    if joints.Err? {
      return Err(joints.error);
    }
    r := GetAverageLength(joints.value, dist);
  }

  /** A sum of numbers that all lie between `lo` and `hi`. */
  lemma {:induction false} SumBounds(xs: seq<real>, lo: real, hi: real)
    requires forall i :: 0 <= i < |xs| ==> lo <= xs[i] <= hi
    ensures |xs| as real * lo <= Sum(xs) <= |xs| as real * hi
    decreases |xs|
  {
    if xs != [] {
      SumBounds(xs[..|xs| - 1], lo, hi);
    }
  }

  /** When every group's length lies between `lo` and `hi`, so does the
      average. */
  lemma AverageWithinBounds(joints: seq<seq<Vector>>, dist: (Vector, Vector) -> real, lo: real, hi: real)
    requires AverageLength(joints, dist).Ok?
    requires forall g :: 0 <= g < |joints| ==> lo <= dist(joints[g][0], joints[g][1]) <= hi
    ensures lo <= AverageLength(joints, dist).value <= hi
  {
    var ds := Distances(joints, dist);
    SumBounds(ds, lo, hi);
    MeanBounds(Sum(ds), |joints| as real, lo, hi);
  }

  /** Dividing by a positive count keeps bounds scaled by that count. */
  lemma MeanBounds(s: real, n: real, lo: real, hi: real)
    requires n > 0.0 && n * lo <= s <= n * hi
    ensures lo <= s / n <= hi
  {
    var m := s / n;
    assert m * n == s;
    assert (m - lo) * n == s - n * lo;
    assert (hi - m) * n == n * hi - s;
  }

  /** Groups of equal length average to that length. */
  lemma AverageOfEqualLengths(joints: seq<seq<Vector>>, dist: (Vector, Vector) -> real, d: real)
    requires AverageLength(joints, dist).Ok?
    requires forall g :: 0 <= g < |joints| ==> dist(joints[g][0], joints[g][1]) == d
    ensures AverageLength(joints, dist).value == d
  {
    AverageWithinBounds(joints, dist, d, d);
  }
}
