/** The class-level table that maps a constraint type name to its handler. */
module ConstraintTable {

  /** The setup functions the handler table refers to; their bodies belong to
      the host helpers and are recorded as calls. */
  datatype SetupFn =
    | CopyLocation
    | CopyLocationOffset
    | CopyRotation
    | CopyRotationWorldSpace
    | DampedTrack

  /** An entry of the handler table: an integer placeholder, which is not
      callable, or a setup function. */
  datatype Handler = Placeholder(code: int) | Setup(fn: SetupFn)

  /** The class-level `constraint_mapping` table. */
  const ConstraintMapping: map<string, Handler> := map[
    "CAMERA_SOLVER" := Placeholder(0),
    "FOLLOW_TRACK" := Placeholder(1),
    "OBJECT_SOLVER" := Placeholder(2),
    "COPY_LOCATION" := Setup(CopyLocation),
    "COPY_LOCATION_OFFSET" := Setup(CopyLocationOffset),
    "COPY_ROTATION" := Setup(CopyRotation),
    "COPY_ROTATION_WORLD" := Setup(CopyRotationWorldSpace),
    "COPY_SCALE" := Placeholder(5),
    "COPY_TRANSFORMS" := Placeholder(6),
    "LIMIT_DISTANCE" := Placeholder(7),
    "LIMIT_LOCATION" := Placeholder(8),
    "LIMIT_ROTATION" := Placeholder(9),
    "LIMIT_SCALE" := Placeholder(10),
    "MAINTAIN_VOLUME" := Placeholder(11),
    "TRANSFORM" := Placeholder(12),
    "TRANSFORM_CACHE" := Placeholder(13),
    "CLAMP_TO" := Placeholder(14),
    "DAMPED_TRACK" := Setup(DampedTrack),
    "IK" := Placeholder(16),
    "LOCKED_TRACK" := Placeholder(17),
    "SPLINE_IK" := Placeholder(18),
    "STRETCH_TO" := Placeholder(19),
    "TRACK_TO" := Placeholder(20),
    "ACTION" := Placeholder(21),
    "ARMATURE" := Placeholder(22),
    "CHILD_OF" := Placeholder(23),
    "FLOOR" := Placeholder(24),
    "FOLLOW_PATH" := Placeholder(25),
    "PIVOT" := Placeholder(26),
    "SHRINKWRAP" := Placeholder(27)
  ]

  /** The five table keys whose handler is a setup function. */
  const SetupKinds: set<string> :=
    {"COPY_LOCATION", "COPY_LOCATION_OFFSET", "COPY_ROTATION", "COPY_ROTATION_WORLD", "DAMPED_TRACK"}

  lemma SetupEntriesAreTheFive()
    ensures forall k :: k in ConstraintMapping && ConstraintMapping[k].Setup? <==> k in SetupKinds
  {
  }
}
