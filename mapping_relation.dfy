/** The record that ties a source to the values a rig driver reads from it,
    tagged with the kind of driver it feeds. */
module Mapping {

  /** The kind of driver a relation feeds; only used as a tag. */
  datatype DriverType = LimbDriver | ConstraintDriver | FaceDriver

  /** Fields in the dataclass's declaration order: source, values, driver type. */
  datatype MappingRelation<S, V> = MappingRelation(source: S, values: seq<V>, driverType: DriverType)

  /** `MappingRelation(source, driver_type, *args)`: the constructor takes the
      driver type before the values and gathers every remaining argument, in
      order, as the values. */
  function NewMappingRelation<S, V>(source: S, driverType: DriverType, args: seq<V>): MappingRelation<S, V>
  {
    MappingRelation(source, args, driverType)
  }

  /** The generated equality compares the three fields, so two relations are
      equal exactly when they were built from equal arguments. */
  lemma NewMappingRelationEquality<S, V>(s1: S, d1: DriverType, a1: seq<V>, s2: S, d2: DriverType, a2: seq<V>)
    ensures NewMappingRelation(s1, d1, a1) == NewMappingRelation(s2, d2, a2)
      <==> s1 == s2 && d1 == d2 && a1 == a2
  {
    var m1 := NewMappingRelation(s1, d1, a1);
    var m2 := NewMappingRelation(s2, d2, a2);
    if m1 == m2 {
      assert a1 == m1.values == m2.values == a2;
    }
  }
}
