/** Custom properties ("tags") stored on a host object: a key/value table
    read with a get-or-None lookup and written with a set-if-None update. */
module CustomProperties {

  /** A value stored under a custom property. `NoneValue` is Python's None,
      which compares equal only to itself: `False` and `0` are not None. */
  datatype Value =
    | NoneValue
    | BoolValue(b: bool)
    | IntValue(i: int)
    | FloatValue(f: real)
    | StrValue(s: string)

  type PropertyTable = map<string, Value>

  /** An object of the host's scene: its name and its custom property table. */
  class HostObject {
    const name: string
    var props: PropertyTable

    constructor (name: string, props: PropertyTable)
      ensures this.name == name && this.props == props
    {
      this.name := name;
      this.props := props;
    }
  }

  /** `get_custom_property`: the stored value, or None when the lookup raises
      KeyError. It never fails and reads nothing but the table. */
  function GetCustomProperty(props: PropertyTable, propName: string): (v: Value)
  {
    if propName in props then props[propName] else NoneValue
  }

  /** What `set_custom_property` returns and the table it leaves: the value is
      stored, and true returned, only when the lookup gives None. */
  datatype TagEffect = TagEffect(added: bool, props: PropertyTable)

  function Tag(props: PropertyTable, propName: string, prop: Value): (e: TagEffect)
    ensures e.added <==> GetCustomProperty(props, propName) == NoneValue
    ensures e.added ==> GetCustomProperty(e.props, propName) == prop
    ensures !e.added ==> e.props == props
    ensures e.props.Keys == props.Keys + (if e.added then {propName} else {})
    ensures forall k :: k != propName ==> GetCustomProperty(e.props, k) == GetCustomProperty(props, k)
  {
    if GetCustomProperty(props, propName) == NoneValue then
      TagEffect(true, props[propName := prop])
    else
      TagEffect(false, props)
  }

  /** A missing key and a key stored as None both read as None; a present
      key reads back its stored value, so falsy values such as False and 0
      read as themselves and not as None. */
  lemma GetDistinguishesAbsentFromFalsy(props: PropertyTable, propName: string)
    ensures GetCustomProperty(props, propName) == NoneValue <==>
      propName !in props || props[propName] == NoneValue
    ensures propName in props ==> GetCustomProperty(props, propName) == props[propName]
    ensures GetCustomProperty(props[propName := BoolValue(false)], propName) == BoolValue(false)
    ensures GetCustomProperty(props[propName := IntValue(0)], propName) == IntValue(0)
  {
  }

  /** Reading after a write: the written key reads back the written value,
      and every other key reads as before. */
  lemma GetAfterWrite(props: PropertyTable, propName: string, v: Value, other: string)
    ensures GetCustomProperty(props[propName := v], propName) == v
    ensures other != propName ==>
      GetCustomProperty(props[propName := v], other) == GetCustomProperty(props, other)
  {
  }

  /** Setting a tag to a value other than None succeeds at most once: a second
      set under the same name returns false and changes nothing, whatever
      value it carries. */
  lemma TagOnce(props: PropertyTable, propName: string, prop: Value, again: Value)
    requires prop != NoneValue
    ensures var first := Tag(props, propName, prop);
      var second := Tag(first.props, propName, again);
      !second.added && second.props == first.props
      && GetCustomProperty(second.props, propName) ==
         (if first.added then prop else GetCustomProperty(props, propName))
  {
  }

  /** Storing None does not close the guard: when the tag reads as None,
      setting it to None succeeds and so does the next set. */
  lemma TagNoneRepeats(props: PropertyTable, propName: string, again: Value)
    requires GetCustomProperty(props, propName) == NoneValue
    ensures var first := Tag(props, propName, NoneValue);
      first.added && Tag(first.props, propName, again).added
  {
  }
}
