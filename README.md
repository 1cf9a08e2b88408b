# BlendArMocap rigging helpers, modelled in Dafny

BlendArMocap turns motion-capture results into Blender rigs. Its rigging
base class `BpyRigging` (`cgt_blender/cgt_rig/abs_rigging.py`) is mostly a
thin adapter over Blender's scene graph. Inside it is a small piece of
bookkeeping logic, and this project models that logic with plain state in
place of the host objects. It proves what the logic guarantees.

- **Custom properties** (`properties.dfy`, module `CustomProperties`).
  - An object's custom properties are a `map<string, Value>` held by a
    `HostObject`.
  - `get_custom_property` is a get-or-None read. `set_custom_property` is a
    set-if-None write that says whether it stored the value.
  - Python's None is `NoneValue`. A key stored as None reads like a missing
    key, but `False` and `0` do not.
- **Driver batches** (`drivers.dfy`, module `Drivers`; method in
  `rigging.dfy`).
  - `add_driver_batch` uses a custom property as a guard.
  - Only the call that sets it issues driver requests, one per axis 0, 1, 2.
  - The requests are recorded in a log on the `BpyRigging` object, in place
    of calling the host's driver helper.
- **Constraint replace-or-add** (`strings.dfy`, `constraint_table.dfy`,
  `constraints.dfy`; method in `rigging.dfy`).
  - Each existing constraint's name is normalised: spaces become
    underscores, then the name is upper-cased.
  - Every constraint whose key equals the requested type is removed from
    the bone (only the name is compared, so a constraint of that type under a
    name with another key stays), scanning a snapshot of the list. A new constraint is then
    created, and the handler from the class-level `constraint_mapping` table
    is called.
  - The handler table mixes integer placeholders, which are not callable,
    with five setup functions. Setup-function calls are recorded in a log.
  - What Blender itself decides is a `Host` parameter:
    - which types `bone.constraints.new` accepts;
    - the name it gives a new constraint;
    - which setup calls raise TypeError.
- **Joint lengths** (`lengths.dfy`, module `Lengths`).
  - `get_joints` projects groups of bone names onto bone head locations,
    preserving the shape of the groups.
  - `get_average_length` averages the distance between the first two points
    of each group. The distance function is a parameter.
- **Mapping relations** (`mapping_relation.dfy`, module `Mapping`). This is
  the `MappingRelation` record and its `DriverType` tag.

Python exceptions that escape an operation are explicit outcomes (`Outcome`
/ `Result` over `PyError` in `base.dfy`). None of them is a precondition.

## Open question: `str.remove`

Lines 57 and 60 call `constraint_name.remove(...)` when a name contains
`"_WORLD"` (checked first) or `"_OFFSET"`. Python strings have no `remove`
method, so the scan stops there with AttributeError.

- Constraints removed earlier in the same scan stay removed.
- The constraint with that name, and everything after it, stays.
- No constraint is created and no handler is called.

The model keeps this behaviour as written (`Constraints.AbortOnSuffix`,
`Constraints.AbortKeepsEarlierRemoval`, `Constraints.AbortExample`). The
intended behaviour, presumably stripping the suffix before comparing, is not
evident enough from the code to model a correction.

## Model

| member | source | states |
|---|---|---|
| ConstraintTable.SetupEntriesAreTheFive | cgt_blender/cgt_rig/abs_rigging.py:13-44 | A key of the handler table holds a setup function exactly when it is one of COPY_LOCATION, COPY_LOCATION_OFFSET, COPY_ROTATION, COPY_ROTATION_WORLD and DAMPED_TRACK |
| Strings.ContainsIffOccurs | cgt_blender/cgt_rig/abs_rigging.py:56-59 | The left-to-right substring test `sub in s` holds exactly when `sub` occurs at some index of `s` |
| Strings.ReplaceCharAt | cgt_blender/cgt_rig/abs_rigging.py:61 | `replace(" ", "_")` changes every space and only spaces, position by position |
| Strings.UpperAt | cgt_blender/cgt_rig/abs_rigging.py:62 | `upper()` maps each character to its capital and leaves the length unchanged |
| Strings.NormalizeAt | cgt_blender/cgt_rig/abs_rigging.py:61-62 | Each character of a name's key is the capital of the name's character, with a space turned into an underscore; the key has no space and no lower-case letter |
| Strings.NormalizeFixesNormal | cgt_blender/cgt_rig/abs_rigging.py:61-64 | Normalisation leaves a string unchanged exactly when it has no space and no lower-case letter, so a type name such as COPY_LOCATION is its own key |
| Strings.NormalizeIdempotent | cgt_blender/cgt_rig/abs_rigging.py:61-62 | Normalising a key again gives the same key |
| Strings.CopyLocationKey | cgt_blender/cgt_rig/abs_rigging.py:61-64 | Blender's default name "Copy Location" has the key "COPY_LOCATION", so it matches a request for that type |
| Constraints.KeptMembers | cgt_blender/cgt_rig/abs_rigging.py:52-65 | The scan keeps a constraint exactly when its key differs from the requested type |
| Constraints.KeptAppend | cgt_blender/cgt_rig/abs_rigging.py:52-65 | Removal distributes over concatenation, so survivors keep their relative order |
| Constraints.KeptIdempotent | cgt_blender/cgt_rig/abs_rigging.py:52-65 | A second removal pass removes nothing more |
| Constraints.KeptHasNoMatch | cgt_blender/cgt_rig/abs_rigging.py:52-65 | After the scan no constraint's key equals the requested type |
| Constraints.RemoveFirst | cgt_blender/cgt_rig/abs_rigging.py:65 | The bone collection's `remove(c)`, with constraints compared as values, drops exactly one occurrence of `c`: the length drops by one and the multiset loses one `c` |
| Constraints.StopIndex | cgt_blender/cgt_rig/abs_rigging.py:56-60 | The scan stops at the first name containing "_WORLD" or "_OFFSET", or at the end of the list |
| Constraints.ScanRemoves | cgt_blender/cgt_rig/abs_rigging.py:64-65 | A matching snapshot element is still in the live list, and removing it extends the removed-from prefix by one |
| Constraints.ScanKeeps | cgt_blender/cgt_rig/abs_rigging.py:64 | A non-matching snapshot element stays where it is |
| Constraints.Dispatch | cgt_blender/cgt_rig/abs_rigging.py:67-76 | The handler step: only a setup-function entry completes; a type missing from the table raises KeyError with no call; a placeholder raises TypeError with no call; at most two calls are made, constraint-first then bone-first, each on the table's function and the given target |
| Constraints.AddConstraintSpec | cgt_blender/cgt_rig/abs_rigging.py:46-76 | A name calling `remove` ends the operation with AttributeError and no setup call; a normal completion means the whole list was scanned and the type's entry is a setup function |
| Constraints.ReplaceOrAdd | cgt_blender/cgt_rig/abs_rigging.py:46-76 | With no name calling `remove`, the bone holds the non-matching constraints in their order, followed by the one new constraint when the host accepts the type; when `new` raises TypeError and the `except` runs, it holds only those survivors |
| Constraints.KeptThenAppend | cgt_blender/cgt_rig/abs_rigging.py:52-71 | After removal plus one new matching constraint exactly one constraint matches, and removing again gives back the removal alone |
| Constraints.AddConstraintTwice | cgt_blender/cgt_rig/abs_rigging.py:46-76 | When no name calls `remove` and the host accepts the type and names the new constraint after it, a second identical call reproduces the first call's effect, and exactly one constraint whose name normalises to the type remains |
| Constraints.OtherNamedSameTypeSurvives | cgt_blender/cgt_rig/abs_rigging.py:54-71 | Matching reads only the name, never the constraint's type: a constraint of the requested type whose name has another key stays on the bone, ahead of the new constraint of that type, so the bone can hold two constraints of one type |
| Constraints.RepeatAccumulates | cgt_blender/cgt_rig/abs_rigging.py:46-71 | When the new constraint's name does not normalise to the type, a repeat call keeps the constraint the first call made and adds another, under the name the host gives it then |
| Constraints.AbortOnSuffix | cgt_blender/cgt_rig/abs_rigging.py:52-60 | A name with "_WORLD" or "_OFFSET" aborts with AttributeError: earlier matches are removed, the rest stays, and nothing is created or called |
| Constraints.SuffixNames | cgt_blender/cgt_rig/abs_rigging.py:56-59 | "COPY_ROTATION_WORLD" reaches the `remove` call and "Copy Location" does not |
| Constraints.AbortKeepsEarlierRemoval | cgt_blender/cgt_rig/abs_rigging.py:52-65 | A match ahead of an aborting name is removed; a match behind it stays |
| Constraints.AbortExample | cgt_blender/cgt_rig/abs_rigging.py:52-65 | Requesting COPY_LOCATION on [Copy Location, COPY_ROTATION_WORLD] removes the first and then raises AttributeError |
| Constraints.MissingTypeRaisesKeyError | cgt_blender/cgt_rig/abs_rigging.py:67-76 | A type missing from the table raises KeyError, which the `except` does not catch, with no setup call; the new constraint is still appended when the host accepted the type |
| Constraints.PlaceholderFailsAfterCreating | cgt_blender/cgt_rig/abs_rigging.py:67-76 | For an integer entry such as COPY_SCALE, the operation raises TypeError after the new constraint has been added, with no setup call |
| Constraints.OnlySetupEntriesComplete | cgt_blender/cgt_rig/abs_rigging.py:13-44 | With the real table, only the five setup-function types can complete normally |
| Constraints.SetupDispatch | cgt_blender/cgt_rig/abs_rigging.py:67-76 | For a setup entry, the constraint-first call is made when the host created the constraint; the bone-first call follows a TypeError from the host or from that call; the operation completes exactly when one of them succeeds |
| Constraints.PoseBone.Remove | cgt_blender/cgt_rig/abs_rigging.py:65 | Removes the first constraint equal to `c` from the bone, in place |
| Constraints.PoseBone.New | cgt_blender/cgt_rig/abs_rigging.py:69-71 | Appends a constraint of the requested type to the bone and returns it |
| Rigging.BpyRigging.constructor | cgt_blender/cgt_rig/abs_rigging.py:13-44 | The rigging object carries the class-level handler table and empty call logs |
| Rigging.BpyRigging.RemoveMatching | cgt_blender/cgt_rig/abs_rigging.py:47-65 | Over a snapshot, removes every match up to the stop index and keeps the rest in order; raises AttributeError exactly when the scan stopped early |
| Rigging.BpyRigging.AddConstraint | cgt_blender/cgt_rig/abs_rigging.py:46-76 | The bone's constraints, the setup calls logged and the outcome are those of AddConstraintSpec; no driver request is made |
| Rigging.BpyRigging.SetCustomProperty | cgt_blender/cgt_rig/abs_rigging.py:99-104 | Returns and stores as Tag says |
| CustomProperties.Tag | cgt_blender/cgt_rig/abs_rigging.py:99-104 | The value is stored and true returned exactly when the lookup gives None; otherwise the table is unchanged; no other key changes |
| CustomProperties.GetDistinguishesAbsentFromFalsy | cgt_blender/cgt_rig/abs_rigging.py:100-113 | `get_custom_property` gives None exactly for a missing key or a stored None; a present key reads back its stored value, so False and 0 read back as themselves |
| CustomProperties.GetAfterWrite | cgt_blender/cgt_rig/abs_rigging.py:101-113 | Read after write: `get_custom_property` gives back the value just stored under a key, and any other key reads as before |
| CustomProperties.TagOnce | cgt_blender/cgt_rig/abs_rigging.py:99-104 | After a non-None value is set, a second set under the same name returns false and changes nothing |
| CustomProperties.TagNoneRepeats | cgt_blender/cgt_rig/abs_rigging.py:99-104 | Storing None leaves the guard open, so the next set succeeds too |
| Drivers.AxesReached | cgt_blender/cgt_rig/abs_rigging.py:91-93 | The loop reaches at most three axes, and stops early exactly at the first axis whose data path or expression is missing |
| Drivers.DriverBatch | cgt_blender/cgt_rig/abs_rigging.py:81-95 | Requests are issued only when the tag was absent; the tag is set afterwards; no other property changes; request i carries axis i, data_path[i] and func[i] |
| Drivers.DriverBatchFirst | cgt_blender/cgt_rig/abs_rigging.py:85-93 | Given at least three data paths and expressions, on an untagged object the batch sets the tag to True and issues exactly the requests for axes 0, 1, 2 |
| Drivers.DriverBatchRepeat | cgt_blender/cgt_rig/abs_rigging.py:85-95 | On a tagged object the batch issues nothing and changes nothing |
| Drivers.DriverBatchPartial | cgt_blender/cgt_rig/abs_rigging.py:87-93 | Too few data paths or expressions: the tag is set, the axes before the failing subscript keep their requests, and IndexError is raised |
| Drivers.DriverBatchTwice | cgt_blender/cgt_rig/abs_rigging.py:81-95 | Two batches on the same object and property issue at most three requests in total, and exactly three on an untagged object with enough arguments |
| Rigging.BpyRigging.AddDriverBatch | cgt_blender/cgt_rig/abs_rigging.py:81-95 | The object's properties, the requests logged and the outcome are those of DriverBatch; no setup call is made |
| Lengths.GetJoints | cgt_blender/cgt_rig/abs_rigging.py:177-190 | One list per name group, of the same length and in the same order, holding each named bone's head; KeyError exactly when some name is not a bone |
| Lengths.AverageLength | cgt_blender/cgt_rig/abs_rigging.py:156-163 | The result is a value exactly when the list is non-empty and every group has two points; a short group gives IndexError, an empty list ZeroDivisionError |
| Lengths.GetAverageLength | cgt_blender/cgt_rig/abs_rigging.py:156-163 | The distances gathered in order, then their mean, as AverageLength says |
| Lengths.GetAverageJointBoneLength | cgt_blender/cgt_rig/abs_rigging.py:170-175 | KeyError for an unknown bone name, otherwise the average length of the gathered heads |
| Lengths.SumBounds | cgt_blender/cgt_rig/abs_rigging.py:162 | A sum of n numbers between lo and hi lies between n*lo and n*hi |
| Lengths.AverageWithinBounds | cgt_blender/cgt_rig/abs_rigging.py:157-163 | When every group's length lies between lo and hi, so does the average |
| Lengths.AverageOfEqualLengths | cgt_blender/cgt_rig/abs_rigging.py:157-163 | Groups of equal length average to that length |
| Mapping.NewMappingRelationEquality | cgt_blender/cgt_rig/abs_rigging.py:200-209 | Two relations are equal exactly when they were built from equal arguments |

## Left out

- The `print` diagnostics (lines 51, 55, 58, 95) are not modelled. They have no effect on state.
- `get_location_offset` and `get_location_offset_at_origin` (lines 118-145) are not modelled.
  - They remove constraints from a live host collection while iterating it, so which elements are skipped depends on the host.
  - They also compute with floating-point vectors.
- `get_average_joint_empty_length` (lines 147-154) is not modelled. It looks scene objects up by name and feeds the floating-point averaging.
- `get_joint_length` (lines 165-168) is not modelled separately. It is the per-group distance inside `Lengths.Distances`.
- The bodies of the setup functions in `constraints` and of `assignment.add_driver` are not part of this model. Each call is recorded in a log on `BpyRigging`, and the setup functions are assumed not to change the bone's constraint list.
- `m_V.get_vector_distance` is not part of this model. Distance is a function parameter, and sums and means are over exact reals rather than floating point.
- Strings.UpperAt: upper-casing is modelled for the ASCII letters a-z only. Python's `str.upper` also maps other Unicode letters, and some of them to more than one character.
- What Blender decides is a parameter (`Constraints.Host`), not a model:
  - which constraint types `bone.constraints.new` accepts;
  - the name it gives a new constraint;
  - which setup calls raise TypeError.
- Errors other than TypeError raised inside a setup function are not modelled.
- Constraints.RemoveFirst: constraints are compared as values (name and type), not as host objects. `remove(c)` drops the first equal value, which in the scan is the scanned constraint itself.
- Constraints.Host: a host gives one fixed name to the constraint it creates. The model does not keep constraint names unique per bone the way Blender does by adding a numeric suffix, so on a single host a bone can end up holding two equal constraints.
- Blender refuses to store None as a custom property. The model stores it like any other value, as the Python code asks for it (`CustomProperties.TagNoneRepeats`).
- `DriverType` is modelled as a tag. Its integer values 0, 1 and 2 are not.
- The dataclass `repr` of `MappingRelation` is not modelled.
