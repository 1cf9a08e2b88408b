/** Constraint replace-or-add: the handler table keyed by constraint type,
    the scan that removes every constraint whose normalised name equals the
    requested type, and the dispatch to the type's setup function. */
module Constraints {
  import opened Base
  import opened Strings
  import opened ConstraintTable

  /** A bone constraint as far as replace-or-add looks at it: its display
      name (e.g. "Copy Location") and its host type (e.g. "COPY_LOCATION"). */
  datatype Constraint = Constraint(name: string, kind: string)

  /** The two calling conventions tried in turn: the new constraint first,
      the bone itself after a TypeError. */
  datatype Convention = OnConstraint | OnBone

  /** One call of a setup function, with the target object's name. */
  datatype SetupCall = SetupCall(fn: SetupFn, convention: Convention, target: string)

  /** What the host decides during replace-or-add: the types its constraint
      collection can create (any other raises TypeError), the name it gives a
      new constraint, and the (function, convention) pairs that raise
      TypeError when called. */
  datatype Host = Host(kinds: set<string>, newName: string, rejects: set<(SetupFn, Convention)>)

  /** Scanning a name with "_WORLD" or "_OFFSET" in it reaches a call of the
      string method `remove`, which Python strings do not have. */
  predicate CallsRemove(name: string) {
    Contains(name, "_WORLD") || Contains(name, "_OFFSET")
  }

  predicate Matches(c: Constraint, kind: string) {
    Normalize(c.name) == kind
  }

  /** The constraints that survive removal, in their original order. */
  function Kept(cs: seq<Constraint>, kind: string): (r: seq<Constraint>)
    ensures |r| <= |cs|
  {
    if cs == [] then []
    else Kept(cs[..|cs| - 1], kind) + (if Matches(cs[|cs| - 1], kind) then [] else [cs[|cs| - 1]])
  }

  /** Removal keeps exactly the constraints that do not match. */
  lemma {:induction false} KeptMembers(cs: seq<Constraint>, kind: string)
    ensures forall c :: c in Kept(cs, kind) <==> c in cs && !Matches(c, kind)
    decreases |cs|
  {
    if cs != [] {
      var init := cs[..|cs| - 1];
      KeptMembers(init, kind);
      assert cs == init + [cs[|cs| - 1]];
    }
  }

  function CountMatching(cs: seq<Constraint>, kind: string): (n: nat)
    ensures n <= |cs|
  {
    if cs == [] then 0
    else CountMatching(cs[..|cs| - 1], kind) + (if Matches(cs[|cs| - 1], kind) then 1 else 0)
  }

  /** Removal distributes over concatenation, so it keeps the relative order
      of the constraints it does not remove. */
  lemma {:induction false} KeptAppend(a: seq<Constraint>, b: seq<Constraint>, kind: string)
    ensures Kept(a + b, kind) == Kept(a, kind) + Kept(b, kind)
    decreases |b|
  {
    if b == [] {
      assert a + b == a;
    } else {
      var last := b[|b| - 1];
      assert (a + b)[..|a + b| - 1] == a + b[..|b| - 1];
      KeptAppend(a, b[..|b| - 1], kind);
    }
  }

  /** Removing twice removes nothing more. */
  lemma {:induction false} KeptIdempotent(cs: seq<Constraint>, kind: string)
    ensures Kept(Kept(cs, kind), kind) == Kept(cs, kind)
    decreases |cs|
  {
    if cs != [] {
      var last := cs[|cs| - 1];
      var tail := if Matches(last, kind) then [] else [last];
      KeptIdempotent(cs[..|cs| - 1], kind);
      KeptAppend(Kept(cs[..|cs| - 1], kind), tail, kind);
      if tail != [] {
        assert [last][..0] == [];
      }
    }
  }

  lemma {:induction false} CountMatchingAppend(a: seq<Constraint>, b: seq<Constraint>, kind: string)
    ensures CountMatching(a + b, kind) == CountMatching(a, kind) + CountMatching(b, kind)
    decreases |b|
  {
    if b == [] {
      assert a + b == a;
    } else {
      assert (a + b)[..|a + b| - 1] == a + b[..|b| - 1];
      CountMatchingAppend(a, b[..|b| - 1], kind);
    }
  }

  /** After removal no constraint matches the requested type. */
  lemma {:induction false} KeptHasNoMatch(cs: seq<Constraint>, kind: string)
    ensures CountMatching(Kept(cs, kind), kind) == 0
    decreases |cs|
  {
    if cs != [] {
      var last := cs[|cs| - 1];
      var tail := if Matches(last, kind) then [] else [last];
      KeptHasNoMatch(cs[..|cs| - 1], kind);
      CountMatchingAppend(Kept(cs[..|cs| - 1], kind), tail, kind);
      assert CountMatching(tail, kind) == 0 by {
        assert [last][..0] == [];
      }
    }
  }

  /** The host collection's `remove(c)`, with constraints compared as
      values: drop the first element equal to `c`. */
  function RemoveFirst(cs: seq<Constraint>, c: Constraint): (r: seq<Constraint>)
    requires c in cs
    ensures |r| == |cs| - 1
    ensures multiset(r) == multiset(cs) - multiset{c}
  {
    assert cs == [cs[0]] + cs[1..];
    if cs[0] == c then cs[1..]
    else [cs[0]] + RemoveFirst(cs[1..], c)
  }

  lemma {:induction false} RemoveFirstSkipsPrefix(a: seq<Constraint>, b: seq<Constraint>, c: Constraint)
    requires c !in a && c in b
    ensures RemoveFirst(a + b, c) == a + RemoveFirst(b, c)
    decreases |a|
  {
    if a == [] {
      assert a + b == b;
    } else {
      calc {
        RemoveFirst(a + b, c);
        { assert (a + b)[0] == a[0] != c; }
        [a[0]] + RemoveFirst((a + b)[1..], c);
        { assert (a + b)[1..] == a[1..] + b; }
        [a[0]] + RemoveFirst(a[1..] + b, c);
        { RemoveFirstSkipsPrefix(a[1..], b, c); }
        [a[0]] + (a[1..] + RemoveFirst(b, c));
        { assert a == [a[0]] + a[1..]; }
        a + RemoveFirst(b, c);
      }
    }
  }

  /** The index at which the scan stops: the first constraint whose name
      calls `remove`, or the end of the list. */
  function StopIndex(cs: seq<Constraint>): (k: nat)
    ensures k <= |cs|
    ensures forall j :: 0 <= j < k ==> !CallsRemove(cs[j].name)
    ensures k < |cs| ==> CallsRemove(cs[k].name)
  {
    if cs == [] then 0
    else if CallsRemove(cs[0].name) then 0
    else 1 + StopIndex(cs[1..])
  }

  /** Scanning one more constraint of the snapshot keeps it exactly when it
      does not match. */
  lemma KeptStep(snapshot: seq<Constraint>, i: nat, kind: string)
    requires i < |snapshot|
    ensures Kept(snapshot[..i + 1], kind) ==
      Kept(snapshot[..i], kind) + (if Matches(snapshot[i], kind) then [] else [snapshot[i]])
  {
    assert snapshot[..i + 1][..i] == snapshot[..i];
  }

  /** One step of the removal scan over a snapshot, whose live list is the
      kept prefix followed by the unscanned rest. A scanned constraint that
      matches is in the live list, and removing it from there extends the
      kept prefix by one position. */
  lemma ScanRemoves(snapshot: seq<Constraint>, i: nat, kind: string)
    requires i < |snapshot| && Matches(snapshot[i], kind)
    ensures snapshot[i] in Kept(snapshot[..i], kind) + snapshot[i..]
    ensures RemoveFirst(Kept(snapshot[..i], kind) + snapshot[i..], snapshot[i])
      == Kept(snapshot[..i + 1], kind) + snapshot[i + 1..]
  {
    var c := snapshot[i];
    var done := Kept(snapshot[..i], kind);
    assert c !in done by {
      KeptMembers(snapshot[..i], kind);
    }
    calc {
      RemoveFirst(done + snapshot[i..], c);
      { RemoveFirstSkipsPrefix(done, snapshot[i..], c); }
      done + RemoveFirst(snapshot[i..], c);
      { assert snapshot[i..][0] == c; }
      done + snapshot[i..][1..];
      { assert snapshot[i..][1..] == snapshot[i + 1..]; KeptStep(snapshot, i, kind); }
      Kept(snapshot[..i + 1], kind) + snapshot[i + 1..];
    }
  }

  /** A scanned constraint that does not match stays where it is, which
      also extends the kept prefix by one position. */
  lemma ScanKeeps(snapshot: seq<Constraint>, i: nat, kind: string)
    requires i < |snapshot| && !Matches(snapshot[i], kind)
    ensures Kept(snapshot[..i], kind) + snapshot[i..] == Kept(snapshot[..i + 1], kind) + snapshot[i + 1..]
  {
    var c := snapshot[i];
    var done := Kept(snapshot[..i], kind);
    KeptStep(snapshot, i, kind);
    assert snapshot[i..] == [c] + snapshot[i + 1..];
    assert done + snapshot[i..] == (done + [c]) + snapshot[i + 1..];
  }

  /** The scan stops at the first name that calls `remove`. */
  lemma StopAt(cs: seq<Constraint>, i: nat)
    requires i <= |cs|
    requires forall j :: 0 <= j < i ==> !CallsRemove(cs[j].name)
    requires i == |cs| || CallsRemove(cs[i].name)
    ensures StopIndex(cs) == i
  {
  }

  /** What replace-or-add leaves: the bone's constraints, the setup calls
      made, and how the operation ended. */
  datatype AddEffect = AddEffect(constraints: seq<Constraint>, calls: seq<SetupCall>, outcome: Outcome)

  /** The handler dispatch after the removal scan. `created` says whether the
      host created the new constraint; if it raised TypeError instead, the
      same `except` clause calls the handler on the bone. */
  function Dispatch(kind: string, target: string, created: bool, table: map<string, Handler>,
                    rejects: set<(SetupFn, Convention)>): (d: (seq<SetupCall>, Outcome))
    ensures d.1 == Done ==> kind in table && table[kind].Setup?
    ensures kind !in table ==> d == ([], Raised(KeyError))
    ensures kind in table && table[kind].Placeholder? ==> d == ([], Raised(TypeError))
    ensures |d.0| <= 2
    ensures d.0 != [] ==> kind in table && table[kind].Setup?
    ensures forall i :: 0 <= i < |d.0| ==> d.0[i].target == target && d.0[i].fn == table[kind].fn
    ensures |d.0| == 2 ==> d.0[0].convention == OnConstraint && d.0[1].convention == OnBone
  {
    if kind !in table then ([], Raised(KeyError))
    else match table[kind]
      case Placeholder(_) => ([], Raised(TypeError))
      case Setup(f) =>
        if created && (f, OnConstraint) !in rejects then
          ([SetupCall(f, OnConstraint, target)], Done)
        else
          var first := if created then [SetupCall(f, OnConstraint, target)] else [];
          (first + [SetupCall(f, OnBone, target)],
           if (f, OnBone) in rejects then Raised(TypeError) else Done)
  }

  /** The whole of `add_constraint` on a bone whose constraints are `cs`. */
  function AddConstraintSpec(cs: seq<Constraint>, target: string, kind: string,
                             table: map<string, Handler>, host: Host): (e: AddEffect)
    ensures StopIndex(cs) < |cs| ==> e.outcome == Raised(AttributeError) && e.calls == []
    ensures e.outcome == Done ==> StopIndex(cs) == |cs| && kind in table && table[kind].Setup?
  {
    var stop := StopIndex(cs);
    var scanned := Kept(cs[..stop], kind) + cs[stop..];
    if stop < |cs| then
      AddEffect(scanned, [], Raised(AttributeError))
    else
      var created := kind in host.kinds;
      var d := Dispatch(kind, target, created, table, host.rejects);
      AddEffect(scanned + (if created then [Constraint(host.newName, kind)] else []), d.0, d.1)
  }

  /** When no name calls `remove`, every constraint matching the requested
      type is removed and the others stay in order; the created constraint
      goes last when the host accepts the type, and when it raises TypeError
      instead the bone keeps only the survivors. */
  lemma ReplaceOrAdd(cs: seq<Constraint>, target: string, kind: string,
                     table: map<string, Handler>, host: Host)
    requires forall i :: 0 <= i < |cs| ==> !CallsRemove(cs[i].name)
    ensures var e := AddConstraintSpec(cs, target, kind, table, host);
      e.constraints == Kept(cs, kind) + (if kind in host.kinds then [Constraint(host.newName, kind)] else [])
      && e.outcome != Raised(AttributeError)
  {
    assert cs[..|cs|] == cs;
  }

  /** Removing the matches and appending one matching constraint leaves
      exactly one match, and removing again takes the list back to the
      removal alone. */
  lemma {:induction false} KeptThenAppend(cs: seq<Constraint>, made: Constraint, kind: string)
    requires Matches(made, kind)
    ensures CountMatching(Kept(cs, kind) + [made], kind) == 1
    ensures Kept(Kept(cs, kind) + [made], kind) == Kept(cs, kind)
  {
    var k := Kept(cs, kind);
    KeptHasNoMatch(cs, kind);
    assert (k + [made])[..|k + [made]| - 1] == k;
    assert Kept([made], kind) == [] by {
      assert [made][..0] == [];
    }
    KeptAppend(k, [made], kind);
    KeptIdempotent(cs, kind);
  }

  /** Replace-or-add is idempotent when no name calls `remove`, the host
      accepts the type and names the new constraint after it: a second call
      with the same arguments removes the constraint the first created and
      creates it again, whatever the handler does, and exactly one constraint
      whose name normalises to the type remains. */
  lemma AddConstraintTwice(cs: seq<Constraint>, target: string, kind: string,
                           table: map<string, Handler>, host: Host)
    requires forall i :: 0 <= i < |cs| ==> !CallsRemove(cs[i].name)
    requires !CallsRemove(host.newName) && Normalize(host.newName) == kind
    requires kind in host.kinds
    ensures var first := AddConstraintSpec(cs, target, kind, table, host);
      AddConstraintSpec(first.constraints, target, kind, table, host) == first
      && CountMatching(first.constraints, kind) == 1
  {
    var first := AddConstraintSpec(cs, target, kind, table, host);
    var made := Constraint(host.newName, kind);
    var k := Kept(cs, kind);
    ReplaceOrAdd(cs, target, kind, table, host);
    KeptMembers(cs, kind);
    forall i | 0 <= i < |first.constraints| ensures !CallsRemove(first.constraints[i].name) {
      if i < |k| {
        assert k[i] in k;
      }
    }
    ReplaceOrAdd(first.constraints, target, kind, table, host);
    KeptThenAppend(cs, made, kind);
  }

  /** Matching goes by name only, so the operation does not keep one
      constraint per type: a constraint of the requested type whose name has
      another key (say "MyLoc", or a renamed duplicate "Copy Location.001")
      survives, and the new constraint of that type is added after it. */
  lemma OtherNamedSameTypeSurvives(cs: seq<Constraint>, target: string, kind: string,
                                   table: map<string, Handler>, host: Host, x: Constraint)
    requires StopIndex(cs) == |cs| && kind in host.kinds
    requires x in cs && x.kind == kind && !Matches(x, kind)
    ensures var e := AddConstraintSpec(cs, target, kind, table, host);
      && |e.constraints| >= 2
      && e.constraints[|e.constraints| - 1] == Constraint(host.newName, kind)
      && x in e.constraints[..|e.constraints| - 1]
  {
    var e := AddConstraintSpec(cs, target, kind, table, host);
    ReplaceOrAdd(cs, target, kind, table, host);
    KeptMembers(cs, kind);
    assert e.constraints[..|e.constraints| - 1] == Kept(cs, kind);
  }

  /** When the host's name for the new constraint does not normalise to the
      requested type, a repeat call keeps the constraint the first call made
      and adds one more, under the name the host gives it then. */
  lemma RepeatAccumulates(cs: seq<Constraint>, target: string, kind: string,
                          table: map<string, Handler>, host: Host, later: Host)
    requires forall i :: 0 <= i < |cs| ==> !CallsRemove(cs[i].name)
    requires !CallsRemove(host.newName) && Normalize(host.newName) != kind
    requires kind in host.kinds && kind in later.kinds
    ensures var first := AddConstraintSpec(cs, target, kind, table, host);
      AddConstraintSpec(first.constraints, target, kind, table, later).constraints
        == first.constraints + [Constraint(later.newName, kind)]
  {
    var first := AddConstraintSpec(cs, target, kind, table, host);
    var made := Constraint(host.newName, kind);
    var k := Kept(cs, kind);
    ReplaceOrAdd(cs, target, kind, table, host);
    KeptMembers(cs, kind);
    forall i | 0 <= i < |first.constraints| ensures !CallsRemove(first.constraints[i].name) {
      if i < |k| {
        assert k[i] in k;
      }
    }
    ReplaceOrAdd(first.constraints, target, kind, table, later);
    assert Kept([made], kind) == [made] by {
      assert [made][..0] == [];
    }
    KeptAppend(k, [made], kind);
    KeptIdempotent(cs, kind);
  }

  /** A name with "_WORLD" or "_OFFSET" aborts the scan: the matching
      constraints before it are gone, it and everything after it stay, no
      constraint is created and no setup function is called. */
  lemma AbortOnSuffix(cs: seq<Constraint>, i: nat, target: string, kind: string,
                      table: map<string, Handler>, host: Host)
    requires i < |cs| && CallsRemove(cs[i].name)
    ensures var e := AddConstraintSpec(cs, target, kind, table, host);
      var stop := StopIndex(cs);
      stop <= i
      && e.outcome == Raised(AttributeError) && e.calls == []
      && e.constraints == Kept(cs[..stop], kind) + cs[stop..]
  {
  }

  /** Of the two default-looking names, only the second reaches `remove`. */
  lemma SuffixNames(loc: string, rot: string)
    requires loc == "Copy Location" && rot == "COPY_ROTATION_WORLD"
    ensures !CallsRemove(loc) && CallsRemove(rot)
  {
    assert OccursAt(rot, "_WORLD", 13) by {
      assert rot[13] == '_' && rot[14] == 'W' && rot[15] == 'O' && rot[16] == 'R' && rot[17] == 'L' && rot[18] == 'D';
      assert rot[13..19] == "_WORLD";
    }
    ContainsIffOccurs(rot, "_WORLD");
    assert '_' !in loc;
    NotContainsWithoutFirst(loc, "_WORLD");
    NotContainsWithoutFirst(loc, "_OFFSET");
  }

  /** A constraint whose name calls `remove` stops the scan where it
      stands: a matching constraint ahead of it is already removed, one
      behind it stays, and no constraint is created. */
  lemma AbortKeepsEarlierRemoval(x: Constraint, y: Constraint, target: string, kind: string,
                                 table: map<string, Handler>, host: Host)
    requires !CallsRemove(x.name) && Matches(x, kind) && CallsRemove(y.name)
    ensures AddConstraintSpec([x, y], target, kind, table, host) == AddEffect([y], [], Raised(AttributeError))
    ensures AddConstraintSpec([y, x], target, kind, table, host) == AddEffect([y, x], [], Raised(AttributeError))
  {
    var cs := [x, y];
    assert cs[1..] == [y];
    assert StopIndex(cs) == 1;
    assert cs[..1] == [x];
    assert Kept([x], kind) == [] by {
      assert [x][..0] == [];
    }
    assert StopIndex([y, x]) == 0;
    assert [y, x][..0] == [] && [y, x][0..] == [y, x];
  }

  /** The same with Blender's default name for a copy-location constraint
      ahead of one named "COPY_ROTATION_WORLD". */
  lemma AbortExample(loc: Constraint, rot: Constraint, target: string,
                     table: map<string, Handler>, host: Host)
    requires loc == Constraint("Copy Location", "COPY_LOCATION")
    requires rot == Constraint("COPY_ROTATION_WORLD", "COPY_ROTATION")
    ensures AddConstraintSpec([loc, rot], target, "COPY_LOCATION", table, host)
        == AddEffect([rot], [], Raised(AttributeError))
  {
    SuffixNames(loc.name, rot.name);
    CopyLocationKey(loc.name);
    AbortKeepsEarlierRemoval(loc, rot, target, "COPY_LOCATION", table, host);
  }

  /** A type missing from the table raises KeyError on the lookup, with no
      setup call, after the host has created the constraint if it accepts
      the type; the `except` clause catches only TypeError. */
  lemma MissingTypeRaisesKeyError(cs: seq<Constraint>, target: string, kind: string,
                                  table: map<string, Handler>, host: Host)
    requires StopIndex(cs) == |cs| && kind !in table
    ensures var e := AddConstraintSpec(cs, target, kind, table, host);
      e.outcome == Raised(KeyError) && e.calls == []
      && e.constraints == Kept(cs, kind) + (if kind in host.kinds then [Constraint(host.newName, kind)] else [])
  {
    assert cs[..|cs|] == cs;
  }

  /** With an integer placeholder in the table the operation raises
      TypeError after the host has already created the constraint. */
  lemma PlaceholderFailsAfterCreating(cs: seq<Constraint>, target: string, kind: string, host: Host)
    requires kind in ConstraintMapping && kind !in SetupKinds
    requires StopIndex(cs) == |cs| && kind in host.kinds
    ensures var e := AddConstraintSpec(cs, target, kind, ConstraintMapping, host);
      e.outcome == Raised(TypeError) && e.calls == []
      && e.constraints == Kept(cs, kind) + [Constraint(host.newName, kind)]
  {
    SetupEntriesAreTheFive();
    assert cs[..|cs|] == cs;
  }

  /** Only the five setup-function entries of the table can complete
      normally. */
  lemma OnlySetupEntriesComplete(cs: seq<Constraint>, target: string, kind: string, host: Host)
    ensures AddConstraintSpec(cs, target, kind, ConstraintMapping, host).outcome == Done ==> kind in SetupKinds
  {
    SetupEntriesAreTheFive();
  }

  /** For a setup-function entry the constraint-first call is made when the
      host created the constraint, and completes unless it raises TypeError;
      the bone-first call follows a TypeError, from either the host or the
      first call. */
  lemma SetupDispatch(cs: seq<Constraint>, target: string, kind: string, f: SetupFn,
                      table: map<string, Handler>, host: Host)
    requires kind in table && table[kind] == Setup(f) && StopIndex(cs) == |cs|
    ensures var e := AddConstraintSpec(cs, target, kind, table, host);
      && (kind in host.kinds && (f, OnConstraint) !in host.rejects ==>
            e.outcome == Done && e.calls == [SetupCall(f, OnConstraint, target)])
      && (kind in host.kinds && (f, OnConstraint) in host.rejects ==>
            e.calls == [SetupCall(f, OnConstraint, target), SetupCall(f, OnBone, target)])
      && (kind !in host.kinds ==> e.calls == [SetupCall(f, OnBone, target)])
      && (e.outcome == Done <==> (kind in host.kinds && (f, OnConstraint) !in host.rejects)
                                 || (f, OnBone) !in host.rejects)
  {
  }

  /** A bone: its constraint collection, changed in place by the host's
      `remove` and `new`. */
  class PoseBone {
    var constraints: seq<Constraint>

    constructor (constraints: seq<Constraint>)
      ensures this.constraints == constraints
    {
      this.constraints := constraints;
    }

    /** `bone.constraints.remove(c)`. */
    method Remove(c: Constraint)
      requires c in constraints
      modifies this
      ensures constraints == RemoveFirst(old(constraints), c)
    {
      constraints := RemoveFirst(constraints, c);
    }

    /** `bone.constraints.new(type=kind)` for a type the host accepts. */
    method New(kind: string, name: string) returns (c: Constraint)
      modifies this
      ensures c == Constraint(name, kind)
      ensures constraints == old(constraints) + [c]
    {
      c := Constraint(name, kind);
      constraints := constraints + [c];
    }
  }
}
