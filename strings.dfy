/** The string operations that constraint names go through before they are
    compared with a requested constraint type: Python's substring test
    (`sub in s`), `s.replace(old, new)` for one-character arguments and
    `s.upper()`, restricted to ASCII letters. */
module Strings {

  predicate IsPrefix(p: string, s: string) {
    |p| <= |s| && s[..|p|] == p
  }

  /** `sub` starts at index `i` of `s`. */
  predicate OccursAt(s: string, sub: string, i: int) {
    0 <= i && i + |sub| <= |s| && s[i..i + |sub|] == sub
  }

  /** Python's `sub in s`, scanning `s` from the left. */
  predicate Contains(s: string, sub: string)
    decreases |s|
  {
    IsPrefix(sub, s) || (s != [] && Contains(s[1..], sub))
  }

  /** The scan finds `sub` exactly when it occurs at some index of `s`. */
  lemma {:induction false} ContainsIffOccurs(s: string, sub: string)
    ensures Contains(s, sub) <==> exists i :: OccursAt(s, sub, i)
    decreases |s|
  {
    if IsPrefix(sub, s) {
      assert OccursAt(s, sub, 0);
    } else if s != [] {
      ContainsIffOccurs(s[1..], sub);
      if Contains(s[1..], sub) {
        var i :| OccursAt(s[1..], sub, i);
        assert s[1..][i..i + |sub|] == s[i + 1..i + 1 + |sub|];
        assert OccursAt(s, sub, i + 1);
      }
      forall i | OccursAt(s, sub, i) ensures Contains(s[1..], sub) {
        assert i != 0;
        assert s[1..][i - 1..i - 1 + |sub|] == s[i..i + |sub|];
        assert OccursAt(s[1..], sub, i - 1);
      }
    }
  }

  /** `s.replace(from, to)` where `from` and `to` are single characters:
      every occurrence is replaced, nothing else moves. */
  function ReplaceChar(s: string, from: char, to: char): (r: string)
    ensures |r| == |s|
  {
    if s == [] then []
    else [if s[0] == from then to else s[0]] + ReplaceChar(s[1..], from, to)
  }

  lemma {:induction false} ReplaceCharAt(s: string, from: char, to: char)
    ensures forall i :: 0 <= i < |s| ==>
      ReplaceChar(s, from, to)[i] == (if s[i] == from then to else s[i])
    decreases |s|
  {
    if s != [] {
      ReplaceCharAt(s[1..], from, to);
    }
  }

  predicate IsLower(c: char) {
    'a' <= c <= 'z'
  }

  function UpperChar(c: char): (u: char)
    ensures !IsLower(u)
    ensures IsLower(c) ==> u as int == c as int - 32
    ensures !IsLower(c) ==> u == c
  {
    if IsLower(c) then (c as int - 32) as char else c
  }

  /** `s.upper()` on ASCII text: each lower-case letter becomes its capital. */
  function Upper(s: string): (r: string)
    ensures |r| == |s|
  {
    if s == [] then [] else [UpperChar(s[0])] + Upper(s[1..])
  }

  lemma {:induction false} UpperAt(s: string)
    ensures forall i :: 0 <= i < |s| ==> Upper(s)[i] == UpperChar(s[i])
    decreases |s|
  {
    if s != [] {
      UpperAt(s[1..]);
    }
  }

  /** The comparison key of a constraint name: spaces become underscores,
      then the text is upper-cased, so "Copy Location" becomes "COPY_LOCATION". */
  function Normalize(name: string): (key: string)
    ensures |key| == |name|
  {
    Upper(ReplaceChar(name, ' ', '_'))
  }

  /** Character by character, the key is the upper-cased name with every
      space turned into an underscore, so it is normal. */
  lemma NormalizeAt(name: string)
    ensures forall i :: 0 <= i < |name| ==>
      Normalize(name)[i] == UpperChar(if name[i] == ' ' then '_' else name[i])
    ensures IsNormal(Normalize(name))
  {
    ReplaceCharAt(name, ' ', '_');
    UpperAt(ReplaceChar(name, ' ', '_'));
  }

  /** Text that normalisation leaves alone: no space and no lower-case letter. */
  predicate IsNormal(s: string) {
    forall i :: 0 <= i < |s| ==> s[i] != ' ' && !IsLower(s[i])
  }

  /** Normalisation fixes exactly the normal strings, so it is idempotent
      and a type name such as "COPY_LOCATION" is its own key. */
  lemma NormalizeFixesNormal(s: string)
    ensures Normalize(s) == s <==> IsNormal(s)
  {
    NormalizeAt(s);
    if IsNormal(s) {
      forall i | 0 <= i < |s| ensures Normalize(s)[i] == s[i] {
      }
    }
  }

  lemma NormalizeIdempotent(s: string)
    ensures Normalize(Normalize(s)) == Normalize(s)
  {
    NormalizeAt(s);
    NormalizeFixesNormal(Normalize(s));
  }

  /** A text in which the first character of `sub` never appears does not
      contain `sub`. */
  lemma {:induction false} NotContainsWithoutFirst(s: string, sub: string)
    requires sub != [] && sub[0] !in s
    ensures !Contains(s, sub)
    decreases |s|
  {
    if s != [] {
      assert s[0] != sub[0];
      assert forall c :: c in s[1..] ==> c in s;
      NotContainsWithoutFirst(s[1..], sub);
    }
  }

  /** The key of Blender's default name for a copy-location constraint. */
  lemma CopyLocationKey(name: string)
    requires name == "Copy Location"
    ensures Normalize(name) == "COPY_LOCATION"
  {
    var key := Normalize(name);
    NormalizeAt(name);
    assert key[0] == 'C' && key[1] == 'O' && key[2] == 'P' && key[3] == 'Y';
    assert key[4] == '_';
    assert key[5] == 'L' && key[6] == 'O' && key[7] == 'C' && key[8] == 'A';
    assert key[9] == 'T' && key[10] == 'I' && key[11] == 'O' && key[12] == 'N';
  }
}
