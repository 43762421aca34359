/** The fallback rule that turns a form-data key into a display label: a
    space before every capital letter, the first character upper-cased, and
    a trailing `Id` written `ID`. The PDF summary, the form preview and the
    review screen use the same rule (the review screen only when no
    translation exists). */
module FieldLabel {
  import opened Common

  function CountUpper(s: string): nat {
    if s == [] then 0 else (if IsUpper(s[0]) then 1 else 0) + CountUpper(s[1..])
  }

  /** `.replace(/([A-Z])/g, ' $1')` */
  function SpaceCapitals(s: string): (r: string)
    decreases |s|
  {
    if s == [] then [] else (if IsUpper(s[0]) then [' ', s[0]] else [s[0]]) + SpaceCapitals(s[1..])
  }

  /** `.replace(/^./, str => str.toUpperCase())`: `.` does not match a line
      terminator, so such a first character is left alone. */
  function CapitalizeFirst(s: string): string {
    if s != [] && !IsLineTerminator(s[0]) then [UpperChar(s[0])] + s[1..] else s
  }

  /** `.replace(/Id$/, 'ID')` */
  function FixTrailingId(s: string): string {
    if EndsWith(s, "Id") then s[..|s| - 2] + "ID" else s
  }

  function FormatFieldLabel(key: string): string {
    FixTrailingId(CapitalizeFirst(SpaceCapitals(key)))
  }

  /** The characters of `s` other than spaces, in order. */
  function DropSpaces(s: string): (r: string)
    ensures ' ' !in r
  {
    if s == [] then [] else (if s[0] == ' ' then [] else [s[0]]) + DropSpaces(s[1..])
  }

  lemma DropSpacesAppend(a: string, b: string)
    ensures DropSpaces(a + b) == DropSpaces(a) + DropSpaces(b)
  {
    if a == [] {
      assert a + b == b;
    } else {
      assert (a + b)[1..] == a[1..] + b;
      DropSpacesAppend(a[1..], b);
    }
  }

  /** Spacing only inserts: every character of the key survives, in order,
      and exactly one space is added per capital letter. */
  lemma {:induction false} SpaceCapitalsInserts(s: string)
    ensures |SpaceCapitals(s)| == |s| + CountUpper(s)
    ensures ' ' !in s ==> DropSpaces(SpaceCapitals(s)) == s
    decreases |s|
  {
    if s != [] {
      SpaceCapitalsInserts(s[1..]);
      var head := if IsUpper(s[0]) then [' ', s[0]] else [s[0]];
      DropSpacesAppend(head, SpaceCapitals(s[1..]));
      if ' ' !in s {
        assert ' ' !in s[1..];
        assert DropSpaces(head) == [s[0]];
        assert s == [s[0]] + s[1..];
      }
    }
  }

  /** Every capital letter of the spaced key has a space just before it. */
  lemma {:induction false} CapitalsFollowSpaces(s: string)
    ensures forall i :: 0 <= i < |SpaceCapitals(s)| && IsUpper(SpaceCapitals(s)[i]) ==>
      i > 0 && SpaceCapitals(s)[i - 1] == ' '
    decreases |s|
  {
    if s != [] {
      CapitalsFollowSpaces(s[1..]);
      var head := if IsUpper(s[0]) then [' ', s[0]] else [s[0]];
      var r := SpaceCapitals(s);
      assert r == head + SpaceCapitals(s[1..]);
      forall i | 0 <= i < |r| && IsUpper(r[i]) ensures i > 0 && r[i - 1] == ' ' {
        if i >= |head| {
          assert r[i] == SpaceCapitals(s[1..])[i - |head|];
          if i - |head| > 0 {
            assert r[i - 1] == SpaceCapitals(s[1..])[i - 1 - |head|];
          }
        }
      }
    }
  }

  lemma {:induction false} SpaceCapitalsSuffix(s: string)
    requires EndsWith(s, "Id")
    ensures EndsWith(SpaceCapitals(s), " Id")
    decreases |s|
  {
    if |s| == 2 {
      assert s == "Id";
      assert SpaceCapitals(s) == " Id" by {
        assert s[1..] == "d";
        assert SpaceCapitals(s[1..]) == "d" by { assert s[1..][1..] == []; }
      }
    } else {
      assert s[1..][|s[1..]| - 2..] == s[|s| - 2..];
      SpaceCapitalsSuffix(s[1..]);
    }
  }

  /** A key ending in `Id` gets a label ending in `ID`, and the label is
      the key spaced out and with its first character upper-cased. */
  lemma TrailingIdBecomesID(key: string)
    requires EndsWith(key, "Id")
    ensures EndsWith(FormatFieldLabel(key), "ID")
    ensures |FormatFieldLabel(key)| == |key| + CountUpper(key)
  {
    SpaceCapitalsSuffix(key);
    SpaceCapitalsInserts(key);
    var spaced := SpaceCapitals(key);
    CapitalizeKeepsSuffix(spaced);
    FixTrailingIdEnds(CapitalizeFirst(spaced));
  }

  /** Upper-casing the first character of text ending in ` Id` keeps the
      length and the final `Id`. */
  lemma CapitalizeKeepsSuffix(s: string)
    requires EndsWith(s, " Id")
    ensures |CapitalizeFirst(s)| == |s| && EndsWith(CapitalizeFirst(s), "Id")
  {
    var cap := CapitalizeFirst(s);
    assert cap[1..] == s[1..];
    assert cap[|cap| - 2..] == cap[1..][|cap| - 3..];
    assert s[|s| - 2..] == s[1..][|s| - 3..];
  }

  /** A trailing `Id` is rewritten `ID` in place. */
  lemma FixTrailingIdEnds(s: string)
    requires EndsWith(s, "Id")
    ensures |FixTrailingId(s)| == |s| && EndsWith(FixTrailingId(s), "ID")
  {
    var fixed := s[..|s| - 2] + "ID";
    assert fixed[|fixed| - 2..] == "ID";
  }

  /** The label has one more character per capital letter of the key and
      starts with the key's first letter upper-cased when that is a small
      letter. */
  lemma LabelShape(key: string)
    ensures |FormatFieldLabel(key)| == |key| + CountUpper(key)
    ensures key != [] && IsLower(key[0]) ==> FormatFieldLabel(key)[0] == UpperChar(key[0])
  {
    SpaceCapitalsInserts(key);
    var spaced := SpaceCapitals(key);
    if key != [] && IsLower(key[0]) {
      assert spaced[0] == key[0];
    }
  }
}
