/**
 * The few members of .NET's string and path API that the server relies on,
 * over Dafny strings. A C# string reference that may be null is a
 * `NullableString`; comparisons are ordinal.
 */
module Strings {
  import opened Wrappers

  type NullableString = Option<string>

  /** `string.IsNullOrEmpty`. */
  predicate IsNullOrEmpty(s: NullableString) {
    s == None || s == Some("")
  }

  /** C# string interpolation renders a null reference as the empty string. */
  function Interpolate(s: NullableString): string {
    if s.Some? then s.value else ""
  }

  /** `s.StartsWith(prefix)`. */
  predicate StartsWith(s: string, prefix: string) {
    |prefix| <= |s| && s[..|prefix|] == prefix
  }

  /** `s.EndsWith(suffix)`. */
  predicate EndsWith(s: string, suffix: string) {
    |suffix| <= |s| && s[|s| - |suffix|..] == suffix
  }

  /** `t` occurs in `s` starting at index `i`. */
  predicate OccursAt(s: string, t: string, i: int) {
    0 <= i && i + |t| <= |s| && s[i..i + |t|] == t
  }

  /** The largest index not above `i` at which `t` occurs in `s`, or -1. */
  function LastIndexOfFrom(s: string, t: string, i: int): (r: int)
    requires -1 <= i
    decreases i + 1
    ensures r == -1 || (0 <= r <= i && OccursAt(s, t, r))
    ensures forall j :: r < j <= i ==> !OccursAt(s, t, j)
  {
    if i < 0 then -1
    else if OccursAt(s, t, i) then i
    else LastIndexOfFrom(s, t, i - 1)
  }

  /** `s.LastIndexOf(t)`: the start of the last occurrence of `t` in `s`, or -1. */
  function LastIndexOf(s: string, t: string): (r: int)
    ensures r == -1 || OccursAt(s, t, r)
    ensures forall j :: r < j ==> !OccursAt(s, t, j)
  {
    LastIndexOfFrom(s, t, |s|)
  }

  /** When `t` ends `s`, its last occurrence is that one. */
  lemma LastIndexOfSuffix(s: string, t: string)
    requires EndsWith(s, t)
    ensures LastIndexOf(s, t) == |s| - |t|
  {
    assert OccursAt(s, t, |s| - |t|);
  }

  /** What precedes a suffix, followed by the suffix, is the whole string. */
  lemma PrefixBeforeSuffix(s: string, t: string)
    requires EndsWith(s, t)
    ensures s[..|s| - |t|] + t == s
  {
  }

  /**
   * `Path.GetFileName` with `/` as the only directory separator (as on
   * Linux): the text after the last `/`, or the whole path if it has none.
   */
  function GetFileName(p: string): (r: string)
    ensures '/' !in r
    ensures EndsWith(p, r)
    ensures |r| < |p| ==> p[|p| - |r| - 1] == '/'
  {
    if p == [] || p[|p| - 1] == '/' then ""
    else GetFileName(p[..|p| - 1]) + [p[|p| - 1]]
  }

  /** The file name of a directory path followed by a slash-free name is that name. */
  lemma {:induction false} GetFileNameAfterSlash(dir: string, name: string)
    requires EndsWith(dir, "/")
    requires '/' !in name
    ensures GetFileName(dir + name) == name
  {
    if name == [] {
      assert dir + name == dir;
    } else {
      var init := name[..|name| - 1];
      assert (dir + name)[..|dir + name| - 1] == dir + init;
      GetFileNameAfterSlash(dir, init);
      assert init + [name[|name| - 1]] == name;
    }
  }
}
