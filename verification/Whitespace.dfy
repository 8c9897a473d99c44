/** White space at the ends of a text. */
module Whitespace {

  /** White space, as `\s` and `str.strip` see it. */
  predicate IsSpace(c: char) {
    var n := c as int;
    9 <= n <= 13 || 28 <= n <= 32 || n == 0x85 || n == 0xA0 || n == 0x1680 || 0x2000 <= n <= 0x200A || n == 0x2028 ||
    n == 0x2029 || n == 0x202F || n == 0x205F || n == 0x3000
  }

  function SpaceRun(s: string): (n: nat)
    ensures n <= |s| && (forall i :: 0 <= i < n ==> IsSpace(s[i])) && (n < |s| ==> !IsSpace(s[n]))
  {
    if s == "" || !IsSpace(s[0]) then 0 else 1 + SpaceRun(s[1..])
  }

  /** Where the trailing white space starts. */
  function TrimEnd(s: string): (n: nat)
    ensures n <= |s| && (forall i :: n <= i < |s| ==> IsSpace(s[i])) && (n > 0 ==> !IsSpace(s[n - 1]))
    decreases |s|
  {
    if s == "" || !IsSpace(s[|s| - 1]) then |s| else TrimEnd(s[..|s| - 1])
  }

  function Strip(s: string): string {
    if SpaceRun(s) < TrimEnd(s) then s[SpaceRun(s)..TrimEnd(s)] else ""
  }

  /** Nothing to strip. */
  predicate Stripped(s: string) {
    s != "" ==> !IsSpace(s[0]) && !IsSpace(s[|s| - 1])
  }

  predicate Blank(s: string) {
    forall i :: 0 <= i < |s| ==> IsSpace(s[i])
  }

  lemma StripIsStripped(s: string)
    ensures Stripped(Strip(s)) && |Strip(s)| <= |s|
    ensures exists a, b :: 0 <= a <= b <= |s| && Strip(s) == s[a..b]
  {
    if SpaceRun(s) < TrimEnd(s) {
      assert Strip(s) == s[SpaceRun(s)..TrimEnd(s)];
    } else {
      assert Strip(s) == s[0..0];
    }
  }

  /** What is not white space is not stripped. */
  lemma StripKeeps(s: string, k: nat)
    requires k < |s| && !IsSpace(s[k])
    ensures s[k] in Strip(s)
  {
    hide IsSpace;
    var lo, hi := SpaceRun(s), TrimEnd(s);
    assert lo <= k < hi;
    assert s[lo..hi][k - lo] == s[k];
  }

  /** Stripping removes blank padding and nothing else. */
  lemma StripPadded(a: string, core: string, b: string)
    requires Blank(a) && Stripped(core) && Blank(b)
    ensures Strip(a + core + b) == core
  {
    hide IsSpace;
    var s := a + core + b;
    var lo, hi := SpaceRun(s), TrimEnd(s);
    assert forall i :: 0 <= i < |a| ==> s[i] == a[i];
    assert forall i :: |a| + |core| <= i < |s| ==> s[i] == b[i - |a| - |core|];
    if core != "" {
      assert s[|a|] == core[0] && s[|a| + |core| - 1] == core[|core| - 1];
      assert s[|a|..|a| + |core|] == core;
    }
  }

  lemma StripStripped(s: string)
    ensures Stripped(s) <==> Strip(s) == s
  {
    if Stripped(s) {
      StripPadded("", s, "");
      assert "" + s + "" == s;
    } else {
      StripIsStripped(s);
    }
  }
}
