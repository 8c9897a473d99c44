/** Normalisation of addresses into cache keys. */
module AddressKeys {
  import opened Sequences
  import opened Whitespace

  /** Semicolon, full-width semicolon and full-width comma stand for a comma. */
  predicate IsVariantComma(c: char) {
    c == ';' || c as int == 0xFF1B || c as int == 0xFF0C
  }

  function MapChars(f: char -> char, s: string): (r: string)
    ensures |r| == |s| && forall i :: 0 <= i < |s| ==> r[i] == f(s[i])
  {
    seq(|s|, i requires 0 <= i < |s| => f(s[i]))
  }

  function Unify(s: string): string { MapChars(c => if IsVariantComma(c) then ',' else c, s) }

  /** The first character of the tightened text, and the text still to be tightened. */
  function TightenHead(s: string): (r: (char, string))
    requires s != ""
    ensures |r.1| < |s|
  {
    var w := SpaceRun(s);
    if w < |s| && s[w] == ',' then
      var rest := s[w + 1..];
      (',', rest[SpaceRun(rest)..])
    else (s[0], s[1..])
  }

  /** Drops the white space on both sides of every comma. */
  function TightenCommas(s: string): string
    decreases |s|
  {
    if s == "" then "" else [TightenHead(s).0] + TightenCommas(TightenHead(s).1)
  }

  function CollapseHead(s: string): (r: (char, string))
    requires s != ""
    ensures |r.1| < |s|
  {
    if SpaceRun(s) > 0 then (' ', s[SpaceRun(s)..]) else (s[0], s[1..])
  }

  /** Replaces every run of white space by one blank. */
  function CollapseSpaces(s: string): string
    decreases |s|
  {
    if s == "" then "" else [CollapseHead(s).0] + CollapseSpaces(CollapseHead(s).1)
  }

  /** What is relied on of lower-casing, for all of Unicode: doing it twice changes nothing more, and it spells every
      character as one or more others, leaving white space and commas alone and making none. The spelling may depend on
      the context. */
  ghost predicate Lowering(lower: string -> string) {
    forall s :: lower(lower(s)) == lower(s) && SpelledAs(s, lower(s))
  }

  ghost predicate SpelledAs(s: string, r: string) {
    exists pieces :: Spells(s, pieces, r)
  }

  ghost predicate Spells(s: string, pieces: seq<string>, r: string) {
    && |pieces| == |s| && Flatten(pieces) == r
    && forall i :: 0 <= i < |s| ==> PieceOk(s[i], pieces[i])
  }

  predicate IsMark(c: char) {
    IsSpace(c) || c == ',' || IsVariantComma(c)
  }

  predicate PieceOk(c: char, piece: string) {
    piece != "" && if IsMark(c) then piece == [c] else forall i :: 0 <= i < |piece| ==> !IsMark(piece[i])
  }

  /** `_cache_key`, with the lower-casing of the text as a parameter. */
  function CacheKey(lower: string -> string, address: string): string {
    lower(Strip(CollapseSpaces(TightenCommas(Unify(address)))))
  }

  // ----- the normal form -----

  /** No white space next to a comma. */
  predicate Tight(s: string) {
    forall i :: 0 <= i < |s| - 1 ==> !(IsSpace(s[i]) && s[i + 1] == ',') && !(s[i] == ',' && IsSpace(s[i + 1]))
  }

  /** The only white space is single blanks. */
  predicate SingleSpaced(s: string) {
    && (forall i :: 0 <= i < |s| && IsSpace(s[i]) ==> s[i] == ' ')
    && (forall i :: 0 <= i < |s| - 1 ==> !(IsSpace(s[i]) && IsSpace(s[i + 1])))
  }

  /** Tight, single-spaced, with plain commas only, and nothing to strip. */
  predicate Layout(s: string) {
    Tight(s) && SingleSpaced(s) && NoVariantComma(s) && Stripped(s)
  }

  predicate Normal(lower: string -> string, s: string) {
    Layout(s) && lower(s) == s
  }

  predicate NoVariantComma(s: string) {
    forall i :: 0 <= i < |s| ==> !IsVariantComma(s[i])
  }

  predicate TightPair(a: char, b: char) {
    !(IsSpace(a) && b == ',') && !(a == ',' && IsSpace(b))
  }

  lemma TightCons(c: char, r: string)
    requires Tight(r) && (r != "" ==> TightPair(c, r[0]))
    ensures Tight([c] + r)
  {
    hide IsSpace;
    var s := [c] + r;
    forall i | 0 <= i < |s| - 1
      ensures !(IsSpace(s[i]) && s[i + 1] == ',') && !(s[i] == ',' && IsSpace(s[i + 1]))
    {
      assert i > 0 ==> s[i] == r[i - 1] && s[i + 1] == r[i];
    }
  }

  lemma TightenHeadsPair(s: string)
    requires s != "" && TightenHead(s).1 != ""
    ensures TightPair(TightenHead(s).0, TightenHead(TightenHead(s).1).0)
  {
    assert !IsSpace(',');
    hide IsSpace;
  }

  lemma {:induction false} TightenedIsTight(s: string)
    ensures Tight(TightenCommas(s))
    decreases |s|
  {
    hide IsSpace, Tight, TightenHead, TightPair;
    if s == "" {
      EmptyIsTight();
    } else {
      var next := TightenHead(s).1;
      TightenedIsTight(next);
      if next != "" {
        TightenHeadsPair(s);
      }
      TightCons(TightenHead(s).0, TightenCommas(next));
    }
  }

  lemma EmptyIsTight()
    ensures Tight("")
  {
  }

  lemma CollapseHeads(s: string)
    requires s != ""
    ensures var (c, next) := CollapseHead(s);
            IsSpace(c) ==> c == ' ' && (next != "" ==> !IsSpace(CollapseHead(next).0))
  {
    assert IsSpace(' ');
    hide IsSpace;
  }

  lemma {:induction false} CollapsedIsSingleSpaced(s: string)
    ensures SingleSpaced(CollapseSpaces(s))
    decreases |s|
  {
    hide IsSpace, CollapseHead;
    if s != "" {
      CollapseHeads(s);
      CollapsedIsSingleSpaced(CollapseHead(s).1);
      SingleSpacedCons(CollapseHead(s).0, CollapseSpaces(CollapseHead(s).1));
    }
  }

  lemma SingleSpacedCons(c: char, r: string)
    requires SingleSpaced(r) && (IsSpace(c) ==> c == ' ' && (r != "" ==> !IsSpace(r[0])))
    ensures SingleSpaced([c] + r)
  {
    hide IsSpace;
    var s := [c] + r;
    forall i | 0 <= i < |s|
      ensures IsSpace(s[i]) ==> s[i] == ' '
      ensures i < |s| - 1 ==> !(IsSpace(s[i]) && IsSpace(s[i + 1]))
    {
      assert i > 0 ==> s[i] == r[i - 1];
      assert 0 < i < |s| - 1 ==> s[i + 1] == r[i];
    }
  }

  lemma CollapseHeadsPair(s: string)
    requires Tight(s) && s != ""
    ensures Tight(CollapseHead(s).1)
    ensures CollapseHead(s).1 != "" ==> TightPair(CollapseHead(s).0, CollapseHead(CollapseHead(s).1).0)
  {
    assert IsSpace(' ') && !IsSpace(',');
    hide IsSpace;
    var next := CollapseHead(s).1;
    TightSlice(s, |s| - |next|, |s|);
    assert next == s[|s| - |next|..|s|];
    if next != "" {
      assert TightPair(s[|s| - |next| - 1], next[0]);
    }
  }

  lemma {:induction false} CollapsingKeepsTight(s: string)
    requires Tight(s)
    ensures Tight(CollapseSpaces(s))
    decreases |s|
  {
    hide IsSpace, CollapseHead, Tight, TightPair;
    if s == "" {
      EmptyIsTight();
    } else {
      CollapseHeadsPair(s);
      CollapsingKeepsTight(CollapseHead(s).1);
      TightCons(CollapseHead(s).0, CollapseSpaces(CollapseHead(s).1));
    }
  }

  lemma TightSlice(s: string, lo: nat, hi: nat)
    requires Tight(s) && lo <= hi <= |s|
    ensures Tight(s[lo..hi])
  {
    hide IsSpace;
    var t := s[lo..hi];
    forall i | 0 <= i < |t| - 1
      ensures !(IsSpace(t[i]) && t[i + 1] == ',') && !(t[i] == ',' && IsSpace(t[i + 1]))
    {
      assert t[i] == s[lo + i] && t[i + 1] == s[lo + i + 1];
    }
  }

  lemma SingleSpacedSlice(s: string, lo: nat, hi: nat)
    requires SingleSpaced(s) && lo <= hi <= |s|
    ensures SingleSpaced(s[lo..hi])
  {
    hide IsSpace;
    var t := s[lo..hi];
    forall i | 0 <= i < |t|
      ensures IsSpace(t[i]) ==> t[i] == ' '
      ensures i < |t| - 1 ==> !(IsSpace(t[i]) && IsSpace(t[i + 1]))
    {
      assert t[i] == s[lo + i] && (i + 1 < |t| ==> t[i + 1] == s[lo + i + 1]);
    }
  }

  lemma StripKeeps(s: string)
    requires Tight(s) && SingleSpaced(s) && NoVariantComma(s)
    ensures Layout(Strip(s))
  {
    hide IsSpace, IsVariantComma, Tight, SingleSpaced, Strip;
    StripIsStripped(s);
    var a, b :| 0 <= a <= b <= |s| && Strip(s) == s[a..b];
    TightSlice(s, a, b);
    SingleSpacedSlice(s, a, b);
  }

  // No step brings a comma variant back.

  lemma HeadsKeepNoVariant(s: string)
    requires NoVariantComma(s) && s != ""
    ensures !IsVariantComma(TightenHead(s).0) && NoVariantComma(TightenHead(s).1)
    ensures !IsVariantComma(CollapseHead(s).0) && NoVariantComma(CollapseHead(s).1)
  {
    assert !IsVariantComma(',') && !IsVariantComma(' ');
    hide IsSpace, IsVariantComma;
  }

  lemma NoVariantCons(c: char, r: string)
    requires !IsVariantComma(c) && NoVariantComma(r)
    ensures NoVariantComma([c] + r)
  {
    hide IsVariantComma;
  }

  lemma {:induction false} TightenKeepsNoVariant(s: string)
    requires NoVariantComma(s)
    ensures NoVariantComma(TightenCommas(s))
    decreases |s|
  {
    hide IsVariantComma, TightenHead;
    if s != "" {
      HeadsKeepNoVariant(s);
      TightenKeepsNoVariant(TightenHead(s).1);
      NoVariantCons(TightenHead(s).0, TightenCommas(TightenHead(s).1));
    }
  }

  lemma {:induction false} CollapseKeepsNoVariant(s: string)
    requires NoVariantComma(s)
    ensures NoVariantComma(CollapseSpaces(s))
    decreases |s|
  {
    hide IsVariantComma, CollapseHead;
    if s != "" {
      HeadsKeepNoVariant(s);
      CollapseKeepsNoVariant(CollapseHead(s).1);
      NoVariantCons(CollapseHead(s).0, CollapseSpaces(CollapseHead(s).1));
    }
  }

  // ----- lower-casing keeps the layout -----

  predicate SameKind(c: char, d: char) {
    (IsSpace(c) <==> IsSpace(d)) && (c == ',' <==> d == ',') && (IsSpace(c) ==> c == d)
  }

  lemma PieceEnds(c: char, piece: string)
    requires PieceOk(c, piece) && !IsVariantComma(c)
    ensures SameKind(c, piece[0]) && SameKind(c, piece[|piece| - 1])
  {
    hide IsSpace, IsVariantComma;
  }

  /** Within the spelling of one character there is nothing to tidy. */
  lemma PieceTidy(c: char, piece: string)
    requires PieceOk(c, piece) && !IsVariantComma(c) && (IsSpace(c) ==> c == ' ')
    ensures Tight(piece) && SingleSpaced(piece) && NoVariantComma(piece)
  {
    hide IsSpace, IsVariantComma;
  }

  predicate TidyPair(a: char, b: char) {
    TightPair(a, b) && !(IsSpace(a) && IsSpace(b))
  }

  predicate Tidy(s: string) {
    Tight(s) && SingleSpaced(s) && NoVariantComma(s)
  }

  lemma TidyJoin(a: string, b: string)
    requires Tidy(a) && Tidy(b) && (a != "" && b != "" ==> TidyPair(a[|a| - 1], b[0]))
    ensures Tidy(a + b)
  {
    hide IsSpace, IsVariantComma;
    var s := a + b;
    forall i | 0 <= i < |s|
      ensures (IsSpace(s[i]) ==> s[i] == ' ') && !IsVariantComma(s[i])
      ensures i < |s| - 1 ==> TidyPair(s[i], s[i + 1])
    {
      assert s[i] == if i < |a| then a[i] else b[i - |a|];
      assert i < |s| - 1 ==> s[i + 1] == if i + 1 < |a| then a[i + 1] else b[i + 1 - |a|];
      if i < |a| - 1 {
        assert TidyPair(a[i], a[i + 1]);
      } else if |a| <= i < |s| - 1 {
        assert TidyPair(b[i - |a|], b[i - |a| + 1]);
      }
    }
  }

  lemma TidyHead(s: string)
    requires Tidy(s) && s != ""
    ensures Tidy(s[1..]) && !IsVariantComma(s[0]) && (IsSpace(s[0]) ==> s[0] == ' ')
    ensures |s| > 1 ==> TidyPair(s[0], s[1])
  {
    hide IsSpace, IsVariantComma;
    TightSlice(s, 1, |s|);
    SingleSpacedSlice(s, 1, |s|);
    assert s[1..|s|] == s[1..];
  }

  lemma SpellsTail(s: string, pieces: seq<string>, r: string)
    requires Spells(s, pieces, r) && s != ""
    ensures |pieces| == |s| && PieceOk(s[0], pieces[0]) && Spells(s[1..], pieces[1..], Flatten(pieces[1..]))
    ensures r == pieces[0] + Flatten(pieces[1..])
  {
    hide PieceOk;
  }

  /** The spelling of a tidy text is tidy, and starts and ends with characters of the same kind. */
  lemma {:induction false} SpellingKeepsTidy(s: string, pieces: seq<string>, r: string)
    requires Spells(s, pieces, r) && Tidy(s)
    ensures Tidy(r) && (s == "" <==> r == "")
    ensures s != "" ==> SameKind(s[0], r[0]) && SameKind(s[|s| - 1], r[|r| - 1])
    decreases |s|
  {
    hide IsSpace, IsVariantComma, PieceOk, Tidy, Spells, Flatten, SameKind, TidyPair;
    if s == "" {
      SpellsNothing(pieces, r);
    } else {
      SpellsTail(s, pieces, r);
      TidyHead(s);
      PieceNonempty(s[0], pieces[0]);
      PieceEnds(s[0], pieces[0]);
      PieceTidy(s[0], pieces[0]);
      TidyIs(pieces[0]);
      var rest := Flatten(pieces[1..]);
      SpellingKeepsTidy(s[1..], pieces[1..], rest);
      if |s| > 1 {
        KindsPair(s[0], s[1], pieces[0][|pieces[0]| - 1], rest[0]);
      }
      TidyJoin(pieces[0], rest);
    }
  }

  lemma SpellsNothing(pieces: seq<string>, r: string)
    requires Spells("", pieces, r)
    ensures r == "" && Tidy(r)
  {
  }

  lemma PieceNonempty(c: char, piece: string)
    requires PieceOk(c, piece)
    ensures piece != ""
  {
  }

  lemma TidyIs(s: string)
    ensures Tight(s) && SingleSpaced(s) && NoVariantComma(s) ==> Tidy(s)
  {
  }

  lemma KindsPair(a: char, b: char, c: char, d: char)
    requires TidyPair(a, b) && SameKind(a, c) && SameKind(b, d)
    ensures TidyPair(c, d)
  {
    hide IsSpace;
  }

  lemma LowerKeeps(lower: string -> string, s: string)
    requires Lowering(lower) && Layout(s)
    ensures Normal(lower, lower(s))
  {
    hide IsSpace;
    assert SpelledAs(s, lower(s));
    var pieces :| Spells(s, pieces, lower(s));
    SpellingKeepsTidy(s, pieces, lower(s));
  }

  /** Every key is in normal form. */
  lemma KeyIsNormal(lower: string -> string, address: string)
    requires Lowering(lower)
    ensures Normal(lower, CacheKey(lower, address))
  {
    var unified := Unify(address);
    assert NoVariantComma(unified);
    hide IsSpace, IsVariantComma, Lowering, Layout, Normal;
    var tight := TightenCommas(unified);
    TightenedIsTight(unified);
    TightenKeepsNoVariant(unified);
    CollapsedIsSingleSpaced(tight);
    CollapsingKeepsTight(tight);
    CollapseKeepsNoVariant(tight);
    StripKeeps(CollapseSpaces(tight));
    LowerKeeps(lower, Strip(CollapseSpaces(tight)));
  }

  lemma HeadsFixed(s: string)
    requires Tight(s) && SingleSpaced(s) && s != "" && !IsSpace(s[|s| - 1])
    ensures TightenHead(s) == (s[0], s[1..]) && CollapseHead(s) == (s[0], s[1..])
    ensures Tight(s[1..]) && SingleSpaced(s[1..])
  {
    assert IsSpace(' ') && !IsSpace(',');
    hide IsSpace;
    TightSlice(s, 1, |s|);
    SingleSpacedSlice(s, 1, |s|);
    assert s[1..|s|] == s[1..];
    var w := SpaceRun(s);
    if IsSpace(s[0]) {
      assert SpaceRun(s[1..]) == 0;
    } else {
      assert w == 0;
      if s[0] == ',' {
        assert SpaceRun(s[1..]) == 0;
        assert s[1..][0..] == s[1..];
      }
    }
  }

  lemma {:induction false} TidyFixed(s: string)
    requires Tight(s) && SingleSpaced(s) && (s != "" ==> !IsSpace(s[|s| - 1]))
    ensures TightenCommas(s) == s && CollapseSpaces(s) == s
    decreases |s|
  {
    hide IsSpace, TightenHead, CollapseHead, Tight, SingleSpaced;
    if s != "" {
      HeadsFixed(s);
      TidyFixed(s[1..]);
      assert s == [s[0]] + s[1..];
    }
  }

  /** Strings in normal form are their own keys. */
  lemma NormalIsFixed(lower: string -> string, s: string)
    requires Normal(lower, s)
    ensures CacheKey(lower, s) == s
  {
    UnifyFixed(s);
    TidyFixed(s);
    StripStripped(s);
  }

  lemma UnifyFixed(s: string)
    requires NoVariantComma(s)
    ensures Unify(s) == s
  {
  }

  /** Normalising is idempotent: the normal forms are exactly the keys. */
  lemma CacheKeyIdempotent(lower: string -> string, address: string)
    requires Lowering(lower)
    ensures CacheKey(lower, CacheKey(lower, address)) == CacheKey(lower, address)
    ensures Normal(lower, address) <==> CacheKey(lower, address) == address
  {
    hide Lowering, Normal, CacheKey;
    KeyIsNormal(lower, address);
    NormalIsFixed(lower, CacheKey(lower, address));
    if Normal(lower, address) {
      NormalIsFixed(lower, address);
    }
  }

  // ----- the assumption can be met -----

  function LowerAscii(c: char): char {
    if 'A' <= c <= 'Z' then (c as int + 32) as char else c
  }

  function Singles(s: string): (r: seq<string>)
    ensures |r| == |s| && forall i :: 0 <= i < |s| ==> r[i] == [s[i]]
  {
    seq(|s|, i requires 0 <= i < |s| => [s[i]])
  }

  lemma {:induction false} FlattenSingles(s: string)
    ensures Flatten(Singles(s)) == s
  {
    if s != "" {
      assert Singles(s)[1..] == Singles(s[1..]);
      FlattenSingles(s[1..]);
    }
  }

  function LowerAsciiText(s: string): string {
    MapChars(LowerAscii, s)
  }

  /** Lower-casing character by character, within ASCII say, is of the kind relied on. */
  lemma AsciiIsLowering()
    ensures Lowering(LowerAsciiText)
  {
    forall s
      ensures LowerAsciiText(LowerAsciiText(s)) == LowerAsciiText(s) && SpelledAs(s, LowerAsciiText(s))
    {
      FlattenSingles(LowerAsciiText(s));
      assert Spells(s, Singles(LowerAsciiText(s)), LowerAsciiText(s));
    }
  }
}
