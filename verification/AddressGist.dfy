/** What two addresses with one key have in common: the closed form of a cache key. */
module AddressGist {
  import opened Whitespace
  import opened AddressKeys

  /** A character that is not white space, and whether a blank belongs before it. */
  datatype Ink = Ink(c: char, gap: bool)

  /** The characters of the text with every comma variant as a comma; a blank belongs between two of them exactly if
      there is white space between them and neither is a comma. `glued` says that what stands before the text is its
      start or a comma, `spaced` that it is white space. */
  function Gist(s: string, glued: bool, spaced: bool): seq<Ink> {
    if s == "" then []
    else if IsSpace(s[0]) then Gist(s[1..], glued, true)
    else
      var c := if IsVariantComma(s[0]) then ',' else s[0];
      [Ink(c, spaced && !glued && c != ',')] + Gist(s[1..], c == ',', false)
  }

  /** The gist of a whole address. */
  function GistOf(address: string): seq<Ink> {
    Gist(address, true, false)
  }

  function Written(gist: seq<Ink>): string {
    if gist == [] then "" else (if gist[0].gap then " " else "") + [gist[0].c] + Written(gist[1..])
  }

  // ----- no step of the normalisation changes the gist -----

  lemma Commas()
    ensures !IsSpace(',') && !IsVariantComma(',') && IsSpace(' ') && !IsVariantComma(' ')
    ensures forall c :: IsVariantComma(c) ==> !IsSpace(c)
  {
  }

  lemma GistCons(c: char, rest: string, glued: bool, spaced: bool)
    ensures Gist([c] + rest, glued, spaced) ==
            if IsSpace(c) then Gist(rest, glued, true)
            else
              var d := if IsVariantComma(c) then ',' else c;
              [Ink(d, spaced && !glued && d != ',')] + Gist(rest, d == ',', false)
  {
    hide IsSpace, IsVariantComma;
    assert ([c] + rest)[1..] == rest;
  }

  lemma {:induction false} GluedAnyway(s: string)
    ensures Gist(s, true, true) == Gist(s, true, false)
  {
    hide IsSpace, IsVariantComma;
    if s != "" {
      GluedAnyway(s[1..]);
    }
  }

  lemma {:induction false} SkipSpaces(s: string, glued: bool, spaced: bool)
    ensures Gist(s, glued, spaced) == Gist(s[SpaceRun(s)..], glued, spaced || SpaceRun(s) > 0)
  {
    hide IsSpace, IsVariantComma;
    if s != "" && IsSpace(s[0]) {
      SkipSpaces(s[1..], glued, true);
      assert s[SpaceRun(s)..] == s[1..][SpaceRun(s[1..])..];
    } else {
      assert s[0..] == s;
    }
  }

  lemma {:induction false} BlankEnd(s: string, blanks: string, glued: bool, spaced: bool)
    requires Blank(blanks)
    ensures Gist(s + blanks, glued, spaced) == Gist(s, glued, spaced)
    decreases |s| + |blanks|
  {
    hide IsSpace, IsVariantComma;
    if s == "" {
      assert s + blanks == blanks;
      if blanks != "" {
        assert blanks == [blanks[0]] + blanks[1..];
        assert "" + blanks[1..] == blanks[1..];
        BlankEnd("", blanks[1..], glued, true);
      }
    } else {
      var rest := s[1..];
      assert s + blanks == [s[0]] + (rest + blanks) && s == [s[0]] + rest;
      GistCons(s[0], rest + blanks, glued, spaced);
      GistCons(s[0], rest, glued, spaced);
      var d := if IsVariantComma(s[0]) then ',' else s[0];
      BlankEnd(rest, blanks, glued, true);
      BlankEnd(rest, blanks, d == ',', false);
    }
  }

  lemma {:induction false} UnifyKeeps(s: string, glued: bool, spaced: bool)
    ensures Gist(Unify(s), glued, spaced) == Gist(s, glued, spaced)
  {
    hide IsSpace, IsVariantComma;
    Commas();
    if s != "" {
      assert Unify(s)[1..] == Unify(s[1..]);
      UnifyKeeps(s[1..], glued, true);
      UnifyKeeps(s[1..], s[0] == ',' || IsVariantComma(s[0]), false);
    }
  }

  lemma TightenIs(s: string)
    requires s != ""
    ensures TightenCommas(s) == [TightenHead(s).0] + TightenCommas(TightenHead(s).1)
  {
    hide TightenHead;
  }

  lemma TightenHeadIs(s: string)
    requires s != ""
    ensures var w := SpaceRun(s);
            if w < |s| && s[w] == ',' then
              var rest := s[w + 1..];
              TightenHead(s) == (',', rest[SpaceRun(rest)..])
            else TightenHead(s) == (s[0], s[1..])
  {
    hide IsSpace, SpaceRun, TightenCommas;
  }

  /** A comma with the white space around it. */
  lemma CommaGist(s: string, glued: bool, spaced: bool)
    requires SpaceRun(s) < |s| && s[SpaceRun(s)] == ','
    ensures var rest := s[SpaceRun(s) + 1..];
            Gist(s, glued, spaced) == [Ink(',', false)] + Gist(rest[SpaceRun(rest)..], true, false)
  {
    hide IsSpace, IsVariantComma;
    Commas();
    var w := SpaceRun(s);
    var rest := s[w + 1..];
    SkipSpaces(s, glued, spaced);
    assert s[w..] == [','] + rest;
    GistCons(',', rest, glued, spaced || w > 0);
    SkipSpaces(rest, true, false);
    GluedAnyway(rest[SpaceRun(rest)..]);
  }

  lemma {:induction false} TightenKeeps(s: string, glued: bool, spaced: bool)
    ensures Gist(TightenCommas(s), glued, spaced) == Gist(s, glued, spaced)
    decreases |s|
  {
    hide IsSpace, IsVariantComma, Gist, TightenHead, TightenCommas;
    if s != "" {
      Commas();
      TightenIs(s);
      TightenHeadIs(s);
      var (c, next) := TightenHead(s);
      GistCons(c, TightenCommas(next), glued, spaced);
      var w := SpaceRun(s);
      if w < |s| && s[w] == ',' {
        CommaGist(s, glued, spaced);
        TightenKeeps(next, true, false);
      } else {
        assert s == [s[0]] + s[1..];
        GistCons(s[0], s[1..], glued, spaced);
        TightenKeeps(s[1..], glued, true);
        TightenKeeps(s[1..], s[0] == ',' || IsVariantComma(s[0]), false);
      }
    } else {
      NothingToTighten();
    }
  }

  lemma NothingToTighten()
    ensures TightenCommas("") == "" && CollapseSpaces("") == ""
  {
  }

  lemma CollapseHeadIs(s: string)
    requires s != ""
    ensures CollapseSpaces(s) == [CollapseHead(s).0] + CollapseSpaces(CollapseHead(s).1)
    ensures CollapseHead(s) == if SpaceRun(s) > 0 then (' ', s[SpaceRun(s)..]) else (s[0], s[1..])
  {
  }

  lemma {:induction false} CollapseKeeps(s: string, glued: bool, spaced: bool)
    ensures Gist(CollapseSpaces(s), glued, spaced) == Gist(s, glued, spaced)
    decreases |s|
  {
    hide IsSpace, IsVariantComma, Gist, CollapseHead, CollapseSpaces;
    if s != "" {
      Commas();
      CollapseHeadIs(s);
      var (c, next) := CollapseHead(s);
      GistCons(c, CollapseSpaces(next), glued, spaced);
      if SpaceRun(s) > 0 {
        SkipSpaces(s, glued, spaced);
        CollapseKeeps(next, glued, true);
      } else {
        assert s == [s[0]] + s[1..];
        GistCons(s[0], s[1..], glued, spaced);
        CollapseKeeps(s[1..], glued, true);
        CollapseKeeps(s[1..], s[0] == ',' || IsVariantComma(s[0]), false);
      }
    } else {
      NothingToTighten();
    }
  }

  lemma StripParts(s: string)
    ensures SpaceRun(s) < TrimEnd(s) ==>
              && Strip(s) == s[SpaceRun(s)..TrimEnd(s)] && Blank(s[TrimEnd(s)..])
              && s[SpaceRun(s)..] == Strip(s) + s[TrimEnd(s)..]
    ensures SpaceRun(s) >= TrimEnd(s) ==> Strip(s) == "" && Blank(s)
  {
    hide IsSpace;
    var lo, hi := SpaceRun(s), TrimEnd(s);
    hide SpaceRun, TrimEnd;
    if lo < hi {
      Parts(s, lo, hi);
    }
    forall i | lo >= hi && 0 <= i < |s|
      ensures IsSpace(s[i])
    {
      if i < lo {
        assert IsSpace(s[i]);
      }
    }
  }

  lemma Parts(s: string, lo: nat, hi: nat)
    requires lo < hi <= |s|
    ensures s[lo..] == s[lo..hi] + s[hi..]
  {
  }

  lemma StripKeepsGist(s: string)
    ensures GistOf(Strip(s)) == GistOf(s)
  {
    hide IsSpace, IsVariantComma, Strip, SpaceRun, TrimEnd, Gist, Blank;
    StripParts(s);
    if SpaceRun(s) < TrimEnd(s) {
      SkipSpaces(s, true, false);
      GluedAnyway(s[SpaceRun(s)..]);
      BlankEnd(Strip(s), s[TrimEnd(s)..], true, false);
    } else {
      BlankEnd("", s, true, false);
      assert "" + s == s;
    }
  }

  // ----- a tidy text is its gist, written out -----

  lemma {:induction false} TidyIsWritten(s: string, glued: bool)
    requires Tidy(s) && (s != "" ==> !IsSpace(s[|s| - 1])) && (s != "" && IsSpace(s[0]) ==> !glued)
    ensures Written(Gist(s, glued, false)) == s
    decreases |s|
  {
    hide IsSpace, IsVariantComma;
    Commas();
    if s != "" {
      TidyHead(s);
      if !IsSpace(s[0]) {
        TidyIsWritten(s[1..], s[0] == ',');
        assert s == "" + [s[0]] + s[1..];
      } else {
        TidyHead(s[1..]);
        TidyIsWritten(s[2..], false);
        assert s[1..][1..] == s[2..];
        assert s == " " + [s[1]] + s[2..];
      }
    }
  }

  /** The key in closed form: the characters of the address, every comma variant as a comma, with one blank where white
      space stands between two characters neither of which is a comma; and all that in lower case. */
  lemma KeyIsWritten(lower: string -> string, address: string)
    ensures CacheKey(lower, address) == lower(Written(GistOf(address)))
  {
    hide IsSpace, IsVariantComma, Gist, Strip, TightenCommas, CollapseSpaces, Written, Tight, SingleSpaced;
    var unified := Unify(address);
    var tight := TightenCommas(unified);
    var collapsed := CollapseSpaces(tight);
    UnifyKeeps(address, true, false);
    TightenKeeps(unified, true, false);
    CollapseKeeps(tight, true, false);
    StripKeepsGist(collapsed);
    LayoutOf(address);
    TidyIsWritten(Strip(collapsed), true);
  }

  lemma LayoutOf(address: string)
    ensures var s := Strip(CollapseSpaces(TightenCommas(Unify(address))));
            Tidy(s) && (s != "" ==> !IsSpace(s[0]) && !IsSpace(s[|s| - 1]))
  {
    var unified := Unify(address);
    assert NoVariantComma(unified);
    hide IsSpace, IsVariantComma, Tight, SingleSpaced, NoVariantComma, TightenCommas, CollapseSpaces, Strip, Unify;
    var tight := TightenCommas(unified);
    TightenedIsTight(unified);
    TightenKeepsNoVariant(unified);
    CollapsedIsSingleSpaced(tight);
    CollapsingKeepsTight(tight);
    CollapseKeepsNoVariant(tight);
    AddressKeys.StripKeeps(CollapseSpaces(tight));
  }

  /** Addresses that say the same have one key; and if the lower-casing tells two written gists apart, only those. */
  lemma SameKeyIff(lower: string -> string, a: string, b: string)
    requires lower(Written(GistOf(a))) == lower(Written(GistOf(b))) ==> Written(GistOf(a)) == Written(GistOf(b))
    ensures CacheKey(lower, a) == CacheKey(lower, b) <==> GistOf(a) == GistOf(b)
  {
    hide GistOf, CacheKey;
    KeyIsWritten(lower, a);
    KeyIsWritten(lower, b);
    WrittenBack(a);
    WrittenBack(b);
  }

  /** The gist can be read off what is written. */
  lemma WrittenBack(address: string)
    ensures GistOf(Written(GistOf(address))) == GistOf(address)
  {
    hide IsSpace, IsVariantComma, Gist, Strip, TightenCommas, CollapseSpaces, Written, Tight, SingleSpaced;
    var unified := Unify(address);
    var tight := TightenCommas(unified);
    var collapsed := CollapseSpaces(tight);
    UnifyKeeps(address, true, false);
    TightenKeeps(unified, true, false);
    CollapseKeeps(tight, true, false);
    StripKeepsGist(collapsed);
    LayoutOf(address);
    TidyIsWritten(Strip(collapsed), true);
  }
}
