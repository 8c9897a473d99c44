/** Searching text for tags: what `re.search` and `re.findall` do on patterns of the shape OPEN(.*?)CLOSE. */
module TagText {
  import opened Wrappers

  /** `t` occurs in `s` at `k`. */
  predicate At(s: string, k: int, t: string) {
    0 <= k && k + |t| <= |s| && forall j :: 0 <= j < |t| ==> s[k + j] == t[j]
  }

  /** `t` does not occur in `s`. */
  ghost predicate Free(s: string, t: string) {
    forall k :: !At(s, k, t)
  }

  /** The first occurrence at or after `from`. */
  function FindFrom(s: string, from: nat, t: string): (r: Option<nat>)
    ensures r.Some? ==> r.value >= from && At(s, r.value, t) && forall j :: from <= j < r.value ==> !At(s, j, t)
    ensures r.None? ==> forall j :: from <= j ==> !At(s, j, t)
    decreases |s| - from
  {
    if from + |t| > |s| then None
    else if At(s, from, t) then Some(from)
    else FindFrom(s, from + 1, t)
  }

  function Find(s: string, t: string): (r: Option<nat>)
    ensures r.Some? ==> r.value + |t| <= |s| && At(s, r.value, t) && forall j :: 0 <= j < r.value ==> !At(s, j, t)
    ensures r.None? <==> Free(s, t)
  {
    FindFrom(s, 0, t)
  }

  // ----- delimiters that cannot overlap -----

  /** Starts with the only `<`, has no `>` but perhaps at the end, and stays on its line. */
  predicate Tag(t: string) {
    && |t| >= 2 && t[0] == '<'
    && (forall i :: 1 <= i < |t| ==> t[i] != '<' && t[i] != '\n')
    && (forall i :: 0 <= i < |t| - 1 ==> t[i] != '>')
  }

  /** No tag can begin in `a` and run on into `c`. */
  predicate Seam(a: string, c: string) {
    a == "" || c == "" || c[0] == '<' || c[0] == '\n' || a[|a| - 1] == '>' || a[|a| - 1] == '\n'
  }

  /** An occurrence in a concatenation lies in one of the parts or runs across the seam. */
  lemma AtParts(a: string, c: string, k: int, t: string)
    requires |t| > 0
    ensures k + |t| <= |a| && At(a + c, k, t) ==> At(a, k, t)
    ensures k >= |a| && At(a + c, k, t) ==> At(c, k - |a|, t)
    ensures k < |a| < k + |t| && At(a + c, k, t) ==> c[0] == t[|a| - k] && a[|a| - 1] == t[|a| - k - 1]
  {
    var s := a + c;
    assert forall i :: 0 <= i < |a| ==> s[i] == a[i];
    assert forall i :: |a| <= i < |s| ==> s[i] == c[i - |a|];
    assert c != "" ==> s[|a|] == c[0];
    assert a != "" ==> s[|a| - 1] == a[|a| - 1];
  }

  /** Tags have no borders, so an occurrence in `a + c` lies in `a` or in `c`. */
  lemma FreeJoin(a: string, c: string, t: string)
    requires Tag(t) && Free(a, t) && Free(c, t) && Seam(a, c)
    ensures Free(a + c, t)
  {
    hide At;
    forall k
      ensures !At(a + c, k, t)
    {
      AtParts(a, c, k, t);
      AtInside(a + c, k, t);
    }
  }

  lemma SplitAt(s: string, i: nat, t: string)
    requires At(s, i, t)
    ensures i + |t| <= |s| && s == s[..i] + t + s[i + |t|..]
  {
  }

  lemma AtStarts(s: string, k: int, t: string)
    requires |t| >= 2
    ensures At(s, k, t) ==> 0 <= k && k + 2 <= |s| && s[k] == t[0] && s[k + 1] == t[1]
  {
  }

  /** An occurrence of a tag in a concatenation lies in one of the parts. */
  lemma AtEither(a: string, c: string, k: int, t: string)
    requires Tag(t) && Seam(a, c) && At(a + c, k, t)
    ensures At(a, k, t) || At(c, k - |a|, t)
  {
    AtParts(a, c, k, t);
  }

  lemma AtInside(s: string, k: int, t: string)
    ensures At(s, k, t) ==> 0 <= k && k + |t| <= |s|
  {
  }

  lemma FreePart(s: string, lo: nat, hi: nat, t: string)
    requires lo <= hi <= |s| && Free(s, t)
    ensures Free(s[lo..hi], t)
  {
    forall k
      ensures At(s[lo..hi], k, t) ==> At(s, lo + k, t)
    {
      assert forall i :: 0 <= i < hi - lo ==> s[lo..hi][i] == s[lo + i];
    }
  }

  /** Text without `<` has no tag. */
  lemma FreePlain(s: string, t: string)
    requires Tag(t) && '<' !in s
    ensures Free(s, t)
  {
    forall k
      ensures At(s, k, t) ==> s[k] == t[0]
    {
    }
  }

  /** A text whose only `<` comes first, and which differs from the tag further on, has no tag. */
  lemma FreeOther(s: string, i: nat, t: string)
    requires Tag(t) && 0 < i < |t| && i < |s| && s[i] != t[i] && '<' !in s[1..]
    ensures Free(s, t)
  {
    forall k
      ensures At(s, k, t) ==> s[k] == t[0] && s[k + i] == t[i]
    {
    }
    assert forall k :: 0 < k < |s| ==> s[k] == s[1..][k - 1];
  }

  lemma FindIs(s: string, k: nat, t: string)
    requires At(s, k, t) && forall j :: 0 <= j < k ==> !At(s, j, t)
    ensures Find(s, t) == Some(k)
  {
    hide At;
    var r := Find(s, t);
    assert r.None? ==> !At(s, k, t);
  }

  lemma AtMiddle(a: string, t: string, c: string)
    ensures At(a + t + c, |a|, t)
    ensures (a + t + c)[..|a|] == a && (a + t + c)[|a| + |t|..] == c
  {
  }

  lemma NoneBefore(a: string, t: string, c: string)
    requires Tag(t) && Free(a, t)
    ensures forall j :: 0 <= j < |a| ==> !At(a + t + c, j, t)
  {
    hide At;
    assert a + t + c == a + (t + c);
    forall j | 0 <= j < |a|
      ensures !At(a + t + c, j, t)
    {
      AtParts(a, t + c, j, t);
    }
  }

  /** The first occurrence of a tag, after text that is free of it. */
  lemma FindAfter(a: string, t: string, c: string)
    requires Tag(t) && Free(a, t)
    ensures Find(a + t + c, t) == Some(|a|)
    ensures (a + t + c)[|a| + |t|..] == c
  {
    hide At, Tag, Free, Find;
    AtMiddle(a, t, c);
    NoneBefore(a, t, c);
    FindIs(a + t + c, |a|, t);
  }

  lemma FindChar(a: string, x: char, c: string)
    requires x !in a
    ensures Find(a + [x] + c, [x]) == Some(|a|)
    ensures (a + [x] + c)[..|a|] == a && (a + [x] + c)[|a| + 1..] == c
  {
    AtMiddle(a, [x], c);
    NotThere(a, x, c);
    hide At, Find;
    FindIs(a + [x] + c, |a|, [x]);
  }

  lemma NotThere(a: string, x: char, c: string)
    requires x !in a
    ensures forall j :: 0 <= j < |a| ==> !At(a + [x] + c, j, [x])
  {
    var s := a + [x] + c;
    forall j | 0 <= j < |a|
      ensures At(s, j, [x]) ==> s[j] == [x][0]
    {
    }
    assert forall j :: 0 <= j < |a| ==> s[j] == a[j];
  }

  // ----- findall -----

  /** The pattern matches at `i` with `k` characters between the tags. */
  predicate MatchesAt(s: string, open: string, close: string, least: nat, i: int, k: int) {
    At(s, i, open) && k >= least && At(s, i + |open| + k, close)
  }

  /** The first match and what follows it: from the first OPEN to the first CLOSE at least `least` characters on. */
  function First(s: string, open: string, close: string, least: nat): (r: Option<(string, string)>)
    requires |open| > 0
    ensures r.Some? ==> |r.value.1| < |s|
  {
    match Find(s, open)
    case None => None
    case Some(i) =>
      var rest := s[i + |open|..];
      if |rest| < least then None
      else
        match Find(rest[least..], close)
        case None => None
        case Some(j) => Some((rest[..least + j], rest[least + j + |close|..]))
  }

  /** All texts between an opening tag and the first closing tag at least `least` characters on, left to right. An
      opening tag without such a closing tag ends the search, as no later one can have any. */
  function FindAll(s: string, open: string, close: string, least: nat): seq<string>
    requires |open| > 0
    decreases |s|
  {
    match First(s, open, close, least)
    case None => []
    case Some((inner, after)) => [inner] + FindAll(after, open, close, least)
  }

  /** `found` is the leftmost match, at `i`, and there the shortest, with what follows; or there is none anywhere. */
  ghost predicate LeftmostMatch(s: string, open: string, close: string, least: nat, found: Option<(string, string)>,
                                i: nat) {
    match found
    case None => forall j, k :: !MatchesAt(s, open, close, least, j, k)
    case Some((inner, after)) =>
      && MatchesAt(s, open, close, least, i, |inner|)
      && i + |open| + |inner| + |close| <= |s|
      && inner == s[i + |open|..i + |open| + |inner|] && after == s[i + |open| + |inner| + |close|..]
      && forall j, k :: MatchesAt(s, open, close, least, j, k) ==> i < j || (i == j && |inner| <= k)
  }

  /** The search finds the leftmost match, and there the shortest. */
  lemma FirstIsLeftmost(s: string, open: string, close: string, least: nat) returns (i: nat)
    requires |open| > 0
    ensures LeftmostMatch(s, open, close, least, First(s, open, close, least), i)
  {
    hide At, MatchesAt, LeftmostMatch, First, Find;
    match Find(s, open)
    case None =>
      i := 0;
      NoMatch(s, open, close, least);
    case Some(first) =>
      i := first;
      MatchesBehind(s, open, close, least, i);
      if i + |open| + least <= |s| {
        MatchAfterOpen(s, open, close, least, i);
      } else {
        TooShort(s, open, close, least, i);
      }
  }

  lemma NoMatch(s: string, open: string, close: string, least: nat)
    requires |open| > 0 && Find(s, open).None?
    ensures LeftmostMatch(s, open, close, least, First(s, open, close, least), 0)
  {
    hide At;
  }

  /** Every match starts at the first opening tag or behind it, and closes at least `least` characters behind that. */
  lemma MatchesBehind(s: string, open: string, close: string, least: nat, i: nat)
    requires |open| > 0 && Find(s, open) == Some(i)
    ensures i + |open| <= |s|
    ensures forall j, k :: MatchesAt(s, open, close, least, j, k) ==>
              && i <= j && i + |open| + least <= |s|
              && At(s[i + |open| + least..], j - i + k - least, close)
  {
    hide At, Find;
    AtInside(s, i, open);
    forall j, k | MatchesAt(s, open, close, least, j, k)
      ensures i <= j && i + |open| + least <= |s| && At(s[i + |open| + least..], j - i + k - least, close)
    {
      AtInside(s, j, open);
      AtInside(s, j + |open| + k, close);
      AtTail(s, i + |open| + least, j + |open| + k, close);
    }
  }

  lemma TooShort(s: string, open: string, close: string, least: nat, i: nat)
    requires |open| > 0 && Find(s, open) == Some(i) && i + |open| <= |s| < i + |open| + least
    requires forall j, k :: !MatchesAt(s, open, close, least, j, k)
    ensures LeftmostMatch(s, open, close, least, First(s, open, close, least), i)
  {
    hide At, MatchesAt, Find;
  }

  lemma MatchAfterOpen(s: string, open: string, close: string, least: nat, i: nat)
    requires |open| > 0 && Find(s, open) == Some(i) && i + |open| + least <= |s|
    requires forall j, k :: MatchesAt(s, open, close, least, j, k) ==>
                              i <= j && At(s[i + |open| + least..], j - i + k - least, close)
    ensures LeftmostMatch(s, open, close, least, First(s, open, close, least), i)
  {
    hide At;
    var rest := s[i + |open|..];
    assert rest[least..] == s[i + |open| + least..];
    match Find(rest[least..], close)
    case None =>
    case Some(m) =>
      FirstIs(s, open, i, rest, close, least, m);
      hide Find, First;
      AtTail(s, i + |open| + least, i + |open| + least + m, close);
      var k := least + m;
      assert MatchesAt(s, open, close, least, i, k);
      assert rest[..k] == s[i + |open|..i + |open| + k];
      assert rest[k + |close|..] == s[i + |open| + k + |close|..];
  }

  /** Where the first closing tag ends a given inner text. */
  lemma CloseAfter(inner: string, close: string, after: string, least: nat)
    requires Tag(close) && Free(inner, close) && least <= |inner|
    ensures var rest := inner + close + after;
            Find(rest[least..], close) == Some(|inner| - least)
    ensures (inner + close + after)[..|inner|] == inner
    ensures (inner + close + after)[|inner| + |close|..] == after
  {
    hide Find, Tag, At;
    FreePart(inner, least, |inner|, close);
    assert inner[least..|inner|] == inner[least..];
    FindAfter(inner[least..], close, after);
    assert (inner + close + after)[least..] == inner[least..] + close + after;
  }

  lemma FindAllNext(before: string, open: string, inner: string, close: string, after: string, least: nat)
    requires Tag(open) && Tag(close) && Free(before, open) && Free(inner, close) && least <= |inner|
    ensures FindAll(before + open + inner + close + after, open, close, least) ==
            [inner] + FindAll(after, open, close, least)
  {
    hide Find, Tag, At, Free, FindAll, First;
    TagSize(open);
    var rest := inner + close + after;
    Regroup(before, open, inner, close, after);
    FindAfter(before, open, rest);
    CloseAfter(inner, close, after, least);
    FirstIs(before + open + rest, open, |before|, rest, close, least, |inner| - least);
    FindAllStep(before + open + rest, open, close, least);
  }

  lemma Regroup(a: string, b: string, c: string, d: string, e: string)
    ensures a + b + c + d + e == a + b + (c + d + e)
  {
  }

  lemma FirstIs(s: string, open: string, i: nat, rest: string, close: string, least: nat, j: nat)
    requires |open| > 0 && Find(s, open) == Some(i) && rest == s[i + |open|..]
    requires least <= |rest| && Find(rest[least..], close) == Some(j)
    ensures First(s, open, close, least) == Some((rest[..least + j], rest[least + j + |close|..]))
  {
  }

  lemma FindAllStep(s: string, open: string, close: string, least: nat)
    requires |open| > 0 && First(s, open, close, least).Some?
    ensures var (inner, after) := First(s, open, close, least).value;
            FindAll(s, open, close, least) == [inner] + FindAll(after, open, close, least)
  {
  }

  lemma TagSize(t: string)
    requires Tag(t)
    ensures |t| >= 2
  {
  }

  lemma FindAllNone(s: string, open: string, close: string, least: nat)
    requires |open| > 0 && Free(s, open)
    ensures FindAll(s, open, close, least) == []
  {
  }

  /** No opening tag with a closing tag anywhere behind it. */
  ghost predicate NoPair(s: string, open: string, close: string) {
    forall i, j :: At(s, i, open) && At(s, j, close) ==> j < i + |open|
  }

  lemma FindAllNothing(s: string, open: string, close: string)
    requires |open| > 0
    ensures FindAll(s, open, close, 0) == [] <==> First(s, open, close, 0).None?
  {
    hide First;
  }

  lemma AtTail(s: string, k: nat, i: int, t: string)
    requires k <= |s|
    ensures i >= k ==> (At(s, i, t) <==> At(s[k..], i - k, t))
    ensures At(s[k..], i - k, t) ==> i >= k
  {
  }

  /** Nothing is found exactly when there is no pair. */
  lemma NothingFound(s: string, open: string, close: string)
    requires |open| > 0
    ensures FindAll(s, open, close, 0) == [] <==> NoPair(s, open, close)
  {
    hide At, FindAll, Find, First, NoPair;
    FindAllNothing(s, open, close);
    FirstUnfolds(s, open, close);
    match Find(s, open)
    case None =>
      NothingOpened(s, open, close);
    case Some(i) =>
      var rest := s[i + |open|..];
      match Find(rest, close)
      case None => NothingClosed(s, open, close, i);
      case Some(j) => PairThere(s, open, close, i, j);
  }

  lemma FirstUnfolds(s: string, open: string, close: string)
    requires |open| > 0
    ensures First(s, open, close, 0).None? <==>
            Find(s, open).None? || Find(s[Find(s, open).value + |open|..], close).None?
  {
    hide Find;
    if Find(s, open).Some? {
      var rest := s[Find(s, open).value + |open|..];
      assert rest[0..] == rest;
    }
  }

  lemma NothingOpened(s: string, open: string, close: string)
    requires Free(s, open)
    ensures NoPair(s, open, close)
  {
    hide At;
  }

  lemma NothingClosed(s: string, open: string, close: string, i: nat)
    requires i + |open| <= |s| && Free(s[i + |open|..], close) && forall k :: 0 <= k < i ==> !At(s, k, open)
    ensures NoPair(s, open, close)
  {
    hide At;
    forall k, j | At(s, k, open) && At(s, j, close)
      ensures j < k + |open|
    {
      AtInside(s, k, open);
      AtTail(s, i + |open|, j, close);
    }
  }

  lemma PairThere(s: string, open: string, close: string, i: nat, j: nat)
    requires i + |open| <= |s| && At(s, i, open) && At(s[i + |open|..], j, close)
    ensures !NoPair(s, open, close)
  {
    hide At;
    AtTail(s, i + |open|, i + |open| + j, close);
  }

  /** Around a text, harmless pieces add no occurrence of a tag. */
  lemma OnlyInside(a: string, v: string, c: string, k: int, t: string)
    requires Tag(t) && Free(a, t) && Free(c, t) && Seam(a, v) && Seam(a + v, c)
    ensures At(a + v + c, k, t) <==> At(v, k - |a|, t)
  {
    if At(a + v + c, k, t) {
      hide At;
      AtEither(a + v, c, k, t);
      AtEither(a, v, k, t);
    }
  }

  lemma NoPairInside(a: string, v: string, c: string, open: string, close: string)
    requires Tag(open) && Tag(close) && Seam(a, v) && Seam(a + v, c)
    requires Free(a, open) && Free(a, close) && Free(c, open) && Free(c, close)
    ensures NoPair(a + v + c, open, close) <==> NoPair(v, open, close)
  {
    hide At, Tag, Free, Seam;
    forall k
      ensures At(a + v + c, k, open) <==> At(v, k - |a|, open)
      ensures At(a + v + c, k, close) <==> At(v, k - |a|, close)
    {
      OnlyInside(a, v, c, k, open);
      OnlyInside(a, v, c, k, close);
    }
    if !NoPair(v, open, close) {
      var i, j :| At(v, i, open) && At(v, j, close) && j >= i + |open|;
      assert At(a + v + c, i + |a|, open) && At(a + v + c, j + |a|, close);
    }
  }

  /** The pieces between tags, joined. */
  function Blocks(inners: seq<string>, open: string, close: string, sep: string): string {
    if inners == [] then ""
    else open + inners[0] + close + if |inners| == 1 then "" else sep + Blocks(inners[1..], open, close, sep)
  }

  /** Printed blocks are found again, in order, whatever harmless text surrounds them. */
  lemma {:induction false} BlocksFound(before: string, inners: seq<string>, after: string,
                                       open: string, close: string, sep: string, least: nat)
    requires Tag(open) && Tag(close) && Free(before, open) && Free(sep, open) && Free(after, open)
    requires forall k :: 0 <= k < |inners| ==> Free(inners[k], close) && least <= |inners[k]|
    ensures FindAll(before + Blocks(inners, open, close, sep) + after, open, close, least) == inners ||
            inners == []
    decreases |inners|
  {
    hide FindAll, Find, Tag, Free;
    if inners != [] {
      var rest := Blocks(inners[1..], open, close, sep);
      var tail := if |inners| == 1 then after else sep + rest + after;
      assert before + Blocks(inners, open, close, sep) + after == before + open + inners[0] + close + tail;
      TagSize(open);
      FindAllNext(before, open, inners[0], close, tail, least);
      if |inners| == 1 {
        FindAllNone(after, open, close, least);
        assert inners == [inners[0]] + [];
      } else {
        BlocksFound(sep, inners[1..], after, open, close, sep, least);
        assert inners == [inners[0]] + inners[1..];
      }
    }
  }

  lemma FirstIsFree(s: string, open: string, close: string, least: nat)
    requires |open| > 0 && |close| > 0
    ensures var m := First(s, open, close, least); m.Some? ==> least <= |m.value.0| && Free(m.value.0[least..], close)
  {
    hide Free, At;
    var i := Find(s, open);
    if i.Some? {
      var rest := s[i.value + |open|..];
      if |rest| >= least {
        var j := Find(rest[least..], close);
        if j.Some? {
          FreeBeforeFirst(rest[least..], j.value, close);
          assert rest[..least + j.value][least..] == rest[least..][..j.value];
        }
      }
    }
  }

  /** What is found never contains the closing tag, but perhaps over the first `least` characters. */
  lemma {:induction false} FoundIsFree(s: string, open: string, close: string, least: nat, r: string)
    requires |open| > 0 && |close| > 0 && r in FindAll(s, open, close, least)
    ensures least <= |r| && Free(r[least..], close)
    decreases |s|
  {
    hide Free, At, First;
    FirstIsFree(s, open, close, least);
    var (inner, after) := First(s, open, close, least).value;
    if r != inner {
      FoundIsFree(after, open, close, least, r);
    }
  }

  /** What is found is a part of the text. */
  lemma {:induction false} FoundIsPart(s: string, open: string, close: string, least: nat, r: string)
    requires |open| > 0 && r in FindAll(s, open, close, least)
    ensures exists lo, hi :: 0 <= lo <= hi <= |s| && r == s[lo..hi]
    decreases |s|
  {
    hide Free, At, First;
    FirstIsPart(s, open, close, least);
    var (inner, after) := First(s, open, close, least).value;
    if r != inner {
      FoundIsPart(after, open, close, least, r);
      var lo, hi :| 0 <= lo <= hi <= |after| && r == after[lo..hi];
      var k :| 0 <= k <= |s| && after == s[k..];
      PartOfTail(s, k, lo, hi);
      assert r == s[k + lo..k + hi] && 0 <= k + lo <= k + hi <= |s|;
    }
  }

  lemma PartOfTail(s: string, k: nat, lo: nat, hi: nat)
    requires k <= |s| && lo <= hi <= |s| - k
    ensures s[k..][lo..hi] == s[k + lo..k + hi]
  {
  }

  lemma FirstIsPart(s: string, open: string, close: string, least: nat)
    requires |open| > 0
    ensures var m := First(s, open, close, least);
            m.Some? ==> (exists lo, hi :: 0 <= lo <= hi <= |s| && m.value.0 == s[lo..hi]) &&
                        (exists k :: 0 <= k <= |s| && m.value.1 == s[k..])
  {
    hide Free, At;
    var i := Find(s, open);
    if i.Some? {
      var start := i.value + |open|;
      var rest := s[start..];
      if |rest| >= least {
        var j := Find(rest[least..], close);
        if j.Some? {
          assert rest[..least + j.value] == s[start..start + least + j.value];
          assert rest[least + j.value + |close|..] == s[start + least + j.value + |close|..];
        }
      }
    }
  }

  lemma FreeBeforeFirst(s: string, j: nat, t: string)
    requires j <= |s| && |t| > 0 && forall i :: 0 <= i < j ==> !At(s, i, t)
    ensures Free(s[..j], t)
  {
    forall k
      ensures At(s[..j], k, t) ==> At(s, k, t)
    {
    }
  }
}
