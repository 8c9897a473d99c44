/** Tool calls and the parsing steps the templates share. */
module ToolCalls {
  import opened Wrappers
  import opened Whitespace
  import opened TagText

  datatype Arg = Arg(key: string, value: string)

  /** Arguments in the order in which the dictionary lists them, with their values already rendered as text. */
  datatype Call = Call(name: string, args: seq<Arg>)

  // ----- dictionaries -----

  /** A key that is already there keeps its place and gets the new value. */
  function Insert(dict: seq<Arg>, a: Arg): seq<Arg> {
    if dict == [] then [a]
    else if dict[0].key == a.key then [a] + dict[1..]
    else [dict[0]] + Insert(dict[1..], a)
  }

  function InsertAll(dict: seq<Arg>, pairs: seq<Arg>): seq<Arg>
    decreases |pairs|
  {
    if pairs == [] then dict else InsertAll(Insert(dict, pairs[0]), pairs[1..])
  }

  function ToDict(pairs: seq<Arg>): seq<Arg> {
    InsertAll([], pairs)
  }

  ghost predicate DistinctKeys(args: seq<Arg>) {
    forall i, j :: 0 <= i < j < |args| ==> args[i].key != args[j].key
  }

  lemma {:induction false} InsertNew(dict: seq<Arg>, a: Arg)
    requires forall i :: 0 <= i < |dict| ==> dict[i].key != a.key
    ensures Insert(dict, a) == dict + [a]
  {
    if dict != [] {
      InsertNew(dict[1..], a);
    }
  }

  lemma {:induction false} InsertAllNew(dict: seq<Arg>, pairs: seq<Arg>)
    requires DistinctKeys(dict + pairs)
    ensures InsertAll(dict, pairs) == dict + pairs
    decreases |pairs|
  {
    if pairs != [] {
      var all := dict + pairs;
      forall i | 0 <= i < |dict|
        ensures dict[i].key != pairs[0].key
      {
        assert all[i] == dict[i] && all[|dict|] == pairs[0];
      }
      InsertNew(dict, pairs[0]);
      assert dict + [pairs[0]] + pairs[1..] == all;
      InsertAllNew(dict + [pairs[0]], pairs[1..]);
    } else {
      assert dict + pairs == dict;
    }
  }

  lemma DistinctIsDict(pairs: seq<Arg>)
    requires DistinctKeys(pairs)
    ensures ToDict(pairs) == pairs
  {
    assert [] + pairs == pairs;
    InsertAllNew([], pairs);
  }

  lemma {:induction false} InsertMember(dict: seq<Arg>, a: Arg, x: Arg)
    requires x in Insert(dict, a)
    ensures x == a || x in dict
  {
    if dict != [] && dict[0].key != a.key && x != dict[0] {
      InsertMember(dict[1..], a, x);
    }
  }

  /** The value under a key. */
  function Lookup(dict: seq<Arg>, key: string): Option<string> {
    if dict == [] then None else if dict[0].key == key then Some(dict[0].value) else Lookup(dict[1..], key)
  }

  /** The value of the last pair with a key. */
  function LastValue(pairs: seq<Arg>, key: string): Option<string> {
    if pairs == [] then None
    else if pairs[|pairs| - 1].key == key then Some(pairs[|pairs| - 1].value)
    else LastValue(pairs[..|pairs| - 1], key)
  }

  lemma {:induction false} LookupInsert(dict: seq<Arg>, a: Arg, key: string)
    ensures Lookup(Insert(dict, a), key) == if key == a.key then Some(a.value) else Lookup(dict, key)
  {
    if dict != [] && dict[0].key != a.key {
      LookupInsert(dict[1..], a, key);
    }
  }

  lemma {:induction false} InsertAllSnoc(dict: seq<Arg>, pairs: seq<Arg>, a: Arg)
    ensures InsertAll(dict, pairs + [a]) == Insert(InsertAll(dict, pairs), a)
    decreases |pairs|
  {
    if pairs == [] {
      assert pairs + [a] == [a] && [a][1..] == [];
    } else {
      assert (pairs + [a])[1..] == pairs[1..] + [a] && (pairs + [a])[0] == pairs[0];
      InsertAllSnoc(Insert(dict, pairs[0]), pairs[1..], a);
    }
  }

  /** The dictionary of the pairs: a key has the value of the last pair with it. */
  lemma {:induction false} DictHasLast(pairs: seq<Arg>, key: string)
    ensures Lookup(ToDict(pairs), key) == LastValue(pairs, key)
    decreases |pairs|
  {
    hide Insert, InsertAll, Lookup;
    if pairs == [] {
      NoPairs(key);
    } else {
      var n := |pairs| - 1;
      DictHasLast(pairs[..n], key);
      InsertAllSnoc([], pairs[..n], pairs[n]);
      assert pairs == pairs[..n] + [pairs[n]];
      LookupInsert(ToDict(pairs[..n]), pairs[n], key);
    }
  }

  lemma NoPairs(key: string)
    ensures Lookup(ToDict([]), key) == None
  {
  }

  lemma {:induction false} InsertKeepsDistinct(dict: seq<Arg>, a: Arg)
    requires DistinctKeys(dict)
    ensures DistinctKeys(Insert(dict, a))
    ensures |Insert(dict, a)| >= |dict| && forall i :: 0 <= i < |dict| ==> Insert(dict, a)[i].key == dict[i].key
    ensures |Insert(dict, a)| == |dict| || (|Insert(dict, a)| == |dict| + 1 && Insert(dict, a)[|dict|] == a)
  {
    if dict != [] && dict[0].key != a.key {
      InsertKeepsDistinct(dict[1..], a);
      InsertMembersKeys(dict[1..], a, dict[0].key);
    }
  }

  lemma {:induction false} InsertMembersKeys(dict: seq<Arg>, a: Arg, key: string)
    requires key != a.key && forall i :: 0 <= i < |dict| ==> dict[i].key != key
    ensures forall i :: 0 <= i < |Insert(dict, a)| ==> Insert(dict, a)[i].key != key
  {
    if dict != [] && dict[0].key != a.key {
      InsertMembersKeys(dict[1..], a, key);
    }
  }

  /** ... every key once, in the order in which the keys first occur: what is added later does not move them. */
  lemma {:induction false} DictKeepsOrder(pairs: seq<Arg>)
    ensures DistinctKeys(ToDict(pairs))
    ensures pairs != [] ==>
              var front := ToDict(pairs[..|pairs| - 1]);
              && |front| <= |ToDict(pairs)| <= |front| + 1
              && (forall i :: 0 <= i < |front| ==> ToDict(pairs)[i].key == front[i].key)
              && (|ToDict(pairs)| == |front| + 1 ==> ToDict(pairs)[|front|] == pairs[|pairs| - 1])
    decreases |pairs|
  {
    hide Insert;
    if pairs != [] {
      var n := |pairs| - 1;
      DictKeepsOrder(pairs[..n]);
      InsertAllSnoc([], pairs[..n], pairs[n]);
      assert pairs == pairs[..n] + [pairs[n]];
      InsertKeepsDistinct(ToDict(pairs[..n]), pairs[n]);
    }
  }

  /** Every entry of the dictionary is one of the pairs. */
  lemma {:induction false} InsertAllMember(dict: seq<Arg>, pairs: seq<Arg>, x: Arg)
    requires x in InsertAll(dict, pairs)
    ensures x in dict || x in pairs
    decreases |pairs|
  {
    if pairs != [] {
      InsertAllMember(Insert(dict, pairs[0]), pairs[1..], x);
      if x in Insert(dict, pairs[0]) {
        InsertMember(dict, pairs[0], x);
      }
    }
  }

  /** A new entry goes last; an entry that is there already makes the dictionary no longer. */
  lemma {:induction false} InsertGrows(dict: seq<Arg>, a: Arg)
    ensures Insert(dict, a) == dict + [a] || |Insert(dict, a)| == |dict|
  {
    if dict != [] && dict[0].key != a.key {
      InsertGrows(dict[1..], a);
    }
  }

  lemma {:induction false} InsertAllGrows(dict: seq<Arg>, pairs: seq<Arg>)
    ensures |InsertAll(dict, pairs)| <= |dict| + |pairs|
    ensures |InsertAll(dict, pairs)| == |dict| + |pairs| ==> InsertAll(dict, pairs) == dict + pairs
    decreases |pairs|
  {
    hide Insert;
    if pairs != [] {
      InsertGrows(dict, pairs[0]);
      InsertAllGrows(Insert(dict, pairs[0]), pairs[1..]);
      assert dict + [pairs[0]] + pairs[1..] == dict + pairs;
    } else {
      assert dict + pairs == dict;
    }
  }

  /** A dictionary with as many entries as pairs has exactly the pairs. */
  lemma FullDict(pairs: seq<Arg>)
    requires |ToDict(pairs)| == |pairs|
    ensures ToDict(pairs) == pairs
  {
    InsertAllGrows([], pairs);
    assert [] + pairs == pairs;
  }

  // ----- stripping -----

  lemma StripIsFree(s: string, t: string)
    ensures Free(s, t) ==> Free(Strip(s), t)
  {
    hide Free, Strip;
    if Free(s, t) {
      StripIsStripped(s);
      var a, b :| 0 <= a <= b <= |s| && Strip(s) == s[a..b];
      FreePart(s, a, b, t);
    }
  }

  // ----- one call per group -----

  /** The calls read from the groups; a group that is not a call is skipped. */
  function Each(groups: seq<string>, one: string -> Option<Call>): seq<Call> {
    if groups == [] then []
    else
      match one(groups[0])
      case None => Each(groups[1..], one)
      case Some(call) => [call] + Each(groups[1..], one)
  }

  lemma {:induction false} EachBack(groups: seq<string>, one: string -> Option<Call>, calls: seq<Call>)
    requires |groups| == |calls| && forall i :: 0 <= i < |calls| ==> one(groups[i]) == Some(calls[i])
    ensures Each(groups, one) == calls
  {
    if calls != [] {
      EachBack(groups[1..], one, calls[1..]);
    }
  }

  lemma {:induction false} EachAppend(a: seq<string>, b: seq<string>, one: string -> Option<Call>)
    ensures Each(a + b, one) == Each(a, one) + Each(b, one)
  {
    if a == [] {
      assert a + b == b;
    } else {
      assert (a + b)[1..] == a[1..] + b && (a + b)[0] == a[0];
      EachAppend(a[1..], b, one);
    }
  }

  /** The places of the first `n` groups that are calls. */
  function CallPlaces(groups: seq<string>, one: string -> Option<Call>, n: nat): set<nat>
    requires n <= |groups|
  {
    set i: nat | i < n && one(groups[i]).Some?
  }

  /** The calls are those of the groups that are one, each at the place given by the number of calls before it, and no
      others. */
  ghost predicate ReadInOrder(groups: seq<string>, one: string -> Option<Call>, calls: seq<Call>) {
    && |calls| == |CallPlaces(groups, one, |groups|)|
    && forall i: nat :: i < |groups| && one(groups[i]).Some? ==>
                          var k := |CallPlaces(groups, one, i)|;
                          k < |calls| && calls[k] == one(groups[i]).value
  }

  lemma {:induction false} EachInOrder(groups: seq<string>, one: string -> Option<Call>)
    ensures ReadInOrder(groups, one, Each(groups, one))
    decreases |groups|
  {
    hide Each, ReadInOrder, CallPlaces;
    if groups == [] {
      NothingRead(one);
    } else {
      var n := |groups| - 1;
      assert groups == groups[..n] + [groups[n]];
      EachInOrder(groups[..n], one);
      EachAppend(groups[..n], [groups[n]], one);
      OneGroup(groups[n], one);
      OneReadMore(groups, one, Each(groups[..n], one));
    }
  }

  lemma OneReadMore(groups: seq<string>, one: string -> Option<Call>, calls: seq<Call>)
    requires groups != [] && ReadInOrder(groups[..|groups| - 1], one, calls)
    ensures var last := one(groups[|groups| - 1]);
            ReadInOrder(groups, one, calls + if last.Some? then [last.value] else [])
  {
    var n := |groups| - 1;
    LastPlace(groups, one);
    forall i: nat | i <= n
      ensures CallPlaces(groups, one, i) == CallPlaces(groups[..n], one, i)
    {
      forall k: nat | k < i
        ensures groups[..n][k] == groups[k]
      {
      }
    }
    hide CallPlaces;
    var last := one(groups[n]);
    var all := calls + if last.Some? then [last.value] else [];
    forall i: nat | i < |groups| && one(groups[i]).Some?
      ensures var k := |CallPlaces(groups, one, i)|; k < |all| && all[k] == one(groups[i]).value
    {
      if i < n {
        assert groups[..n][i] == groups[i];
      }
    }
  }

  lemma NothingRead(one: string -> Option<Call>)
    ensures Each([], one) == [] && ReadInOrder([], one, [])
  {
    assert CallPlaces([], one, 0) == {};
  }

  lemma OneGroup(group: string, one: string -> Option<Call>)
    ensures Each([group], one) == match one(group) case None => [] case Some(call) => [call]
  {
    assert [group][1..] == [];
  }

  lemma LastPlace(groups: seq<string>, one: string -> Option<Call>)
    requires groups != []
    ensures var n := |groups| - 1;
            |CallPlaces(groups, one, |groups|)| ==
            |CallPlaces(groups, one, n)| + if one(groups[n]).Some? then 1 else 0
  {
    var n := |groups| - 1;
    assert CallPlaces(groups, one, |groups|) ==
           CallPlaces(groups, one, n) + if one(groups[n]).Some? then {n} else {};
  }

  /** A group that is no call changes nothing, wherever it stands; and nothing is read exactly when no group is one. */
  lemma EachSkips(a: seq<string>, group: string, b: seq<string>, one: string -> Option<Call>)
    requires one(group).None?
    ensures Each(a + [group] + b, one) == Each(a + b, one)
  {
    hide Each;
    EachAppend(a + [group], b, one);
    EachAppend(a, [group], one);
    EachAppend(a, b, one);
    OneGroup(group, one);
    assert Each(a, one) + [] == Each(a, one);
  }

  lemma {:induction false} EachNothing(groups: seq<string>, one: string -> Option<Call>)
    ensures Each(groups, one) == [] <==> forall i :: 0 <= i < |groups| ==> one(groups[i]).None?
  {
    if groups != [] {
      EachNothing(groups[1..], one);
      assert forall i :: 0 < i < |groups| ==> groups[i] == groups[1..][i - 1];
      if forall i :: 0 <= i < |groups| ==> one(groups[i]).None? {
        assert one(groups[0]).None?;
      }
    }
  }

  /** As many calls as groups: every group is a call. */
  lemma {:induction false} EachWhole(groups: seq<string>, one: string -> Option<Call>)
    ensures |Each(groups, one)| <= |groups|
    ensures |Each(groups, one)| == |groups| ==>
              forall i :: 0 <= i < |groups| ==> one(groups[i]) == Some(Each(groups, one)[i])
  {
    if groups != [] {
      EachWhole(groups[1..], one);
    }
  }

  lemma {:induction false} EachMember(groups: seq<string>, one: string -> Option<Call>, call: Call)
    requires call in Each(groups, one)
    ensures exists g :: g in groups && one(g) == Some(call)
  {
    if one(groups[0]) == Some(call) {
      assert groups[0] in groups;
    } else {
      EachMember(groups[1..], one, call);
      var g :| g in groups[1..] && one(g) == Some(call);
      assert g in groups;
    }
  }

  /** A block that is no call, before, between or after blocks that are, changes nothing in what is read. */
  lemma NoiseSkipped(before: string, inners: seq<string>, calls: seq<Call>, noise: string, k: nat, after: string,
                     open: string, close: string, sep: string, least: nat, one: string -> Option<Call>)
    requires Tag(open) && Tag(close) && Free(before, open) && Free(sep, open) && Free(after, open)
    requires forall i :: 0 <= i < |inners| ==> Free(inners[i], close) && least <= |inners[i]|
    requires Free(noise, close) && least <= |noise| && one(noise).None? && k <= |inners|
    requires |calls| == |inners| && forall i :: 0 <= i < |calls| ==> one(inners[i]) == Some(calls[i])
    ensures |open| > 0
    ensures var blocks := inners[..k] + [noise] + inners[k..];
            && FindAll(before + Blocks(blocks, open, close, sep) + after, open, close, least) == blocks
            && Each(blocks, one) == calls
  {
    TagSize(open);
    hide Tag, Free, FindAll, Blocks, Each;
    var blocks := inners[..k] + [noise] + inners[k..];
    WithNoise(inners, noise, k, close, least);
    BlocksFound(before, blocks, after, open, close, sep, least);
    EachSkips(inners[..k], noise, inners[k..], one);
    EachBack(inners, one, calls);
  }

  lemma WithNoise(inners: seq<string>, noise: string, k: nat, close: string, least: nat)
    requires forall i :: 0 <= i < |inners| ==> Free(inners[i], close) && least <= |inners[i]|
    requires Free(noise, close) && least <= |noise| && k <= |inners|
    ensures var blocks := inners[..k] + [noise] + inners[k..];
            && blocks != [] && inners[..k] + inners[k..] == inners
            && forall i :: 0 <= i < |blocks| ==> Free(blocks[i], close) && least <= |blocks[i]|
  {
    hide Free;
    var blocks := inners[..k] + [noise] + inners[k..];
    forall i | 0 <= i < |blocks|
      ensures Free(blocks[i], close) && least <= |blocks[i]|
    {
      assert blocks[i] == if i < k then inners[i] else if i == k then noise else inners[i - 1];
    }
  }

  method CollectCalls(groups: seq<string>, one: string -> Option<Call>) returns (functions: seq<Call>)
    ensures functions == Each(groups, one) && ReadInOrder(groups, one, functions)
  {
    EachInOrder(groups, one);
    hide CallPlaces, ReadInOrder;
    functions := [];
    for i := 0 to |groups|
      invariant functions + Each(groups[i..], one) == Each(groups, one)
    {
      assert groups[i..][0] == groups[i] && groups[i..][1..] == groups[i + 1..];
      var call := one(groups[i]);
      if call.Some? {
        assert functions + ([call.value] + Each(groups[i + 1..], one)) ==
               functions + [call.value] + Each(groups[i + 1..], one);
        functions := functions + [call.value];
      }
    }
    assert functions + [] == functions;
  }

  // ----- join -----

  /** The parts in order with the separator between them. */
  function Join(parts: seq<string>, sep: string): string {
    if parts == [] then ""
    else if |parts| == 1 then parts[0]
    else parts[0] + sep + Join(parts[1..], sep)
  }

  /** Every part followed by the separator. */
  function Lines(parts: seq<string>, sep: string): string {
    if parts == [] then "" else parts[0] + sep + Lines(parts[1..], sep)
  }

  lemma {:induction false} JoinLines(parts: seq<string>, sep: string)
    requires parts != []
    ensures Join(parts, sep) + sep == Lines(parts, sep)
  {
    if |parts| > 1 {
      JoinLines(parts[1..], sep);
      assert Join(parts, sep) + sep == parts[0] + sep + (Join(parts[1..], sep) + sep);
    } else {
      assert Lines(parts[1..], sep) == "";
      assert parts[0] + sep + "" == parts[0] + sep;
    }
  }

  lemma {:induction false} LinesAppend(a: seq<string>, b: seq<string>, sep: string)
    ensures Lines(a + b, sep) == Lines(a, sep) + Lines(b, sep)
  {
    if a == [] {
      assert a + b == b;
      assert "" + Lines(b, sep) == Lines(b, sep);
    } else {
      assert (a + b)[1..] == a[1..] + b && (a + b)[0] == a[0];
      LinesAppend(a[1..], b, sep);
      assert a[0] + sep + (Lines(a[1..], sep) + Lines(b, sep)) == a[0] + sep + Lines(a[1..], sep) + Lines(b, sep);
    }
  }

  lemma LinesSnoc(parts: seq<string>, part: string, sep: string)
    ensures Lines(parts + [part], sep) == Lines(parts, sep) + part + sep
  {
    LinesAppend(parts, [part], sep);
    assert Lines([part], sep) == part + sep + "";
    assert Lines(parts, sep) + (part + sep) == Lines(parts, sep) + part + sep;
  }

  // ----- `OPEN name>` -----

  /** The name after the first opening tag that is followed by one. */
  function FirstName(s: string, open: string): Option<string>
    requires |open| > 0
    decreases |s|
  {
    match Find(s, open)
    case None => None
    case Some(i) =>
      var rest := s[i + |open|..];
      match Find(rest, ">")
      case None => None
      case Some(p) => if p == 0 then FirstName(s[i + 1..], open) else Some(rest[..p])
  }

  /** A name, not empty and without a bracket, stands between the tag at `i` and its bracket at `e`. */
  predicate NamedAt(s: string, open: string, i: int, e: int) {
    && At(s, i, open) && i + |open| < e < |s| && s[e] == '>'
    && forall j :: i + |open| <= j < e ==> s[j] != '>'
  }

  lemma AtBracket(s: string, k: nat)
    requires k <= |s|
    ensures match Find(s[k..], ">")
            case None => forall j :: k <= j < |s| ==> s[j] != '>'
            case Some(p) => k + p < |s| && s[k + p] == '>' && forall j :: k <= j < k + p ==> s[j] != '>'
  {
    var rest := s[k..];
    forall j | k <= j < |s|
      ensures At(rest, j - k, ">") <==> s[j] == '>'
    {
      assert rest[j - k] == s[j];
      assert ">"[0] == '>';
    }
  }

  /** Behind a place, the named tags are those of the rest of the text. */
  lemma NamedTail(s: string, open: string, k: nat, i: int, e: int)
    requires k <= |s| && i >= k
    ensures NamedAt(s, open, i, e) <==> NamedAt(s[k..], open, i - k, e - k)
  {
    AtTail(s, k, i, open);
    hide At;
    var rest := s[k..];
    assert forall j :: k <= j < |s| ==> rest[j - k] == s[j];
    assert forall j :: 0 <= j < |rest| ==> rest[j] == s[j + k];
  }

  /** No named tag stands left of the first tag; and one there ends at the first bracket. */
  lemma NamedFrom(s: string, open: string, i: nat, j: int, e: int)
    requires |open| > 0 && Find(s, open) == Some(i) && NamedAt(s, open, j, e)
    ensures i <= j && i + |open| < e < |s| && s[e] == '>'
    ensures j == i ==> forall k :: i + |open| <= k < e ==> s[k] != '>'
  {
    hide At;
    AtInside(s, j, open);
  }

  /** `found` is the name of the leftmost named tag, which stands at `i`; or there is none anywhere. */
  ghost predicate LeftmostName(s: string, open: string, found: Option<string>, i: nat) {
    match found
    case None => forall j, e :: !NamedAt(s, open, j, e)
    case Some(name) =>
      var e := i + |open| + |name|;
      && NamedAt(s, open, i, e) && name == s[i + |open|..e]
      && forall j, f :: NamedAt(s, open, j, f) ==> i <= j
  }

  /** The search for a name finds the leftmost one. */
  lemma {:induction false} FirstNameIsLeftmost(s: string, open: string) returns (i: nat)
    requires |open| > 0
    ensures LeftmostName(s, open, FirstName(s, open), i)
    decreases |s|
  {
    hide At, NamedAt;
    i := 0;
    match Find(s, open)
    case None =>
      NothingNamed(s, open);
    case Some(first) =>
      var lo := first + |open|;
      AtBracket(s, lo);
      match Find(s[lo..], ">")
      case None =>
        hide Find;
        forall j, e
          ensures !NamedAt(s, open, j, e)
        {
          if NamedAt(s, open, j, e) {
            NamedFrom(s, open, first, j, e);
          }
        }
      case Some(p) =>
        FirstNameStep(s, open, first, p);
        hide Find, FirstName, LeftmostName;
        if p > 0 {
          i := first;
          NameHere(s, open, first, p);
        } else {
          var k := FirstNameIsLeftmost(s[first + 1..], open);
          i := first + 1 + k;
          NameMoves(s, s[first + 1..], open, FirstName(s[first + 1..], open), first, k);
        }
  }

  lemma NothingNamed(s: string, open: string)
    requires Free(s, open)
    ensures forall j, e :: !NamedAt(s, open, j, e)
  {
    hide At;
  }

  lemma FirstNameStep(s: string, open: string, first: nat, p: nat)
    requires |open| > 0 && Find(s, open) == Some(first) && Find(s[first + |open|..], ">") == Some(p)
    ensures FirstName(s, open) ==
            if p == 0 then FirstName(s[first + 1..], open) else Some(s[first + |open|..][..p])
  {
    hide Find;
  }

  lemma NameHere(s: string, open: string, first: nat, p: nat)
    requires |open| > 0 && p > 0 && Find(s, open) == Some(first) && first + |open| + p < |s|
    requires s[first + |open| + p] == '>'
    requires forall j :: first + |open| <= j < first + |open| + p ==> s[j] != '>'
    ensures LeftmostName(s, open, Some(s[first + |open|..][..p]), first)
  {
    var lo := first + |open|;
    assert s[lo..][..p] == s[lo..lo + p];
    forall j, e | NamedAt(s, open, j, e)
      ensures first <= j
    {
      NamedFrom(s, open, first, j, e);
    }
    assert At(s, first, open);
    hide At, Find;
    assert NamedAt(s, open, first, lo + p);
  }

  /** A tag whose bracket follows at once is passed over. */
  lemma NameMoves(s: string, rest: string, open: string, found: Option<string>, first: nat, k: nat)
    requires |open| > 0 && Find(s, open) == Some(first) && first + |open| < |s| && s[first + |open|] == '>'
    requires rest == s[first + 1..] && LeftmostName(rest, open, found, k)
    ensures LeftmostName(s, open, found, first + 1 + k)
  {
    NamesShift(s, rest, open, first);
    hide NamedAt, Find;
    if found.Some? {
      NameCopied(s, rest, open, first + 1, k, k + |open| + |found.value|);
    }
  }

  lemma NamesShift(s: string, rest: string, open: string, first: nat)
    requires |open| > 0 && Find(s, open) == Some(first) && first + |open| < |s| && s[first + |open|] == '>'
    requires rest == s[first + 1..]
    ensures forall j, e :: NamedAt(s, open, j, e) ==> j > first && NamedAt(rest, open, j - first - 1, e - first - 1)
  {
    forall j, e | NamedAt(s, open, j, e)
      ensures j > first && NamedAt(rest, open, j - first - 1, e - first - 1)
    {
      NamedFrom(s, open, first, j, e);
      NamedTail(s, open, first + 1, j, e);
    }
  }

  /** A name in the rest of a text is one of the text. */
  lemma NameCopied(s: string, rest: string, open: string, d: nat, k: nat, e: nat)
    requires d <= |s| && rest == s[d..] && NamedAt(rest, open, k, e)
    ensures NamedAt(s, open, d + k, d + e)
    ensures k + |open| < e < |rest| && rest[k + |open|..e] == s[d + k + |open|..d + e]
  {
    NamedTail(s, open, d, d + k, d + e);
    hide NamedAt;
    NamedEnds(rest, open, k, e);
    PartOfTail(s, d, k + |open|, e);
  }

  /** The value of a parameter, and what follows its closing tag. */
  function UpToClose(key: string, text: string, close: string): (r: Option<(Arg, string)>)
    ensures r.Some? ==> |r.value.1| <= |text|
  {
    match Find(text, close)
    case None => None
    case Some(j) => Some((Arg(key, text[..j]), text[j + |close|..]))
  }

  /** The first named element with its value, up to the first closing tag, and what follows it. */
  function FirstParam(s: string, open: string, close: string): (r: Option<(Arg, string)>)
    requires |open| > 0
    ensures r.Some? ==> |r.value.1| < |s|
    decreases |s|
  {
    match Find(s, open)
    case None => None
    case Some(i) =>
      var rest := s[i + |open|..];
      match Find(rest, ">")
      case None => None
      case Some(p) =>
        if p == 0 then FirstParam(s[i + 1..], open, close) else UpToClose(rest[..p], rest[p + 1..], close)
  }

  /** `re.findall` of the same pattern. */
  function Params(s: string, open: string, close: string): seq<Arg>
    requires |open| > 0
    decreases |s|
  {
    match FirstParam(s, open, close)
    case None => []
    case Some((arg, after)) => [arg] + Params(after, open, close)
  }

  /** A named tag at `i` with its bracket at `e`, and a closing tag at `m` behind it. */
  predicate ParamAt(s: string, open: string, close: string, i: int, e: int, m: int) {
    NamedAt(s, open, i, e) && e < m && At(s, m, close)
  }

  /** `found` is the leftmost parameter, which starts at `i`, up to its first closing tag, with what follows; or there
      is none anywhere. */
  ghost predicate LeftmostParam(s: string, open: string, close: string, found: Option<(Arg, string)>, i: nat) {
    match found
    case None => forall j, e, m :: !ParamAt(s, open, close, j, e, m)
    case Some((arg, after)) =>
      var e := i + |open| + |arg.key|;
      var m := e + 1 + |arg.value|;
      && ParamAt(s, open, close, i, e, m) && m + |close| <= |s|
      && arg.key == s[i + |open|..e] && arg.value == s[e + 1..m] && after == s[m + |close|..]
      && forall j, f, n :: ParamAt(s, open, close, j, f, n) ==> i < j || (i == j && m <= n)
  }

  /** The search for a parameter finds the leftmost one, with its shortest value. */
  lemma {:induction false} FirstParamIsLeftmost(s: string, open: string, close: string) returns (i: nat)
    requires |open| > 0
    ensures LeftmostParam(s, open, close, FirstParam(s, open, close), i)
    decreases |s|
  {
    hide At, NamedAt, UpToClose;
    i := 0;
    match Find(s, open)
    case None =>
      NothingNamed(s, open);
    case Some(first) =>
      var lo := first + |open|;
      AtBracket(s, lo);
      match Find(s[lo..], ">")
      case None =>
        hide Find;
        forall j, e, m
          ensures !ParamAt(s, open, close, j, e, m)
        {
          if NamedAt(s, open, j, e) {
            NamedFrom(s, open, first, j, e);
          }
        }
      case Some(p) =>
        FirstParamStep(s, open, close, first, p);
        hide Find, FirstParam, LeftmostParam;
        if p > 0 {
          i := first;
          ParamHere(s, open, close, first, p);
        } else {
          var k := FirstParamIsLeftmost(s[first + 1..], open, close);
          i := first + 1 + k;
          ParamMoves(s, s[first + 1..], open, close, FirstParam(s[first + 1..], open, close), first, k);
        }
  }

  lemma FirstParamStep(s: string, open: string, close: string, first: nat, p: nat)
    requires |open| > 0 && Find(s, open) == Some(first) && Find(s[first + |open|..], ">") == Some(p)
    ensures FirstParam(s, open, close) ==
            if p == 0 then FirstParam(s[first + 1..], open, close)
            else UpToClose(s[first + |open|..][..p], s[first + |open|..][p + 1..], close)
  {
    hide Find, UpToClose;
  }

  /** Every parameter ends behind the first bracket that follows the first tag. */
  lemma ParamsBehind(s: string, open: string, close: string, first: nat, e: nat, j: int, f: int, n: int)
    requires |open| > 0 && Find(s, open) == Some(first) && first + |open| <= e < |s| && s[e] == '>'
    requires forall k :: first + |open| <= k < e ==> s[k] != '>'
    requires ParamAt(s, open, close, j, f, n)
    ensures first <= j && e < n && At(s[e + 1..], n - e - 1, close) && (j == first ==> f == e)
  {
    hide At;
    NamedFrom(s, open, first, j, f);
    AtTail(s, e + 1, n, close);
  }

  lemma ParamHere(s: string, open: string, close: string, first: nat, p: nat)
    requires |open| > 0 && p > 0 && Find(s, open) == Some(first) && first + |open| + p < |s|
    requires s[first + |open| + p] == '>'
    requires forall j :: first + |open| <= j < first + |open| + p ==> s[j] != '>'
    ensures var rest := s[first + |open|..];
            LeftmostParam(s, open, close, UpToClose(rest[..p], rest[p + 1..], close), first)
  {
    var lo := first + |open|;
    var e := lo + p;
    assert s[lo..][..p] == s[lo..e] && s[lo..][p + 1..] == s[e + 1..];
    assert At(s, first, open);
    hide At, Find;
    assert NamedAt(s, open, first, e);
    forall j, f, n | ParamAt(s, open, close, j, f, n)
      ensures first <= j && e < n && At(s[e + 1..], n - e - 1, close) && (j == first ==> f == e)
    {
      ParamsBehind(s, open, close, first, e, j, f, n);
    }
    hide ParamAt, NamedAt;
    ParamEnds(s, open, close, first, e);
  }

  lemma ParamEnds(s: string, open: string, close: string, first: nat, e: nat)
    requires |open| > 0 && NamedAt(s, open, first, e)
    requires forall j, f, n :: ParamAt(s, open, close, j, f, n) ==>
                                 first <= j && e < n && At(s[e + 1..], n - e - 1, close) && (j == first ==> f == e)
    ensures LeftmostParam(s, open, close, UpToClose(s[first + |open|..e], s[e + 1..], close), first)
  {
    var text := s[e + 1..];
    match Find(text, close)
    case None =>
      hide At, NamedAt;
    case Some(q) =>
      hide At, NamedAt, Find;
      var m := e + 1 + q;
      AtTail(s, e + 1, m, close);
      TextParts(s, e, q, |close|);
      assert ParamAt(s, open, close, first, e, m);
  }

  lemma TextParts(s: string, e: nat, q: nat, c: nat)
    requires e + 1 + q + c <= |s|
    ensures s[e + 1..][..q] == s[e + 1..e + 1 + q] && s[e + 1..][q + c..] == s[e + 1 + q + c..]
  {
  }

  lemma ParamsShift(s: string, rest: string, open: string, close: string, first: nat)
    requires |open| > 0 && Find(s, open) == Some(first) && first + |open| < |s| && s[first + |open|] == '>'
    requires rest == s[first + 1..]
    ensures forall j, e, m :: ParamAt(s, open, close, j, e, m) ==>
              j > first && ParamAt(rest, open, close, j - first - 1, e - first - 1, m - first - 1)
  {
    hide At;
    forall j, e, m | ParamAt(s, open, close, j, e, m)
      ensures j > first && ParamAt(rest, open, close, j - first - 1, e - first - 1, m - first - 1)
    {
      NamedFrom(s, open, first, j, e);
      NamedTail(s, open, first + 1, j, e);
      AtTail(s, first + 1, m, close);
    }
  }

  lemma ParamMoves(s: string, rest: string, open: string, close: string, found: Option<(Arg, string)>, first: nat,
                   k: nat)
    requires |open| > 0 && Find(s, open) == Some(first) && first + |open| < |s| && s[first + |open|] == '>'
    requires rest == s[first + 1..] && LeftmostParam(rest, open, close, found, k)
    ensures LeftmostParam(s, open, close, found, first + 1 + k)
  {
    ParamsShift(s, rest, open, close, first);
    hide ParamAt, Find, LeftmostParam;
    match found
    case None => NoParamMoves(s, rest, open, close, first, k);
    case Some((arg, after)) =>
      OneParamMoves(s, rest, open, close, arg, after, first, k);
  }

  lemma OneParamMoves(s: string, rest: string, open: string, close: string, arg: Arg, after: string, first: nat,
                      k: nat)
    requires first + 1 <= |s| && rest == s[first + 1..] && LeftmostParam(rest, open, close, Some((arg, after)), k)
    requires forall j, e, m :: ParamAt(s, open, close, j, e, m) ==>
               j > first && ParamAt(rest, open, close, j - first - 1, e - first - 1, m - first - 1)
    ensures LeftmostParam(s, open, close, Some((arg, after)), first + 1 + k)
  {
    hide ParamAt, NamedAt;
    var e := k + |open| + |arg.key|;
    var m := e + 1 + |arg.value|;
    NothingLeft(s, rest, open, close, first, k, m);
    ParamCopied(s, rest, open, close, first + 1, k, e, m);
  }

  lemma NothingLeft(s: string, rest: string, open: string, close: string, first: nat, k: nat, m: nat)
    requires forall j, f, n :: ParamAt(rest, open, close, j, f, n) ==> k < j || (k == j && m <= n)
    requires forall j, e, n :: ParamAt(s, open, close, j, e, n) ==>
               j > first && ParamAt(rest, open, close, j - first - 1, e - first - 1, n - first - 1)
    ensures forall j, f, n :: ParamAt(s, open, close, j, f, n) ==>
              first + 1 + k < j || (first + 1 + k == j && first + 1 + m <= n)
  {
    hide ParamAt;
    forall j, f, n | ParamAt(s, open, close, j, f, n)
      ensures first + 1 + k < j || (first + 1 + k == j && first + 1 + m <= n)
    {
      assert ParamAt(rest, open, close, j - first - 1, f - first - 1, n - first - 1);
    }
  }

  lemma NoParamMoves(s: string, rest: string, open: string, close: string, first: nat, k: nat)
    requires LeftmostParam(rest, open, close, None, k)
    requires forall j, e, m :: ParamAt(s, open, close, j, e, m) ==>
               j > first && ParamAt(rest, open, close, j - first - 1, e - first - 1, m - first - 1)
    ensures LeftmostParam(s, open, close, None, first + 1 + k)
  {
    hide ParamAt;
  }

  /** A parameter of the rest of a text is one of the text, with the same parts. */
  lemma ParamCopied(s: string, rest: string, open: string, close: string, d: nat, k: nat, e: nat, m: nat)
    requires d <= |s| && rest == s[d..] && ParamAt(rest, open, close, k, e, m)
    ensures ParamAt(s, open, close, d + k, d + e, d + m)
    ensures k + |open| <= e < m && m + |close| <= |rest|
    ensures rest[k + |open|..e] == s[d + k + |open|..d + e] && rest[e + 1..m] == s[d + e + 1..d + m]
    ensures rest[m + |close|..] == s[d + m + |close|..]
  {
    NameCopied(s, rest, open, d, k, e);
    AtTail(s, d, d + m, close);
    hide At, NamedAt;
    AtInside(rest, m, close);
    PartOfTail(s, d, e + 1, m);
  }

  lemma NamedEnds(s: string, open: string, i: int, e: int)
    requires NamedAt(s, open, i, e)
    ensures i + |open| < e < |s|
  {
  }

  /** A name that the pattern accepts between the opening tag and `>`. */
  predicate NameOk(name: string) {
    name != "" && '>' !in name
  }

  /** A name that cannot be taken for a tag. */
  predicate Plain(name: string) {
    '<' !in name
  }

  lemma FirstNameIs(before: string, open: string, name: string, after: string)
    requires Tag(open) && Free(before, open) && NameOk(name)
    ensures |open| > 0 && FirstName(before + open + name + ">" + after, open) == Some(name)
  {
    hide At, Free, Find;
    var rest := name + ">" + after;
    assert before + open + name + ">" + after == before + open + rest;
    FindAfter(before, open, rest);
    FindChar(name, '>', after);
  }

  lemma RegroupParam(a: string, b: string, c: string, d: string, e: string, f: string, g: string)
    ensures a + b + c + d + e + f + g == a + b + (c + d + (e + f + g))
  {
  }

  lemma FirstParamIs(before: string, open: string, arg: Arg, close: string, after: string)
    requires Tag(open) && Tag(close) && Free(before, open) && NameOk(arg.key) && Free(arg.value, close)
    ensures |open| > 0 &&
            FirstParam(before + open + arg.key + ">" + arg.value + close + after, open, close) == Some((arg, after))
  {
    hide At, Free, Find;
    var value := arg.value + close + after;
    var rest := arg.key + ">" + value;
    RegroupParam(before, open, arg.key, ">", arg.value, close, after);
    FindAfter(before, open, rest);
    FindChar(arg.key, '>', value);
    CloseAfter(arg.value, close, after, 0);
    assert value[0..] == value;
  }

  lemma FirstParamIsFree(s: string, open: string, close: string, t: string)
    requires |open| > 0 && |close| > 0 && |t| > 0 && (s != "" ==> Free(s[1..], t))
    ensures var m := FirstParam(s, open, close);
            m.Some? ==>
              && NameOk(m.value.0.key) && Free(m.value.0.key + ">", t)
              && Free(m.value.0.value, close) && Free(m.value.0.value, t)
              && Free(m.value.1, t)
    decreases |s|
  {
    hide At, Free, NameOk, UpToClose;
    if FirstParam(s, open, close).Some? {
      var i := Find(s, open).value;
      var p := Find(s[i + |open|..], ">").value;
      hide Find;
      if p == 0 {
        StillFree(s, i + 1, t);
        FirstParamIsFree(s[i + 1..], open, close, t);
      } else {
        FoundNameIsFree(s, i + |open|, p, t);
        assert s[i + |open|..][p + 1..] == s[i + |open| + p + 1..];
        FoundValueIsFree(s[i + |open|..][..p], s, i + |open| + p + 1, close, t);
      }
    }
  }

  /** A name up to its bracket, found anywhere but at the start. */
  lemma FoundNameIsFree(s: string, lo: nat, p: nat, t: string)
    requires 1 <= lo <= |s| && Free(s[1..], t) && p > 0 && Find(s[lo..], ">") == Some(p)
    ensures NameOk(s[lo..][..p]) && Free(s[lo..][..p] + ">", t)
  {
    assert At(s[lo..], p, ">");
    FreeTail(s, lo, lo + p + 1, t);
    assert s[lo..lo + p + 1] == s[lo..][..p] + ">";
    forall i | 0 <= i < p
      ensures s[lo..][i] != '>'
    {
      assert !At(s[lo..], i, ">");
    }
  }

  lemma FirstNameIsFree(s: string, open: string, t: string)
    requires |open| > 0 && |t| > 0 && (s != "" ==> Free(s[1..], t))
    ensures var m := FirstName(s, open); m.Some? ==> NameOk(m.value) && Free(m.value + ">", t)
    decreases |s|
  {
    hide At, Free, NameOk;
    var i := Find(s, open);
    if i.Some? {
      var p := Find(s[i.value + |open|..], ">");
      hide Find;
      if p.Some? {
        if p.value == 0 {
          StillFree(s, i.value + 1, t);
          FirstNameIsFree(s[i.value + 1..], open, t);
        } else {
          FoundNameIsFree(s, i.value + |open|, p.value, t);
        }
      }
    }
  }

  lemma FoundValueIsFree(key: string, s: string, lo: nat, close: string, t: string)
    requires 1 <= lo <= |s| && |close| > 0 && Free(s[1..], t)
    ensures var m := UpToClose(key, s[lo..], close);
            m.Some? ==>
              && m.value.0.key == key
              && Free(m.value.0.value, close) && Free(m.value.0.value, t)
              && Free(m.value.1, t)
  {
    hide At, Free;
    var j := Find(s[lo..], close);
    if j.Some? {
      FreeBeforeFirst(s[lo..], j.value, close);
      ValueIsFree(s, lo, j.value, |close|, t);
    }
  }

  lemma StillFree(s: string, k: nat, t: string)
    requires 1 <= k <= |s| && Free(s[1..], t)
    ensures s[k..] != "" ==> Free(s[k..][1..], t)
  {
    hide Free;
    if k < |s| {
      FreeTail(s, k + 1, |s|, t);
      assert s[k..][1..] == s[k + 1..|s|];
    }
  }

  lemma ValueIsFree(s: string, lo: nat, size: nat, close: nat, t: string)
    requires 1 <= lo && lo + size + close <= |s| && Free(s[1..], t)
    ensures Free(s[lo..][..size], t) && Free(s[lo..][size + close..], t)
  {
    hide Free;
    FreeTail(s, lo, lo + size, t);
    FreeTail(s, lo + size + close, |s|, t);
    assert s[lo..lo + size] == s[lo..][..size];
    assert s[lo + size + close..|s|] == s[lo..][size + close..];
  }

  lemma FreeTail(s: string, lo: nat, hi: nat, t: string)
    requires 1 <= lo <= hi <= |s| && Free(s[1..], t)
    ensures Free(s[lo..hi], t)
  {
    FreePart(s[1..], lo - 1, hi - 1, t);
    assert s[1..][lo - 1..hi - 1] == s[lo..hi];
  }

  /** Parsed values contain neither the closing tag nor anything the text is free of past its first character; nor do
      the keys with their brackets. */
  lemma {:induction false} ParamsAreFree(s: string, open: string, close: string, t: string, a: Arg)
    requires |open| > 0 && |close| > 0 && |t| > 0 && (s != "" ==> Free(s[1..], t)) && a in Params(s, open, close)
    ensures NameOk(a.key) && Free(a.key + ">", t) && Free(a.value, close) && Free(a.value, t)
    decreases |s|
  {
    hide At, Free, FirstParam, NameOk;
    FirstParamIsFree(s, open, close, t);
    var (arg, after) := FirstParam(s, open, close).value;
    if a != arg {
      if after != "" {
        FreePart(after, 1, |after|, t);
        assert after[1..|after|] == after[1..];
      }
      ParamsAreFree(after, open, close, t, a);
    }
  }
}
