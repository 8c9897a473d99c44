/** The Seed-OSS template: what it prints as tool calls it also reads back, and exactly which calls. */
module SeedToolCalls {
  import opened Wrappers
  import opened TagText
  import opened ToolCalls
  import opened XmlToolCalls

  const TOOL_CALL_START := "<seed:tool_call>"
  const TOOL_CALL_END := "</seed:tool_call>"

  /** The printed calls. */
  function Printed(calls: seq<Call>): string {
    Blocks(Inners(calls, ""), TOOL_CALL_START, TOOL_CALL_END, "\n")
  }

  /** One group of the outer search; none when it names no function. */
  function ParseOne(group: string): Option<Call> {
    var name :- FirstName(group, FUNCTION);
    Some(Call(name, ToDict(Params(group, PARAMETER, PARAMETER_END))))
  }

  /** `None` stands for the fallback parser, taken when there is no tool call at all. */
  function Parse(response: string): Option<seq<Call>> {
    var groups := FindAll(response, TOOL_CALL_START, TOOL_CALL_END, 1);
    if groups == [] then None else Some(Each(groups, ParseOne))
  }

  lemma StartIsTag()
    ensures Tag(TOOL_CALL_START)
  {
  }

  lemma EndIsTag()
    ensures Tag(TOOL_CALL_END)
  {
  }

  lemma EndIsOuter()
    ensures Outer(TOOL_CALL_END)
  {
    EndIsTag();
  }

  // ----- what is printed is read back -----

  /** No value closes a tag, no name ends the call, and the function's name does not open a parameter. */
  ghost predicate Survives(call: Call) {
    ValuesFree(call.args, TOOL_CALL_END) && TagsClosed(call, TOOL_CALL_END) && HeaderFits(call)
  }

  lemma ParseOneBack(call: Call)
    requires NamesOk(call) && ValuesFree(call.args, TOOL_CALL_END) && HeaderFits(call)
    ensures ParseOne("\n" + Body(call, "") + "\n") == Some(call)
  {
    hide Body, Params, FirstName, Free, NameOk, ToDict, DistinctKeys, HeaderFits;
    BodyParsed("\n", call, "");
    PaddedWithNothing(call.args);
    DistinctIsDict(call.args);
  }

  lemma PaddedWithNothing(args: seq<Arg>)
    ensures Padded(args, "") == args
  {
    forall i | 0 <= i < |args|
      ensures Padded(args, "")[i] == args[i]
    {
      assert "" + args[i].value + "" == args[i].value;
    }
  }

  lemma PrintedIsParsed(before: string, calls: seq<Call>, after: string)
    requires calls != [] && Free(before, TOOL_CALL_START) && Free(after, TOOL_CALL_START)
    requires forall c :: c in calls ==> NamesOk(c) && Survives(c)
    ensures Parse(before + Printed(calls) + after) == Some(calls)
  {
    hide Free, Body, NamesOk, ValuesFree, TagsClosed, HeaderFits, FindAll, Each, ParseOne, Printed;
    GroupsFound(before, calls, after);
    var inners := Inners(calls, "");
    forall k | 0 <= k < |inners|
      ensures ParseOne(inners[k]) == Some(calls[k])
    {
      assert calls[k] in calls;
      ParseOneBack(calls[k]);
    }
    EachBack(inners, ParseOne, calls);
  }

  /** A block that names no function is passed over, wherever it stands among the calls. */
  lemma NoiseIgnored(before: string, calls: seq<Call>, noise: string, k: nat, after: string)
    requires Free(before, TOOL_CALL_START) && Free(after, TOOL_CALL_START) && k <= |calls|
    requires forall c :: c in calls ==> NamesOk(c) && Survives(c)
    requires noise != "" && Free(noise, TOOL_CALL_END) && ParseOne(noise).None?
    ensures var blocks := Inners(calls, "")[..k] + [noise] + Inners(calls, "")[k..];
            Parse(before + Blocks(blocks, TOOL_CALL_START, TOOL_CALL_END, "\n") + after) == Some(calls)
  {
    hide Free, Body, NamesOk, Survives, FindAll, Each, ParseOne, Blocks;
    StartIsTag();
    EndIsOuter();
    NewlineFree(TOOL_CALL_START);
    var inners := Inners(calls, "");
    forall i | 0 <= i < |inners|
      ensures Free(inners[i], TOOL_CALL_END) && 1 <= |inners[i]| && ParseOne(inners[i]) == Some(calls[i])
    {
      assert calls[i] in calls;
      CallReads(calls[i]);
    }
    NoiseSkipped(before, inners, calls, noise, k, after, TOOL_CALL_START, TOOL_CALL_END, "\n", 1, ParseOne);
  }

  lemma CallReads(call: Call)
    requires NamesOk(call) && Survives(call)
    ensures Free("\n" + Body(call, "") + "\n", TOOL_CALL_END) && ParseOne("\n" + Body(call, "") + "\n") == Some(call)
  {
    hide Free, Body, NamesOk, ValuesFree, TagsClosed, HeaderFits, ParseOne;
    EndIsOuter();
    BodyFree(call, "", TOOL_CALL_END);
    ParseOneBack(call);
  }

  /** The fallback is taken exactly without any block; otherwise every block that names a function is a call. */
  lemma ParseIs(response: string)
    ensures var groups := FindAll(response, TOOL_CALL_START, TOOL_CALL_END, 1);
            && (Parse(response).None? <==> groups == [])
            && (groups != [] ==> Parse(response) == Some(Each(groups, ParseOne)))
            && forall g :: g in groups ==> (ParseOne(g).None? <==> forall i, e :: !NamedAt(g, FUNCTION, i, e))
  {
    hide FindAll, Each, FirstName, Params, NamedAt;
    var groups := FindAll(response, TOOL_CALL_START, TOOL_CALL_END, 1);
    forall g | g in groups
      ensures ParseOne(g).None? <==> forall i, e :: !NamedAt(g, FUNCTION, i, e)
    {
      var i := FirstNameIsLeftmost(g, FUNCTION);
    }
  }

  /** One call with two arguments, and two without any, letter by letter. */
  lemma PrintedText(name: string, key: string, value: string, key2: string, value2: string)
    ensures Printed([Call(name, [Arg(key, value), Arg(key2, value2)])]) ==
            "<seed:tool_call>" + "\n" + "<function=" + name + ">" + "\n" +
            ("<parameter=" + key + ">" + value + "</parameter>" + "\n") +
            ("<parameter=" + key2 + ">" + value2 + "</parameter>" + "\n") +
            "</function>" + "\n" + "</seed:tool_call>"
  {
    var args := [Arg(key, value), Arg(key2, value2)];
    var line, line2 := ArgText(args[0], ""), ArgText(args[1], "");
    assert line == "<parameter=" + key + ">" + value + "</parameter>" && line2 ==
           "<parameter=" + key2 + ">" + value2 + "</parameter>";
    TwoArgs(args[0], args[1], "");
    hide ArgText, ArgsText;
    var call := Call(name, args);
    assert Inners([call], "") == ["\n" + Body(call, "") + "\n"];
    RegroupPrinted("<seed:tool_call>", "\n", "<function=", name, ">", line, line2, "</function>", "</seed:tool_call>");
  }

  lemma PrintedCalls(a: string, b: string)
    ensures Printed([Call(a, []), Call(b, [])]) ==
            Printed([Call(a, [])]) + "\n" + Printed([Call(b, [])])
    ensures Printed([]) == ""
  {
    hide Body;
    var x, y := Call(a, []), Call(b, []);
    assert [x, y][1..] == [y];
    assert Inners([y], "") == ["\n" + Body(y, "") + "\n"] && Inners([x], "") == ["\n" + Body(x, "") + "\n"];
    assert Inners([x, y], "")[1..] == Inners([y], "");
  }

  /** The outer search finds the printed calls one by one. */
  lemma GroupsFound(before: string, calls: seq<Call>, after: string)
    requires calls != [] && Free(before, TOOL_CALL_START) && Free(after, TOOL_CALL_START)
    requires forall c :: c in calls ==> ValuesFree(c.args, TOOL_CALL_END) && TagsClosed(c, TOOL_CALL_END)
    ensures FindAll(before + Printed(calls) + after, TOOL_CALL_START, TOOL_CALL_END, 1) == Inners(calls, "")
  {
    hide Free, Body, ValuesFree, TagsClosed, FindAll;
    StartIsTag();
    EndIsOuter();
    NewlineFree(TOOL_CALL_START);
    var inners := Inners(calls, "");
    forall k | 0 <= k < |inners|
      ensures Free(inners[k], TOOL_CALL_END) && 1 <= |inners[k]|
    {
      assert calls[k] in calls;
      BodyFree(calls[k], "", TOOL_CALL_END);
    }
    BlocksFound(before, inners, after, TOOL_CALL_START, TOOL_CALL_END, "\n", 1);
  }

  // ----- nothing else can be read back -----

  lemma ParsedTextsFree(group: string, call: Call)
    requires group != "" && Free(group[1..], TOOL_CALL_END) && ParseOne(group) == Some(call)
    ensures ValuesFree(call.args, TOOL_CALL_END) && TagsClosed(call, TOOL_CALL_END)
  {
    hide Free, Params, FirstName, NameOk;
    FirstNameIsFree(group, FUNCTION, TOOL_CALL_END);
    forall a | a in call.args
      ensures Free(a.value, PARAMETER_END) && Free(a.value, TOOL_CALL_END) && Free(a.key + ">", TOOL_CALL_END)
    {
      InsertAllMember([], Params(group, PARAMETER, PARAMETER_END), a);
      ParamsAreFree(group, PARAMETER, PARAMETER_END, TOOL_CALL_END, a);
    }
  }

  /** Whatever the response, nothing that is read holds a closing tag. */
  lemma ParsedIsFree(response: string, call: Call)
    requires Parse(response).Some? && call in Parse(response).value
    ensures ValuesFree(call.args, TOOL_CALL_END) && TagsClosed(call, TOOL_CALL_END)
  {
    hide ParseOne, FindAll, Free, ValuesFree, TagsClosed;
    var groups := FindAll(response, TOOL_CALL_START, TOOL_CALL_END, 1);
    EachMember(groups, ParseOne, call);
    var g :| g in groups && ParseOne(g) == Some(call);
    FoundIsFree(response, TOOL_CALL_START, TOOL_CALL_END, 1, g);
    ParsedTextsFree(g, call);
  }

  /** A printed call that is read as itself has a header that opens no parameter. */
  lemma ReadBackFits(call: Call)
    requires NamesOk(call) && ValuesFree(call.args, TOOL_CALL_END)
    requires ParseOne("\n" + Body(call, "") + "\n") == Some(call)
    ensures HeaderFits(call)
  {
    hide Body, Params, FirstName, Free, NamesOk, ToDict, HeaderFits, Padded;
    if !HeaderFits(call) {
      var tail := FirstSwallowed("\n", call, "");
      var params := Params("\n" + Body(call, "") + "\n", PARAMETER, PARAMETER_END);
      NoArgNoFit(call);
      assert |params[0].value| > |call.args[0].value|;
      FullDict(params);
    }
  }

  lemma NoArgNoFit(call: Call)
    requires !HeaderFits(call)
    ensures call.args != []
  {
  }

  lemma SurvivorsSurvive(before: string, calls: seq<Call>, after: string)
    requires calls != [] && Free(before, TOOL_CALL_START) && Free(after, TOOL_CALL_START)
    requires forall c :: c in calls ==> NamesOk(c)
    requires Parse(before + Printed(calls) + after) == Some(calls)
    ensures forall c :: c in calls ==> Survives(c)
  {
    hide Free, Body, NamesOk, ValuesFree, TagsClosed, HeaderFits, FindAll, Each, ParseOne, Printed;
    forall c | c in calls
      ensures ValuesFree(c.args, TOOL_CALL_END) && TagsClosed(c, TOOL_CALL_END)
    {
      ParsedIsFree(before + Printed(calls) + after, c);
    }
    GroupsFound(before, calls, after);
    var inners := Inners(calls, "");
    EachWhole(inners, ParseOne);
    forall c | c in calls
      ensures HeaderFits(c)
    {
      var k :| 0 <= k < |calls| && calls[k] == c;
      ReadBackFits(c);
    }
  }

  /** Exactly which printed calls, within any text that opens none, are read back with their names, arguments and
      order. */
  lemma RoundTrip(before: string, calls: seq<Call>, after: string)
    requires calls != [] && Free(before, TOOL_CALL_START) && Free(after, TOOL_CALL_START)
    requires forall c :: c in calls ==> NamesOk(c)
    ensures Parse(before + Printed(calls) + after) == Some(calls) <==> forall c :: c in calls ==> Survives(c)
  {
    hide Parse, Free, NamesOk, Survives, Printed;
    if forall c :: c in calls ==> Survives(c) {
      PrintedIsParsed(before, calls, after);
    }
    if Parse(before + Printed(calls) + after) == Some(calls) {
      SurvivorsSurvive(before, calls, after);
    }
  }

  // ----- surviving by accident -----

  const ODD_KEY := "x</parameter"
  const ODD_NAME := "f<parameter=x</parameter"
  const ODD_VALUE := "\n<parameter=x"
  const ODD_CALL := Call(ODD_NAME, [Arg(ODD_KEY, ODD_VALUE)])

  /** Why keys with brackets are set apart when the function's name opens a parameter: here the header is read as the
      argument, and by accident has the printed key and value. */
  lemma SurvivesByAccident()
    ensures NameOk(ODD_NAME) && NameOk(ODD_KEY) && DistinctKeys(ODD_CALL.args) && !HeaderFits(ODD_CALL)
    ensures Parse(Printed([ODD_CALL])) == Some([ODD_CALL])
  {
    OddHeader();
    OddFree();
    OddFound();
    hide NameOk, ODD_NAME, ODD_KEY, ODD_VALUE, Body, FirstName, Params, ToDict, Free, FindAll, ValuesFree, TagsClosed;
    NameParsed("\n", ODD_CALL, "");
    OddParams();
    DistinctIsDict(ODD_CALL.args);
    var inner := "\n" + Body(ODD_CALL, "") + "\n";
    assert ParseOne(inner) == Some(ODD_CALL);
    EachBack([inner], ParseOne, [ODD_CALL]);
  }

  lemma OddFound()
    requires ValuesFree(ODD_CALL.args, TOOL_CALL_END) && TagsClosed(ODD_CALL, TOOL_CALL_END)
    ensures FindAll(Printed([ODD_CALL]), TOOL_CALL_START, TOOL_CALL_END, 1) == ["\n" + Body(ODD_CALL, "") + "\n"]
  {
    hide ODD_CALL, Free, FindAll, Printed, Body, ValuesFree, TagsClosed;
    FreePlain("", TOOL_CALL_START);
    GroupsFound("", [ODD_CALL], "");
    assert "" + Printed([ODD_CALL]) + "" == Printed([ODD_CALL]);
  }

  lemma OddHeader()
    ensures NameOk(ODD_NAME) && NameOk(ODD_KEY) && !Free(ODD_NAME[..|ODD_NAME| - 1], PARAMETER)
  {
    assert At(ODD_NAME[..|ODD_NAME| - 1], 1, PARAMETER);
  }

  lemma OddFree()
    ensures ValuesFree(ODD_CALL.args, TOOL_CALL_END) && TagsClosed(ODD_CALL, TOOL_CALL_END)
  {
    OddTextsFree();
    hide ODD_NAME, ODD_KEY, ODD_VALUE, Free;
  }

  lemma OddTextsFree()
    ensures Free(ODD_NAME + ">", TOOL_CALL_END) && Free(ODD_KEY + ">", TOOL_CALL_END)
    ensures Free(ODD_VALUE, TOOL_CALL_END) && Free(ODD_VALUE, PARAMETER_END)
  {
    hide Free;
    NoneWithout(ODD_NAME + ">", TOOL_CALL_END, 6);
    NoneWithout(ODD_KEY + ">", TOOL_CALL_END, 6);
    NoneWithout(ODD_VALUE, TOOL_CALL_END, 6);
    NoneWithout(ODD_VALUE, PARAMETER_END, 1);
  }

  /** A text without some character of a tag has no such tag. */
  lemma NoneWithout(s: string, t: string, i: nat)
    requires i < |t| && t[i] !in s
    ensures Free(s, t)
  {
    hide At;
    forall k
      ensures !At(s, k, t)
    {
      AtHas(s, k, t, i);
    }
  }

  lemma AtHas(s: string, k: int, t: string, i: nat)
    requires i < |t|
    ensures At(s, k, t) ==> t[i] in s
  {
    assert At(s, k, t) ==> s[k + i] == t[i];
  }

  lemma OddParams()
    ensures Params("\n" + Body(ODD_CALL, "") + "\n", PARAMETER, PARAMETER_END) == ODD_CALL.args
  {
    var before := "\n" + FUNCTION + "f";
    var rest, end := "\n" + PARAMETER + ODD_KEY, "\n" + FUNCTION_END + "\n";
    OddText();
    TagsAreTags();
    OddHeader();
    OddTextsFree();
    OddPiecesFree();
    hide Params, Free, Body, Tag, ODD_VALUE, ODD_NAME, ODD_KEY;
    FirstParamIs(before, PARAMETER, ODD_CALL.args[0], PARAMETER_END, rest + ">" + end);
    ParamsStep("\n" + Body(ODD_CALL, "") + "\n");
    NothingBehind(rest, end);
  }

  lemma OddPiecesFree()
    ensures Free("\n" + FUNCTION + "f", PARAMETER) && '>' !in "\n" + PARAMETER + ODD_KEY
    ensures Free("\n" + FUNCTION_END + "\n", PARAMETER) && Free("\n" + FUNCTION_END + "\n", PARAMETER_END)
  {
    hide Free;
    NoneWithout("\n" + FUNCTION + "f", PARAMETER, 1);
    NoneWithout("\n" + FUNCTION_END + "\n", PARAMETER, 1);
    NoneWithout("\n" + FUNCTION_END + "\n", PARAMETER_END, 2);
  }

  lemma OddText()
    ensures "\n" + Body(ODD_CALL, "") + "\n" ==
            "\n" + FUNCTION + "f" + PARAMETER + ODD_KEY + ">" + ODD_VALUE + PARAMETER_END +
            ("\n" + PARAMETER + ODD_KEY + ">" + ("\n" + FUNCTION_END + "\n"))
  {
    OddPieces();
    hide ODD_NAME, ODD_KEY, ODD_VALUE;
    assert ArgsText([], "") == "";
    assert ODD_CALL.args[1..] == [];
    RegroupOdd(FUNCTION, "f", PARAMETER, ODD_KEY, "\n", ">", "x", "</parameter", FUNCTION_END);
  }

  lemma OddPieces()
    ensures ODD_NAME == "f" + PARAMETER + ODD_KEY && ODD_VALUE == "\n" + PARAMETER + "x"
    ensures PARAMETER_END == "</parameter" + ">" && ODD_KEY == "x" + "</parameter"
  {
  }

  lemma RegroupOdd(f: string, n: string, p: string, k: string, l: string, g: string, x: string, q: string, e: string)
    ensures l + (f + (n + p + k) + g + l + (p + (x + q) + g + ("" + (l + p + x) + "") + (q + g) + l + "") + e) + l ==
            l + f + n + p + k + g + (l + p + x) + (q + g) + (l + p + (x + q) + g + (l + e + l))
  {
    var value, close := l + p + x, q + g;
    var arg := p + (x + q) + g + ("" + value + "") + (q + g) + l + "";
    RegroupArg(l, p, x, q, g, value, arg);
    RegroupAround(l, f, n, p, k, g, arg, e);
    RegroupRest(l, p, x, q, g, e);
    RegroupTwice(l + f + n + p + k + g, value, close, l, e + l);
  }

  lemma RegroupArg(l: string, p: string, x: string, q: string, g: string, value: string, arg: string)
    requires value == l + p + x && arg == p + (x + q) + g + ("" + value + "") + (q + g) + l + ""
    ensures l + arg == value + (q + g) + (value + (q + g) + l)
  {
    assert arg == p + x + (q + g) + value + (q + g) + l;
  }

  lemma RegroupAround(l: string, f: string, n: string, p: string, k: string, g: string, arg: string, e: string)
    ensures l + (f + (n + p + k) + g + l + arg + e) + l == l + f + n + p + k + g + (l + arg) + (e + l)
  {
  }

  lemma RegroupRest(l: string, p: string, x: string, q: string, g: string, e: string)
    ensures l + p + (x + q) + g + (l + e + l) == (l + p + x) + (q + g) + l + (e + l)
  {
  }

  lemma RegroupTwice(a: string, v: string, b: string, l: string, z: string)
    ensures a + (v + b + (v + b + l)) + z == a + v + b + (v + b + l + z)
  {
  }

  // ----- the loops -----

  lemma {:induction false} BlocksAreJoined(calls: seq<Call>, formatted: seq<string>)
    requires |formatted| == |calls|
    requires forall i :: 0 <= i < |calls| ==>
                             formatted[i] == TOOL_CALL_START + ("\n" + Body(calls[i], "") + "\n") + TOOL_CALL_END
    ensures Join(formatted, "\n") == Printed(calls)
  {
    hide Body;
    if calls != [] {
      BlocksAreJoined(calls[1..], formatted[1..]);
      assert formatted[0] + "" == formatted[0];
      if |calls| > 1 {
        Regroup3(formatted[0], "\n", Join(formatted[1..], "\n"));
      }
    }
  }

  lemma Regroup3(a: string, b: string, c: string)
    ensures a + b + c == a + (b + c)
  {
  }

  lemma CallIsBody(call: Call, parts: seq<string>)
    requires parts != [] && Lines(parts, "\n") == Header(call.name) + ArgsText(call.args, "") + FUNCTION_END + "\n"
    ensures Join(parts, "\n") == Body(call, "")
  {
    hide Header, ArgsText;
    JoinLines(parts, "\n");
    var a, b := Join(parts, "\n"), Body(call, "");
    assert a + "\n" == b + "\n";
    assert a == (a + "\n")[..|a|] && b == (b + "\n")[..|b|];
  }

  method FormatToolCalls(calls: seq<Call>) returns (text: string)
    ensures text == Printed(calls)
  {
    hide Body, Header, ArgText, ArgsText, Printed;
    var formatted: seq<string> := [];
    for i := 0 to |calls|
      invariant |formatted| == i
      invariant forall k :: 0 <= k < i ==>
                                formatted[k] == TOOL_CALL_START + ("\n" + Body(calls[k], "") + "\n") + TOOL_CALL_END
    {
      var body := FormatCall(calls[i]);
      formatted := formatted + [TOOL_CALL_START + ("\n" + body + "\n") + TOOL_CALL_END];
    }
    text := Join(formatted, "\n");
    BlocksAreJoined(calls, formatted);
  }

  method FormatCall(call: Call) returns (text: string)
    ensures text == Body(call, "")
  {
    hide ArgText;
    var parts := [FUNCTION + call.name + ">"];
    assert Lines(parts, "\n") == Header(call.name) + "" by {
      assert Lines(parts, "\n") == FUNCTION + call.name + ">" + "\n" + "";
    }
    hide Header, Lines;
    for i := 0 to |call.args|
      invariant parts != []
      invariant Lines(parts, "\n") == Header(call.name) + ArgsText(call.args[..i], "")
    {
      var a := call.args[i];
      ghost var before := parts;
      var line := PARAMETER + a.key + ">" + a.value + PARAMETER_END;
      ArgLine(a, line);
      parts := parts + [line];
      LinesSnoc(before, line, "\n");
      ArgsTextSnoc(call.args[..i], a, "");
      assert call.args[..i + 1] == call.args[..i] + [a];
      RegroupLine(Header(call.name), ArgsText(call.args[..i], ""), line, "\n");
    }
    assert call.args[..|call.args|] == call.args;
    LinesSnoc(parts, FUNCTION_END, "\n");
    CallIsBody(call, parts + [FUNCTION_END]);
    text := Join(parts + [FUNCTION_END], "\n");
  }

  lemma ArgLine(a: Arg, line: string)
    requires line == PARAMETER + a.key + ">" + a.value + PARAMETER_END
    ensures line == ArgText(a, "")
  {
    assert "" + a.value + "" == a.value;
  }

  method GetToolcall(response: string) returns (functions: Option<seq<Call>>)
    ensures functions == Parse(response)
    ensures var groups := FindAll(response, TOOL_CALL_START, TOOL_CALL_END, 1);
            if groups == [] then functions.None?
            else functions.Some? && ReadInOrder(groups, ParseOne, functions.value)
  {
    hide FindAll, ParseOne;
    var resList := FindAll(response, TOOL_CALL_START, TOOL_CALL_END, 1);
    if resList == [] {
      return None;
    }
    var found := CollectCalls(resList, ParseOne);
    functions := Some(found);
  }
}
