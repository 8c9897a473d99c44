/** The Qwen3-Coder template: what it prints as tool calls it also reads back, and exactly which calls. */
module QwenToolCalls {
  import opened Wrappers
  import opened Whitespace
  import opened TagText
  import opened ToolCalls
  import opened XmlToolCalls

  const TOOL_CALL := "<tool_call>"
  const TOOL_CALL_END := "</tool_call>"

  /** The printed calls: every value on lines of its own. */
  function Printed(calls: seq<Call>): string {
    Blocks(Inners(calls, "\n"), TOOL_CALL, TOOL_CALL_END, "\n")
  }

  /** Names and values without the white space around them; the pattern and `strip` both drop it. */
  function StripArgs(args: seq<Arg>): (r: seq<Arg>)
    ensures |r| == |args| && forall i :: 0 <= i < |args| ==> r[i] == Arg(Strip(args[i].key), Strip(args[i].value))
  {
    if args == [] then [] else [Arg(Strip(args[0].key), Strip(args[0].value))] + StripArgs(args[1..])
  }

  predicate StartsWith(s: string, t: string) {
    t <= s
  }

  predicate EndsWith(s: string, t: string) {
    |t| <= |s| && s[|s| - |t|..] == t
  }

  /** `_find_function_call` */
  function FindFunctionCall(singleContent: string): Option<Call> {
    var content := Strip(singleContent);
    if !StartsWith(content, FUNCTION) || !EndsWith(content, FUNCTION_END) then None
    else
      var name :- FirstName(content, FUNCTION);
      Some(Call(Strip(name), ToDict(StripArgs(Params(content, PARAMETER, PARAMETER_END)))))
  }

  /** `None` stands for the fallback parser, taken when no group is a call. */
  function Parse(response: string): Option<seq<Call>> {
    var functions := Each(FindAll(response, TOOL_CALL, TOOL_CALL_END, 0), FindFunctionCall);
    if functions == [] then None else Some(functions)
  }

  /** Nothing to strip from the name, the keys and the values, and no value closes a tag. */
  ghost predicate Clean(call: Call) {
    && Stripped(call.name) && ValuesFree(call.args, TOOL_CALL_END)
    && forall a :: a in call.args ==> Stripped(a.key) && Stripped(a.value)
  }

  lemma StartIsTag()
    ensures Tag(TOOL_CALL)
  {
  }

  lemma EndIsOuter()
    ensures Outer(TOOL_CALL_END)
  {
  }

  // ----- what is printed is read back -----

  lemma FeedIsBlank()
    ensures Blank("\n") && !IsSpace('<') && !IsSpace('>')
  {
  }

  lemma BodyEdges(call: Call)
    ensures Strip("\n" + Body(call, "\n") + "\n") == Body(call, "\n")
    ensures StartsWith(Body(call, "\n"), FUNCTION) && EndsWith(Body(call, "\n"), FUNCTION_END)
  {
    hide IsSpace, Strip, ArgsText, Blank, StartsWith, EndsWith;
    FeedIsBlank();
    var body := Body(call, "\n");
    var middle := call.name + ">" + "\n" + ArgsText(call.args, "\n");
    RegroupEdges(FUNCTION, call.name, ">", "\n", ArgsText(call.args, "\n"), FUNCTION_END);
    EdgesOf(FUNCTION, middle, FUNCTION_END);
    BracketsStripped(body);
    hide Body;
    StripPadded("\n", body, "\n");
  }

  lemma BracketsStripped(s: string)
    requires s != "" && s[0] == '<' && s[|s| - 1] == '>'
    ensures Stripped(s)
  {
    FeedIsBlank();
  }

  lemma RegroupEdges(a: string, b: string, c: string, d: string, e: string, f: string)
    ensures a + b + c + d + e + f == a + (b + c + d + e) + f
  {
  }

  lemma EdgesOf(a: string, b: string, c: string)
    requires a != "" && c != ""
    ensures var s := a + b + c; StartsWith(s, a) && EndsWith(s, c) && s[0] == a[0] && s[|s| - 1] == c[|c| - 1]
  {
  }

  lemma PaddedStripped(args: seq<Arg>)
    requires forall a :: a in args ==> Stripped(a.key) && Stripped(a.value)
    ensures StripArgs(Padded(args, "\n")) == args
  {
    hide IsSpace, Strip, Blank, Stripped;
    FeedIsBlank();
    forall i | 0 <= i < |args|
      ensures StripArgs(Padded(args, "\n"))[i] == args[i]
    {
      assert args[i] in args;
      StripPadded("\n", args[i].value, "\n");
      StripStripped(args[i].key);
    }
  }

  lemma FoundBack(call: Call)
    requires NamesOk(call) && Clean(call) && HeaderFits(call)
    ensures FindFunctionCall("\n" + Body(call, "\n") + "\n") == Some(call)
  {
    hide Body, Params, FirstName, Free, NameOk, ToDict, DistinctKeys, Strip, Stripped, StartsWith, EndsWith, StripArgs,
         HeaderFits;
    BodyEdges(call);
    BodyParsed("", call, "\n");
    assert "" + Body(call, "\n") + "" == Body(call, "\n");
    StripStripped(call.name);
    PaddedStripped(call.args);
    DistinctIsDict(call.args);
  }

  lemma PrintedIsParsed(before: string, calls: seq<Call>, after: string)
    requires calls != [] && Free(before, TOOL_CALL) && Free(after, TOOL_CALL)
    requires forall c :: c in calls ==> NamesOk(c) && TagsClosed(c, TOOL_CALL_END) && Clean(c) && HeaderFits(c)
    ensures Parse(before + Printed(calls) + after) == Some(calls)
  {
    hide Free, Body, NamesOk, Clean, TagsClosed, HeaderFits, FindAll, Each, FindFunctionCall, Printed;
    GroupsFound(before, calls, after);
    var inners := Inners(calls, "\n");
    forall k | 0 <= k < |inners|
      ensures FindFunctionCall(inners[k]) == Some(calls[k])
    {
      assert calls[k] in calls;
      FoundBack(calls[k]);
    }
    EachBack(inners, FindFunctionCall, calls);
  }

  /** A block that is no call is passed over, wherever it stands among the calls. */
  lemma NoiseIgnored(before: string, calls: seq<Call>, noise: string, k: nat, after: string)
    requires calls != [] && Free(before, TOOL_CALL) && Free(after, TOOL_CALL) && k <= |calls|
    requires forall c :: c in calls ==> NamesOk(c) && TagsClosed(c, TOOL_CALL_END) && Clean(c) && HeaderFits(c)
    requires Free(noise, TOOL_CALL_END) && FindFunctionCall(noise).None?
    ensures var blocks := Inners(calls, "\n")[..k] + [noise] + Inners(calls, "\n")[k..];
            Parse(before + Blocks(blocks, TOOL_CALL, TOOL_CALL_END, "\n") + after) == Some(calls)
  {
    hide Free, Body, NamesOk, Clean, TagsClosed, HeaderFits, FindAll, Each, FindFunctionCall, Blocks;
    StartIsTag();
    EndIsOuter();
    NewlineFree(TOOL_CALL);
    var inners := Inners(calls, "\n");
    forall i | 0 <= i < |inners|
      ensures Free(inners[i], TOOL_CALL_END) && FindFunctionCall(inners[i]) == Some(calls[i])
    {
      assert calls[i] in calls;
      CallReads(calls[i]);
    }
    NoiseSkipped(before, inners, calls, noise, k, after, TOOL_CALL, TOOL_CALL_END, "\n", 0, FindFunctionCall);
  }

  lemma CallReads(call: Call)
    requires NamesOk(call) && TagsClosed(call, TOOL_CALL_END) && Clean(call) && HeaderFits(call)
    ensures Free("\n" + Body(call, "\n") + "\n", TOOL_CALL_END)
    ensures FindFunctionCall("\n" + Body(call, "\n") + "\n") == Some(call)
  {
    hide Free, Body, NamesOk, TagsClosed, HeaderFits, FindFunctionCall;
    EndIsOuter();
    BodyFree(call, "\n", TOOL_CALL_END);
    FoundBack(call);
  }

  /** The fallback is taken exactly when no block is a call; a block is one exactly if, stripped, it starts with the tag
      of a function, ends with the closing one, and names a function. */
  lemma ParseIs(response: string)
    ensures var groups := FindAll(response, TOOL_CALL, TOOL_CALL_END, 0);
            && (Parse(response).None? <==> forall i :: 0 <= i < |groups| ==> FindFunctionCall(groups[i]).None?)
            && (Parse(response).Some? ==> Parse(response) == Some(Each(groups, FindFunctionCall)))
  {
    hide FindAll, Each, FindFunctionCall;
    EachNothing(FindAll(response, TOOL_CALL, TOOL_CALL_END, 0), FindFunctionCall);
  }

  lemma CallIs(group: string)
    ensures var content := Strip(group);
            FindFunctionCall(group).Some? <==>
            && |content| >= 11 && content[..10] == "<function=" && content[|content| - 11..] == "</function>"
            && exists i, e :: NamedAt(content, FUNCTION, i, e)
  {
    hide Strip, FirstName, Params, NamedAt;
    var i := FirstNameIsLeftmost(Strip(group), FUNCTION);
  }

  /** One call with two arguments, and two without any, letter by letter. */
  lemma PrintedText(name: string, key: string, value: string, key2: string, value2: string)
    ensures Printed([Call(name, [Arg(key, value), Arg(key2, value2)])]) ==
            "<tool_call>" + "\n" + "<function=" + name + ">" + "\n" +
            ("<parameter=" + key + ">" + ("\n" + value + "\n") + "</parameter>" + "\n") +
            ("<parameter=" + key2 + ">" + ("\n" + value2 + "\n") + "</parameter>" + "\n") +
            "</function>" + "\n" + "</tool_call>"
  {
    var args := [Arg(key, value), Arg(key2, value2)];
    var line, line2 := ArgText(args[0], "\n"), ArgText(args[1], "\n");
    TwoArgs(args[0], args[1], "\n");
    hide ArgsText;
    var call := Call(name, args);
    assert Inners([call], "\n") == ["\n" + Body(call, "\n") + "\n"];
    RegroupPrinted("<tool_call>", "\n", "<function=", name, ">", line, line2, "</function>", "</tool_call>");
  }

  lemma PrintedCalls(a: string, b: string)
    ensures Printed([Call(a, []), Call(b, [])]) ==
            Printed([Call(a, [])]) + "\n" + Printed([Call(b, [])])
    ensures Printed([]) == ""
  {
    hide Body;
    var x, y := Call(a, []), Call(b, []);
    assert [x, y][1..] == [y];
    assert Inners([y], "\n") == ["\n" + Body(y, "\n") + "\n"];
    assert Inners([x], "\n") == ["\n" + Body(x, "\n") + "\n"];
    assert Inners([x, y], "\n")[1..] == Inners([y], "\n");
  }

  /** The outer search finds the printed calls one by one. */
  lemma GroupsFound(before: string, calls: seq<Call>, after: string)
    requires calls != [] && Free(before, TOOL_CALL) && Free(after, TOOL_CALL)
    requires forall c :: c in calls ==> Clean(c) && TagsClosed(c, TOOL_CALL_END)
    ensures FindAll(before + Printed(calls) + after, TOOL_CALL, TOOL_CALL_END, 0) == Inners(calls, "\n")
  {
    hide Free, Body, ValuesFree, TagsClosed, FindAll, Stripped;
    StartIsTag();
    EndIsOuter();
    NewlineFree(TOOL_CALL);
    var inners := Inners(calls, "\n");
    forall k | 0 <= k < |inners|
      ensures Free(inners[k], TOOL_CALL_END)
    {
      assert calls[k] in calls;
      BodyFree(calls[k], "\n", TOOL_CALL_END);
    }
    BlocksFound(before, inners, after, TOOL_CALL, TOOL_CALL_END, "\n", 0);
  }

  // ----- nothing else can be read back -----

  lemma FoundIsClean(group: string, call: Call)
    requires Free(group, TOOL_CALL_END) && FindFunctionCall(group) == Some(call)
    ensures Clean(call)
  {
    hide Free, Params, FirstName, Strip, StartsWith, EndsWith, Stripped;
    var content := Strip(group);
    StripIsFree(group, TOOL_CALL_END);
    StripIsStripped(FirstName(content, FUNCTION).value);
    var params := Params(content, PARAMETER, PARAMETER_END);
    if content != "" {
      FreePart(content, 1, |content|, TOOL_CALL_END);
      assert content[1..|content|] == content[1..];
    }
    forall a | a in call.args
      ensures Free(a.value, PARAMETER_END) && Free(a.value, TOOL_CALL_END) && Stripped(a.key) && Stripped(a.value)
    {
      InsertAllMember([], StripArgs(params), a);
      var i :| 0 <= i < |params| && StripArgs(params)[i] == a;
      ParamsAreFree(content, PARAMETER, PARAMETER_END, TOOL_CALL_END, params[i]);
      StripIsFree(params[i].value, PARAMETER_END);
      StripIsFree(params[i].value, TOOL_CALL_END);
      StripIsStripped(params[i].key);
      StripIsStripped(params[i].value);
    }
  }

  /** Whatever the response, every call that is read is clean. */
  lemma ParsedIsClean(response: string, call: Call)
    requires Parse(response).Some? && call in Parse(response).value
    ensures Clean(call)
  {
    hide FindFunctionCall, FindAll, Free, Clean;
    var groups := FindAll(response, TOOL_CALL, TOOL_CALL_END, 0);
    EachMember(groups, FindFunctionCall, call);
    var g :| g in groups && FindFunctionCall(g) == Some(call);
    FoundIsFree(response, TOOL_CALL, TOOL_CALL_END, 0, g);
    assert g[0..] == g;
    FoundIsClean(g, call);
  }

  /** The first value that a swallowed argument would have. */
  lemma SwallowedIsLonger(a: Arg)
    requires Stripped(a.value)
    ensures |Strip("\n" + (PARAMETER + a.key + ">" + ("\n" + a.value + "\n")))| > |a.value|
  {
    hide IsSpace, Strip, Stripped, Blank;
    FeedIsBlank();
    var open := PARAMETER + a.key + ">";
    if a.value == "" {
      assert open[0] == '<' && open[|open| - 1] == '>';
      BracketsStripped(open);
      TwoFeeds();
      assert "\n" + (open + ("\n" + "" + "\n")) == "\n" + open + ("\n" + "\n");
      StripPadded("\n", open, "\n" + "\n");
    } else {
      var core := open + "\n" + a.value;
      CoreStripped(open, a.value);
      assert "\n" + (open + ("\n" + a.value + "\n")) == "\n" + core + "\n";
      StripPadded("\n", core, "\n");
    }
  }

  lemma TwoFeeds()
    ensures Blank("\n" + "\n")
  {
  }

  lemma CoreStripped(open: string, value: string)
    requires open != "" && open[0] == '<' && value != "" && Stripped(value)
    ensures Stripped(open + "\n" + value)
  {
    hide IsSpace;
    FeedIsBlank();
    var core := open + "\n" + value;
    assert core[0] == open[0] && core[|core| - 1] == value[|value| - 1];
  }

  /** A printed call that is read as itself has a header that opens no parameter. */
  lemma ReadBackFits(call: Call)
    requires NamesOk(call) && Clean(call) && FindFunctionCall("\n" + Body(call, "\n") + "\n") == Some(call)
    ensures HeaderFits(call)
  {
    hide Body, Params, FirstName, Free, NamesOk, ToDict, HeaderFits, Padded, Strip, Stripped, StartsWith, EndsWith;
    if !HeaderFits(call) {
      BodyEdges(call);
      var tail := FirstSwallowed("", call, "\n");
      assert "" + Body(call, "\n") + "" == Body(call, "\n");
      var params := Params(Body(call, "\n"), PARAMETER, PARAMETER_END);
      NoArgNoFit(call);
      assert call.args[0] in call.args;
      SwallowedIsLonger(call.args[0]);
      assert StripArgs(params)[0].value == Strip(params[0].value);
      FullDict(StripArgs(params));
    }
  }

  lemma NoArgNoFit(call: Call)
    requires !HeaderFits(call)
    ensures call.args != []
  {
  }

  lemma SurvivorsFit(before: string, calls: seq<Call>, after: string)
    requires calls != [] && Free(before, TOOL_CALL) && Free(after, TOOL_CALL)
    requires forall c :: c in calls ==> NamesOk(c) && TagsClosed(c, TOOL_CALL_END)
    requires Parse(before + Printed(calls) + after) == Some(calls)
    ensures forall c :: c in calls ==> Clean(c) && HeaderFits(c)
  {
    hide Free, Body, NamesOk, Clean, TagsClosed, HeaderFits, FindAll, Each, FindFunctionCall, Printed;
    forall c | c in calls
      ensures Clean(c)
    {
      ParsedIsClean(before + Printed(calls) + after, c);
    }
    GroupsFound(before, calls, after);
    var inners := Inners(calls, "\n");
    EachWhole(inners, FindFunctionCall);
    forall c | c in calls
      ensures HeaderFits(c)
    {
      var k :| 0 <= k < |calls| && calls[k] == c;
      ReadBackFits(c);
    }
  }

  /** Printed calls, within any text that opens none, are read back with their names, arguments and order exactly when
      they are clean and no function's name opens a parameter. */
  lemma RoundTrip(before: string, calls: seq<Call>, after: string)
    requires calls != [] && Free(before, TOOL_CALL) && Free(after, TOOL_CALL)
    requires forall c :: c in calls ==> NamesOk(c) && TagsClosed(c, TOOL_CALL_END)
    ensures Parse(before + Printed(calls) + after) == Some(calls) <==>
            forall c :: c in calls ==> Clean(c) && HeaderFits(c)
  {
    hide Parse, Free, NamesOk, TagsClosed, Clean, HeaderFits, Printed;
    if forall c :: c in calls ==> Clean(c) && HeaderFits(c) {
      PrintedIsParsed(before, calls, after);
    }
    if Parse(before + Printed(calls) + after) == Some(calls) {
      SurvivorsFit(before, calls, after);
    }
  }

  // ----- the loops -----

  /** The text so far, when the next of the calls is still to be printed. */
  function Upto(calls: seq<Call>, i: nat): string
    requires i <= |calls|
  {
    if i == 0 then ""
    else
      Upto(calls, i - 1) + TOOL_CALL + ("\n" + Body(calls[i - 1], "\n") + "\n") + TOOL_CALL_END +
      if i < |calls| then "\n" else ""
  }

  lemma {:induction false} UptoIsPrinted(calls: seq<Call>, i: nat)
    requires i <= |calls|
    ensures Printed(calls) == Upto(calls, i) + Printed(calls[i..])
    decreases i
  {
    hide Body, TOOL_CALL, TOOL_CALL_END;
    if i == 0 {
      assert calls[0..] == calls && "" + Printed(calls) == Printed(calls);
    } else {
      UptoIsPrinted(calls, i - 1);
      var rest := calls[i - 1..];
      assert rest[0] == calls[i - 1] && rest[1..] == calls[i..];
      PrintedStep(rest);
      Regroup(Upto(calls, i - 1), TOOL_CALL, "\n" + Body(calls[i - 1], "\n") + "\n", TOOL_CALL_END,
              if i < |calls| then "\n" else "", Printed(calls[i..]));
    }
  }

  lemma PrintedStep(calls: seq<Call>)
    requires calls != []
    ensures Printed(calls) == TOOL_CALL + ("\n" + Body(calls[0], "\n") + "\n") + TOOL_CALL_END +
                              ((if |calls| > 1 then "\n" else "") + Printed(calls[1..]))
  {
    hide Body;
    assert "" + Printed(calls[1..]) == Printed(calls[1..]);
    assert |calls| == 1 ==> Printed(calls[1..]) == "";
  }

  lemma Regroup(a: string, b: string, c: string, d: string, e: string, f: string)
    ensures a + (b + c + d + (e + f)) == a + b + c + d + e + f
  {
  }

  method FormatToolCalls(calls: seq<Call>) returns (text: string)
    ensures text == Printed(calls)
  {
    hide Body, Printed;
    text := "";
    for idx := 0 to |calls|
      invariant text == Upto(calls, idx)
    {
      var body := FormatCall(calls[idx]);
      text := text + TOOL_CALL + ("\n" + body + "\n") + TOOL_CALL_END;
      ghost var printed := text;
      if idx != |calls| - 1 {
        text := text + "\n";
      } else {
        assert printed + "" == printed;
      }
    }
    UptoIsPrinted(calls, |calls|);
    NothingPrinted(calls[|calls|..]);
    assert text + "" == text;
  }

  lemma NothingPrinted(calls: seq<Call>)
    requires calls == []
    ensures Printed(calls) == ""
  {
  }

  /** From `<function=` to `</function>`. */
  method FormatCall(call: Call) returns (text: string)
    ensures text == Body(call, "\n")
  {
    hide ArgText;
    text := FUNCTION + call.name + ">\n";
    assert text == Header(call.name) + "";
    hide Header;
    for i := 0 to |call.args|
      invariant text == Header(call.name) + ArgsText(call.args[..i], "\n")
    {
      var a := call.args[i];
      ArgsTextSnoc(call.args[..i], a, "\n");
      assert call.args[..i + 1] == call.args[..i] + [a];
      ArgLines(a);
      var lines := PARAMETER + a.key + ">\n" + (a.value + "\n</parameter>\n");
      RegroupLine(Header(call.name), ArgsText(call.args[..i], "\n"), ArgText(a, "\n"), "\n");
      RegroupTwo(Header(call.name), ArgsText(call.args[..i], "\n"), lines);
      text := text + lines;
    }
    assert call.args[..|call.args|] == call.args;
    text := text + FUNCTION_END;
  }

  lemma ArgLines(a: Arg)
    ensures PARAMETER + a.key + ">\n" + (a.value + "\n</parameter>\n") == ArgText(a, "\n") + "\n"
  {
    assert ">\n" == ">" + "\n" && "\n</parameter>\n" == "\n" + PARAMETER_END + "\n";
    RegroupLines(PARAMETER, a.key, ">", "\n", a.value, PARAMETER_END);
  }

  lemma RegroupLines(a: string, b: string, c: string, d: string, e: string, f: string)
    ensures a + b + (c + d) + (e + (d + f + d)) == a + b + c + (d + e + d) + f + d
  {
  }

  lemma RegroupTwo(a: string, b: string, c: string)
    ensures a + (b + c) == a + b + c
  {
  }

  method GetToolcall(response: string) returns (functions: Option<seq<Call>>)
    ensures functions == Parse(response)
    ensures var groups := FindAll(response, TOOL_CALL, TOOL_CALL_END, 0);
            if forall i :: 0 <= i < |groups| ==> FindFunctionCall(groups[i]).None? then functions.None?
            else functions.Some? && ReadInOrder(groups, FindFunctionCall, functions.value)
  {
    ParseIs(response);
    hide FindAll, FindFunctionCall, ReadInOrder;
    var toolcallList := FindAll(response, TOOL_CALL, TOOL_CALL_END, 0);
    var found := CollectCalls(toolcallList, FindFunctionCall);
    functions := if |found| == 0 then None else Some(found);
  }
}
