/** The GLM-4.5 and GLM-4.7 templates: `<arg_key>`/`<arg_value>` pairs, joined by a line break or by nothing. */
module GlmToolCalls {
  import opened Wrappers
  import opened Whitespace
  import opened TagText
  import opened ToolCalls

  const TOOL_CALL := "<tool_call>"
  const TOOL_CALL_END := "</tool_call>"
  const ARG_KEY := "<arg_key>"
  const ARG_KEY_END := "</arg_key>"
  const ARG_VALUE := "<arg_value>"
  const ARG_VALUE_END := "</arg_value>"
  const OBSERVATION := "<|observation|>"

  datatype Model = Glm45 | Glm47

  function Sep(model: Model): string {
    if model.Glm45? then "\n" else ""
  }

  // ----- the printed form -----

  function ValueText(a: Arg, sep: string): string {
    sep + ARG_VALUE + a.value + ARG_VALUE_END
  }

  function ArgText(a: Arg, sep: string): string {
    ARG_KEY + a.key + ARG_KEY_END + ValueText(a, sep)
  }

  /** The arguments, with `last` after the last one. */
  function ArgsText(args: seq<Arg>, sep: string, last: string): string {
    if args == [] then ""
    else ArgText(args[0], sep) + if |args| == 1 then last else sep + ArgsText(args[1..], sep, last)
  }

  function Inner(call: Call, sep: string): string {
    call.name + sep + ArgsText(call.args, sep, sep)
  }

  function Inners(calls: seq<Call>, sep: string): (r: seq<string>)
    ensures |r| == |calls| && forall i :: 0 <= i < |calls| ==> r[i] == Inner(calls[i], sep)
  {
    if calls == [] then [] else [Inner(calls[0], sep)] + Inners(calls[1..], sep)
  }

  function Printed(calls: seq<Call>, sep: string): string {
    Blocks(Inners(calls, sep), TOOL_CALL, TOOL_CALL_END, sep) + OBSERVATION
  }

  // ----- parsing -----

  /** The longest non-empty start of the text without a line break or an opening angle bracket. */
  function NameRun(s: string): (n: nat)
    ensures n <= |s| && (forall i :: 0 <= i < n ==> s[i] != '\n' && s[i] != '<')
    ensures n < |s| ==> s[n] == '\n' || s[n] == '<'
  {
    if s == "" || s[0] == '\n' || s[0] == '<' then 0 else 1 + NameRun(s[1..])
  }

  function ZipStripped(keys: seq<string>, values: seq<string>): (r: seq<Arg>)
    requires |keys| == |values|
    ensures |r| == |keys| && forall i :: 0 <= i < |keys| ==> r[i] == Arg(Strip(keys[i]), Strip(values[i]))
  {
    if keys == [] then [] else [Arg(Strip(keys[0]), Strip(values[0]))] + ZipStripped(keys[1..], values[1..])
  }

  /** `_find_function_call` */
  function FindFunctionCall(singleContent: string): Option<Call> {
    var content := Strip(singleContent);
    var n := NameRun(content);
    if n == 0 then None
    else
      var keys := FindAll(content, ARG_KEY, ARG_KEY_END, 0);
      var values := FindAll(content, ARG_VALUE, ARG_VALUE_END, 0);
      if |keys| != |values| then None
      else Some(Call(Strip(content[..n]), ToDict(ZipStripped(keys, values))))
  }

  /** `None` stands for the fallback parser, taken when no group is a call. */
  function Parse(response: string): Option<seq<Call>> {
    var functions := Each(FindAll(response, TOOL_CALL, TOOL_CALL_END, 0), FindFunctionCall);
    if functions == [] then None else Some(functions)
  }

  // ----- what may be printed -----

  predicate NameFits(name: string) {
    name != "" && Stripped(name) && '\n' !in name && '<' !in name
  }

  /** Nothing to strip, and no tag of an argument or of a call that would be taken for the printed end. */
  ghost predicate ArgFits(a: Arg) {
    && Stripped(a.key) && Free(a.key, ARG_KEY_END) && Free(a.key, ARG_VALUE) && Free(a.key, TOOL_CALL_END)
    && Stripped(a.value) && Free(a.value, ARG_VALUE_END) && Free(a.value, TOOL_CALL_END)
  }

  /** No value but the last opens a key; the last may, if the key is not closed. */
  ghost predicate NoKeyInValues(args: seq<Arg>) {
    if args == [] then true
    else if |args| == 1 then NoPair(args[0].value, ARG_KEY, ARG_KEY_END)
    else Free(args[0].value, ARG_KEY) && NoKeyInValues(args[1..])
  }

  ghost predicate CallFits(call: Call) {
    && NameFits(call.name) && DistinctKeys(call.args)
    && (forall a :: a in call.args ==> ArgFits(a))
    && NoKeyInValues(call.args)
  }

  lemma KeyTags()
    ensures Tag(ARG_KEY) && Tag(ARG_KEY_END)
  {
  }

  lemma ValueTags()
    ensures Tag(ARG_VALUE) && Tag(ARG_VALUE_END)
  {
  }

  lemma CallTags()
    ensures Tag(TOOL_CALL) && Tag(TOOL_CALL_END)
  {
  }

  lemma SepFree(sep: string, t: string)
    requires Tag(t) && (sep == "" || sep == "\n")
    ensures Free(sep, t)
  {
    FreePlain(sep, t);
  }

  /** An opening tag, free text, and a closing tag: free when the three pieces are. */
  lemma WrappedFree(open: string, text: string, close: string, t: string)
    requires Tag(t) && Tag(open) && Tag(close) && open[|open| - 1] == '>'
    requires Free(open, t) && Free(text, t) && Free(close, t)
    ensures Free(open + text + close, t)
  {
    hide Free;
    FreeJoin(open, text, t);
    FreeJoin(open + text, close, t);
  }

  lemma KeyTagsDiffer()
    ensures Free(ARG_KEY, ARG_VALUE) && Free(ARG_KEY_END, ARG_VALUE)
    ensures Free(ARG_KEY, TOOL_CALL_END) && Free(ARG_KEY_END, TOOL_CALL_END)
  {
    hide Free;
    ValueTags();
    CallTags();
    FreeOther(ARG_KEY, 5, ARG_VALUE);
    FreeOther(ARG_KEY_END, 1, ARG_VALUE);
    FreeOther(ARG_KEY, 1, TOOL_CALL_END);
    FreeOther(ARG_KEY_END, 2, TOOL_CALL_END);
  }

  lemma ValueTagsDiffer()
    ensures Free(ARG_VALUE, ARG_KEY) && Free(ARG_VALUE_END, ARG_KEY)
    ensures Free(ARG_VALUE, ARG_KEY_END) && Free(ARG_VALUE_END, ARG_KEY_END)
    ensures Free(ARG_VALUE, TOOL_CALL_END) && Free(ARG_VALUE_END, TOOL_CALL_END)
  {
    hide Free;
    KeyTags();
    CallTags();
    FreeOther(ARG_VALUE, 5, ARG_KEY);
    FreeOther(ARG_VALUE, 1, ARG_KEY_END);
    FreeOther(ARG_VALUE_END, 1, ARG_KEY);
    FreeOther(ARG_VALUE_END, 6, ARG_KEY_END);
    FreeOther(ARG_VALUE, 1, TOOL_CALL_END);
    FreeOther(ARG_VALUE_END, 2, TOOL_CALL_END);
  }

  lemma KeyTextFree(a: Arg)
    requires ArgFits(a)
    ensures Free(ARG_KEY + a.key + ARG_KEY_END, ARG_VALUE)
    ensures Free(ARG_KEY + a.key + ARG_KEY_END, TOOL_CALL_END)
  {
    KeyTags();
    hide Free, Tag;
    ValueTags();
    CallTags();
    KeyTagsDiffer();
    WrappedFree(ARG_KEY, a.key, ARG_KEY_END, ARG_VALUE);
    WrappedFree(ARG_KEY, a.key, ARG_KEY_END, TOOL_CALL_END);
  }

  lemma ValueTextFree(a: Arg, sep: string, t: string)
    requires Tag(t) && Free(a.value, t) && Free(ARG_VALUE, t) && Free(ARG_VALUE_END, t) && (sep == "" || sep == "\n")
    ensures Free(ValueText(a, sep), t)
  {
    hide Free, Tag;
    ValueTags();
    SepFree(sep, t);
    var text := ARG_VALUE + a.value + ARG_VALUE_END;
    WrappedFree(ARG_VALUE, a.value, ARG_VALUE_END, t);
    assert text[0] == '<' && ValueText(a, sep) == sep + text;
    FreeJoin(sep, text, t);
  }

  /** Keys opened and closed in a printed value are those in the value itself. */
  lemma PairInValueText(a: Arg, sep: string)
    requires sep == "" || sep == "\n"
    ensures NoPair(ValueText(a, sep), ARG_KEY, ARG_KEY_END) <==> NoPair(a.value, ARG_KEY, ARG_KEY_END)
  {
    hide Free, Tag, NoPair;
    KeyTags();
    ValueTagsDiffer();
    SepFree(sep, ARG_KEY);
    SepFree(sep, ARG_KEY_END);
    FreeJoin(sep, ARG_VALUE, ARG_KEY);
    FreeJoin(sep, ARG_VALUE, ARG_KEY_END);
    NoPairInside(sep + ARG_VALUE, a.value, ARG_VALUE_END, ARG_KEY, ARG_KEY_END);
  }

  lemma ArgTextEnds(a: Arg, sep: string)
    requires sep == "" || sep == "\n"
    ensures var s := ArgText(a, sep); s != "" && s[0] == '<' && s[|s| - 1] == '>'
    ensures var v := ValueText(a, sep); v != "" && (v[0] == '<' || v[0] == '\n') && v[|v| - 1] == '>'
  {
  }

  lemma ArgTextFree(a: Arg, sep: string)
    requires ArgFits(a) && (sep == "" || sep == "\n")
    ensures Free(ArgText(a, sep), TOOL_CALL_END)
  {
    hide Free, ValueText;
    CallTags();
    KeyTextFree(a);
    ValueTagsDiffer();
    ValueTextFree(a, sep, TOOL_CALL_END);
    ArgTextEnds(a, sep);
    FreeJoin(ARG_KEY + a.key + ARG_KEY_END, ValueText(a, sep), TOOL_CALL_END);
  }

  lemma {:induction false} ArgsTextFree(args: seq<Arg>, sep: string, last: string)
    requires (sep == "" || sep == "\n") && (last == "" || last == "\n") && forall a :: a in args ==> ArgFits(a)
    ensures Free(ArgsText(args, sep, last), TOOL_CALL_END)
    ensures args != [] ==> ArgsText(args, sep, last) != "" && ArgsText(args, sep, last)[0] == '<'
  {
    hide Free, ArgFits, ArgText, Tag;
    CallTags();
    SepFree(sep, TOOL_CALL_END);
    SepFree(last, TOOL_CALL_END);
    if args == [] {
      SepFree("", TOOL_CALL_END);
    } else {
      var head := ArgText(args[0], sep);
      ArgTextFree(args[0], sep);
      ArgTextEnds(args[0], sep);
      if |args| == 1 {
        FreeJoin(head, last, TOOL_CALL_END);
      } else {
        ArgsTextFree(args[1..], sep, last);
        var rest := ArgsText(args[1..], sep, last);
        FreeJoin(sep, rest, TOOL_CALL_END);
        FreeJoin(head, sep + rest, TOOL_CALL_END);
      }
    }
  }

  lemma InnerFree(call: Call, sep: string)
    requires NameFits(call.name) && (forall a :: a in call.args ==> ArgFits(a)) && (sep == "" || sep == "\n")
    ensures Free(Inner(call, sep), TOOL_CALL_END)
  {
    hide Free, ArgFits, Tag, ArgsText;
    CallTags();
    FreePlain(call.name, TOOL_CALL_END);
    SepFree(sep, TOOL_CALL_END);
    ArgsTextFree(call.args, sep, sep);
    FreeJoin(call.name, sep, TOOL_CALL_END);
    NoArgs(sep, sep);
    FreeJoin(call.name + sep, ArgsText(call.args, sep, sep), TOOL_CALL_END);
  }

  lemma NoArgs(sep: string, last: string)
    ensures ArgsText([], sep, last) == ""
  {
  }

  // ----- stripping -----

  /** The inner text without the line break at its end. */
  function Core(call: Call, sep: string): string {
    Head(call, sep) + ArgsText(call.args, sep, "")
  }

  lemma {:induction false} ArgsTextLast(args: seq<Arg>, sep: string)
    requires args != [] && (sep == "" || sep == "\n")
    ensures ArgsText(args, sep, sep) == ArgsText(args, sep, "") + sep
    ensures var s := ArgsText(args, sep, ""); s != "" && s[|s| - 1] == '>'
  {
    hide ArgText;
    var head := ArgText(args[0], sep);
    ArgTextEnds(args[0], sep);
    if |args| == 1 {
      assert head + "" == head;
    } else {
      ArgsTextLast(args[1..], sep);
      var rest := ArgsText(args[1..], sep, "");
      assert head + (sep + (rest + sep)) == head + (sep + rest) + sep;
    }
  }

  lemma StrippedInner(call: Call, sep: string)
    requires NameFits(call.name) && (sep == "" || sep == "\n")
    ensures Strip(Inner(call, sep)) == Core(call, sep)
  {
    hide Strip, ArgsText, IsSpace;
    Spaces();
    var core := Core(call, sep);
    NoArgs(sep, sep);
    NoArgs(sep, "");
    if call.args != [] {
      ArgsTextLast(call.args, sep);
    }
    assert core[0] == call.name[0];
    assert Inner(call, sep) == "" + core + sep;
    StripPadded("", core, sep);
  }

  lemma Spaces()
    ensures Blank("\n") && Blank("") && !IsSpace('<') && !IsSpace('>')
  {
  }

  lemma CoreName(call: Call, sep: string)
    requires NameFits(call.name) && (sep == "" || sep == "\n")
    ensures NameRun(Core(call, sep)) == |call.name| && Core(call, sep)[..|call.name|] == call.name
  {
    hide Stripped, ArgText;
    var core, n := Core(call, sep), |call.name|;
    if call.args != [] {
      ArgTextEnds(call.args[0], sep);
      assert core[n] == if sep == "" then ArgText(call.args[0], sep)[0] else '\n';
    }
    forall i | 0 <= i < n
      ensures core[i] != '\n' && core[i] != '<'
    {
      assert core[i] == call.name[i] && call.name[i] in call.name;
    }
  }

  // ----- the keys and the values are found -----

  function Keys(args: seq<Arg>): (r: seq<string>)
    ensures |r| == |args| && forall i :: 0 <= i < |args| ==> r[i] == args[i].key
  {
    if args == [] then [] else [args[0].key] + Keys(args[1..])
  }

  function Values(args: seq<Arg>): (r: seq<string>)
    ensures |r| == |args| && forall i :: 0 <= i < |args| ==> r[i] == args[i].value
  {
    if args == [] then [] else [args[0].value] + Values(args[1..])
  }

  lemma ArgsTextSplits(before: string, args: seq<Arg>, sep: string)
    requires args != []
    ensures var more := if |args| == 1 then "" else sep + ArgsText(args[1..], sep, "");
            && before + ArgsText(args, sep, "") ==
               before + ARG_KEY + args[0].key + ARG_KEY_END + (ValueText(args[0], sep) + more)
            && before + ArgsText(args, sep, "") ==
               (before + (ARG_KEY + args[0].key + ARG_KEY_END) + sep) + ARG_VALUE + args[0].value + ARG_VALUE_END + more
  {
    var a := args[0];
    var more := if |args| == 1 then "" else sep + ArgsText(args[1..], sep, "");
    Regroup(before, ARG_KEY, a.key, ARG_KEY_END, sep, ARG_VALUE, a.value, ARG_VALUE_END, more);
  }

  lemma Regroup(a: string, b: string, c: string, d: string, e: string, f: string, g: string, h: string, i: string)
    ensures a + (b + c + d + (e + f + g + h) + i) == a + b + c + d + ((e + f + g + h) + i)
    ensures a + (b + c + d + (e + f + g + h) + i) == (a + (b + c + d) + e) + f + g + h + i
  {
    assert a + (b + c + d + (e + f + g + h) + i) == a + b + c + d + e + f + g + h + i;
  }

  lemma {:induction false} KeysFound(before: string, args: seq<Arg>, sep: string)
    requires Free(before, ARG_KEY) && (sep == "" || sep == "\n")
    requires (forall a :: a in args ==> Free(a.key, ARG_KEY_END)) && NoKeyInValues(args)
    ensures FindAll(before + ArgsText(args, sep, ""), ARG_KEY, ARG_KEY_END, 0) == Keys(args)
    decreases |args|
  {
    hide Free, Tag, ArgsText, ValueText, FindAll, NoPair;
    KeyTags();
    if args == [] {
      NoArgs(sep, "");
      assert before + "" == before;
      FindAllNone(before, ARG_KEY, ARG_KEY_END, 0);
    } else {
      NextKey(before, args, sep);
      var value := ValueText(args[0], sep);
      if |args| == 1 {
        PairInValueText(args[0], sep);
        NothingFound(value, ARG_KEY, ARG_KEY_END);
      } else {
        ValueTagsDiffer();
        SepFree(sep, ARG_KEY);
        ValueTextFree(args[0], sep, ARG_KEY);
        ArgTextEnds(args[0], sep);
        FreeJoin(value, sep, ARG_KEY);
        KeysFound(value + sep, args[1..], sep);
      }
    }
  }

  /** What stands before the key after the next: the value, and the separator if another argument follows. */
  function Between(args: seq<Arg>, sep: string): string
    requires args != []
  {
    ValueText(args[0], sep) + if |args| == 1 then "" else sep
  }

  /** The next key is found; the search goes on with its value. */
  lemma NextKey(before: string, args: seq<Arg>, sep: string)
    requires args != [] && Free(before, ARG_KEY) && Free(args[0].key, ARG_KEY_END)
    ensures FindAll(before + ArgsText(args, sep, ""), ARG_KEY, ARG_KEY_END, 0) ==
            [args[0].key] + FindAll(Between(args, sep) + ArgsText(args[1..], sep, ""), ARG_KEY, ARG_KEY_END, 0)
    ensures |args| == 1 ==> Between(args, sep) + ArgsText(args[1..], sep, "") == ValueText(args[0], sep)
  {
    hide Free, Tag, ArgsText, ValueText, FindAll;
    KeyTags();
    var value := ValueText(args[0], sep);
    var more := if |args| == 1 then "" else sep + ArgsText(args[1..], sep, "");
    ArgsTextSplits(before, args, sep);
    FindAllNext(before, ARG_KEY, args[0].key, ARG_KEY_END, value + more, 0);
    NoArgs(sep, "");
    if |args| == 1 {
      assert args[1..] == [];
      assert value + "" == value + "" + "";
    } else {
      assert value + (sep + ArgsText(args[1..], sep, "")) == value + sep + ArgsText(args[1..], sep, "");
    }
  }

  lemma {:induction false} ValuesFound(before: string, args: seq<Arg>, sep: string)
    requires Free(before, ARG_VALUE) && (sep == "" || sep == "\n") && forall a :: a in args ==> ArgFits(a)
    ensures FindAll(before + ArgsText(args, sep, ""), ARG_VALUE, ARG_VALUE_END, 0) == Values(args)
    decreases |args|
  {
    hide Free, Tag, ArgsText, FindAll;
    ValueTags();
    if args == [] {
      NoArgs(sep, "");
      assert before + "" == before;
      FindAllNone(before, ARG_VALUE, ARG_VALUE_END, 0);
    } else {
      var key := ARG_KEY + args[0].key + ARG_KEY_END;
      var more := if |args| == 1 then "" else sep + ArgsText(args[1..], sep, "");
      ArgsTextSplits(before, args, sep);
      KeyTextFree(args[0]);
      SepFree(sep, ARG_VALUE);
      assert key[0] == '<' && key[|key| - 1] == '>';
      FreeJoin(before, key, ARG_VALUE);
      FreeJoin(before + key, sep, ARG_VALUE);
      FindAllNext(before + key + sep, ARG_VALUE, args[0].value, ARG_VALUE_END, more, 0);
      if |args| == 1 {
        SepFree("", ARG_VALUE);
        FindAllNone("", ARG_VALUE, ARG_VALUE_END, 0);
      } else {
        ValuesFound(sep, args[1..], sep);
      }
    }
  }

  // ----- what is printed is read back -----

  lemma ZippedBack(args: seq<Arg>)
    requires forall a :: a in args ==> Stripped(a.key) && Stripped(a.value)
    ensures ZipStripped(Keys(args), Values(args)) == args
  {
    hide Strip, Stripped;
    forall i | 0 <= i < |args|
      ensures ZipStripped(Keys(args), Values(args))[i] == args[i]
    {
      assert args[i] in args;
      StripStripped(args[i].key);
      StripStripped(args[i].value);
    }
  }

  /** What stands in a call before its first key. */
  function Head(call: Call, sep: string): string {
    call.name + if call.args == [] then "" else sep
  }

  lemma HeadFree(call: Call, sep: string, t: string)
    requires Tag(t) && NameFits(call.name) && (sep == "" || sep == "\n")
    ensures Free(Head(call, sep), t)
  {
    hide Free, Tag;
    var mid := if call.args == [] then "" else sep;
    SepFree(mid, t);
    FreePlain(call.name, t);
    FreeJoin(call.name, mid, t);
  }

  lemma CoreKeys(call: Call, sep: string)
    requires CallFits(call) && (sep == "" || sep == "\n")
    ensures FindAll(Core(call, sep), ARG_KEY, ARG_KEY_END, 0) == Keys(call.args)
  {
    hide Free, Tag, ArgsText, FindAll, NoKeyInValues;
    KeyTags();
    HeadFree(call, sep, ARG_KEY);
    KeysFound(Head(call, sep), call.args, sep);
  }

  lemma CoreValues(call: Call, sep: string)
    requires NameFits(call.name) && (forall a :: a in call.args ==> ArgFits(a)) && (sep == "" || sep == "\n")
    ensures FindAll(Core(call, sep), ARG_VALUE, ARG_VALUE_END, 0) == Values(call.args)
  {
    hide Free, Tag, ArgsText, FindAll, ArgFits;
    ValueTags();
    HeadFree(call, sep, ARG_VALUE);
    ValuesFound(Head(call, sep), call.args, sep);
  }

  lemma FoundBack(call: Call, sep: string)
    requires CallFits(call) && (sep == "" || sep == "\n")
    ensures FindFunctionCall(Inner(call, sep)) == Some(call)
  {
    hide Free, ArgsText, FindAll, Strip, Stripped, NameRun, Inner, Core, ToDict, DistinctKeys, Keys, Values,
         ZipStripped;
    StrippedInner(call, sep);
    CoreName(call, sep);
    CoreKeys(call, sep);
    CoreValues(call, sep);
    ZippedBack(call.args);
    DistinctIsDict(call.args);
    StripStripped(call.name);
  }

  /** With either separator: printed calls, within any text that opens none, are read back with their names, arguments
      and order. */
  lemma RoundTrip(before: string, calls: seq<Call>, after: string, model: Model)
    requires calls != [] && Free(before, TOOL_CALL) && Free(after, TOOL_CALL)
    requires forall c :: c in calls ==> CallFits(c)
    ensures Parse(before + Printed(calls, Sep(model)) + after) == Some(calls)
  {
    hide Free, Inner, FindAll, Each, FindFunctionCall, Tag, NameFits, ArgFits, NoKeyInValues, DistinctKeys;
    var sep := Sep(model);
    CallTags();
    SepFree(sep, TOOL_CALL);
    var inners := Inners(calls, sep);
    forall k | 0 <= k < |inners|
      ensures Free(inners[k], TOOL_CALL_END) && FindFunctionCall(inners[k]) == Some(calls[k])
    {
      assert calls[k] in calls;
      InnerFree(calls[k], sep);
      FoundBack(calls[k], sep);
    }
    InnersFound(before, inners, after, sep);
    EachBack(inners, FindFunctionCall, calls);
  }

  /** A block that is no call is passed over, wherever it stands among the calls. */
  lemma NoiseIgnored(before: string, calls: seq<Call>, noise: string, k: nat, after: string, model: Model)
    requires calls != [] && Free(before, TOOL_CALL) && Free(after, TOOL_CALL) && k <= |calls|
    requires forall c :: c in calls ==> CallFits(c)
    requires Free(noise, TOOL_CALL_END) && FindFunctionCall(noise).None?
    ensures var blocks := Inners(calls, Sep(model))[..k] + [noise] + Inners(calls, Sep(model))[k..];
            Parse(before + Blocks(blocks, TOOL_CALL, TOOL_CALL_END, Sep(model)) + after) == Some(calls)
  {
    hide Free, Inner, FindAll, Each, FindFunctionCall, Tag, Blocks, CallFits;
    var sep := Sep(model);
    CallTags();
    SepFree(sep, TOOL_CALL);
    var inners := Inners(calls, sep);
    forall i | 0 <= i < |inners|
      ensures Free(inners[i], TOOL_CALL_END) && FindFunctionCall(inners[i]) == Some(calls[i])
    {
      assert calls[i] in calls;
      CallReads(calls[i], sep);
    }
    NoiseSkipped(before, inners, calls, noise, k, after, TOOL_CALL, TOOL_CALL_END, sep, 0, FindFunctionCall);
  }

  lemma CallReads(call: Call, sep: string)
    requires CallFits(call) && (sep == "" || sep == "\n")
    ensures Free(Inner(call, sep), TOOL_CALL_END) && FindFunctionCall(Inner(call, sep)) == Some(call)
  {
    hide Free, Inner, FindFunctionCall;
    InnerFree(call, sep);
    FoundBack(call, sep);
  }

  /** The fallback is taken exactly when no block is a call. */
  lemma ParseIs(response: string)
    ensures var groups := FindAll(response, TOOL_CALL, TOOL_CALL_END, 0);
            && (Parse(response).None? <==> forall i :: 0 <= i < |groups| ==> FindFunctionCall(groups[i]).None?)
            && (Parse(response).Some? ==> Parse(response) == Some(Each(groups, FindFunctionCall)))
  {
    hide FindAll, Each, FindFunctionCall;
    EachNothing(FindAll(response, TOOL_CALL, TOOL_CALL_END, 0), FindFunctionCall);
  }

  /** A block is a call exactly if, stripped, it starts with a name and has as many keys as values; the call has the
      name up to the first line break or tag, and its dictionary pairs keys and values in order. */
  lemma CallIs(group: string)
    ensures var content := Strip(group);
            var keys := FindAll(content, ARG_KEY, ARG_KEY_END, 0);
            var values := FindAll(content, ARG_VALUE, ARG_VALUE_END, 0);
            && (FindFunctionCall(group).Some? <==>
                content != "" && content[0] != '\n' && content[0] != '<' && |keys| == |values|)
            && (FindFunctionCall(group).Some? ==>
                  var call := FindFunctionCall(group).value;
                  && (exists n: nat :: 0 < n <= |content| && call.name == Strip(content[..n]) &&
                                       (forall i :: 0 <= i < n ==> content[i] != '\n' && content[i] != '<') &&
                                       (n < |content| ==> content[n] == '\n' || content[n] == '<'))
                  && call.args == ToDict(ZipStripped(keys, values)))
  {
    hide Strip, FindAll, ToDict;
    var content := Strip(group);
    assert content != "" && NameRun(content) == 0 ==> content[0] == '\n' || content[0] == '<';
  }

  /** One call with two arguments, and two without any, letter by letter, for both models. */
  lemma PrintedText(name: string, key: string, value: string, key2: string, value2: string, model: Model)
    ensures var n := if model.Glm45? then "\n" else "";
            Printed([Call(name, [Arg(key, value), Arg(key2, value2)])], Sep(model)) ==
            "<tool_call>" + name + n +
            ("<arg_key>" + key + "</arg_key>" + n + "<arg_value>" + value + "</arg_value>" + n) +
            ("<arg_key>" + key2 + "</arg_key>" + n + "<arg_value>" + value2 + "</arg_value>" + n) +
            "</tool_call>" + "<|observation|>"
  {
    var n := Sep(model);
    var a, b := Arg(key, value), Arg(key2, value2);
    var call := Call(name, [a, b]);
    assert [a, b][1..] == [b];
    assert ArgsText([b], n, n) == ArgText(b, n) + n;
    assert ArgsText([a, b], n, n) == ArgText(a, n) + (n + (ArgText(b, n) + n));
    LinePieces(a, n);
    LinePieces(b, n);
    hide ArgText, ArgsText;
    assert Inners([call], n) == [Inner(call, n)];
    RegroupPrinted("<tool_call>", name, n, ArgText(a, n), ArgText(b, n), "</tool_call>", "<|observation|>");
  }

  lemma LinePieces(a: Arg, n: string)
    ensures ArgText(a, n) + n ==
            "<arg_key>" + a.key + "</arg_key>" + n + "<arg_value>" + a.value + "</arg_value>" + n
  {
    RegroupLine("<arg_key>", a.key, "</arg_key>", n, "<arg_value>", a.value, "</arg_value>");
  }

  lemma RegroupLine(a: string, b: string, c: string, d: string, e: string, f: string, g: string)
    ensures a + b + c + (d + e + f + g) + d == a + b + c + d + e + f + g + d
  {
  }

  lemma RegroupPrinted(a: string, b: string, n: string, x: string, y: string, z: string, o: string)
    ensures a + (b + n + (x + (n + (y + n)))) + z + "" + o == a + b + n + (x + n) + (y + n) + z + o
  {
  }

  lemma PrintedCalls(a: string, b: string, model: Model)
    ensures Printed([Call(a, []), Call(b, [])], Sep(model)) ==
            "<tool_call>" + Inner(Call(a, []), Sep(model)) + "</tool_call>" + (if model.Glm45? then "\n" else "") +
            Printed([Call(b, [])], Sep(model))
    ensures Printed([], Sep(model)) == "<|observation|>"
  {
    hide Inner;
    var n := Sep(model);
    var x, y := Call(a, []), Call(b, []);
    assert [x, y][1..] == [y];
    assert Inners([y], n) == [Inner(y, n)];
    assert Inners([x, y], n)[1..] == Inners([y], n);
  }

  /** The groups of the response are the printed calls. */
  lemma InnersFound(before: string, inners: seq<string>, after: string, sep: string)
    requires inners != [] && Free(before, TOOL_CALL) && Free(after, TOOL_CALL) && (sep == "" || sep == "\n")
    requires forall k :: 0 <= k < |inners| ==> Free(inners[k], TOOL_CALL_END)
    ensures FindAll(before + (Blocks(inners, TOOL_CALL, TOOL_CALL_END, sep) + OBSERVATION) + after,
                    TOOL_CALL, TOOL_CALL_END, 0) == inners
  {
    hide Free, FindAll, Tag;
    CallTags();
    SepFree(sep, TOOL_CALL);
    ObservationFree();
    FreeJoin(OBSERVATION, after, TOOL_CALL);
    BlocksFound(before, inners, OBSERVATION + after, TOOL_CALL, TOOL_CALL_END, sep, 0);
    var blocks := Blocks(inners, TOOL_CALL, TOOL_CALL_END, sep);
    assert before + (blocks + OBSERVATION) + after == before + blocks + (OBSERVATION + after);
  }

  lemma ObservationFree()
    ensures Free(OBSERVATION, TOOL_CALL)
  {
    hide Free;
    CallTags();
    FreeOther(OBSERVATION, 1, TOOL_CALL);
  }

  // ----- what can be read at all -----

  /** Stripped, and without the tags that end the key, the value or the call. */
  ghost predicate Readable(a: Arg) {
    && Stripped(a.key) && Free(a.key, ARG_KEY_END) && Free(a.key, TOOL_CALL_END)
    && Stripped(a.value) && Free(a.value, ARG_VALUE_END) && Free(a.value, TOOL_CALL_END)
  }

  lemma NameIsFit(content: string)
    requires Stripped(content) && NameRun(content) > 0
    ensures NameFits(Strip(content[..NameRun(content)]))
  {
    var run := content[..NameRun(content)];
    hide NameRun, Strip, IsSpace;
    StripIsStripped(run);
    StripKeeps(run, 0);
    var a, b :| 0 <= a <= b <= |run| && Strip(run) == run[a..b];
    assert forall c :: c in run[a..b] ==> c in run;
  }

  lemma FoundIsReadable(group: string, call: Call)
    requires Free(group, TOOL_CALL_END) && FindFunctionCall(group) == Some(call)
    ensures NameFits(call.name) && forall a :: a in call.args ==> Readable(a)
  {
    hide Free, FindAll, Strip, Stripped, NameRun;
    var content := Strip(group);
    StripIsFree(group, TOOL_CALL_END);
    StripIsStripped(group);
    NameIsFit(content);
    var keys := FindAll(content, ARG_KEY, ARG_KEY_END, 0);
    var values := FindAll(content, ARG_VALUE, ARG_VALUE_END, 0);
    forall a | a in call.args
      ensures Readable(a)
    {
      InsertAllMember([], ZipStripped(keys, values), a);
      var i :| 0 <= i < |keys| && ZipStripped(keys, values)[i] == a;
      PieceIsReadable(content, ARG_KEY, ARG_KEY_END, keys[i]);
      PieceIsReadable(content, ARG_VALUE, ARG_VALUE_END, values[i]);
    }
  }

  lemma PieceIsReadable(content: string, open: string, close: string, piece: string)
    requires Free(content, TOOL_CALL_END) && |open| > 0 && |close| > 0 && piece in FindAll(content, open, close, 0)
    ensures var s := Strip(piece); Stripped(s) && Free(s, close) && Free(s, TOOL_CALL_END)
  {
    hide Free, FindAll, Strip, Stripped;
    FoundIsFree(content, open, close, 0, piece);
    assert piece[0..] == piece;
    FoundIsPart(content, open, close, 0, piece);
    var lo, hi :| 0 <= lo <= hi <= |content| && piece == content[lo..hi];
    FreePart(content, lo, hi, TOOL_CALL_END);
    StripIsFree(piece, close);
    StripIsFree(piece, TOOL_CALL_END);
    StripIsStripped(piece);
  }

  /** Whatever the response, what is read is stripped and holds no closing tag; so nothing else survives the trip. */
  lemma ParsedIsReadable(response: string, call: Call)
    requires Parse(response).Some? && call in Parse(response).value
    ensures NameFits(call.name) && forall a :: a in call.args ==> Readable(a)
  {
    hide FindFunctionCall, FindAll, Free, Readable, Stripped;
    var groups := FindAll(response, TOOL_CALL, TOOL_CALL_END, 0);
    EachMember(groups, FindFunctionCall, call);
    var g :| g in groups && FindFunctionCall(g) == Some(call);
    FoundIsFree(response, TOOL_CALL, TOOL_CALL_END, 0, g);
    assert g[0..] == g;
    FoundIsReadable(g, call);
  }

  // ----- nothing else survives the trip -----

  predicate AllPlain(keys: seq<string>) {
    forall i :: 0 <= i < |keys| ==> Plain(keys[i])
  }

  lemma PlainRest(key: string, rest: seq<string>)
    requires AllPlain([key] + rest)
    ensures Plain(key) && AllPlain(rest)
  {
    var keys := [key] + rest;
    assert keys[0] == key;
    forall i | 0 <= i < |rest|
      ensures Plain(rest[i])
    {
      assert keys[i + 1] == rest[i];
    }
  }

  /** The keys found in `before` and the arguments, none of them with an angle bracket: at least one for every
      argument, and one more for every key that a value opens. */
  lemma {:induction false} KeysCounted(before: string, args: seq<Arg>, sep: string)
    requires (sep == "" || sep == "\n") && forall a :: a in args ==> Plain(a.key)
    requires AllPlain(FindAll(before + ArgsText(args, sep, ""), ARG_KEY, ARG_KEY_END, 0))
    ensures var found := FindAll(before + ArgsText(args, sep, ""), ARG_KEY, ARG_KEY_END, 0);
            && |found| >= |args|
            && (|found| == |args| ==>
                  && NoKeyInValues(args)
                  && if args == [] then NoPair(before, ARG_KEY, ARG_KEY_END) else Free(before, ARG_KEY))
    decreases |args|, |before|
  {
    hide Free, NoPair, Tag, ArgsText, FindAll, Between, AllPlain;
    if args == [] {
      NoArgs(sep, "");
      assert before + "" == before;
      NothingFound(before, ARG_KEY, ARG_KEY_END);
    } else if Free(before, ARG_KEY) {
      PlainKeyFree(args[0].key);
      NextKey(before, args, sep);
      PlainRest(args[0].key,
                FindAll(Between(args, sep) + ArgsText(args[1..], sep, ""), ARG_KEY, ARG_KEY_END, 0));
      KeysCounted(Between(args, sep), args[1..], sep);
      BetweenValue(args, sep);
    } else {
      KeyTags();
      var shorter := KeyOpened(before, args, sep);
      KeysCounted(shorter, args, sep);
    }
  }

  lemma PlainKeyFree(key: string)
    requires Plain(key)
    ensures Free(key, ARG_KEY_END) && Free(key, ARG_VALUE) && Free(key, TOOL_CALL_END)
  {
    hide Free;
    KeyTags();
    ValueTags();
    CallTags();
    FreePlain(key, ARG_KEY_END);
    FreePlain(key, ARG_VALUE);
    FreePlain(key, TOOL_CALL_END);
  }

  lemma MiddlePart(a: string, v: string, b: string, c: string)
    ensures (a + v + b + c)[|a|..|a| + |v|] == v
  {
  }

  lemma BetweenValue(args: seq<Arg>, sep: string)
    requires args != [] && (sep == "" || sep == "\n")
    ensures Free(Between(args, sep), ARG_KEY) ==> Free(args[0].value, ARG_KEY)
    ensures |args| == 1 && NoPair(Between(args, sep), ARG_KEY, ARG_KEY_END) ==>
              NoPair(args[0].value, ARG_KEY, ARG_KEY_END)
  {
    hide Free, NoPair;
    var text, value := Between(args, sep), args[0].value;
    var lo := |sep + ARG_VALUE|;
    MiddlePart(sep + ARG_VALUE, value, ARG_VALUE_END, if |args| == 1 then "" else sep);
    if Free(text, ARG_KEY) {
      FreePart(text, lo, lo + |value|, ARG_KEY);
    }
    if |args| == 1 {
      assert text == ValueText(args[0], sep);
      PairInValueText(args[0], sep);
    }
  }

  /** A key opened before the arguments is closed before them, as otherwise it would hold an angle bracket: it is found,
      and the search goes on behind it. */
  lemma KeyOpened(before: string, args: seq<Arg>, sep: string) returns (shorter: string)
    requires args != [] && !Free(before, ARG_KEY) && Plain(args[0].key)
    requires AllPlain(FindAll(before + ArgsText(args, sep, ""), ARG_KEY, ARG_KEY_END, 0))
    ensures |shorter| < |before|
    ensures AllPlain(FindAll(shorter + ArgsText(args, sep, ""), ARG_KEY, ARG_KEY_END, 0))
    ensures |FindAll(before + ArgsText(args, sep, ""), ARG_KEY, ARG_KEY_END, 0)| ==
            1 + |FindAll(shorter + ArgsText(args, sep, ""), ARG_KEY, ARG_KEY_END, 0)|
  {
    hide Free, Tag, ArgsText, FindAll, AllPlain, At, Find;
    KeyTags();
    var i := Find(before, ARG_KEY).value;
    var start, rest := before[..i], before[i + |ARG_KEY|..];
    FreeBeforeFirst(before, i, ARG_KEY);
    SplitAt(before, i, ARG_KEY);
    var args' := ArgsText(args, sep, "");
    match Find(rest, ARG_KEY_END)
    case Some(j) =>
      FreeBeforeFirst(rest, j, ARG_KEY_END);
      SplitAt(rest, j, ARG_KEY_END);
      shorter := rest[j + |ARG_KEY_END|..];
      RegroupFound(start, ARG_KEY, rest[..j], ARG_KEY_END, shorter, args');
      FindAllNext(start, ARG_KEY, rest[..j], ARG_KEY_END, shorter + args', 0);
      PlainRest(rest[..j], FindAll(shorter + args', ARG_KEY, ARG_KEY_END, 0));
    case None =>
      SwallowsKey(start, rest, args, sep);
      shorter := "";
      assert false;
  }

  lemma RegroupFound(a: string, b: string, c: string, d: string, e: string, f: string)
    ensures a + b + (c + d + e) + f == a + b + c + d + (e + f)
  {
  }

  /** An opened key that is not closed runs on to the end of the next one. */
  lemma SwallowsKey(start: string, rest: string, args: seq<Arg>, sep: string)
    requires args != [] && Free(start, ARG_KEY) && Free(rest, ARG_KEY_END) && Plain(args[0].key)
    ensures !AllPlain(FindAll(start + ARG_KEY + rest + ArgsText(args, sep, ""), ARG_KEY, ARG_KEY_END, 0))
  {
    hide Free, Tag, ArgsText, FindAll;
    KeyTags();
    PlainKeyFree(args[0].key);
    KeyNotEnd();
    var key := rest + ARG_KEY + args[0].key;
    FreeJoin(rest, ARG_KEY, ARG_KEY_END);
    FreeJoin(rest + ARG_KEY, args[0].key, ARG_KEY_END);
    var more := if |args| == 1 then "" else sep + ArgsText(args[1..], sep, "");
    var after := ValueText(args[0], sep) + more;
    ArgsTextSplits(start + ARG_KEY + rest, args, sep);
    RegroupFound(start, ARG_KEY, rest, ARG_KEY, args[0].key, ARG_KEY_END + after);
    RegroupSwallowed(start, ARG_KEY, rest, args[0].key, ARG_KEY_END, after);
    FindAllNext(start, ARG_KEY, key, ARG_KEY_END, after, 0);
    var found := FindAll(start + ARG_KEY + rest + ArgsText(args, sep, ""), ARG_KEY, ARG_KEY_END, 0);
    assert found[0] == key && key[|rest|] == '<';
  }

  lemma KeyNotEnd()
    ensures Free(ARG_KEY, ARG_KEY_END)
  {
    hide Free;
    KeyTags();
    FreeOther(ARG_KEY, 1, ARG_KEY_END);
  }

  lemma RegroupSwallowed(a: string, b: string, c: string, d: string, e: string, f: string)
    ensures a + b + c + b + d + e + f == a + b + (c + b + d) + e + f
  {
  }

  lemma ReadKeysPlain(keys: seq<string>, values: seq<string>, args: seq<Arg>)
    requires |keys| == |values| && ZipStripped(keys, values) == args && forall a :: a in args ==> Plain(a.key)
    ensures AllPlain(keys)
  {
    hide Strip;
    forall i | 0 <= i < |keys|
      ensures Plain(keys[i])
    {
      assert args[i] in args && args[i].key == Strip(keys[i]);
      if k :| 0 <= k < |keys[i]| && keys[i][k] == '<' {
        StripKeeps(keys[i], k);
      }
    }
  }

  /** A call that is read back as itself opens no key in its values. */
  lemma ReadBackIsClean(call: Call, sep: string)
    requires NameFits(call.name) && (sep == "" || sep == "\n") && FindFunctionCall(Inner(call, sep)) == Some(call)
    requires forall a :: a in call.args ==> ArgFits(a) && Plain(a.key)
    ensures NoKeyInValues(call.args)
  {
    hide ArgFits, Plain, ArgsText, FindAll, Strip, NameRun, Inner, Head, ToDict, ZipStripped, Keys, Values,
         NoKeyInValues, Stripped;
    StrippedInner(call, sep);
    CoreValues(call, sep);
    var keys := FindAll(Core(call, sep), ARG_KEY, ARG_KEY_END, 0);
    FullDict(ZipStripped(keys, Values(call.args)));
    ReadKeysPlain(keys, Values(call.args), call.args);
    KeysCounted(Head(call, sep), call.args, sep);
  }

  /** The keys are what a tool's schema declares, without angle brackets, and those of a dictionary. */
  ghost predicate SchemaKeys(calls: seq<Call>) {
    forall c :: c in calls ==> DistinctKeys(c.args) && forall a :: a in c.args ==> Plain(a.key)
  }

  /** Exactly which calls survive printing and parsing, with either separator. */
  lemma RoundTripIff(before: string, calls: seq<Call>, after: string, model: Model)
    requires calls != [] && Free(before, TOOL_CALL) && Free(after, TOOL_CALL) && SchemaKeys(calls)
    ensures Parse(before + Printed(calls, Sep(model)) + after) == Some(calls) <==>
            forall c :: c in calls ==> CallFits(c)
  {
    hide Free, CallFits, Parse, Printed;
    if forall c :: c in calls ==> CallFits(c) {
      RoundTrip(before, calls, after, model);
    }
    if Parse(before + Printed(calls, Sep(model)) + after) == Some(calls) {
      SurvivorsFit(before, calls, after, model);
    }
  }

  lemma SurvivorsFit(before: string, calls: seq<Call>, after: string, model: Model)
    requires calls != [] && Free(before, TOOL_CALL) && Free(after, TOOL_CALL) && SchemaKeys(calls)
    requires Parse(before + Printed(calls, Sep(model)) + after) == Some(calls)
    ensures forall c :: c in calls ==> CallFits(c)
  {
    hide Free, Inner, FindAll, Each, FindFunctionCall, Tag, Readable, NameFits, ArgFits, DistinctKeys, Plain,
         NoKeyInValues;
    var sep := Sep(model);
    var inners := Inners(calls, sep);
    forall k | 0 <= k < |calls|
      ensures NameFits(calls[k].name) && forall a :: a in calls[k].args ==> ArgFits(a)
      ensures Free(inners[k], TOOL_CALL_END)
    {
      assert calls[k] in calls;
      ParsedIsReadable(before + Printed(calls, sep) + after, calls[k]);
      forall a | a in calls[k].args
        ensures ArgFits(a)
      {
        ReadableFits(a);
      }
      InnerFree(calls[k], sep);
    }
    InnersFound(before, inners, after, sep);
    EachWhole(inners, FindFunctionCall);
    forall c | c in calls
      ensures CallFits(c)
    {
      var k :| 0 <= k < |calls| && calls[k] == c;
      ReadBackIsClean(c, sep);
    }
  }

  lemma ReadableFits(a: Arg)
    requires Readable(a) && Plain(a.key)
    ensures ArgFits(a)
  {
    PlainKeyFree(a.key);
  }

  // ----- the loops -----

  /** One call, followed by the separator. */
  function CallLine(call: Call, sep: string): string {
    TOOL_CALL + Inner(call, sep) + TOOL_CALL_END + sep
  }

  /** The calls one after the other. */
  function AllLines(calls: seq<Call>, sep: string): string {
    if calls == [] then "" else AllLines(calls[..|calls| - 1], sep) + CallLine(calls[|calls| - 1], sep)
  }

  lemma {:induction false} AllLinesFront(calls: seq<Call>, sep: string)
    requires calls != []
    ensures AllLines(calls, sep) == CallLine(calls[0], sep) + AllLines(calls[1..], sep)
    decreases |calls|
  {
    hide CallLine;
    var last := |calls| - 1;
    if last == 0 {
      assert calls[..0] == [] && calls[1..] == [];
      assert "" + CallLine(calls[0], sep) == CallLine(calls[0], sep) + "";
    } else {
      AllLinesFront(calls[..last], sep);
      assert calls[..last][1..] == calls[1..][..last - 1] && calls[1..][last - 1] == calls[last];
      var head, middle, tail := CallLine(calls[0], sep), AllLines(calls[..last][1..], sep), CallLine(calls[last], sep);
      assert head + middle + tail == head + (middle + tail);
    }
  }

  lemma {:induction false} BlocksAreLines(calls: seq<Call>, sep: string)
    requires calls != []
    ensures Blocks(Inners(calls, sep), TOOL_CALL, TOOL_CALL_END, sep) + sep == AllLines(calls, sep)
  {
    hide Inner, AllLines;
    AllLinesFront(calls, sep);
    var head := TOOL_CALL + Inner(calls[0], sep) + TOOL_CALL_END;
    if |calls| == 1 {
      assert calls[1..] == [];
      NoLines(sep);
      assert head + "" + sep == head + sep + "";
    } else {
      BlocksAreLines(calls[1..], sep);
      var rest := Blocks(Inners(calls[1..], sep), TOOL_CALL, TOOL_CALL_END, sep);
      assert head + (sep + rest) + sep == head + sep + (rest + sep);
    }
  }

  lemma NoLines(sep: string)
    ensures AllLines([], sep) == ""
  {
  }

  lemma {:induction false} ArgsTextSnoc(args: seq<Arg>, a: Arg, sep: string)
    ensures ArgsText(args + [a], sep, sep) == ArgsText(args, sep, sep) + ArgText(a, sep) + sep
  {
    hide ArgText;
    if args == [] {
      assert args + [a] == [a];
      assert "" + ArgText(a, sep) + sep == ArgText(a, sep) + sep;
    } else {
      ArgsTextSnoc(args[1..], a, sep);
      var longer := args + [a];
      assert longer[1..] == args[1..] + [a] && longer[0] == args[0];
      var head, tail := ArgText(args[0], sep), ArgText(a, sep);
      if |args| == 1 {
        assert head + (sep + (tail + sep)) == head + sep + tail + sep;
      } else {
        var rest := ArgsText(args[1..], sep, sep);
        assert head + (sep + (rest + tail + sep)) == head + (sep + rest) + tail + sep;
      }
    }
  }

  /** The parts of one call, appended. */
  method AppendCall(before: seq<string>, call: Call, sep: string) returns (parts: seq<string>)
    ensures Lines(parts, sep) == Lines(before, sep) + CallLine(call, sep)
    ensures parts != []
  {
    hide Lines, ArgText;
    parts := before + [TOOL_CALL + call.name];
    LinesSnoc(before, TOOL_CALL + call.name, sep);
    NoArgs(sep, sep);
    ghost var start := Lines(before, sep) + (TOOL_CALL + call.name) + sep;
    assert start + "" == start;
    for i := 0 to |call.args|
      invariant Lines(parts, sep) == start + ArgsText(call.args[..i], sep, sep)
    {
      var a := call.args[i];
      ghost var was := parts;
      parts := parts + [ARG_KEY + a.key + ARG_KEY_END];
      LinesSnoc(was, ARG_KEY + a.key + ARG_KEY_END, sep);
      ghost var half := parts;
      parts := parts + [ARG_VALUE + a.value + ARG_VALUE_END];
      LinesSnoc(half, ARG_VALUE + a.value + ARG_VALUE_END, sep);
      assert call.args[..i + 1] == call.args[..i] + [a];
      ArgsTextSnoc(call.args[..i], a, sep);
      ArgParts(start, ArgsText(call.args[..i], sep, sep), a, sep);
    }
    assert call.args[..|call.args|] == call.args;
    ghost var was := parts;
    parts := parts + [TOOL_CALL_END];
    LinesSnoc(was, TOOL_CALL_END, sep);
    RegroupCall(Lines(before, sep), TOOL_CALL, call.name, sep, ArgsText(call.args, sep, sep), TOOL_CALL_END);
  }

  lemma ArgParts(start: string, text: string, a: Arg, sep: string)
    ensures start + text + (ARG_KEY + a.key + ARG_KEY_END) + sep + (ARG_VALUE + a.value + ARG_VALUE_END) + sep ==
            start + (text + ArgText(a, sep) + sep)
  {
    var key := ARG_KEY + a.key + ARG_KEY_END;
    RegroupParts(start, text, key, sep, ARG_VALUE, a.value, ARG_VALUE_END);
  }

  lemma RegroupParts(a: string, b: string, k: string, s: string, v: string, w: string, x: string)
    ensures a + b + k + s + (v + w + x) + s == a + (b + (k + (s + v + w + x)) + s)
  {
  }

  lemma RegroupCall(a: string, b: string, c: string, d: string, e: string, f: string)
    ensures a + (b + c) + d + e + f + d == a + (b + (c + d + e) + f + d)
  {
  }

  method FormatToolCalls(calls: seq<Call>, model: Model) returns (text: string)
    ensures text == Printed(calls, Sep(model))
  {
    hide Lines, Inner;
    var sep := Sep(model);
    var parts: seq<string> := [];
    assert Lines(parts, sep) == "" by {
      NoParts(sep);
    }
    for i := 0 to |calls|
      invariant Lines(parts, sep) == AllLines(calls[..i], sep)
      invariant i > 0 ==> parts != []
      invariant i == 0 ==> parts == []
    {
      parts := AppendCall(parts, calls[i], sep);
      assert calls[..i + 1][..i] == calls[..i];
    }
    assert calls[..|calls|] == calls;
    text := Join(parts, sep) + OBSERVATION;
    if calls != [] {
      JoinLines(parts, sep);
      BlocksAreLines(calls, sep);
      DropLast(Join(parts, sep), Blocks(Inners(calls, sep), TOOL_CALL, TOOL_CALL_END, sep), sep);
    }
  }

  lemma NoParts(sep: string)
    ensures Lines([], sep) == ""
  {
  }

  lemma DropLast(a: string, b: string, sep: string)
    requires a + sep == b + sep
    ensures a == b
  {
    assert |a| + |sep| == |b| + |sep|;
    assert a == (a + sep)[..|a|] && b == (b + sep)[..|b|];
  }

  method GetToolcall(response: string) returns (functions: Option<seq<Call>>)
    ensures functions == Parse(response)
    ensures var groups := FindAll(response, TOOL_CALL, TOOL_CALL_END, 0);
            if forall i :: 0 <= i < |groups| ==> FindFunctionCall(groups[i]).None? then functions.None?
            else functions.Some? && ReadInOrder(groups, FindFunctionCall, functions.value)
  {
    ParseIs(response);
    hide FindAll, FindFunctionCall, ReadInOrder;
    var toolcallList := FindAll(response, TOOL_CALL, TOOL_CALL_END, 0);
    var found := CollectCalls(toolcallList, FindFunctionCall);
    functions := if |found| == 0 then None else Some(found);
  }
}
