/** The `<function=..><parameter=..>` printers and parsers of the Seed-OSS and Qwen3-Coder templates. */
module XmlToolCalls {
  import opened Wrappers
  import opened Whitespace
  import opened TagText
  import opened ToolCalls

  const FUNCTION := "<function="
  const FUNCTION_END := "</function>"
  const PARAMETER := "<parameter="
  const PARAMETER_END := "</parameter>"

  // ----- the printed form -----

  /** One argument; `pad` is what the template puts around the value. */
  function ArgText(a: Arg, pad: string): string {
    PARAMETER + a.key + ">" + (pad + a.value + pad) + PARAMETER_END
  }

  function ArgsText(args: seq<Arg>, pad: string): string {
    if args == [] then "" else ArgText(args[0], pad) + "\n" + ArgsText(args[1..], pad)
  }

  lemma TwoArgs(a: Arg, b: Arg, pad: string)
    ensures ArgsText([a, b], pad) == (ArgText(a, pad) + "\n") + (ArgText(b, pad) + "\n") && ArgsText([], pad) == ""
  {
    hide ArgText;
    assert [a, b][1..] == [b] && [b][1..] == [];
    assert ArgsText([b], pad) == ArgText(b, pad) + "\n" + "";
  }

  lemma RegroupPrinted(a: string, n: string, f: string, m: string, g: string, x: string, y: string, e: string,
                       z: string)
    ensures a + (n + ((f + m + g + n) + ((x + n) + (y + n)) + e) + n) + z ==
            a + n + f + m + g + n + (x + n) + (y + n) + e + n + z
  {
  }

  function Header(name: string): string {
    FUNCTION + name + ">" + "\n"
  }

  function Body(call: Call, pad: string): string {
    Header(call.name) + ArgsText(call.args, pad) + FUNCTION_END
  }

  function Inners(calls: seq<Call>, pad: string): (r: seq<string>)
    ensures |r| == |calls| && forall i :: 0 <= i < |calls| ==> r[i] == "\n" + Body(calls[i], pad) + "\n"
  {
    if calls == [] then [] else ["\n" + Body(calls[0], pad) + "\n"] + Inners(calls[1..], pad)
  }

  /** Names that the patterns accept, and keys that differ, as a dictionary's do; if the name of the function holds an
      opening tag of a parameter, the keys are plain. */
  ghost predicate NamesOk(call: Call) {
    && NameOk(call.name) && DistinctKeys(call.args) && (forall a :: a in call.args ==> NameOk(a.key))
    && (Free(call.name, PARAMETER) || forall a :: a in call.args ==> Plain(a.key))
  }

  /** No name, with its bracket, ends a tool call. */
  ghost predicate TagsClosed(call: Call, close: string) {
    Free(call.name + ">", close) && forall a :: a in call.args ==> Free(a.key + ">", close)
  }

  /** Unless there is no argument, the name of the function does not open a parameter: it may only end in the tag. */
  ghost predicate HeaderFits(call: Call) {
    call.args == [] || (call.name != "" && Free(call.name[..|call.name| - 1], PARAMETER))
  }

  /** A closing tag other than those of functions and parameters. */
  predicate Outer(close: string) {
    Tag(close) && |close| > 2 && close[1] == '/' && close[2] != 'p' && close[2] != 'f'
  }

  ghost predicate ValuesFree(args: seq<Arg>, close: string) {
    forall a :: a in args ==> Free(a.value, PARAMETER_END) && Free(a.value, close)
  }

  lemma TagsAreTags()
    ensures Tag(FUNCTION) && Tag(PARAMETER) && Tag(PARAMETER_END)
  {
    FunctionIsTag();
  }

  lemma FunctionIsTag()
    ensures Tag(FUNCTION)
  {
  }

  // ----- what the pieces are free of -----

  lemma NewlineFree(t: string)
    requires Tag(t)
    ensures Free("\n", t) && Free("", t)
  {
    FreePlain("\n", t);
    FreePlain("", t);
  }

  lemma PadFree(value: string, pad: string, t: string)
    requires Tag(t) && (pad == "" || pad == "\n")
    ensures Free(value, t) ==> Free(pad + value + pad, t)
  {
    hide At, Free, Tag;
    if Free(value, t) {
      if pad == "\n" {
        NewlineFree(t);
        FreeJoin("\n", value, t);
        FreeJoin("\n" + value, "\n", t);
      } else {
        assert pad + value + pad == value;
      }
    }
  }

  /** A tag that does not start like the opening tag does not begin in it either. */
  lemma BehindOpening(open: string, text: string, t: string)
    requires Tag(t) && Tag(open) && open[1] != t[1] && Free(text, t)
    ensures Free(open + text, t)
  {
    hide At;
    var s := open + text;
    assert forall k :: 0 <= k < |open| ==> s[k] == open[k];
    forall k
      ensures !At(s, k, t)
    {
      AtParts(open, text, k, t);
      AtInside(s, k, t);
      AtStarts(s, k, t);
    }
  }

  lemma OpeningFree(open: string, name: string, last: string, t: string)
    requires Tag(t) && Tag(open) && open[1] != t[1] && Free(name + ">", t) && Free(last, t)
    ensures Free(open + name + ">" + last, t)
  {
    hide Free;
    BehindOpening(open, name + ">", t);
    assert open + (name + ">") == open + name + ">";
    FreeJoin(open + (name + ">"), last, t);
  }

  lemma HeaderFree(name: string, t: string)
    requires Tag(t) && Free(name + ">", t) && t[1] != 'f'
    ensures Free(Header(name), t)
  {
    hide Free, Tag;
    FunctionIsTag();
    NewlineFree(t);
    OpeningFree(FUNCTION, name, "\n", t);
  }

  lemma EndsFree(close: string)
    requires Outer(close)
    ensures Free(PARAMETER_END + "\n", close) && Free(FUNCTION_END, close) && Free(FUNCTION_END + "\n", close)
  {
    hide Free;
    FreeOther(PARAMETER_END + "\n", 2, close);
    FreeOther(FUNCTION_END, 2, close);
    FreeOther(FUNCTION_END + "\n", 2, close);
  }

  lemma ArgFree(a: Arg, pad: string, close: string)
    requires Outer(close) && Free(a.key + ">", close) && Free(a.value, close) && (pad == "" || pad == "\n")
    ensures Free(ArgText(a, pad) + "\n", close)
  {
    NewlineFree(close);
    OpeningFree(PARAMETER, a.key, "", close);
    hide Free, At;
    var head, value, last := PARAMETER + a.key + ">" + "", pad + a.value + pad, PARAMETER_END + "\n";
    PadFree(a.value, pad, close);
    EndsFree(close);
    assert head == PARAMETER + a.key + ">" && head[|head| - 1] == '>';
    FreeJoin(head, value, close);
    FreeJoin(head + value, last, close);
    assert ArgText(a, pad) + "\n" == head + value + last;
  }

  lemma {:induction false} ArgsFree(args: seq<Arg>, pad: string, close: string)
    requires Outer(close) && (pad == "" || pad == "\n")
    requires forall a :: a in args ==> Free(a.key + ">", close) && Free(a.value, close)
    ensures Free(ArgsText(args, pad), close)
  {
    hide Free, At, ArgText;
    if args == [] {
      NewlineFree(close);
    } else {
      ArgFree(args[0], pad, close);
      ArgsFree(args[1..], pad, close);
      FreeJoin(ArgText(args[0], pad) + "\n", ArgsText(args[1..], pad), close);
    }
  }

  lemma JoinFour(a: string, b: string, c: string, d: string, t: string)
    requires Tag(t) && Free(a, t) && Free(b, t) && Free(c, t) && Free(d, t)
    requires b != "" && b[0] == '<' && b[|b| - 1] == '\n' && d != "" && d[0] == '<'
    ensures Free(a + b + c + d, t)
  {
    hide Free, Tag;
    FreeJoin(a, b, t);
    FreeJoin(a + b, c, t);
    FreeJoin(a + b + c, d, t);
  }

  lemma HeaderEnds(name: string)
    ensures var h := Header(name); h != "" && h[0] == '<' && h[|h| - 1] == '\n'
  {
  }

  lemma BodyFree(call: Call, pad: string, close: string)
    requires Outer(close) && (pad == "" || pad == "\n") && TagsClosed(call, close) && ValuesFree(call.args, close)
    ensures Free("\n" + Body(call, pad) + "\n", close)
  {
    hide Free, ArgsText, Header, Tag;
    HeaderFree(call.name, close);
    ArgsFree(call.args, pad, close);
    EndsFree(close);
    NewlineFree(close);
    HeaderEnds(call.name);
    JoinFour("\n", Header(call.name), ArgsText(call.args, pad), FUNCTION_END + "\n", close);
    assert "\n" + Body(call, pad) + "\n" ==
           "\n" + Header(call.name) + ArgsText(call.args, pad) + (FUNCTION_END + "\n");
  }

  // ----- what the pieces are parsed to -----

  function Padded(args: seq<Arg>, pad: string): (r: seq<Arg>)
    ensures |r| == |args| && forall i :: 0 <= i < |args| ==> r[i] == Arg(args[i].key, pad + args[i].value + pad)
  {
    if args == [] then [] else [Arg(args[0].key, pad + args[0].value + pad)] + Padded(args[1..], pad)
  }

  lemma NoArgs(pad: string)
    ensures ArgsText([], pad) == ""
  {
  }

  lemma ArgsTextSplits(before: string, args: seq<Arg>, pad: string, after: string)
    requires args != []
    ensures before + ArgsText(args, pad) + after ==
            before + PARAMETER + args[0].key + ">" + (pad + args[0].value + pad) + PARAMETER_END +
            ("\n" + ArgsText(args[1..], pad) + after)
  {
    var a := args[0];
    Regroup(before, ArgText(a, pad), "\n", ArgsText(args[1..], pad), after);
  }

  lemma Regroup(a: string, b: string, c: string, d: string, e: string)
    ensures a + (b + c + d) + e == a + b + (c + d + e)
  {
  }

  lemma ParamsStep(s: string)
    requires FirstParam(s, PARAMETER, PARAMETER_END).Some?
    ensures var (arg, after) := FirstParam(s, PARAMETER, PARAMETER_END).value;
            Params(s, PARAMETER, PARAMETER_END) == [arg] + Params(after, PARAMETER, PARAMETER_END)
  {
  }

  lemma {:induction false} ArgsParsed(before: string, args: seq<Arg>, pad: string, after: string)
    requires Free(before, PARAMETER) && Free(after, PARAMETER) && (pad == "" || pad == "\n")
    requires after != "" && after[0] == '<'
    requires forall a :: a in args ==> NameOk(a.key) && Free(a.value, PARAMETER_END)
    ensures Params(before + ArgsText(args, pad) + after, PARAMETER, PARAMETER_END) == Padded(args, pad)
    decreases |args|
  {
    hide Free, At, NameOk, Tag, FirstParam, Params, ArgsText, ArgText;
    TagsAreTags();
    if args == [] {
      assert before + ArgsText([], pad) + after == before + after by {
        NoArgs(pad);
      }
      NothingParsed(before, after);
    } else {
      var a := args[0];
      var value := pad + a.value + pad;
      var rest := "\n" + ArgsText(args[1..], pad) + after;
      ArgsTextSplits(before, args, pad, after);
      PadFree(a.value, pad, PARAMETER_END);
      FirstParamIs(before, PARAMETER, Arg(a.key, value), PARAMETER_END, rest);
      ParamsStep(before + ArgsText(args, pad) + after);
      NewlineFree(PARAMETER);
      ArgsParsed("\n", args[1..], pad, after);
    }
  }

  lemma NothingParsed(before: string, after: string)
    requires Free(before, PARAMETER) && Free(after, PARAMETER)
    requires after != "" && after[0] == '<'
    ensures Params(before + after, PARAMETER, PARAMETER_END) == []
  {
    hide Free;
    FreeJoin(before, after, PARAMETER);
  }

  lemma EndHasNoParameter()
    ensures Free(FUNCTION_END, PARAMETER) && Free(FUNCTION_END + "\n", PARAMETER)
    ensures Free(FUNCTION_END, PARAMETER_END) && Free(FUNCTION_END + "\n", PARAMETER_END)
  {
    hide Free;
    FreeOther(FUNCTION_END, 1, PARAMETER);
    FreeOther(FUNCTION_END + "\n", 1, PARAMETER);
    FreeOther(FUNCTION_END, 2, PARAMETER_END);
    FreeOther(FUNCTION_END + "\n", 2, PARAMETER_END);
  }

  /** The name is found in a body, with or without a line break around it. */
  lemma NameParsed(edge: string, call: Call, pad: string)
    requires (edge == "" || edge == "\n") && (pad == "" || pad == "\n") && NameOk(call.name)
    ensures FirstName(edge + Body(call, pad) + edge, FUNCTION) == Some(call.name)
  {
    hide Free, NameOk, ArgsText, FirstName, Tag;
    TagsAreTags();
    var after := "\n" + ArgsText(call.args, pad) + FUNCTION_END + edge;
    RegroupBody(edge, FUNCTION, call.name, ">", "\n", ArgsText(call.args, pad), FUNCTION_END);
    NewlineFree(FUNCTION);
    FirstNameIs(edge, FUNCTION, call.name, after);
  }

  /** What stands before an opening tag of a parameter in the name of a function has none itself. */
  lemma BeforeOpening(edge: string, part: string)
    requires (edge == "" || edge == "\n") && Free(part, PARAMETER)
    ensures Free(edge + FUNCTION + part, PARAMETER)
  {
    hide Free, Tag;
    TagsAreTags();
    NewlineFree(PARAMETER);
    BehindOpening(FUNCTION, part, PARAMETER);
    FreeJoin(edge, FUNCTION + part, PARAMETER);
    assert edge + (FUNCTION + part) == edge + FUNCTION + part;
  }

  lemma CloseBracket(a: string, t: string)
    requires Tag(t) && t[|t| - 1] != '>' && Free(a, t)
    ensures Free(a + ">\n", t)
  {
    FreePlain(">\n", t);
    forall k
      ensures !At(a + ">\n", k, t)
    {
      hide At;
      AtParts(a, ">\n", k, t);
      AtInside(a + ">\n", k, t);
      assert k < |a| < k + |t| ==> t[|a| - k] != '>';
    }
  }

  lemma ParameterIsOpen()
    ensures Tag(PARAMETER) && PARAMETER[|PARAMETER| - 1] != '>'
  {
  }

  /** The arguments are found in a body whose header opens no parameter. */
  lemma ArgsAfterHeader(edge: string, call: Call, pad: string)
    requires (edge == "" || edge == "\n") && (pad == "" || pad == "\n") && NamesOk(call) && Free(call.name, PARAMETER)
    requires forall a :: a in call.args ==> Free(a.value, PARAMETER_END)
    ensures Params(edge + Body(call, pad) + edge, PARAMETER, PARAMETER_END) == Padded(call.args, pad)
  {
    hide Free, NameOk, ArgsText, Params, Tag;
    RegroupBody(edge, FUNCTION, call.name, ">", "\n", ArgsText(call.args, pad), FUNCTION_END);
    ParameterIsOpen();
    BeforeOpening(edge, call.name);
    CloseBracket(edge + FUNCTION + call.name, PARAMETER);
    assert edge + FUNCTION + call.name + ">\n" == edge + Header(call.name);
    EndHasNoParameter();
    assert FUNCTION_END + "" == FUNCTION_END;
    ArgsParsed(edge + Header(call.name), call.args, pad, FUNCTION_END + edge);
  }

  /** Without a closing tag behind the first bracket no parameter is found, whatever stands before it. */
  lemma {:induction false} NothingBehind(x: string, y: string)
    requires '>' !in x && Free(y, PARAMETER) && Free(y, PARAMETER_END)
    ensures Params(x + ">" + y, PARAMETER, PARAMETER_END) == []
  {
    FirstBehind(x, y);
  }

  lemma {:induction false} FirstBehind(x: string, y: string)
    requires '>' !in x && Free(y, PARAMETER) && Free(y, PARAMETER_END)
    ensures FirstParam(x + ">" + y, PARAMETER, PARAMETER_END).None?
    decreases |x|
  {
    hide At, Free, Tag, Find;
    var s := x + ">" + y;
    ParameterIsOpen();
    match Find(s, PARAMETER)
    case None =>
    case Some(i) =>
      OpensBefore(x, y, i);
      var k := i + |PARAMETER|;
      assert s[k..] == x[k..] + ">" + y;
      FindChar(x[k..], '>', y);
      assert s[i + 1..] == x[i + 1..] + ">" + y;
      if k == |x| {
        FirstBehind(x[i + 1..], y);
      }
  }

  lemma OpensBefore(x: string, y: string, i: nat)
    requires Free(y, PARAMETER) && At(x + ">" + y, i, PARAMETER)
    ensures i + |PARAMETER| <= |x|
  {
    ParameterIsOpen();
    FreePlain(">", PARAMETER);
    FreeJoin(">", y, PARAMETER);
    hide At;
    assert x + ">" + y == x + (">" + y);
    AtParts(x, ">" + y, i, PARAMETER);
    assert forall j :: 0 <= j < |PARAMETER| ==> PARAMETER[j] != '>';
  }

  /** An opening tag without a name is passed over. */
  lemma NamelessParameter(before: string, rest: string)
    requires Free(before, PARAMETER)
    ensures Params(before + PARAMETER + ">" + rest, PARAMETER, PARAMETER_END) ==
            Params("parameter=>" + rest, PARAMETER, PARAMETER_END)
  {
    hide At, Free, Tag, Find;
    TagsAreTags();
    var s := before + PARAMETER + ">" + rest;
    assert s == before + PARAMETER + (">" + rest);
    FindAfter(before, PARAMETER, ">" + rest);
    FindChar("", '>', rest);
    assert "" + ">" + rest == ">" + rest;
    Shorter(before, rest);
    assert FirstParam(s, PARAMETER, PARAMETER_END) == FirstParam(s[|before| + 1..], PARAMETER, PARAMETER_END);
  }

  lemma Shorter(before: string, rest: string)
    ensures (before + PARAMETER + ">" + rest)[|before| + 1..] == "parameter=>" + rest
  {
    assert PARAMETER == "<" + "parameter=" && "parameter=>" == "parameter=" + ">";
    RegroupTag(before, "<", "parameter=", ">", rest);
  }

  lemma RegroupTag(a: string, b: string, c: string, d: string, e: string)
    ensures a + (b + c) + d + e == (a + b) + (c + d + e)
    ensures ((a + b) + (c + d + e))[|a| + |b|..] == c + d + e
  {
  }

  /** The arguments are found behind a name that ends in an opening tag. */
  lemma ArgsAfterTag(edge: string, part: string, args: seq<Arg>, pad: string)
    requires (edge == "" || edge == "\n") && (pad == "" || pad == "\n") && Free(part, PARAMETER)
    requires forall a :: a in args ==> NameOk(a.key) && Free(a.value, PARAMETER_END)
    ensures Params(edge + (FUNCTION + (part + PARAMETER) + ">" + "\n" + ArgsText(args, pad) + FUNCTION_END) + edge,
                   PARAMETER, PARAMETER_END) == Padded(args, pad)
  {
    hide Free, NameOk, ArgsText, Params, Tag;
    TagsAreTags();
    BeforeOpening(edge, part);
    var rest := "\n" + ArgsText(args, pad) + FUNCTION_END + edge;
    RegroupBody(edge, FUNCTION, part + PARAMETER, ">", "\n", ArgsText(args, pad), FUNCTION_END);
    assert edge + FUNCTION + (part + PARAMETER) + ">" + rest == edge + FUNCTION + part + PARAMETER + ">" + rest;
    NamelessParameter(edge + FUNCTION + part, rest);
    FreePlain("parameter=>\n", PARAMETER);
    EndHasNoParameter();
    assert FUNCTION_END + "" == FUNCTION_END;
    ArgsParsed("parameter=>\n", args, pad, FUNCTION_END + edge);
    assert "parameter=>" + rest == "parameter=>\n" + ArgsText(args, pad) + (FUNCTION_END + edge) by {
      assert "parameter=>\n" == "parameter=>" + "\n";
      RegroupLine2("parameter=>", "\n", ArgsText(args, pad), FUNCTION_END, edge);
    }
  }

  lemma RegroupLine2(a: string, b: string, c: string, d: string, e: string)
    ensures a + (b + c + d + e) == (a + b) + c + (d + e)
  {
  }

  /** The name and the arguments are found in a body, with or without a line break around it. */
  lemma BodyParsed(edge: string, call: Call, pad: string)
    requires (edge == "" || edge == "\n") && (pad == "" || pad == "\n") && NamesOk(call) && HeaderFits(call)
    requires forall a :: a in call.args ==> Free(a.value, PARAMETER_END)
    ensures var s := edge + Body(call, pad) + edge;
            && FirstName(s, FUNCTION) == Some(call.name)
            && Params(s, PARAMETER, PARAMETER_END) == Padded(call.args, pad)
  {
    hide Free, ArgsText, FirstName, Params, Tag, At, Find;
    NameParsed(edge, call, pad);
    if call.args == [] {
      NoArgs(pad);
      EndHasNoParameter();
      NewlineFree(PARAMETER);
      TagsAreTags();
      NewlineFree(PARAMETER_END);
      RegroupBody(edge, FUNCTION, call.name, ">", "\n", "", FUNCTION_END);
      var y := "\n" + "" + FUNCTION_END + edge;
      assert y == "\n" + (FUNCTION_END + edge) && FUNCTION_END + "" == FUNCTION_END;
      FreeJoin("\n", FUNCTION_END + edge, PARAMETER);
      FreeJoin("\n", FUNCTION_END + edge, PARAMETER_END);
      NothingBehind(edge + FUNCTION + call.name, y);
    } else if Free(call.name, PARAMETER) {
      ArgsAfterHeader(edge, call, pad);
    } else {
      var part := EndsInTag(call.name);
      ArgsAfterTag(edge, part, call.args, pad);
    }
  }

  lemma EndsInTag(name: string) returns (part: string)
    requires name != "" && !Free(name, PARAMETER) && Free(name[..|name| - 1], PARAMETER)
    ensures name == part + PARAMETER && Free(part, PARAMETER)
  {
    var i := Find(name, PARAMETER).value;
    part := name[..i];
    FreeBeforeFirst(name, i, PARAMETER);
    assert i + |PARAMETER| < |name| ==> At(name[..|name| - 1], i, PARAMETER);
    assert At(name, i, PARAMETER);
    assert name[i..] == PARAMETER;
  }

  /** A function's name that opens a parameter takes the first argument for its value. */
  lemma FirstSwallowed(edge: string, call: Call, pad: string) returns (tail: string)
    requires (edge == "" || edge == "\n") && (pad == "" || pad == "\n") && NamesOk(call) && !HeaderFits(call)
    requires forall a :: a in call.args ==> Free(a.value, PARAMETER_END)
    ensures var a := call.args[0];
            Params(edge + Body(call, pad) + edge, PARAMETER, PARAMETER_END) ==
            [Arg(tail, "\n" + (PARAMETER + a.key + ">" + (pad + a.value + pad)))] + Padded(call.args[1..], pad)
  {
    hide Free, ArgsText, Params, FirstParam, Tag, At, Find, DistinctKeys;
    var part;
    part, tail := OpensInside(call.name);
    TagsAreTags();
    BeforeOpening(edge, part);
    var a := call.args[0];
    var value := "\n" + (PARAMETER + a.key + ">" + (pad + a.value + pad));
    SwallowedFree(a, pad);
    var rest := "\n" + ArgsText(call.args[1..], pad) + (FUNCTION_END + edge);
    RegroupSwallowed(edge, call, pad, part, tail);
    FirstParamIs(edge + FUNCTION + part, PARAMETER, Arg(tail, value), PARAMETER_END, rest);
    ParamsStep(edge + Body(call, pad) + edge);
    NewlineFree(PARAMETER);
    EndHasNoParameter();
    assert FUNCTION_END + "" == FUNCTION_END;
    ArgsParsed("\n", call.args[1..], pad, FUNCTION_END + edge);
  }

  lemma SwallowedFree(a: Arg, pad: string)
    requires Plain(a.key) && Free(a.value, PARAMETER_END) && (pad == "" || pad == "\n")
    ensures Free("\n" + (PARAMETER + a.key + ">" + (pad + a.value + pad)), PARAMETER_END)
  {
    hide Free, Tag;
    TagsAreTags();
    PadFree(a.value, pad, PARAMETER_END);
    FreePlain(a.key + ">", PARAMETER_END);
    OpeningFree(PARAMETER, a.key, pad + a.value + pad, PARAMETER_END);
    NewlineFree(PARAMETER_END);
    FreeJoin("\n", PARAMETER + a.key + ">" + (pad + a.value + pad), PARAMETER_END);
  }

  lemma OpensInside(name: string) returns (part: string, tail: string)
    requires NameOk(name) && !Free(name[..|name| - 1], PARAMETER)
    ensures name == part + PARAMETER + tail && Free(part, PARAMETER) && NameOk(tail) && !Free(name, PARAMETER)
  {
    hide At, Free;
    var k := Find(name[..|name| - 1], PARAMETER).value;
    AtPrefix(name, |name| - 1, k, PARAMETER);
    var i := Find(name, PARAMETER).value;
    FreeBeforeFirst(name, i, PARAMETER);
    SplitAt(name, i, PARAMETER);
    part, tail := name[..i], name[i + |PARAMETER|..];
  }

  lemma AtPrefix(s: string, n: nat, k: nat, t: string)
    requires n <= |s| && At(s[..n], k, t)
    ensures At(s, k, t) && k + |t| <= n
  {
  }

  lemma RegroupSwallowed(edge: string, call: Call, pad: string, part: string, tail: string)
    requires call.args != [] && call.name == part + PARAMETER + tail
    ensures var a := call.args[0];
            edge + Body(call, pad) + edge ==
            edge + FUNCTION + part + PARAMETER + tail + ">" +
            ("\n" + (PARAMETER + a.key + ">" + (pad + a.value + pad))) + PARAMETER_END +
            ("\n" + ArgsText(call.args[1..], pad) + (FUNCTION_END + edge))
  {
    var a := call.args[0];
    var text := PARAMETER + a.key + ">" + (pad + a.value + pad);
    RegroupLong(edge, FUNCTION, part, PARAMETER, tail, ">", "\n", text, PARAMETER_END,
                ArgsText(call.args[1..], pad), FUNCTION_END);
  }

  lemma RegroupLong(edge: string, f: string, p: string, q: string, t: string, g: string, l: string, v: string,
                    e: string, m: string, z: string)
    ensures edge + (f + (p + q + t) + g + l + (v + e + l + m) + z) + edge ==
            edge + f + p + q + t + g + (l + v) + e + (l + m + (z + edge))
  {
    assert edge + (f + (p + q + t) + g + l + (v + e + l + m) + z) + edge ==
           edge + f + p + q + t + g + l + v + e + l + m + z + edge;
  }

  lemma RegroupBody(edge: string, f: string, n: string, g: string, l: string, a: string, e: string)
    ensures edge + (f + n + g + l + a + e) + edge == edge + f + n + g + (l + a + e + edge)
    ensures edge + (f + n + g + l + a + e) + edge == edge + (f + n + g + l) + a + (e + edge)
  {
  }

  // ----- printing one argument after the other -----

  lemma {:induction false} ArgsTextSnoc(args: seq<Arg>, a: Arg, pad: string)
    ensures ArgsText(args + [a], pad) == ArgsText(args, pad) + ArgText(a, pad) + "\n"
  {
    hide ArgText;
    if args == [] {
      assert ArgsText([a], pad) == ArgText(a, pad) + "\n" + "";
      assert args + [a] == [a];
    } else {
      ArgsTextSnoc(args[1..], a, pad);
      assert (args + [a])[1..] == args[1..] + [a] && (args + [a])[0] == args[0];
    }
  }

  lemma RegroupLine(a: string, b: string, c: string, d: string)
    ensures a + (b + c + d) == a + b + c + d
  {
  }
}
