/**
 * The conversation state and the request rewriting of `InteractiveMCPClient`:
 * routing of the `list` and `inspect <name>` commands, the rewriting of the
 * server's tool schemas into function declarations, the renaming of the
 * model's call arguments, and the history the client keeps between
 * requests together with its compression.
 *
 * The HTTP server, the language model and the clock are oracles: fields of
 * `Services` and constructor parameters.
 */
module WebClient {
  import opened Wrappers
  import opened Text
  import opened Json

  // ================================================================ routing

  /** What `handle_user_request` does with a line of input. */
  datatype Command = ListTools | InspectTool(toolName: string) | Request(input: string)

  const InspectPrefix := "inspect "

  /** The command routing of `handle_user_request`: the stripped input, matched case-insensitively against the two commands. */
  function Route(userInput: string): (c: Command)
    ensures var s := Strip(userInput);
            && (c.ListTools? <==> Lower(s) == "list")
            && (c.InspectTool? <==> Lower(s) != "list" && |s| >= |InspectPrefix| && Lower(s)[..|InspectPrefix|] == InspectPrefix)
            && (c.InspectTool? ==> c.toolName == Strip(s[|InspectPrefix|..]))
            && (c.Request? ==> c.input == s)
  {
    var s := Strip(userInput);
    if Lower(s) == "list" then ListTools
    else if |s| >= |InspectPrefix| && Lower(s)[..|InspectPrefix|] == InspectPrefix then InspectTool(Strip(s[|InspectPrefix|..]))
    else Request(s)
  }

  /** Routing looks only at the stripped, lower-cased input to pick the command. */
  lemma RouteIgnoresCase(a: string, b: string)
    requires Lower(Strip(a)) == Lower(Strip(b))
    ensures Route(a).ListTools? <==> Route(b).ListTools?
    ensures Route(a).InspectTool? <==> Route(b).InspectTool?
    ensures Route(a).Request? <==> Route(b).Request?
  {
    var sa, sb := Strip(a), Strip(b);
    assert |sa| == |Lower(sa)| == |Lower(sb)| == |sb|;
  }

  /** "inspect " in any case, followed directly by a name without surrounding whitespace, names that tool; the name keeps its case. */
  lemma RouteInspect(prefix: string, name: string)
    requires |prefix| == |InspectPrefix| && Lower(prefix) == InspectPrefix
    requires name != [] && !IsSpace(name[0]) && !IsSpace(name[|name| - 1])
    ensures Route(prefix + name) == InspectTool(name)
  {
    var s := prefix + name;
    assert s[0] == prefix[0] && LowerChar(prefix[0]) == Lower(prefix)[0] == 'i';
    StripUnpadded(s);
    LowerPrefix(prefix, name);
    assert Lower(s) != "list" by {
      assert |Lower(s)| > 4;
    }
    assert s[|InspectPrefix|..] == name;
    StripUnpadded(name);
  }

  /** Text that neither starts nor ends with whitespace is its own strip. */
  lemma StripUnpadded(s: string)
    requires s != [] && !IsSpace(s[0]) && !IsSpace(s[|s| - 1])
    ensures Strip(s) == s
  {
    assert StripRight(s) == s;
    assert StripLeft(s) == s;
  }

  /** Lower-casing works character by character, so it commutes with taking a prefix. */
  lemma LowerPrefix(prefix: string, rest: string)
    ensures Lower(prefix + rest)[..|prefix|] == Lower(prefix)
  {
    var s := prefix + rest;
    forall i | 0 <= i < |prefix|
      ensures Lower(s)[i] == Lower(prefix)[i]
    {
      assert s[i] == prefix[i];
    }
  }

  // ================================================================ schema rewriting

  /** `if 'user_id' in d: d['__user_id__'] = d.pop('user_id')`. */
  function RenameUserId(fs: Fields): (r: Fields)
    ensures !HasKey(fs, "user_id") ==> r == fs
    ensures HasKey(fs, "user_id") ==> !HasKey(r, "user_id") && Lookup(r, "__user_id__") == Lookup(fs, "user_id")
    ensures forall k :: k != "user_id" && k != "__user_id__" ==> Lookup(r, k) == Lookup(fs, k)
  {
    if HasKey(fs, "user_id") then
      var r := Put(Remove(fs, "user_id"), "__user_id__", Lookup(fs, "user_id").value);
      assert Lookup(r, "user_id") == Lookup(Remove(fs, "user_id"), "user_id");
      r
    else fs
  }

  /** `param_props.pop('required', False)`'s value: the flag a property schema carries. */
  function RequiredFlag(p: Fields): JsonValue {
    Lookup(p, "required").GetOr(JBool(false))
  }

  /** `a` is `b` with some elements left out, the rest in their order. */
  predicate IsSubsequence(a: seq<string>, b: seq<string>)
    decreases |b|
  {
    a == [] || (b != [] && ((a[0] == b[0] && IsSubsequence(a[1..], b[1..])) || IsSubsequence(a, b[1..])))
  }

  lemma SubsequenceCons(flagged: seq<string>, a: seq<string>, x: string, b: seq<string>)
    requires flagged == [] || flagged == [x]
    requires IsSubsequence(a, b)
    ensures IsSubsequence(flagged + a, [x] + b)
  {
    assert ([x] + b)[1..] == b;
    if flagged != [] {
      assert (flagged + a)[1..] == a;
    } else {
      assert flagged + a == a;
    }
  }

  /**
   * The `required` loop of `get_tool_and_arguments`: every property schema with its `required` flag popped, and
   * the names whose flag was truthy, in property order; None when a property
   * schema is not a dictionary (its `pop` raises).
   */
  function PopRequired(props: Fields): (r: Option<(Fields, seq<string>)>)
    ensures r.Some? <==> forall i :: 0 <= i < |props| ==> props[i].1.JObj?
    ensures r.Some? ==> |r.value.0| == |props| && Keys(r.value.0) == Keys(props)
    ensures r.Some? ==> forall i :: 0 <= i < |props| ==>
                          props[i].1.JObj? && r.value.0[i] == (props[i].0, JObj(Remove(props[i].1.fields, "required")))
    ensures r.Some? ==> IsSubsequence(r.value.1, Keys(props))
  {
    if props == [] then Some(([], []))
    else
      var (name, p) := props[0];
      match PopRequired(props[1..])
      case None => None
      case Some((rest, names)) =>
        if !p.JObj? then None
        else
          var flagged := if Truthy(RequiredFlag(p.fields)) then [name] else [];
          assert Keys(props) == [name] + Keys(props[1..]);
          SubsequenceCons(flagged, names, name, Keys(props[1..]));
          assert forall i :: 1 <= i < |props| ==> props[i] == props[1..][i - 1];
          Some(([(name, JObj(Remove(p.fields, "required")))] + rest, flagged + names))
  }

  /** A name is in the built `required` list exactly when some property of that name carried a truthy flag. */
  lemma {:induction false} PopRequiredNames(props: Fields, n: string)
    requires PopRequired(props).Some?
    ensures n in PopRequired(props).value.1 <==>
              exists i :: 0 <= i < |props| && props[i].0 == n && props[i].1.JObj? && Truthy(RequiredFlag(props[i].1.fields))
  {
    if props != [] {
      PopRequiredNames(props[1..], n);
      if exists i :: 0 <= i < |props| && props[i].0 == n && props[i].1.JObj? && Truthy(RequiredFlag(props[i].1.fields)) {
        var i :| 0 <= i < |props| && props[i].0 == n && props[i].1.JObj? && Truthy(RequiredFlag(props[i].1.fields));
        if i > 0 {
          assert props[1..][i - 1] == props[i];
        }
      }
      if exists i :: 0 <= i < |props| - 1 && props[1..][i].0 == n && props[1..][i].1.JObj? && Truthy(RequiredFlag(props[1..][i].1.fields)) {
        var i :| 0 <= i < |props| - 1 && props[1..][i].0 == n && props[1..][i].1.JObj? && Truthy(RequiredFlag(props[1..][i].1.fields));
        assert props[i + 1] == props[1..][i];
      }
    }
  }

  /** The `required` list as the schema stores it. */
  function Names(ns: seq<string>): (r: seq<JsonValue>)
    ensures |r| == |ns| && forall i :: 0 <= i < |ns| ==> r[i] == JStr(ns[i])
  {
    seq(|ns|, i requires 0 <= i < |ns| => JStr(ns[i]))
  }

  /**
   * The schema rewriting of `get_tool_and_arguments`: the input schema after the in-place rewriting; None when a
   * step raises (a truthy schema that is neither a dictionary, a string nor a
   * list; a string or list that contains "properties"; properties, or one of
   * them, that are not a dictionary).
   */
  function RewriteSchema(schema: JsonValue): (r: Option<JsonValue>)
    ensures !Truthy(schema) ==> r == Some(schema)
    ensures schema.JObj? && !HasKey(schema.fields, "properties") ==> r == Some(schema)
    ensures (schema.JBool? || schema.JNum?) && Truthy(schema) ==> r.None?
  {
    if !Truthy(schema) then Some(schema)
    else
      match schema
      case JObj(fs) =>
        if !HasKey(fs, "properties") then Some(schema)
        else
          (match Lookup(fs, "properties").value
           case JObj(props) =>
             (match PopRequired(RenameUserId(props))
              case None => None
              case Some((newProps, required)) =>
                var withProps := Put(fs, "properties", JObj(newProps));
                Some(JObj(if required == [] then withProps else Put(withProps, "required", JArr(Names(required))))))
           case _ => None)
      case JStr(s) => if Contains(s, "properties") then None else Some(schema)
      case JArr(xs) => if JStr("properties") in xs then None else Some(schema)
      case _ => None
  }

  /**
   * A dictionary schema whose property schemas are dictionaries is rewritten:
   * its properties become the renamed, flag-free ones in their place, its
   * `required` entry is the list of flagged names when there is one and is
   * left as it was otherwise, and every other entry is kept.
   */
  lemma RewriteSchemaDict(fs: Fields, props: Fields)
    requires Lookup(fs, "properties") == Some(JObj(props))
    requires PopRequired(RenameUserId(props)).Some?
    ensures var r := RewriteSchema(JObj(fs));
            var (newProps, required) := PopRequired(RenameUserId(props)).value;
            && r.Some? && r.value.JObj?
            && Lookup(r.value.fields, "properties") == Some(JObj(newProps))
            && (required != [] ==> Lookup(r.value.fields, "required") == Some(JArr(Names(required))))
            && (required == [] ==> Lookup(r.value.fields, "required") == Lookup(fs, "required"))
            && forall k :: k != "properties" && k != "required" ==> Lookup(r.value.fields, k) == Lookup(fs, k)
  {
    var (newProps, required) := PopRequired(RenameUserId(props)).value;
  }

  /** A property schema with its `required` flag popped; absence stays absence. */
  function Popped(o: Option<JsonValue>): Option<JsonValue> {
    if o.Some? && o.value.JObj? then Some(JObj(Remove(o.value.fields, "required"))) else o
  }

  /** Looking a property up after the flags are popped is looking it up before and popping its flag. */
  lemma {:induction false} PopRequiredLookup(props: Fields, k: string)
    requires PopRequired(props).Some?
    ensures Lookup(PopRequired(props).value.0, k) == Popped(Lookup(props, k))
  {
    if props != [] {
      assert PopRequired(props[1..]).Some?;
      PopRequiredLookup(props[1..], k);
    }
  }

  /**
   * The rewritten properties, key by key: `user_id` is gone, `__user_id__`
   * holds what `user_id` held when there was one, every other property is
   * kept, and each of them has lost its `required` flag.
   */
  lemma RewriteSchemaProperties(fs: Fields, props: Fields, k: string)
    requires Lookup(fs, "properties") == Some(JObj(props))
    requires PopRequired(RenameUserId(props)).Some?
    ensures var newProps := PopRequired(RenameUserId(props)).value.0;
            && RewriteSchema(JObj(fs)).Some?
            && Lookup(RewriteSchema(JObj(fs)).value.fields, "properties") == Some(JObj(newProps))
            && !HasKey(newProps, "user_id")
            && (k != "user_id" && k != "__user_id__" ==> Lookup(newProps, k) == Popped(Lookup(props, k)))
            && (HasKey(props, "user_id") ==> Lookup(newProps, "__user_id__") == Popped(Lookup(props, "user_id")))
            && (!HasKey(props, "user_id") ==> Lookup(newProps, "__user_id__") == Popped(Lookup(props, "__user_id__")))
            && (Lookup(newProps, k).Some? ==> Lookup(newProps, k).value.JObj? && !HasKey(Lookup(newProps, k).value.fields, "required"))
  {
    var renamed := RenameUserId(props);
    var newProps := PopRequired(renamed).value.0;
    RewriteSchemaDict(fs, props);
    PopRequiredLookup(renamed, k);
    PopRequiredLookup(renamed, "user_id");
    PopRequiredLookup(renamed, "__user_id__");
    if Lookup(newProps, k).Some? {
      assert Lookup(renamed, k).Some?;
      var v := Lookup(renamed, k).value;
      assert (k, v) in renamed;
      var i :| 0 <= i < |renamed| && renamed[i] == (k, v);
      assert v.JObj?;
    }
  }

  /** Properties that are not a dictionary make the rewriting raise. */
  lemma RewriteSchemaRejects(fs: Fields)
    requires HasKey(fs, "properties") && !Lookup(fs, "properties").value.JObj?
    ensures RewriteSchema(JObj(fs)).None?
  {
  }

  // ================================================================ tool selection

  /** `types.FunctionDeclaration(name=..., description=..., parameters=...)` as it is built. */
  datatype Declaration = Declaration(name: JsonValue, description: JsonValue, parameters: JsonValue)

  /** One pass of the declarations loop of `get_tool_and_arguments`: its declaration, or None when `.get`, the rewriting or `tool_spec[...]` raises. */
  function Declare(spec: JsonValue): (r: Option<Declaration>)
    ensures r.Some? <==> && spec.JObj?
                         && RewriteSchema(Lookup(spec.fields, "input_schema").GetOr(JNull)).Some?
                         && HasKey(spec.fields, "name") && HasKey(spec.fields, "description")
    ensures r.Some? ==> && Some(r.value.name) == Lookup(spec.fields, "name")
                        && Some(r.value.description) == Lookup(spec.fields, "description")
                        && Some(r.value.parameters) == RewriteSchema(Lookup(spec.fields, "input_schema").GetOr(JNull))
  {
    if !spec.JObj? then None
    else
      match RewriteSchema(Lookup(spec.fields, "input_schema").GetOr(JNull))
      case None => None
      case Some(parameters) =>
        if !HasKey(spec.fields, "name") || !HasKey(spec.fields, "description") then None
        else Some(Declaration(Lookup(spec.fields, "name").value, Lookup(spec.fields, "description").value, parameters))
  }

  /** `f` applied to every element in order, or None as soon as one application gives None. */
  function AllOrNone<T, U>(f: T -> Option<U>, xs: seq<T>): (r: Option<seq<U>>)
    ensures r.Some? <==> forall i :: 0 <= i < |xs| ==> f(xs[i]).Some?
    ensures r.Some? ==> |r.value| == |xs| && forall i :: 0 <= i < |xs| ==> Some(r.value[i]) == f(xs[i])
  {
    if xs == [] then Some([])
    else
      var init := xs[..|xs| - 1];
      assert forall i :: 0 <= i < |init| ==> init[i] == xs[i];
      match AllOrNone(f, init)
      case None => None
      case Some(ys) =>
        match f(xs[|xs| - 1])
        case None => None
        case Some(y) => Some(ys + [y])
  }

  /** `function_declarations` after the declarations loop of `get_tool_and_arguments`; None when one of the specs raises. */
  function DeclareAll(specs: seq<JsonValue>): (r: Option<seq<Declaration>>)
    ensures r.Some? <==> forall i :: 0 <= i < |specs| ==> Declare(specs[i]).Some?
    ensures r.Some? ==> |r.value| == |specs| && forall i :: 0 <= i < |specs| ==> Some(r.value[i]) == Declare(specs[i])
  {
    AllOrNone(Declare, specs)
  }

  /** The declarations loop of `get_tool_and_arguments`: one declaration per tool spec, in order, stopping at the first spec that raises. */
  method DeclareTools(specs: seq<JsonValue>) returns (declared: Option<seq<Declaration>>)
    ensures declared == DeclareAll(specs)
  {
    var declarations := [];
    var i := 0;
    while i < |specs|
      invariant 0 <= i <= |specs|
      invariant DeclareAll(specs[..i]) == Some(declarations)
    {
      assert specs[..i + 1][..i] == specs[..i];
      var d := Declare(specs[i]);
      if d.None? {
        assert !(forall j :: 0 <= j < |specs| ==> Declare(specs[j]).Some?);
        return None;
      }
      declarations := declarations + [d.value];
      i := i + 1;
    }
    assert specs[..|specs|] == specs;
    return Some(declarations);
  }

  /** `[t['name'] for t in tools_info]`. */
  function ToolNames(specs: seq<JsonValue>): seq<JsonValue> {
    seq(|specs|, i requires 0 <= i < |specs| => if specs[i].JObj? then Lookup(specs[i].fields, "name").GetOr(JNull) else JNull)
  }

  /** What the prompt is built from: the history, the header and the request. */
  datatype Conversation = Conversation(history: string, header: string, input: string)

  /** The first part of the model's reply to the function-calling request. */
  datatype FunctionCallReply =
    | FunctionCall(name: string, args: Fields)
    | NoFunctionCall
    | ModelError(message: string)

  datatype ToolCall = ToolCall(tool: string, arguments: Fields)

  /** `get_tool_and_arguments`'s outcome; `modelAsked` tells whether the model was consulted. */
  datatype Selection = Selected(call: ToolCall) | NoSelection(modelAsked: bool) | SelectionRaised

  /** `get_tool_and_arguments` after the tool list has been fetched (`fetched` is None when fetching raised). */
  function SelectTool(fetched: Option<seq<JsonValue>>, choose: (Conversation, seq<Declaration>) -> FunctionCallReply,
                      conv: Conversation): (sel: Selection)
    ensures fetched.None? || fetched == Some([]) ==> sel == NoSelection(false)
    ensures sel == NoSelection(false) ==> fetched.None? || fetched == Some([])
    ensures sel.SelectionRaised? <==> fetched.Some? && DeclareAll(fetched.value).None?
    ensures sel.Selected? ==> && JStr(sel.call.tool) in ToolNames(fetched.value)
                              && var reply := choose(conv, DeclareAll(fetched.value).value);
                              && reply.FunctionCall?
                              && sel.call == ToolCall(Strip(reply.name), RenameUserId(reply.args))
    ensures fetched.Some? && DeclareAll(fetched.value).Some? && DeclareAll(fetched.value).value != [] ==>
              var reply := choose(conv, DeclareAll(fetched.value).value);
              && (reply.FunctionCall? && JStr(Strip(reply.name)) in ToolNames(fetched.value) ==>
                    sel == Selected(ToolCall(Strip(reply.name), RenameUserId(reply.args))))
              && (!reply.FunctionCall? || JStr(Strip(reply.name)) !in ToolNames(fetched.value) ==> sel == NoSelection(true))
  {
    match fetched
    case None => NoSelection(false)
    case Some(specs) =>
      match DeclareAll(specs)
      case None => SelectionRaised
      case Some(declarations) =>
        if declarations == [] then NoSelection(false)
        else
          match choose(conv, declarations)
          case FunctionCall(name, args) =>
            var tool := Strip(name);
            if JStr(tool) in ToolNames(specs) then Selected(ToolCall(tool, RenameUserId(args))) else NoSelection(true)
          case _ => NoSelection(true)
  }

  /** A selected call never carries a `user_id` argument; the value the model gave for it travels as `__user_id__`. */
  lemma SelectedArguments(fetched: Option<seq<JsonValue>>, choose: (Conversation, seq<Declaration>) -> FunctionCallReply,
                          conv: Conversation)
    requires SelectTool(fetched, choose, conv).Selected?
    ensures var call := SelectTool(fetched, choose, conv).call;
            var reply := choose(conv, DeclareAll(fetched.value).value);
            && !HasKey(call.arguments, "user_id")
            && (HasKey(reply.args, "user_id") ==> Lookup(call.arguments, "__user_id__") == Lookup(reply.args, "user_id"))
  {
  }

  // ================================================================ history

  /** The two fields the client updates between requests. */
  datatype History = History(text: string, count: nat)

  /** Python's `ws[-m:]`: the last `m` words for positive `m`, all of them for 0, all but the first `-m` for negative `m`. */
  function LastWords(ws: seq<string>, m: int): (r: seq<string>)
    ensures |r| <= |ws| && r == ws[|ws| - |r|..]
    ensures m > 0 ==> |r| == if m < |ws| then m else |ws|
    ensures m == 0 ==> r == ws
  {
    if m > 0 then (if m >= |ws| then ws else ws[|ws| - m..])
    else if m == 0 then ws
    else if -m >= |ws| then [] else ws[-m..]
  }

  /** `compress_context` on the history `h`. */
  function Compressed(h: History, max: int): (r: History)
    ensures |Split(h.text)| <= max ==> r == h
    ensures |Split(h.text)| > max ==> r.count == 0
  {
    var words := Split(h.text);
    if |words| > max then History(Join(LastWords(words, max)), 0) else h
  }

  /** Compression keeps exactly the last `max` words, joined by single spaces, and resets the count. */
  lemma CompressKeepsLastWords(h: History, max: int)
    requires max > 0 && |Split(h.text)| > max
    ensures var words := Split(h.text);
            && Split(Compressed(h, max).text) == words[|words| - max..]
            && Compressed(h, max).count == 0
  {
    var words := Split(h.text);
    SplitJoin(LastWords(words, max));
  }

  /** With a positive bound, the compressed history has at most that many words. */
  lemma CompressBound(h: History, max: int)
    requires max > 0
    ensures |Split(Compressed(h, max).text)| <= max
  {
    if |Split(h.text)| > max {
      CompressKeepsLastWords(h, max);
    }
  }

  /** Compressing twice is compressing once. */
  lemma CompressIdempotent(h: History, max: int)
    requires max > 0
    ensures Compressed(Compressed(h, max), max) == Compressed(h, max)
  {
    CompressBound(h, max);
  }

  /** With a bound of 0, `words[-0:]` keeps every word: compression resets the count but bounds nothing. */
  lemma CompressZeroKeepsAll(h: History)
    requires Split(h.text) != []
    ensures Split(Compressed(h, 0).text) == Split(h.text) && Compressed(h, 0).count == 0
  {
    SplitJoin(Split(h.text));
  }

  /** One line of the history: a newline, a label, a space and the body. */
  function Line(tag: string, body: string): string {
    "\n" + tag + " " + body
  }

  /** The text one interaction appends: its number, the request, and the answer only when there is one. */
  function Interaction(k: nat, input: string, text: string): (r: string)
    ensures r != [] && r[0] == '\n'
  {
    Line("Interaction", NatToString(k) + ":") + Line("User:", input) + (if text != "" then Line("Model:", text) else "")
  }

  /** The recording step of `handle_user_request`: the history after recording one request and the text of its answer. */
  function Recorded(h: History, input: string, text: string): (r: History)
    ensures r.count == h.count + 1
    ensures |h.text| < |r.text| && r.text[..|h.text|] == h.text
  {
    History(h.text + Interaction(h.count + 1, input, text), h.count + 1)
  }

  /** The words one recorded interaction adds to the history. */
  function InteractionWords(k: nat, input: string, text: string): seq<string> {
    ["Interaction", NatToString(k) + ":", "User:"] + Split(input) + (if text != "" then ["Model:"] + Split(text) else [])
  }

  lemma LineWords(tag: string, body: string)
    requires IsWord(tag)
    ensures Split(Line(tag, body)) == [tag] + Split(body)
  {
    var l := Line(tag, body);
    assert l[1..] == tag + (" " + body);
    SplitAppend(tag, " " + body);
    SplitWord(tag);
    assert (" " + body)[1..] == body;
  }

  /** The lines of one interaction split into their words, whatever its tags read. */
  lemma LinesWords(t1: string, number: string, t2: string, input: string, t3: string, text: string)
    requires IsWord(t1) && IsWord(number) && IsWord(t2) && IsWord(t3)
    ensures Split(Line(t1, number) + Line(t2, input) + (if text != "" then Line(t3, text) else ""))
              == [t1, number, t2] + Split(input) + (if text != "" then [t3] + Split(text) else [])
  {
    var l1, l2 := Line(t1, number), Line(t2, input);
    var tail := if text != "" then Line(t3, text) else "";
    var tailWords := if text != "" then [t3] + Split(text) else [];
    var w1, w2 := Split(input), Split(text);
    assert Split(l1) == [t1, number] by {
      LineWords(t1, number);
      SplitWord(number);
    }
    assert Split(l2) == [t2] + w1 by { LineWords(t2, input); }
    assert Split(tail) == tailWords by {
      if text != "" {
        LineWords(t3, text);
      }
    }
    assert Split(l1 + l2) == Split(l1) + Split(l2) by { SplitAppend(l1, l2); }
    assert Split(l1 + l2 + tail) == Split(l1 + l2) + Split(tail) by {
      if text != "" {
        assert tail[0] == '\n';
      }
      SplitAppend(l1 + l2, tail);
    }
    Regrouped3(t1, number, t2, w1, tailWords);
  }

  lemma Regrouped3<T>(a: T, b: T, c: T, x: seq<T>, y: seq<T>)
    ensures [a, b] + ([c] + x) + y == [a, b, c] + x + y
  {
  }

  lemma NumberIsWord(k: nat)
    ensures IsWord(NatToString(k) + ":")
  {
    var n := NatToString(k);
    assert forall i :: 0 <= i < |n| ==> (n + ":")[i] == n[i];
    VisibleIsWord(n + ":");
  }

  lemma InteractionSplit(k: nat, input: string, text: string)
    ensures Split(Interaction(k, input, text)) == InteractionWords(k, input, text)
  {
    NumberIsWord(k);
    VisibleIsWord("Interaction");
    VisibleIsWord("User:");
    VisibleIsWord("Model:");
    LinesWords("Interaction", NatToString(k) + ":", "User:", input, "Model:", text);
  }

  /**
   * Recording keeps the old history as a prefix and adds, word for word,
   * "Interaction k:", "User:" and the request, then "Model:" and the answer
   * only when the answer is non-empty.
   */
  lemma RecordedWords(h: History, input: string, text: string)
    ensures var r := Recorded(h, input, text);
            && r.count == h.count + 1
            && r.text[..|h.text|] == h.text
            && Split(r.text) == Split(h.text) + InteractionWords(h.count + 1, input, text)
  {
    var i := Interaction(h.count + 1, input, text);
    InteractionSplit(h.count + 1, input, text);
    SplitAppend(h.text, i);
    assert (h.text + i)[..|h.text|] == h.text;
  }

  // ================================================================ handling a request

  /** What the client's HTTP calls and model calls return (the model sees the conversation it is given). */
  datatype ModelAnswer = Answered(text: string) | AnswerFailed(message: string)

  /** `execute_tool`'s outcome: the summary of a successful call, or the error it reports. */
  datatype Execution = ExecutionSucceeded(summary: string) | ExecutionFailed(error: string)

  datatype Services = Services(
    /** `list_available_tools()`: the server's tool listing, or its error dictionary. */
    listTools: JsonValue,
    /** `inspect_specific_tool(name)`. */
    inspectTool: string -> JsonValue,
    /** The `tools` list fetched by `get_tool_and_arguments`; None when fetching raises. */
    fetchTools: Option<seq<JsonValue>>,
    /** The function-calling request to the model. */
    chooseTool: (Conversation, seq<Declaration>) -> FunctionCallReply,
    /** The plain request to the model when no tool was selected. */
    answer: Conversation -> ModelAnswer,
    /** `execute_tool`, including the summary the model writes of the result. */
    execute: (ToolCall, Conversation) -> Execution)

  /** The dictionary `handle_user_request` returns. */
  datatype Response =
    | Listed(listing: JsonValue)
    | Inspected(toolName: string, details: JsonValue)
    | Responded(text: string, toolUsed: Option<ToolCall>)
    | Failed(text: string, toolUsed: Option<ToolCall>)
    | Raised

  const LlmErrorPrefix := "LLM API error: "

  /** `final_response_text`: what the history records as the model's answer. */
  function FinalText(r: Response): string {
    if r.Responded? || r.Failed? then r.text else ""
  }

  /** The answering step of `handle_user_request`: the response once the selection is known. */
  function Answer(sel: Selection, sv: Services, conv: Conversation): (r: Response)
    requires !sel.SelectionRaised?
    ensures sel.Selected? ==> (r.Responded? || r.Failed?) && r.toolUsed == Some(sel.call)
    ensures sel.NoSelection? ==> (r.Responded? || r.Failed?) && r.toolUsed.None?
    ensures sel.NoSelection? && sv.answer(conv).AnswerFailed? ==> r == Failed(LlmErrorPrefix + sv.answer(conv).message, None)
    ensures sel.NoSelection? && sv.answer(conv).Answered? ==> r == Responded(Strip(sv.answer(conv).text), None)
    ensures sel.Selected? && sv.execute(sel.call, conv).ExecutionSucceeded? ==>
              r == Responded(sv.execute(sel.call, conv).summary, Some(sel.call))
    ensures sel.Selected? && sv.execute(sel.call, conv).ExecutionFailed? ==>
              r == Failed(sv.execute(sel.call, conv).error, Some(sel.call))
  {
    if sel.Selected? then
      match sv.execute(sel.call, conv)
      case ExecutionSucceeded(summary) => Responded(summary, Some(sel.call))
      case ExecutionFailed(error) => Failed(error, Some(sel.call))
    else
      match sv.answer(conv)
      case Answered(text) => Responded(Strip(text), None)
      case AnswerFailed(message) => Failed(LlmErrorPrefix + message, None)
  }

  /** `handle_user_request` on a client whose history is `h`: the response and the history afterwards. */
  function Handle(h: History, max: int, header: string, userInput: string, sv: Services): (out: (Response, History))
    ensures !Route(userInput).Request? || out.0.Raised? ==> out.1 == h
    ensures Route(userInput).Request? && !out.0.Raised? ==>
              out.1 == AfterRequest(h, max, Route(userInput).input, FinalText(out.0))
    ensures Route(userInput).ListTools? ==> out.0 == Listed(sv.listTools)
    ensures Route(userInput).InspectTool? ==>
              out.0 == Inspected(Route(userInput).toolName, sv.inspectTool(Route(userInput).toolName))
    ensures Route(userInput).Request? ==>
              var conv := Conversation(h.text, header, Route(userInput).input);
              var sel := SelectTool(sv.fetchTools, sv.chooseTool, conv);
              && (out.0.Raised? <==> sel.SelectionRaised?)
              && (!sel.SelectionRaised? ==> out.0 == Answer(sel, sv, conv))
  {
    match Route(userInput)
    case ListTools => (Listed(sv.listTools), h)
    case InspectTool(name) => (Inspected(name, sv.inspectTool(name)), h)
    case Request(input) => HandleRequest(h, max, header, input, sv)
  }

  /** The request branch of `handle_user_request`: select a tool, answer, then record the interaction; a raising selection changes nothing. */
  function HandleRequest(h: History, max: int, header: string, input: string, sv: Services): (out: (Response, History))
    ensures var conv := Conversation(h.text, header, input);
            var sel := SelectTool(sv.fetchTools, sv.chooseTool, conv);
            && (out.0.Raised? <==> sel.SelectionRaised?)
            && (sel.SelectionRaised? ==> out.1 == h)
            && (!sel.SelectionRaised? ==> out.0 == Answer(sel, sv, conv) && out.1 == AfterRequest(h, max, input, FinalText(out.0)))
  {
    var conv := Conversation(h.text, header, input);
    var sel := SelectTool(sv.fetchTools, sv.chooseTool, conv);
    if sel.SelectionRaised? then (Raised, h)
    else
      var r := Answer(sel, sv, conv);
      (r, AfterRequest(h, max, input, FinalText(r)))
  }

  /** The end of `handle_user_request`: the history after a request whose answer reads `text`, recorded and then compressed when over the bound. */
  function AfterRequest(h: History, max: int, input: string, text: string): (r: History)
    ensures r.count == h.count + 1 || r.count == 0
  {
    Compressed(Recorded(h, input, text), max)
  }

  /**
   * After a request, the history holds the old words and the interaction's
   * words and the count went up by one, unless that is over the bound; then,
   * for a positive bound, exactly the last `max` of those words remain, and
   * the count is 0.
   */
  lemma AfterRequestWords(h: History, max: int, input: string, text: string)
    ensures var h' := AfterRequest(h, max, input, text);
            var words := Split(h.text) + InteractionWords(h.count + 1, input, text);
            && (|words| <= max ==> Split(h'.text) == words && h'.count == h.count + 1)
            && (|words| > max ==> h'.count == 0)
            && (|words| > max && max > 0 ==> Split(h'.text) == words[|words| - max..])
  {
    RecordedWords(h, input, text);
    var rec := Recorded(h, input, text);
    if |Split(rec.text)| <= max {
      AfterRequestWithin(h, max, input, text);
    } else if max > 0 {
      AfterRequestOver(h, max, input, text);
    }
  }

  /** A request whose recorded history is within the bound keeps it as recorded. */
  lemma AfterRequestWithin(h: History, max: int, input: string, text: string)
    requires |Split(Recorded(h, input, text).text)| <= max
    ensures AfterRequest(h, max, input, text) == Recorded(h, input, text)
  {
  }

  /** A request whose recorded history is over a positive bound keeps its last `max` words. */
  lemma AfterRequestOver(h: History, max: int, input: string, text: string)
    requires max > 0 && |Split(Recorded(h, input, text).text)| > max
    ensures var words := Split(Recorded(h, input, text).text);
            Split(AfterRequest(h, max, input, text).text) == words[|words| - max..]
  {
    CompressKeepsLastWords(Recorded(h, input, text), max);
  }

  /** With a positive bound, the history never holds more than `max` words after a request. */
  lemma HandleBound(h: History, max: int, header: string, userInput: string, sv: Services)
    requires max > 0 && |Split(h.text)| <= max
    ensures |Split(Handle(h, max, header, userInput, sv).1.text)| <= max
  {
    var r := Handle(h, max, header, userInput, sv).0;
    if Route(userInput).Request? && !r.Raised? {
      CompressBound(Recorded(h, Route(userInput).input, FinalText(r)), max);
    }
  }

  /** Appending the lines of an interaction one by one appends the interaction. */
  lemma AppendedLines(before: string, k: nat, input: string, text: string)
    ensures var appended := before + Line("Interaction", NatToString(k) + ":") + Line("User:", input);
            before + Interaction(k, input, text) == if text != "" then appended + Line("Model:", text) else appended
  {
    var numbered, request := Line("Interaction", NatToString(k) + ":"), Line("User:", input);
    if text != "" {
      assert before + (numbered + request + Line("Model:", text)) == before + numbered + request + Line("Model:", text);
    } else {
      assert numbered + request + "" == numbered + request;
    }
  }

  // ================================================================ the client object

  class InteractiveClient {
    var conversationHistory: string
    var interactionCount: nat
    const headerContext: string
    const maxContextWords: int

    /** `__init__`: the stripped header followed by the date line built from the clock's date and zone name. */
    constructor (headerContext: string, currentDate: string, timezoneName: string, maxContextWords: int)
      ensures conversationHistory == "" && interactionCount == 0
      ensures this.headerContext == Strip(headerContext) + "\nThe current date is: " + currentDate
                                    + ". For timezone parameters, you MUST use the " + timezoneName + " timezone.\n"
      ensures this.maxContextWords == maxContextWords
    {
      conversationHistory := "";
      interactionCount := 0;
      this.headerContext := Strip(headerContext) + "\nThe current date is: " + currentDate
                            + ". For timezone parameters, you MUST use the " + timezoneName + " timezone.\n";
      this.maxContextWords := maxContextWords;
    }

    function State(): History
      reads this
    {
      History(conversationHistory, interactionCount)
    }

    /** `compress_context`. */
    method CompressContext()
      modifies this
      ensures State() == Compressed(old(State()), maxContextWords)
    {
      var words := Split(conversationHistory);
      if |words| > maxContextWords {
        conversationHistory := Join(LastWords(words, maxContextWords));
        interactionCount := 0;
      }
    }

    /** `get_tool_and_arguments` once the tool list is fetched: the declarations loop, then the model's choice. */
    method GetToolAndArguments(userRequest: string, sv: Services) returns (sel: Selection)
      ensures sel == SelectTool(sv.fetchTools, sv.chooseTool, Conversation(conversationHistory, headerContext, userRequest))
    {
      if sv.fetchTools.None? {
        return NoSelection(false);
      }
      var specs := sv.fetchTools.value;
      var declared := DeclareTools(specs);
      if declared.None? {
        return SelectionRaised;
      }
      var declarations := declared.value;
      if declarations == [] {
        return NoSelection(false);
      }
      var reply := sv.chooseTool(Conversation(conversationHistory, headerContext, userRequest), declarations);
      if !reply.FunctionCall? {
        return NoSelection(true);
      }
      var tool := Strip(reply.name);
      var arguments := RenameUserId(reply.args);
      if JStr(tool) !in ToolNames(specs) {
        return NoSelection(true);
      }
      sel := Selected(ToolCall(tool, arguments));
    }

    /** `handle_user_request`. */
    method HandleUserRequest(userInput: string, sv: Services) returns (r: Response)
      modifies this
      ensures (r, State()) == Handle(old(State()), maxContextWords, headerContext, userInput, sv)
    {
      var command := Route(userInput);
      if command.ListTools? {
        return Listed(sv.listTools);
      }
      if command.InspectTool? {
        return Inspected(command.toolName, sv.inspectTool(command.toolName));
      }
      var input := command.input;
      var conv := Conversation(conversationHistory, headerContext, input);
      var sel := GetToolAndArguments(input, sv);
      if sel.SelectionRaised? {
        return Raised;
      }
      r := Answer(sel, sv, conv);
      RecordInteraction(input, FinalText(r));
    }

    /** The recording step of `handle_user_request`: the three appends to the history and the count's increment. */
    method AppendInteraction(input: string, text: string)
      modifies this
      ensures State() == Recorded(old(State()), input, text)
    {
      AppendedLines(conversationHistory, interactionCount + 1, input, text);
      conversationHistory := conversationHistory + Line("Interaction", NatToString(interactionCount + 1) + ":");
      conversationHistory := conversationHistory + Line("User:", input);
      if text != "" {
        conversationHistory := conversationHistory + Line("Model:", text);
      }
      interactionCount := interactionCount + 1;
    }

    /** The end of `handle_user_request`: appends the interaction to the history, counts it, and compresses when over the bound. */
    method RecordInteraction(input: string, text: string)
      modifies this
      ensures State() == AfterRequest(old(State()), maxContextWords, input, text)
    {
      AppendInteraction(input, text);
      if |Split(conversationHistory)| > maxContextWords {
        CompressContext();
      }
    }
  }
}
