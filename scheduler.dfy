/**
 * The scheduling workflow of `SimpleTimeScheduler`: time normalisation,
 * the calendar context fetch and its reduction, extraction and validation of
 * the language model's proposal, the one-by-one commit of the proposal, and
 * the orchestration that picks the result at each exit.
 *
 * The date parser, the time-zone arithmetic, the text formatting of
 * datetimes, `json.loads` and the language model are oracles: fields of
 * `Env`. The session is a `Mcp.Session`, whose trace records every call.
 */
module Scheduler {
  import opened Wrappers
  import opened Text
  import opened Json
  import opened Mcp

  // ================================================================ time

  datatype Zone = Zone(name: string)

  /** The one reference zone every time is normalised to. */
  const Eastern := Zone("America/New_York")

  datatype WallClock = WallClock(year: int, month: int, day: int, hour: int, minute: int, second: int, microsecond: int)

  /** A Python datetime: naive when `zone` is None, zone-aware otherwise. */
  datatype DateTime = DateTime(wall: WallClock, zone: Option<Zone>)

  /** The instructions the scheduling prompt is built from (its wording is not modelled). */
  datatype Prompt = Prompt(userPrompt: string, startTime: string, endTime: string,
                           existingEvents: seq<FormattedEvent>, eventsToSchedule: seq<JsonValue>)

  /** What the model call gives: the raw `.text` of its response (stripped later), or the exception raised on the way. */
  datatype LlmReply = LlmText(text: string) | LlmRaised(message: string)

  /** The foreign code the scheduler calls. */
  datatype Env = Env(
    /** `dateutil.parser.parse`; None when it raises. */
    parse: string -> Option<DateTime>,
    /** `str(e)` of what `parser.parse(v)` raises for a value it cannot parse. */
    parseFailure: JsonValue -> string,
    /** `astimezone`: the wall clock of the same instant in another zone. */
    convert: (DateTime, Zone) -> WallClock,
    /** `strftime('%Y-%m-%d %H:%M')`. */
    minuteText: DateTime -> string,
    /** `isoformat()`. */
    isoText: DateTime -> string,
    /** `json.loads`; None when it raises `JSONDecodeError`. */
    loads: string -> Option<JsonValue>,
    /** The module-level Gemini client, None when it could not be set up. */
    llm: Option<Prompt -> LlmReply>)

  /** `_to_eastern`: attaches the reference zone to a naive datetime, converts an aware one. */
  function ToEastern(env: Env, dt: DateTime): (r: DateTime)
    ensures r.zone == Some(Eastern)
    ensures dt.zone.None? ==> r.wall == dt.wall
    ensures dt.zone.Some? ==> r.wall == env.convert(dt, Eastern)
  {
    if dt.zone.None? then DateTime(dt.wall, Some(Eastern))
    else DateTime(env.convert(dt, Eastern), Some(Eastern))
  }

  /** `_parse_time`: None for an empty string or one the parser rejects, a reference-zone time otherwise; it never raises. */
  function ParseTime(env: Env, s: string): (r: Option<DateTime>)
    ensures r.Some? <==> s != "" && env.parse(s).Some?
    ensures r.Some? ==> r.value == ToEastern(env, env.parse(s).value) && r.value.zone == Some(Eastern)
  {
    if s == "" then None
    else match env.parse(s)
      case None => None
      case Some(dt) => Some(ToEastern(env, dt))
  }

  /** `parser.parse(v)` on a decoded JSON value: only strings can parse. */
  function ParseValue(env: Env, v: JsonValue): (r: Option<DateTime>)
    ensures v.JStr? ==> r == env.parse(v.s)
    ensures !v.JStr? ==> r.None?
  {
    if v.JStr? then env.parse(v.s) else None
  }

  // ================================================================ failures

  /**
   * Why the workflow ended before its commit stage. The source returns
   * these as the text under "error"; `FailureText` gives that text.
   */
  datatype Failure =
    | ClientMissing                   // the module-level Gemini client is missing
    | InvalidTimeFormat               // a bound of the window is empty or does not parse
    | CalendarToolMissing             // the session does not advertise `get_calendar_events`
    | ContextFailed(reason: string)   // the events query raised `reason`
    | WorkflowFailed(reason: string)  // the model, or iterating its decoded answer, raised `reason`
    | NoValidEvents                   // no element of the decoded answer passed validation
    | InvalidJson(excerpt: string)    // the answer did not decode; `excerpt` is its first 200 characters

  const WorkflowFailedPrefix := "Scheduling workflow failed: "

  /** The "error" text of a failure; an exception's message ends it, and so does the excerpt of an undecodable reply, before "...". */
  function FailureText(f: Failure): (t: string)
    ensures (f.ContextFailed? || f.WorkflowFailed?) ==> |f.reason| <= |t| && t[|t| - |f.reason|..] == f.reason
    ensures f.InvalidJson? ==> |f.excerpt| + 3 <= |t| && t[|t| - |f.excerpt| - 3..|t| - 3] == f.excerpt
  {
    match f
    case ClientMissing => ClientMissingText
    case InvalidTimeFormat => "Invalid time format"
    case CalendarToolMissing => CalendarToolMissingText
    case ContextFailed(reason) => EndsWithAppended(ContextFailedPrefix, reason); ContextFailedPrefix + reason
    case WorkflowFailed(reason) => EndsWithAppended(WorkflowFailedPrefix, reason); WorkflowFailedPrefix + reason
    case NoValidEvents => NoValidEventsText
    case InvalidJson(excerpt) => Quoted(InvalidJsonPrefix, excerpt, "..."); InvalidJsonPrefix + excerpt + "..."
  }

  const ClientMissingText :=
    "Gemini client not initialized. Check LLM_API_KEY environment variable and install google-genai package."
  const CalendarToolMissingText := "get_calendar_events tool not available in MCP session"
  const NoValidEventsText := "No valid events generated by Gemini"
  const ContextFailedPrefix := "Failed to get context: "
  const InvalidJsonPrefix := "Gemini returned invalid JSON. Response: "

  /** Text appended to a prefix ends the result. */
  lemma EndsWithAppended(p: string, x: string)
    ensures (p + x)[|p + x| - |x|..] == x
  {
  }

  /** Text between a prefix and a suffix sits just before the suffix. */
  lemma Quoted(p: string, x: string, q: string)
    ensures |x| + |q| <= |p + x + q| && (p + x + q)[|p + x + q| - |x| - |q|..|p + x + q| - |q|] == x
  {
    assert (p + x + q)[|p|..|p| + |x|] == x;
  }

  /** Why `create_events` stopped; `CreateFailureText` gives the text it returns under "error". */
  datatype CreateFailure =
    | TimeUnparsable(reason: string)  // parsing a proposal time raised `reason`
    | CallRaised(reason: string)      // the create call raised `reason`
    | CallReported(text: string)      // the create call returned an error result whose first text item is `text`

  const CreateFailedPrefix := "Failed to create events: "

  /** The "error" text of a failed commit: the common prefix, then the cause's own message last. */
  function CreateFailureText(f: CreateFailure): (t: string)
    ensures |CreateFailedPrefix| <= |t| && t[..|CreateFailedPrefix|] == CreateFailedPrefix
    ensures (f.TimeUnparsable? || f.CallRaised?) ==> |f.reason| <= |t| && t[|t| - |f.reason|..] == f.reason
    ensures f.CallReported? ==> |f.text| <= |t| && t[|t| - |f.text|..] == f.text
  {
    match f
    case TimeUnparsable(reason) => CreateFailedPrefix + reason
    case CallRaised(reason) => CreateFailedPrefix + reason
    case CallReported(text) => CreateFailedPrefix + "Calendar event creation failed: " + text
  }

  // ================================================================ context

  /** A booking reduced to what the prompt shows. */
  datatype FormattedEvent = FormattedEvent(summary: JsonValue, startTime: string, endTime: string)

  datatype ContextResult =
    | ContextOk(existingEvents: seq<FormattedEvent>, rangeStart: string, rangeEnd: string, calendarAccessWorking: bool)
    | ContextErr(error: Failure)

  const CalendarTool := "get_calendar_events"

  /** `self.user_id` as the JSON value it is sent as. */
  function UserIdValue(userId: Option<string>): JsonValue {
    if userId.Some? then JStr(userId.value) else JNull
  }

  /** The `get_calendar_events` call for the normalised window. */
  function EventsQuery(env: Env, userId: Option<string>, start: DateTime, end: DateTime): Call {
    CallTool(CalendarTool, [("time_min", JStr(env.isoText(start))), ("time_max", JStr(env.isoText(end))),
                            ("__user_id__", UserIdValue(userId))])
  }

  /** The elements `for x in v` (or `list.extend(v)`) sees; None when `v` is not iterable. */
  function Iterated(v: JsonValue): (r: Option<seq<JsonValue>>)
    ensures r.None? <==> !(v.JArr? || v.JObj? || v.JStr?)
    ensures v.JArr? ==> r == Some(v.items)
    ensures v.JObj? ==> |r.value| == |v.fields| && forall i :: 0 <= i < |v.fields| ==> r.value[i] == JStr(v.fields[i].0)
    ensures v.JStr? ==> |r.value| == |v.s| && forall i :: 0 <= i < |v.s| ==> r.value[i] == JStr([v.s[i]])
  {
    match v
    case JArr(xs) => Some(xs)
    case JObj(fs) => Some(seq(|fs|, i requires 0 <= i < |fs| => JStr(fs[i].0)))
    case JStr(s) => Some(seq(|s|, i requires 0 <= i < |s| => JStr([s[i]])))
    case _ => None
  }

  /**
   * The raw events one content item contributes: a decoded list as it is, a
   * decoded object's `items` entry (default `[]`); nothing when the item has
   * no text, the text does not decode, or `.get`/`extend` raises.
   */
  function RawEventsOf(env: Env, c: Content): (r: seq<JsonValue>)
    ensures c.TextContent? && env.loads(c.text).Some? && env.loads(c.text).value.JArr? ==> r == env.loads(c.text).value.items
    ensures r != [] ==> c.TextContent? && env.loads(c.text).Some? && (env.loads(c.text).value.JArr? || env.loads(c.text).value.JObj?)
    ensures c.TextContent? && env.loads(c.text).Some? && env.loads(c.text).value.JObj? ==>
              var items := Lookup(env.loads(c.text).value.fields, "items");
              && (items.None? ==> r == [])
              && (items.Some? && items.value.JArr? ==> r == items.value.items)
              && (items.Some? && Iterated(items.value).None? ==> r == [])
  {
    match c
    case OtherContent => []
    case TextContent(t) =>
      match env.loads(t)
      case Some(JArr(xs)) => xs
      case Some(JObj(fs)) => Iterated(Lookup(fs, "items").GetOr(JArr([]))).GetOr([])
      case _ => []
  }

  /** `existing_events` after the loop over the result's content items. */
  function RawEvents(env: Env, cs: seq<Content>): seq<JsonValue> {
    if cs == [] then [] else RawEvents(env, cs[..|cs| - 1]) + RawEventsOf(env, cs[|cs| - 1])
  }

  /** `info.get('dateTime') or info.get('date')`; None when `info` is not a dictionary and `.get` raises. */
  function TimeField(info: JsonValue): Option<JsonValue> {
    if info.JObj? then
      var dateTime := Lookup(info.fields, "dateTime").GetOr(JNull);
      Some(if Truthy(dateTime) then dateTime else Lookup(info.fields, "date").GetOr(JNull))
    else None
  }

  /** `event.get(key, {})`'s time field, when it is there and truthy. */
  function EventTime(fs: Fields, key: string): Option<JsonValue> {
    var field := TimeField(Lookup(fs, key).GetOr(JObj([])));
    if field.Some? && Truthy(field.value) then field else None
  }

  /** One raw event reduced to a formatted event; None when it is skipped (missing times or a step that raises). */
  function FormatEvent(env: Env, raw: JsonValue): (r: Option<FormattedEvent>)
    ensures !raw.JObj? ==> r.None?
    ensures r.Some? ==> r.value.summary == Lookup(raw.fields, "summary").GetOr(JStr("Event"))
  {
    if !raw.JObj? then None
    else
      var startField, endField := EventTime(raw.fields, "start"), EventTime(raw.fields, "end");
      if startField.None? || endField.None? then None
      else
        var start, end := ParseValue(env, startField.value), ParseValue(env, endField.value);
        if start.None? || end.None? then None
        else Some(FormattedEvent(Lookup(raw.fields, "summary").GetOr(JStr("Event")),
                                 env.minuteText(ToEastern(env, start.value)),
                                 env.minuteText(ToEastern(env, end.value))))
  }

  /** The values `f` yields for the elements of `xs`, in order, skipping those it yields nothing for. */
  function Kept<T, U>(f: T -> Option<U>, xs: seq<T>): (r: seq<U>)
    ensures |r| <= |xs|
  {
    if xs == [] then []
    else
      var last := f(xs[|xs| - 1]);
      Kept(f, xs[..|xs| - 1]) + (if last.Some? then [last.value] else [])
  }

  function Formatter(env: Env): JsonValue -> Option<FormattedEvent> {
    raw => FormatEvent(env, raw)
  }

  /** `formatted_events` after the loop over the raw events. */
  function Formatted(env: Env, raws: seq<JsonValue>): seq<FormattedEvent> {
    Kept(Formatter(env), raws)
  }

  /** The context stage on a session whose trace is `trace`: its result and the trace afterwards. */
  function Context(env: Env, userId: Option<string>, respond: (seq<Call>, Call) -> Reply, trace: seq<Call>,
                   startTime: string, endTime: string): (out: (ContextResult, seq<Call>))
    ensures |trace| <= |out.1| <= |trace| + 2 && out.1[..|trace|] == trace
    ensures ParseTime(env, startTime).None? || ParseTime(env, endTime).None? ==>
              out == (ContextErr(InvalidTimeFormat), trace)
    ensures out.0.ContextOk? ==> out.0.calendarAccessWorking
  {
    var start, end := ParseTime(env, startTime), ParseTime(env, endTime);
    if start.None? || end.None? then (ContextErr(InvalidTimeFormat), trace)
    else
      var listed := respond(trace, ListTools);
      var afterList := trace + [ListTools];
      if !listed.Raised? && CalendarTool !in ToolNames(listed) then (ContextErr(CalendarToolMissing), afterList)
      else
        var query := EventsQuery(env, userId, start.value, end.value);
        var result := respond(afterList, query);
        var afterQuery := afterList + [query];
        if result.Raised? then (ContextErr(ContextFailed(result.message)), afterQuery)
        else
          var raws := RawEvents(env, ContentOf(result));
          var formatted := Formatted(env, raws);
          (ContextOk(formatted, env.minuteText(start.value), env.minuteText(end.value), |raws| > 0 || |formatted| >= 0),
           afterQuery)
  }

  /** The content loop of `get_scheduling_context`: gathers the raw events of every content item, in order. */
  method CollectRawEvents(env: Env, content: seq<Content>) returns (raws: seq<JsonValue>)
    ensures raws == RawEvents(env, content)
  {
    raws := [];
    var i := 0;
    while i < |content|
      invariant 0 <= i <= |content|
      invariant raws == RawEvents(env, content[..i])
    {
      assert content[..i + 1][..i] == content[..i];
      raws := raws + RawEventsOf(env, content[i]);
      i := i + 1;
    }
    assert content[..|content|] == content;
  }

  /** The formatting loop of `get_scheduling_context`: formats each raw event in turn, skipping those that cannot be formatted. */
  method FormatEvents(env: Env, raws: seq<JsonValue>) returns (formatted: seq<FormattedEvent>)
    ensures formatted == Formatted(env, raws)
  {
    formatted := [];
    var i := 0;
    while i < |raws|
      invariant 0 <= i <= |raws|
      invariant formatted == Formatted(env, raws[..i])
    {
      assert raws[..i + 1][..i] == raws[..i];
      var f := FormatEvent(env, raws[i]);
      if f.Some? {
        formatted := formatted + [f.value];
      }
      i := i + 1;
    }
    assert raws[..|raws|] == raws;
  }

  // ================================================================ proposal

  const Fence := "```"
  const JsonFence := "```json"

  /** The fence stripping of `schedule_complete`: the content of the first code fence, when the reply has one. */
  function Unfenced(response: string): (r: string)
    ensures |r| <= |response|
    ensures !Contains(response, Fence) ==> r == response
  {
    JsonFenceIsFence(response);
    if Contains(response, JsonFence) then Strip(FirstPiece(SecondPiece(response, JsonFence), Fence))
    else if Contains(response, Fence) then Strip(FirstPiece(SecondPiece(response, Fence), Fence))
    else response
  }

  /** The bracket slicing of `schedule_complete`: from the first `[` to the last `]`, or the whole text when either is missing. */
  function JsonCandidate(cleaned: string): (r: string)
    ensures '[' !in cleaned || ']' !in cleaned ==> r == cleaned
    ensures '[' in cleaned && ']' in cleaned ==> |r| <= |cleaned| && (r == [] || (r[0] == '[' && r[|r| - 1] == ']'))
    ensures '[' in cleaned && ']' in cleaned && RFind(cleaned, ']') < Find(cleaned, '[') ==> r == []
  {
    var open, close := Find(cleaned, '['), RFind(cleaned, ']');
    if open != -1 && close != -1 then Slice(cleaned, open, close + 1) else cleaned
  }

  /** A proposal element the committer accepts: a dictionary with all three keys. */
  predicate IsProposal(v: JsonValue) {
    v.JObj? && HasKey(v.fields, "summary") && HasKey(v.fields, "start_time") && HasKey(v.fields, "end_time")
  }

  /** `valid_events` after the validation loop of `schedule_complete`. */
  function ValidProposals(items: seq<JsonValue>): (r: seq<JsonValue>)
    ensures |r| <= |items|
    ensures forall i :: 0 <= i < |r| ==> IsProposal(r[i])
  {
    if items == [] then []
    else ValidProposals(items[..|items| - 1]) + (if IsProposal(items[|items| - 1]) then [items[|items| - 1]] else [])
  }

  /** The validation loop itself. */
  method KeepValid(items: seq<JsonValue>) returns (valid: seq<JsonValue>)
    ensures valid == ValidProposals(items)
  {
    valid := [];
    var i := 0;
    while i < |items|
      invariant 0 <= i <= |items|
      invariant valid == ValidProposals(items[..i])
    {
      assert items[..i + 1][..i] == items[..i];
      if IsProposal(items[i]) {
        valid := valid + [items[i]];
      }
      i := i + 1;
    }
    assert items[..|items|] == items;
  }

  datatype Proposal = Proposed(events: seq<JsonValue>) | ProposalFailed(error: Failure)

  /** `str(e)` of the `TypeError` raised by iterating a value that is not iterable. */
  function NotIterable(v: JsonValue): string {
    "'" + TypeName(v) + "' object is not iterable"
  }

  /** The validation step of `schedule_complete`: the decoded reply iterated and validated. */
  function ProposalOf(decoded: JsonValue): (r: Proposal)
    ensures r.Proposed? ==> r.events != [] && forall i :: 0 <= i < |r.events| ==> IsProposal(r.events[i])
    ensures !(decoded.JArr? || decoded.JObj? || decoded.JStr?) ==>
              r == ProposalFailed(WorkflowFailed(NotIterable(decoded)))
    ensures Iterated(decoded).Some? && ValidProposals(Iterated(decoded).value) == [] ==> r == ProposalFailed(NoValidEvents)
    ensures Iterated(decoded).Some? && ValidProposals(Iterated(decoded).value) != [] ==>
              r == Proposed(ValidProposals(Iterated(decoded).value))
  {
    match Iterated(decoded)
    case None => ProposalFailed(WorkflowFailed(NotIterable(decoded)))
    case Some(items) =>
      var valid := ValidProposals(items);
      if valid == [] then ProposalFailed(NoValidEvents) else Proposed(valid)
  }

  /** The extraction step of `schedule_complete`: the reply text, stripped, unfenced, sliced, decoded and validated. */
  function Propose(loads: string -> Option<JsonValue>, text: string): (r: Proposal)
    ensures r.Proposed? ==> r.events != [] && forall i :: 0 <= i < |r.events| ==> IsProposal(r.events[i])
    ensures loads(JsonCandidate(Unfenced(Strip(text)))).None? ==>
              r == ProposalFailed(InvalidJson(Take(Strip(text), 200)))
    ensures loads(JsonCandidate(Unfenced(Strip(text)))).Some? ==>
              r == ProposalOf(loads(JsonCandidate(Unfenced(Strip(text)))).value)
  {
    var response := Strip(text);
    match loads(JsonCandidate(Unfenced(response)))
    case None => ProposalFailed(InvalidJson(Take(response, 200)))
    case Some(decoded) => ProposalOf(decoded)
  }

  // ================================================================ commit

  /** The confirmation record of one created event. */
  datatype CreatedEvent = CreatedEvent(summary: JsonValue, startTime: string, endTime: string)

  datatype CommitResult = CommitOk(events: seq<CreatedEvent>) | CommitErr(error: CreateFailure)

  const CreateTool := "create_calendar_event"

  /** A validated proposal element, reduced to the three entries the committer reads. */
  datatype ProposedEvent = ProposedEvent(summary: JsonValue, startTime: JsonValue, endTime: JsonValue)

  /** The entries of a dictionary that passed validation. */
  function AsProposed(v: JsonValue): (e: ProposedEvent)
    requires IsProposal(v)
    ensures Some(e.summary) == Lookup(v.fields, "summary")
    ensures Some(e.startTime) == Lookup(v.fields, "start_time") && Some(e.endTime) == Lookup(v.fields, "end_time")
  {
    ProposedEvent(Lookup(v.fields, "summary").value, Lookup(v.fields, "start_time").value,
                  Lookup(v.fields, "end_time").value)
  }

  /** The validated proposal as the committer sees it, element by element. */
  function AsProposedAll(vs: seq<JsonValue>): (es: seq<ProposedEvent>)
    requires forall i :: 0 <= i < |vs| ==> IsProposal(vs[i])
    ensures |es| == |vs| && forall i :: 0 <= i < |vs| ==> es[i] == AsProposed(vs[i])
  {
    seq(|vs|, i requires 0 <= i < |vs| && IsProposal(vs[i]) => AsProposed(vs[i]))
  }

  /** A proposal time, parsed and normalised; None when parsing raises. */
  function ProposalTime(env: Env, v: JsonValue): (r: Option<DateTime>)
    ensures r.Some? <==> ParseValue(env, v).Some?
    ensures r.Some? ==> r.value == ToEastern(env, ParseValue(env, v).value)
  {
    var parsed := ParseValue(env, v);
    if parsed.Some? then Some(ToEastern(env, parsed.value)) else None
  }

  /** `if self.user_id:`. */
  predicate HasUserId(userId: Option<string>) {
    userId.Some? && userId.value != ""
  }

  /** The `create_calendar_event` call for one proposal, None when one of its times does not parse (the loop raises before calling). */
  function CreateCall(env: Env, userId: Option<string>, event: ProposedEvent): (r: Option<Call>)
    ensures r.Some? <==> ProposalTime(env, event.startTime).Some? && ProposalTime(env, event.endTime).Some?
    ensures r.Some? ==> r.value.CallTool? && r.value.name == CreateTool
  {
    var start, end := ProposalTime(env, event.startTime), ProposalTime(env, event.endTime);
    if start.None? || end.None? then None
    else
      var extra := if HasUserId(userId) then [("__user_id__", UserIdValue(userId))] else [];
      var args := [("summary", event.summary),
                   ("start_time", JStr(env.isoText(start.value))),
                   ("end_time", JStr(env.isoText(end.value))),
                   ("__calendar_id__", JStr("primary"))] + extra;
      Some(CallTool(CreateTool, args))
  }

  /** A create call names the proposal's summary as it is and the primary calendar. */
  lemma CreateCallArguments(env: Env, userId: Option<string>, event: ProposedEvent)
    requires CreateCall(env, userId, event).Some?
    ensures var args := CreateCall(env, userId, event).value.arguments;
            && Lookup(args, "summary") == Some(event.summary)
            && Lookup(args, "__calendar_id__") == Some(JStr("primary"))
  {
    var args := CreateCall(env, userId, event).value.arguments;
    var tail := args[1..][1..][1..];
    assert tail[0] == ("__calendar_id__", JStr("primary"));
    assert Lookup(args, "__calendar_id__") == Lookup(args[1..], "__calendar_id__")
           == Lookup(args[1..][1..], "__calendar_id__") == Lookup(tail, "__calendar_id__");
  }

  /** A create call sends both times parsed and normalised to the reference zone, in ISO form. */
  lemma CreateCallTimes(env: Env, userId: Option<string>, event: ProposedEvent)
    requires CreateCall(env, userId, event).Some?
    ensures var args := CreateCall(env, userId, event).value.arguments;
            && Lookup(args, "start_time") == Some(JStr(env.isoText(ProposalTime(env, event.startTime).value)))
            && Lookup(args, "end_time") == Some(JStr(env.isoText(ProposalTime(env, event.endTime).value)))
  {
    var args := CreateCall(env, userId, event).value.arguments;
    assert args[0].0 == "summary" && args[1].0 == "start_time" && args[2].0 == "end_time";
    assert Lookup(args, "start_time") == Lookup(args[1..], "start_time");
    assert Lookup(args, "end_time") == Lookup(args[1..], "end_time") == Lookup(args[1..][1..], "end_time");
  }

  /** A create call carries the user id exactly when the scheduler has a non-empty one. */
  lemma CreateCallUserId(env: Env, userId: Option<string>, event: ProposedEvent)
    requires CreateCall(env, userId, event).Some?
    ensures var args := CreateCall(env, userId, event).value.arguments;
            && (HasKey(args, "__user_id__") <==> HasUserId(userId))
            && (HasUserId(userId) ==> Lookup(args, "__user_id__") == Some(JStr(userId.value)))
  {
    var args := CreateCall(env, userId, event).value.arguments;
    var extra := if HasUserId(userId) then [("__user_id__", UserIdValue(userId))] else [];
    var tail := args[1..][1..][1..];
    assert tail[1..] == extra;
    assert Lookup(args, "__user_id__") == Lookup(args[1..], "__user_id__")
           == Lookup(args[1..][1..], "__user_id__") == Lookup(tail, "__user_id__") == Lookup(extra, "__user_id__");
  }

  /** The record appended to `created` for one proposal, None when one of its times does not parse. */
  function CreatedFor(env: Env, event: ProposedEvent): (r: Option<CreatedEvent>)
    ensures r.Some? <==> ProposalTime(env, event.startTime).Some? && ProposalTime(env, event.endTime).Some?
    ensures r.Some? ==> && r.value.summary == event.summary
                        && r.value.startTime == env.isoText(ProposalTime(env, event.startTime).value)
                        && r.value.endTime == env.isoText(ProposalTime(env, event.endTime).value)
  {
    var start, end := ProposalTime(env, event.startTime), ProposalTime(env, event.endTime);
    if start.None? || end.None? then None
    else Some(CreatedEvent(event.summary, env.isoText(start.value), env.isoText(end.value)))
  }

  /** The text of the first text item of a failed result, or "Unknown error". */
  function ErrorText(content: seq<Content>): (r: string)
    ensures (forall i :: 0 <= i < |content| ==> !content[i].TextContent?) ==> r == "Unknown error"
    ensures content != [] && content[0].TextContent? ==> r == content[0].text
  {
    if content == [] then "Unknown error"
    else if content[0].TextContent? then content[0].text
    else ErrorText(content[1..])
  }

  /** The error text is that of the first text item, wherever it is. */
  lemma {:induction false} ErrorTextFirstText(content: seq<Content>, k: nat)
    requires k < |content| && content[k].TextContent?
    requires forall j :: 0 <= j < k ==> !content[j].TextContent?
    ensures ErrorText(content) == content[k].text
  {
    if k > 0 {
      assert !content[0].TextContent?;
      assert content[1..][k - 1] == content[k];
      forall j | 0 <= j < k - 1
        ensures !content[1..][j].TextContent?
      {
        assert content[1..][j] == content[j + 1];
      }
      ErrorTextFirstText(content[1..], k - 1);
    }
  }

  /** A call's reply that lets the commit go on: it neither raised nor reported an error. */
  predicate Succeeded(r: Reply) {
    !r.Raised? && !ReportsError(r)
  }

  /** What the loop does with one proposal: creates it, or stops the batch after issuing `issued`. */
  datatype Step = Created(call: Call, record: CreatedEvent) | Stopped(error: CreateFailure, issued: seq<Call>)

  /** `error` is what `create_events` reports for a create call answered by `reply`. */
  predicate ReportedBy(error: CreateFailure, reply: Reply) {
    match error
    case TimeUnparsable(_) => false
    case CallRaised(reason) => reply.Raised? && reason == reply.message
    case CallReported(text) => !reply.Raised? && ReportsError(reply) && text == ErrorText(reply.content)
  }

  /** One iteration of the loop of `create_events`, on a session whose trace is `trace`. */
  function CommitStep(env: Env, userId: Option<string>, respond: (seq<Call>, Call) -> Reply, trace: seq<Call>,
                      event: ProposedEvent): (s: Step)
    ensures s.Created? ==> && CreateCall(env, userId, event) == Some(s.call)
                           && Succeeded(respond(trace, s.call))
                           && CreatedFor(env, event) == Some(s.record)
    ensures s.Stopped? ==> && (s.issued == [] <==> s.error.TimeUnparsable?)
                           && (s.issued == [] <==> CreateCall(env, userId, event).None?)
    ensures s.Stopped? && s.issued != [] ==> && s.issued == [CreateCall(env, userId, event).value]
                                             && ReportedBy(s.error, respond(trace, s.issued[0]))
  {
    var start, end := ProposalTime(env, event.startTime), ProposalTime(env, event.endTime);
    if start.None? then Stopped(TimeUnparsable(env.parseFailure(event.startTime)), [])
    else if end.None? then Stopped(TimeUnparsable(env.parseFailure(event.endTime)), [])
    else
      var call := CreateCall(env, userId, event).value;
      var reply := respond(trace, call);
      if reply.Raised? then Stopped(CallRaised(reply.message), [call])
      else if ReportsError(reply) then Stopped(CallReported(ErrorText(reply.content)), [call])
      else Created(call, CreatedFor(env, event).value)
  }

  /** The calls one step issued. */
  function Issued(s: Step): seq<Call> {
    if s.Created? then [s.call] else s.issued
  }

  /** One iteration of the commit loop, given the calls issued so far. */
  type Stepper = (seq<Call>, ProposedEvent) -> Step

  /** The commit loop from proposal `i` on, with `created` built so far and `trace` the session's calls so far. */
  function CommitFrom(step: Stepper, trace: seq<Call>, events: seq<ProposedEvent>, i: nat, created: seq<CreatedEvent>)
    : (out: (CommitResult, seq<Call>))
    requires i <= |events|
    ensures |trace| <= |out.1| && out.1[..|trace|] == trace
    ensures out.0.CommitOk? ==> |out.0.events| == |created| + (|events| - i) && out.0.events[..|created|] == created
    decreases |events| - i
  {
    if i == |events| then (CommitOk(created), trace)
    else
      match step(trace, events[i])
      case Stopped(error, issued) =>
        assert (trace + issued)[..|trace|] == trace;
        (CommitErr(error), trace + issued)
      case Created(call, record) =>
        var out := CommitFrom(step, trace + [call], events, i + 1, created + [record]);
        assert out.1[..|trace| + 1][..|trace|] == out.1[..|trace|];
        assert out.0.CommitOk? ==> out.0.events[..|created| + 1][..|created|] == out.0.events[..|created|];
        out
  }

  /** The index of the proposal at which the loop from `i` on stops, `|events|` when it runs to the end. */
  function StopIndex(step: Stepper, trace: seq<Call>, events: seq<ProposedEvent>, i: nat): (k: nat)
    requires i <= |events|
    ensures i <= k <= |events|
    decreases |events| - i
  {
    if i == |events| then i
    else
      match step(trace, events[i])
      case Stopped(_, _) => i
      case Created(call, _) => StopIndex(step, trace + [call], events, i + 1)
  }

  /** The loop body of `create_events` on this session. */
  function CommitStepper(env: Env, userId: Option<string>, respond: (seq<Call>, Call) -> Reply): Stepper {
    (trace: seq<Call>, event: ProposedEvent) => CommitStep(env, userId, respond, trace, event)
  }

  /** `create_events` on a session whose trace is `trace`: its result and the trace afterwards, which only grows; on success, one record per proposal. */
  function Commit(env: Env, userId: Option<string>, respond: (seq<Call>, Call) -> Reply, trace: seq<Call>,
                  events: seq<ProposedEvent>): (out: (CommitResult, seq<Call>))
    ensures |trace| <= |out.1| && out.1[..|trace|] == trace
    ensures out.0.CommitOk? ==> |out.0.events| == |events|
  {
    CommitFrom(CommitStepper(env, userId, respond), trace, events, 0, [])
  }

  // ================================================================ orchestration

  datatype ScheduleRequest = ScheduleRequest(startTime: string, endTime: string,
                                             eventsToSchedule: seq<JsonValue>, userPrompt: string)

  datatype ScheduleResult =
    | Scheduled(eventsCreated: seq<CreatedEvent>, existingEventsConsidered: seq<FormattedEvent>)
    | ScheduleFailed(error: Failure)
    | CreationFailed(cause: CreateFailure, generatedEvents: seq<JsonValue>)

  const CompletedPrefix := "Scheduling completed! Generated and created "

  /** The text of a result: its "message", which gives the number of created events, on success; its "error" otherwise. */
  function ResultText(r: ScheduleResult): (t: string)
    ensures r.Scheduled? ==> var n := NatToString(|r.eventsCreated|);
                             |CompletedPrefix| + |n| <= |t| && t[|CompletedPrefix|..|CompletedPrefix| + |n|] == n
    ensures r.ScheduleFailed? ==> t == FailureText(r.error)
    ensures r.CreationFailed? ==> var cause := CreateFailureText(r.cause);
                                  |cause| <= |t| && t[|t| - |cause|..] == cause
  {
    match r
    case Scheduled(created, _) =>
      CompletedPrefix + NatToString(|created|) + " events in your calendar."
    case ScheduleFailed(error) => FailureText(error)
    case CreationFailed(error, _) => "Events were generated by Gemini but creation failed: " + CreateFailureText(error)
  }

  /** The prompt the model is given once the context is known. */
  function PromptFor(req: ScheduleRequest, existing: seq<FormattedEvent>): Prompt {
    Prompt(req.userPrompt, req.startTime, req.endTime, existing, req.eventsToSchedule)
  }

  /**
   * `schedule_complete` on a session whose trace is `trace`: its result and
   * the trace afterwards. The trace only grows; without a model client no
   * call is made; a workflow that fails before its commit stage made at most
   * the two context calls.
   */
  function Schedule(env: Env, userId: Option<string>, respond: (seq<Call>, Call) -> Reply, trace: seq<Call>,
                    req: ScheduleRequest): (out: (ScheduleResult, seq<Call>))
    ensures env.llm.None? ==> out == (ScheduleFailed(ClientMissing), trace)
    ensures |trace| <= |out.1| && out.1[..|trace|] == trace
    ensures out.0.ScheduleFailed? ==> |out.1| <= |trace| + 2
  {
    if env.llm.None? then (ScheduleFailed(ClientMissing), trace)
    else
      var context := Context(env, userId, respond, trace, req.startTime, req.endTime);
      var out := AfterContext(env, userId, respond, req, context);
      assert out.1[..|context.1|][..|trace|] == out.1[..|trace|];
      out
  }

  /** The workflow once the context stage has ended as `context`: a failed context is returned as it is, otherwise the model is asked. */
  function AfterContext(env: Env, userId: Option<string>, respond: (seq<Call>, Call) -> Reply, req: ScheduleRequest,
                        context: (ContextResult, seq<Call>)): (out: (ScheduleResult, seq<Call>))
    requires env.llm.Some?
    ensures context.0.ContextErr? ==> out == (ScheduleFailed(context.0.error), context.1)
    ensures |context.1| <= |out.1| && out.1[..|context.1|] == context.1
    ensures out.0.ScheduleFailed? ==> out.1 == context.1
  {
    var (result, trace) := context;
    if result.ContextErr? then (ScheduleFailed(result.error), trace)
    else AfterReply(env, userId, respond, trace, result.existingEvents, env.llm.value(PromptFor(req, result.existingEvents)))
  }

  /** The workflow once the model has answered `reply`: an exception ends it, a text is turned into a proposal. */
  function AfterReply(env: Env, userId: Option<string>, respond: (seq<Call>, Call) -> Reply, trace: seq<Call>,
                      existing: seq<FormattedEvent>, reply: LlmReply): (out: (ScheduleResult, seq<Call>))
    ensures reply.LlmRaised? ==> out == (ScheduleFailed(WorkflowFailed(reply.message)), trace)
    ensures |trace| <= |out.1| && out.1[..|trace|] == trace
    ensures out.0.ScheduleFailed? ==> out.1 == trace
  {
    match reply
    case LlmRaised(message) => (ScheduleFailed(WorkflowFailed(message)), trace)
    case LlmText(text) => AfterProposal(env, userId, respond, trace, existing, Propose(env.loads, text))
  }

  /** The workflow once the reply has been extracted and validated: a failed proposal ends it, a valid one is committed. */
  function AfterProposal(env: Env, userId: Option<string>, respond: (seq<Call>, Call) -> Reply, trace: seq<Call>,
                         existing: seq<FormattedEvent>, proposal: Proposal): (out: (ScheduleResult, seq<Call>))
    requires proposal.Proposed? ==> forall i :: 0 <= i < |proposal.events| ==> IsProposal(proposal.events[i])
    ensures proposal.ProposalFailed? ==> out == (ScheduleFailed(proposal.error), trace)
    ensures proposal.Proposed? ==> !out.0.ScheduleFailed?
    ensures |trace| <= |out.1| && out.1[..|trace|] == trace
  {
    match proposal
    case ProposalFailed(error) => (ScheduleFailed(error), trace)
    case Proposed(events) => Finish(env, userId, respond, trace, existing, events)
  }

  /**
   * The commit stage of `schedule_complete` and the result it shapes from the
   * commit's outcome: a success reports one created event per proposal and
   * the existing events the model was shown, a failure the whole proposal.
   */
  function Finish(env: Env, userId: Option<string>, respond: (seq<Call>, Call) -> Reply, trace: seq<Call>,
                  existing: seq<FormattedEvent>, events: seq<JsonValue>): (out: (ScheduleResult, seq<Call>))
    requires forall i :: 0 <= i < |events| ==> IsProposal(events[i])
    ensures out.0.Scheduled? || out.0.CreationFailed?
    ensures out.0.Scheduled? ==> |out.0.eventsCreated| == |events| && out.0.existingEventsConsidered == existing
    ensures out.0.CreationFailed? ==> out.0.generatedEvents == events
    ensures |trace| <= |out.1| && out.1[..|trace|] == trace
  {
    var (commit, afterCommit) := Commit(env, userId, respond, trace, AsProposedAll(events));
    match commit
    case CommitOk(created) => (Scheduled(created, existing), afterCommit)
    case CommitErr(error) => (CreationFailed(error, events), afterCommit)
  }

  // ================================================================ properties: context

  /** A raw event is formatted exactly when it is an object whose start and end each carry a truthy `dateTime` or `date` that parses; the summary defaults to "Event". */
  lemma FormatEventExactly(env: Env, raw: JsonValue)
    ensures FormatEvent(env, raw).Some? <==>
              && raw.JObj?
              && EventTime(raw.fields, "start").Some? && EventTime(raw.fields, "end").Some?
              && ParseValue(env, EventTime(raw.fields, "start").value).Some?
              && ParseValue(env, EventTime(raw.fields, "end").value).Some?
    ensures FormatEvent(env, raw).Some? ==>
              && FormatEvent(env, raw).value.summary == Lookup(raw.fields, "summary").GetOr(JStr("Event"))
              && FormatEvent(env, raw).value.startTime
                 == env.minuteText(ToEastern(env, ParseValue(env, EventTime(raw.fields, "start").value).value))
              && FormatEvent(env, raw).value.endTime
                 == env.minuteText(ToEastern(env, ParseValue(env, EventTime(raw.fields, "end").value).value))
  {
  }

  /** A truthy `dateTime` wins over `date`; `date` is used only when `dateTime` is missing or falsy. */
  lemma EventTimePrefersDateTime(fs: Fields, key: string, info: Fields)
    requires Lookup(fs, key) == Some(JObj(info))
    ensures Lookup(info, "dateTime").Some? && Truthy(Lookup(info, "dateTime").value) ==>
              EventTime(fs, key) == Lookup(info, "dateTime")
    ensures (Lookup(info, "dateTime").None? || !Truthy(Lookup(info, "dateTime").value)) ==>
              EventTime(fs, key) == (if Lookup(info, "date").Some? && Truthy(Lookup(info, "date").value)
                                     then Lookup(info, "date") else None)
  {
  }

  lemma {:induction false} KeptAppend<T, U>(f: T -> Option<U>, a: seq<T>, b: seq<T>)
    ensures Kept(f, a + b) == Kept(f, a) + Kept(f, b)
    decreases |b|
  {
    if b != [] {
      var b' := b[..|b| - 1];
      assert (a + b)[..|a + b| - 1] == a + b';
      assert (a + b)[|a + b| - 1] == b[|b| - 1];
      KeptAppend(f, a, b');
    } else {
      assert a + b == a;
    }
  }

  lemma {:induction false} KeptMembers<T, U>(f: T -> Option<U>, xs: seq<T>, y: U)
    ensures y in Kept(f, xs) <==> exists i :: 0 <= i < |xs| && f(xs[i]) == Some(y)
  {
    if xs != [] {
      var init := xs[..|xs| - 1];
      KeptMembers(f, init, y);
      if exists i :: 0 <= i < |xs| && f(xs[i]) == Some(y) {
        var i :| 0 <= i < |xs| && f(xs[i]) == Some(y);
        if i < |xs| - 1 {
          assert init[i] == xs[i];
        }
      }
      if exists i :: 0 <= i < |init| && f(init[i]) == Some(y) {
        var i :| 0 <= i < |init| && f(init[i]) == Some(y);
        assert xs[i] == init[i];
      }
    }
  }

  lemma {:induction false} KeptImage<T, U>(f: T -> Option<U>, xs: seq<T>)
    requires forall i :: 0 <= i < |xs| ==> f(xs[i]).Some?
    ensures |Kept(f, xs)| == |xs|
    ensures forall i :: 0 <= i < |xs| ==> Kept(f, xs)[i] == f(xs[i]).value
  {
    if xs != [] {
      var init, last := xs[..|xs| - 1], xs[|xs| - 1];
      forall i | 0 <= i < |init|
        ensures f(init[i]).Some?
      {
        assert init[i] == xs[i];
      }
      KeptImage(f, init);
      assert Kept(f, xs) == Kept(f, init) + [f(last).value];
    }
  }

  /** Reduction distributes over concatenation: the formatted events keep the order of the raw ones. */
  lemma FormattedAppend(env: Env, a: seq<JsonValue>, b: seq<JsonValue>)
    ensures Formatted(env, a + b) == Formatted(env, a) + Formatted(env, b)
  {
    KeptAppend(Formatter(env), a, b);
  }

  /** Every formatted event comes from some raw event, and every formattable raw event is represented. */
  lemma FormattedMembers(env: Env, raws: seq<JsonValue>, f: FormattedEvent)
    ensures f in Formatted(env, raws) <==> exists i :: 0 <= i < |raws| && FormatEvent(env, raws[i]) == Some(f)
  {
    KeptMembers(Formatter(env), raws, f);
  }

  /** When every raw event is formattable, the result is their element-wise image, in order. */
  lemma FormattedImage(env: Env, raws: seq<JsonValue>)
    requires forall i :: 0 <= i < |raws| ==> FormatEvent(env, raws[i]).Some?
    ensures |Formatted(env, raws)| == |raws|
    ensures forall i :: 0 <= i < |raws| ==> Formatted(env, raws)[i] == FormatEvent(env, raws[i]).value
  {
    KeptImage(Formatter(env), raws);
  }

  /**
   * The calls the context stage issues: none when a bound fails to parse;
   * otherwise `list_tools` first, then the events query only when the
   * calendar tool is advertised or the listing itself raised.
   */
  lemma ContextCalls(env: Env, userId: Option<string>, respond: (seq<Call>, Call) -> Reply, trace: seq<Call>,
                     startTime: string, endTime: string)
    ensures var (r, tr) := Context(env, userId, respond, trace, startTime, endTime);
            var start, end := ParseTime(env, startTime), ParseTime(env, endTime);
            var listed := respond(trace, ListTools);
            && (start.None? || end.None? ==> tr == trace)
            && (start.Some? && end.Some? ==>
                  && |tr| > |trace| && tr[|trace|] == ListTools
                  && (|tr| == |trace| + 2 <==> listed.Raised? || CalendarTool in ToolNames(listed))
                  && (|tr| == |trace| + 2 ==> tr[|trace| + 1] == EventsQuery(env, userId, start.value, end.value))
                  && (|tr| == |trace| + 1 ==> r == ContextErr(CalendarToolMissing))
                  && r != ContextErr(InvalidTimeFormat))
  {
  }

  /** A successful context carries the reduction of every raw event the query returned; with none, it is still a success with no events. */
  lemma ContextSuccess(env: Env, userId: Option<string>, respond: (seq<Call>, Call) -> Reply, trace: seq<Call>,
                       startTime: string, endTime: string)
    requires ParseTime(env, startTime).Some? && ParseTime(env, endTime).Some?
    requires var listed := respond(trace, ListTools); listed.Raised? || CalendarTool in ToolNames(listed)
    ensures var (r, tr) := Context(env, userId, respond, trace, startTime, endTime);
            var reply := respond(trace + [ListTools], tr[|trace| + 1]);
            && (!reply.Raised? ==> r.ContextOk? && r.calendarAccessWorking
                                   && r.existingEvents == Formatted(env, RawEvents(env, ContentOf(reply))))
            && (!reply.Raised? && RawEvents(env, ContentOf(reply)) == [] ==> r.ContextOk? && r.existingEvents == [])
  {
  }

  /** The raw events of a run of content items are those of its parts, in order. */
  lemma {:induction false} RawEventsAppend(env: Env, a: seq<Content>, b: seq<Content>)
    ensures RawEvents(env, a + b) == RawEvents(env, a) + RawEvents(env, b)
    decreases |b|
  {
    if b != [] {
      var b' := b[..|b| - 1];
      assert (a + b)[..|a + b| - 1] == a + b';
      assert (a + b)[|a + b| - 1] == b[|b| - 1];
      RawEventsAppend(env, a, b');
    } else {
      assert a + b == a;
    }
  }

  // ================================================================ properties: proposal

  lemma JsonFenceIsFence(s: string)
    ensures Contains(s, JsonFence) ==> Contains(s, Fence)
  {
    if Contains(s, JsonFence) {
      var k := IndexOf(s, JsonFence);
      assert s[k..k + |Fence|] == s[k..k + |JsonFence|][..|Fence|];
      assert OccursAt(s, Fence, k);
    }
  }

  /** A fence that starts with a backquote occurs first right after a prefix without backquotes. */
  lemma FenceAfter(pre: string, fence: string, rest: string)
    requires fence != [] && fence[0] == '`' && '`' !in pre
    ensures IndexOf(pre + fence + rest, fence) == |pre|
  {
    var s := pre + fence + rest;
    assert s[|pre|..|pre| + |fence|] == fence;
    forall j: nat | j < |pre|
      ensures !OccursAt(s, fence, j)
    {
      assert s[j] == pre[j];
    }
    IndexOfIs(s, fence, |pre|);
  }

  /** What follows the first fence, up to the next one, is the second piece. */
  lemma PieceAfterFence(pre: string, fence: string, rest: string)
    requires fence != [] && fence[0] == '`' && '`' !in pre
    ensures Contains(pre + fence + rest, fence)
    ensures SecondPiece(pre + fence + rest, fence) == FirstPiece(rest, fence)
  {
    FenceAfter(pre, fence, rest);
    assert (pre + fence + rest)[|pre| + |fence|..] == rest;
  }

  /** The text before a fence, when it has no backquote, is the first piece. */
  lemma PieceBeforeFence(body: string, fence: string, rest: string)
    requires fence != [] && fence[0] == '`' && '`' !in body
    ensures FirstPiece(body + fence + rest, fence) == body
  {
    FenceAfter(body, fence, rest);
    assert (body + fence + rest)[..|body|] == body;
  }

  /** Text without backquotes holds no fence. */
  lemma NoFenceIn(s: string, fence: string)
    requires fence != [] && fence[0] == '`' && '`' !in s
    ensures !Contains(s, fence)
  {
  }

  /**
   * The first piece of `body + Fence + post` up to a "```json" fence, cut at
   * its first "```", is `body`, when `body` has no backquote and `post` does
   * not start with one.
   */
  lemma ClosingFence(body: string, post: string, u: string)
    requires '`' !in body && (post == [] || post[0] != '`')
    requires PieceBefore(body + Fence + post, JsonFence, u)
    ensures FirstPiece(u, Fence) == body
  {
    var t := body + Fence + post;
    var n := |body|;
    assert t[..n] == body && t[n..n + 3] == Fence;
    forall j: nat | j < n
      ensures !OccursAt(t, JsonFence, j)
    {
      assert t[j] == body[j];
    }
    if post != [] {
      assert t[n + 3] == post[0] != '`';
    }
    assert |u| == n || |u| >= n + 3;
    if |u| == n {
      assert u == body;
      NoFenceIn(body, Fence);
    } else {
      assert u == body + Fence + u[n + 3..];
      PieceBeforeFence(body, Fence, u[n + 3..]);
    }
  }

  /** A reply with a "```json" fence is read as the stripped text between it and the next fence. */
  lemma UnfencedJson(pre: string, body: string, post: string)
    requires '`' !in pre && '`' !in body && (post == [] || post[0] != '`')
    ensures Unfenced(pre + JsonFence + body + Fence + post) == Strip(body)
  {
    var t := body + Fence + post;
    assert pre + JsonFence + body + Fence + post == pre + JsonFence + t;
    PieceAfterFence(pre, JsonFence, t);
    ClosingFence(body, post, FirstPiece(t, JsonFence));
  }

  /** A reply with a plain fence and no "```json" one is read as the stripped text between its first two fences. */
  lemma UnfencedPlain(pre: string, body: string, post: string)
    requires '`' !in pre && '`' !in body
    requires !Contains(pre + Fence + body + Fence + post, JsonFence)
    ensures Unfenced(pre + Fence + body + Fence + post) == Strip(body)
  {
    var t := body + Fence + post;
    assert pre + Fence + body + Fence + post == pre + Fence + t;
    PieceAfterFence(pre, Fence, t);
    PieceBeforeFence(body, Fence, post);
    NoFenceIn(body, Fence);
  }

  lemma {:induction false} FindIs(s: string, c: char, k: nat)
    requires k < |s| && s[k] == c && c !in s[..k]
    ensures Find(s, c) == k
  {
    if k > 0 {
      assert s[0] == s[..k][0];
      assert s[1..][..k - 1] == s[..k][1..];
      FindIs(s[1..], c, k - 1);
    }
  }

  lemma {:induction false} RFindIs(s: string, c: char, k: nat)
    requires k < |s| && s[k] == c && c !in s[k + 1..]
    ensures RFind(s, c) == k
    decreases |s|
  {
    if k < |s| - 1 {
      assert s[|s| - 1] == s[k + 1..][|s| - 2 - k];
      assert s[..|s| - 1][k + 1..] == s[k + 1..][..|s| - 2 - k];
      RFindIs(s[..|s| - 1], c, k);
    }
  }

  /** Prose around a JSON array does not stop it from being found: the text from the first `[` to the last `]` is the array. */
  lemma ProseAroundArray(pre: string, arr: string, post: string)
    requires '[' !in pre && ']' !in post
    requires |arr| > 0 && arr[0] == '[' && arr[|arr| - 1] == ']'
    ensures JsonCandidate(pre + arr + post) == arr
  {
    var s := pre + arr + post;
    assert s[..|pre|] == pre;
    FindIs(s, '[', |pre|);
    assert s[|pre| + |arr|..] == post;
    RFindIs(s, ']', |pre| + |arr| - 1);
    assert s[|pre|..|pre| + |arr|] == arr;
  }

  /** For an unfenced reply, the decoder is handed exactly the array the prose surrounds. */
  lemma ProposalReadsArray(text: string, pre: string, arr: string, post: string)
    requires Strip(text) == pre + arr + post && !Contains(pre + arr + post, Fence)
    requires '[' !in pre && ']' !in post
    requires |arr| > 0 && arr[0] == '[' && arr[|arr| - 1] == ']'
    ensures JsonCandidate(Unfenced(Strip(text))) == arr
  {
    ProseAroundArray(pre, arr, post);
  }

  /** Validation distributes over concatenation: survivors keep their relative order. */
  lemma {:induction false} ValidProposalsAppend(a: seq<JsonValue>, b: seq<JsonValue>)
    ensures ValidProposals(a + b) == ValidProposals(a) + ValidProposals(b)
    decreases |b|
  {
    if b != [] {
      var b' := b[..|b| - 1];
      assert (a + b)[..|a + b| - 1] == a + b';
      assert (a + b)[|a + b| - 1] == b[|b| - 1];
      ValidProposalsAppend(a, b');
    } else {
      assert a + b == a;
    }
  }

  /** An element survives validation exactly when it is a dictionary with all three keys. */
  lemma {:induction false} ValidProposalsMembers(items: seq<JsonValue>, v: JsonValue)
    ensures v in ValidProposals(items) <==> v in items && IsProposal(v)
  {
    if items != [] {
      var init := items[..|items| - 1];
      ValidProposalsMembers(init, v);
      assert items == init + [items[|items| - 1]];
    }
  }

  /** A proposal whose every element is well formed passes validation unchanged. */
  lemma {:induction false} ValidProposalsKeepAll(items: seq<JsonValue>)
    requires forall i :: 0 <= i < |items| ==> IsProposal(items[i])
    ensures ValidProposals(items) == items
  {
    if items != [] {
      var init := items[..|items| - 1];
      assert forall i :: 0 <= i < |init| ==> init[i] == items[i];
      ValidProposalsKeepAll(init);
      assert items == init + [items[|items| - 1]];
    }
  }

  /** Validation of a list without a single well-formed element leaves nothing. */
  lemma {:induction false} ValidProposalsNone(items: seq<JsonValue>)
    requires forall i :: 0 <= i < |items| ==> !IsProposal(items[i])
    ensures ValidProposals(items) == []
  {
    if items != [] {
      var init := items[..|items| - 1];
      forall i | 0 <= i < |init|
        ensures !IsProposal(init[i])
      {
        assert init[i] == items[i];
      }
      ValidProposalsNone(init);
    }
  }

  /** A decoded list in which no element is well formed is a failure, not an empty success. */
  lemma NoValidProposalFails(items: seq<JsonValue>)
    requires forall i :: 0 <= i < |items| ==> !IsProposal(items[i])
    ensures ProposalOf(JArr(items)) == ProposalFailed(NoValidEvents)
  {
    ValidProposalsNone(items);
  }

  // ================================================================ properties: commit

  /**
   * Proposal `j` of a loop from `i` on that gets past `j`, for any step: its
   * step created it, with the calls so far as its trace, its call next in the
   * trace and, on success, its record next among the records.
   */
  lemma {:induction false} CommitFromAt(step: Stepper, trace: seq<Call>, events: seq<ProposedEvent>, i: nat,
                                        created: seq<CreatedEvent>, j: nat)
    requires i <= |events| && i <= j < StopIndex(step, trace, events, i)
    ensures var (res, tr) := CommitFrom(step, trace, events, i, created);
            var m := |trace| + (j - i);
            && m < |tr|
            && step(tr[..m], events[j]).Created? && step(tr[..m], events[j]).call == tr[m]
            && (res.CommitOk? ==>
                  |created| + (j - i) < |res.events| && step(tr[..m], events[j]).record == res.events[|created| + (j - i)])
    decreases |events| - i
  {
    var s := step(trace, events[i]);
    var trace', created' := trace + [s.call], created + [s.record];
    if j == i {
      var (res, tr) := CommitFrom(step, trace, events, i, created);
      assert tr[..|trace|] == tr[..|trace'|][..|trace|];
      assert tr[|trace|] == tr[..|trace'|][|trace|];
      if res.CommitOk? {
        assert res.events[|created|] == res.events[..|created'|][|created|];
      }
    } else {
      CommitFromAt(step, trace', events, i + 1, created', j);
    }
  }

  /**
   * How the loop from proposal `i` on ends, for any step: it succeeds
   * exactly when it runs to the end, with one call and one record per
   * proposal; a loop that stops reports the stopping step's error after the
   * calls it issued.
   */
  lemma {:induction false} CommitFromEnd(step: Stepper, trace: seq<Call>, events: seq<ProposedEvent>, i: nat,
                                         created: seq<CreatedEvent>)
    requires i <= |events|
    ensures var (res, tr) := CommitFrom(step, trace, events, i, created);
            var k := StopIndex(step, trace, events, i);
            && |trace| + (k - i) <= |tr|
            && (res.CommitOk? <==> k == |events|)
            && (res.CommitOk? ==> |tr| == |trace| + (k - i) && |res.events| == |created| + (k - i))
            && (res.CommitErr? ==>
                  var s := step(tr[..|trace| + (k - i)], events[k]);
                  s.Stopped? && tr == tr[..|trace| + (k - i)] + s.issued && res.error == s.error)
    decreases |events| - i
  {
    if i < |events| {
      var s := step(trace, events[i]);
      if s.Created? {
        CommitFromEnd(step, trace + [s.call], events, i + 1, created + [s.record]);
      } else {
        assert (trace + s.issued)[..|trace|] == trace;
      }
    }
  }

  /** The loop body of `create_events` is `CommitStep`. */
  lemma StepperIsStep(env: Env, userId: Option<string>, respond: (seq<Call>, Call) -> Reply, trace: seq<Call>,
                      event: ProposedEvent)
    ensures CommitStepper(env, userId, respond)(trace, event) == CommitStep(env, userId, respond, trace, event)
  {
  }

  /** Where `create_events` stops: the loop runs to the end with one call per proposal, or it stops at a proposal after at most its own call. */
  lemma CommitStop(env: Env, userId: Option<string>, respond: (seq<Call>, Call) -> Reply,
                   trace: seq<Call>, events: seq<ProposedEvent>)
    ensures var (res, tr) := Commit(env, userId, respond, trace, events);
            var k := StopIndex(CommitStepper(env, userId, respond), trace, events, 0);
            && |trace| + k <= |tr| <= |trace| + k + 1 && tr[..|trace|] == trace
            && (res.CommitOk? <==> k == |events|)
            && (res.CommitOk? ==> |tr| == |trace| + k)
            && (res.CommitErr? ==>
                  var s := CommitStep(env, userId, respond, tr[..|trace| + k], events[k]);
                  s.Stopped? && tr == tr[..|trace| + k] + s.issued && res.error == s.error)
  {
    var step := CommitStepper(env, userId, respond);
    var tr := Commit(env, userId, respond, trace, events).1;
    var k := StopIndex(step, trace, events, 0);
    CommitFromEnd(step, trace, events, 0, []);
    if k < |events| {
      StepperIsStep(env, userId, respond, tr[..|trace| + k], events[k]);
    }
  }

  /** A proposal before the stop index was called for: its create call is in the trace at its own position, and it succeeded. */
  lemma CommitCalledAt(env: Env, userId: Option<string>, respond: (seq<Call>, Call) -> Reply,
                       trace: seq<Call>, events: seq<ProposedEvent>, j: nat)
    requires j < StopIndex(CommitStepper(env, userId, respond), trace, events, 0)
    ensures var tr := Commit(env, userId, respond, trace, events).1;
            && |trace| + j < |tr|
            && CreateCall(env, userId, events[j]) == Some(tr[|trace| + j])
            && Succeeded(respond(tr[..|trace| + j], tr[|trace| + j]))
  {
    var tr := Commit(env, userId, respond, trace, events).1;
    CommitFromAt(CommitStepper(env, userId, respond), trace, events, 0, [], j);
    StepperIsStep(env, userId, respond, tr[..|trace| + j], events[j]);
  }

  /** On success, the record at a proposal's position is the one built from that proposal. */
  lemma CommitRecordAt(env: Env, userId: Option<string>, respond: (seq<Call>, Call) -> Reply,
                       trace: seq<Call>, events: seq<ProposedEvent>, j: nat)
    requires j < StopIndex(CommitStepper(env, userId, respond), trace, events, 0)
    ensures var res := Commit(env, userId, respond, trace, events).0;
            res.CommitOk? ==> j < |res.events| && CreatedFor(env, events[j]) == Some(res.events[j])
  {
    var tr := Commit(env, userId, respond, trace, events).1;
    CommitFromAt(CommitStepper(env, userId, respond), trace, events, 0, [], j);
    StepperIsStep(env, userId, respond, tr[..|trace| + j], events[j]);
  }

  /** `create_events` only appends to the trace, at most one call per proposal. */
  lemma CommitCallsBound(env: Env, userId: Option<string>, respond: (seq<Call>, Call) -> Reply,
                         trace: seq<Call>, events: seq<ProposedEvent>)
    ensures var tr := Commit(env, userId, respond, trace, events).1;
            |trace| <= |tr| <= |trace| + |events| && tr[..|trace|] == trace
  {
    CommitStop(env, userId, respond, trace, events);
  }

  /** The calls of `create_events` follow the proposals in input order, each the create call of its proposal. */
  lemma CommitCallsInOrder(env: Env, userId: Option<string>, respond: (seq<Call>, Call) -> Reply,
                           trace: seq<Call>, events: seq<ProposedEvent>)
    ensures var tr := Commit(env, userId, respond, trace, events).1;
            && |tr| <= |trace| + |events|
            && forall k :: 0 <= k < |tr| - |trace| ==> CreateCall(env, userId, events[k]) == Some(tr[|trace| + k])
  {
    var tr := Commit(env, userId, respond, trace, events).1;
    var k := StopIndex(CommitStepper(env, userId, respond), trace, events, 0);
    CommitCalledAtStop(env, userId, respond, trace, events);
    forall j | 0 <= j < |tr| - |trace|
      ensures CreateCall(env, userId, events[j]) == Some(tr[|trace| + j])
    {
      if j < k {
        CommitCalledAt(env, userId, respond, trace, events, j);
      }
    }
  }

  /** A failed commit that issued a call at its stop index issued the create call of the proposal there. */
  lemma CommitCalledAtStop(env: Env, userId: Option<string>, respond: (seq<Call>, Call) -> Reply,
                           trace: seq<Call>, events: seq<ProposedEvent>)
    ensures var tr := Commit(env, userId, respond, trace, events).1;
            var k := StopIndex(CommitStepper(env, userId, respond), trace, events, 0);
            && |tr| <= |trace| + k + 1 && |tr| <= |trace| + |events|
            && (|trace| + k < |tr| ==> k < |events| && CreateCall(env, userId, events[k]) == Some(tr[|trace| + k]))
  {
    var (res, tr) := Commit(env, userId, respond, trace, events);
    var k := StopIndex(CommitStepper(env, userId, respond), trace, events, 0);
    CommitStop(env, userId, respond, trace, events);
    if |trace| + k < |tr| {
      var pre := tr[..|trace| + k];
      var st := CommitStep(env, userId, respond, pre, events[k]);
      assert tr == pre + st.issued;
      assert tr[|trace| + k] == st.issued[0];
    }
  }

  /** Every call of `create_events` but the last one succeeded: the loop goes on only after a success. */
  lemma CommitCallsSucceeded(env: Env, userId: Option<string>, respond: (seq<Call>, Call) -> Reply,
                             trace: seq<Call>, events: seq<ProposedEvent>)
    ensures var tr := Commit(env, userId, respond, trace, events).1;
            forall j :: |trace| <= j < |tr| - 1 ==> Succeeded(respond(tr[..j], tr[j]))
  {
    var tr := Commit(env, userId, respond, trace, events).1;
    CommitStop(env, userId, respond, trace, events);
    forall j | |trace| <= j < |tr| - 1
      ensures Succeeded(respond(tr[..j], tr[j]))
    {
      CommitCalledAt(env, userId, respond, trace, events, j - |trace|);
    }
  }

  /** A successful `create_events` called for every proposal, and its last call succeeded. */
  lemma CommitOkCalledAll(env: Env, userId: Option<string>, respond: (seq<Call>, Call) -> Reply,
                          trace: seq<Call>, events: seq<ProposedEvent>)
    ensures var (res, tr) := Commit(env, userId, respond, trace, events);
            var n := |tr| - |trace|;
            res.CommitOk? ==> n == |events| && (n <= 0 || Succeeded(respond(tr[..|tr| - 1], tr[|tr| - 1])))
  {
    var (res, tr) := Commit(env, userId, respond, trace, events);
    var k := StopIndex(CommitStepper(env, userId, respond), trace, events, 0);
    CommitStop(env, userId, respond, trace, events);
    if k > 0 && res.CommitOk? {
      CommitCalledAt(env, userId, respond, trace, events, k - 1);
    }
  }

  /** `create_events` succeeds exactly when every proposal was called for and the last call succeeded. */
  lemma CommitSucceedsExactly(env: Env, userId: Option<string>, respond: (seq<Call>, Call) -> Reply,
                              trace: seq<Call>, events: seq<ProposedEvent>)
    ensures var (res, tr) := Commit(env, userId, respond, trace, events);
            var n := |tr| - |trace|;
            res.CommitOk? <==> n == |events| && (n <= 0 || Succeeded(respond(tr[..|tr| - 1], tr[|tr| - 1])))
  {
    CommitOkCalledAll(env, userId, respond, trace, events);
    CommitErrorCause(env, userId, respond, trace, events);
    var (res, tr) := Commit(env, userId, respond, trace, events);
    var n := |tr| - |trace|;
    assert res.CommitOk? ==> n == |events| && (n <= 0 || Succeeded(respond(tr[..|tr| - 1], tr[|tr| - 1])));
    if res.CommitErr? && !res.error.TimeUnparsable? {
      var last := respond(tr[..|tr| - 1], tr[|tr| - 1]);
      assert ReportedBy(res.error, last) && !Succeeded(last);
    }
  }

  /**
   * What the error of a failed `create_events` says: a time that did not
   * parse stopped the loop at the next proposal, before its call; any other
   * error is the report of the last call, which raised or returned an error
   * result whose first text item (or "Unknown error") it carries.
   */
  lemma CommitErrorCause(env: Env, userId: Option<string>, respond: (seq<Call>, Call) -> Reply,
                         trace: seq<Call>, events: seq<ProposedEvent>)
    ensures var (res, tr) := Commit(env, userId, respond, trace, events);
            var n := |tr| - |trace|;
            res.CommitErr? ==>
              if res.error.TimeUnparsable? then 0 <= n < |events| && CreateCall(env, userId, events[n]).None?
              else 0 < n <= |events| && ReportedBy(res.error, respond(tr[..|tr| - 1], tr[|tr| - 1]))
  {
    var (res, tr) := Commit(env, userId, respond, trace, events);
    var k := StopIndex(CommitStepper(env, userId, respond), trace, events, 0);
    CommitStop(env, userId, respond, trace, events);
    if res.CommitErr? {
      var s := CommitStep(env, userId, respond, tr[..|trace| + k], events[k]);
      if s.issued != [] {
        assert tr[..|tr| - 1] == tr[..|trace| + k];
      }
    }
  }

  /** A successful `create_events` holds one record per proposal, in order. */
  lemma CommitRecords(env: Env, userId: Option<string>, respond: (seq<Call>, Call) -> Reply,
                      trace: seq<Call>, events: seq<ProposedEvent>)
    ensures var res := Commit(env, userId, respond, trace, events).0;
            res.CommitOk? ==>
              |res.events| == |events| && forall k :: 0 <= k < |events| ==> CreatedFor(env, events[k]) == Some(res.events[k])
  {
    var res := Commit(env, userId, respond, trace, events).0;
    CommitFromEnd(CommitStepper(env, userId, respond), trace, events, 0, []);
    CommitStop(env, userId, respond, trace, events);
    if res.CommitOk? {
      forall j | 0 <= j < |events|
        ensures CreatedFor(env, events[j]) == Some(res.events[j])
      {
        CommitRecordAt(env, userId, respond, trace, events, j);
      }
    }
  }

  // ================================================================ properties: orchestration

  /**
   * The early exits of the workflow: a failed context is passed on as it is;
   * the model sees exactly the existing events the context returned; when
   * the model raises or its proposal fails, no event is created.
   */
  lemma ScheduleEarlyExits(env: Env, userId: Option<string>, respond: (seq<Call>, Call) -> Reply,
                           trace: seq<Call>, req: ScheduleRequest)
    requires env.llm.Some?
    ensures var (r, tr) := Schedule(env, userId, respond, trace, req);
            var (context, afterContext) := Context(env, userId, respond, trace, req.startTime, req.endTime);
            && (context.ContextErr? ==> r == ScheduleFailed(context.error) && tr == afterContext)
            && (context.ContextOk? ==>
                  var reply := env.llm.value(PromptFor(req, context.existingEvents));
                  && (reply.LlmRaised? ==> r == ScheduleFailed(WorkflowFailed(reply.message)) && tr == afterContext)
                  && (reply.LlmText? && Propose(env.loads, reply.text).ProposalFailed? ==>
                        r == ScheduleFailed(Propose(env.loads, reply.text).error) && tr == afterContext))
  {
  }

  /** Only a valid proposal leads past the proposal stage, and it leads to the commit stage. */
  lemma AfterProposalReachesFinish(env: Env, userId: Option<string>, respond: (seq<Call>, Call) -> Reply,
                                   trace: seq<Call>, existing: seq<FormattedEvent>, proposal: Proposal)
    requires proposal.Proposed? ==> forall i :: 0 <= i < |proposal.events| ==> IsProposal(proposal.events[i])
    ensures var out := AfterProposal(env, userId, respond, trace, existing, proposal);
            !out.0.ScheduleFailed? ==> proposal.Proposed? && out == Finish(env, userId, respond, trace, existing, proposal.events)
  {
  }

  /** Only a text reply leads past the model stage, and it leads to the proposal stage. */
  lemma AfterReplyReachesProposal(env: Env, userId: Option<string>, respond: (seq<Call>, Call) -> Reply,
                                  trace: seq<Call>, existing: seq<FormattedEvent>, reply: LlmReply)
    ensures var out := AfterReply(env, userId, respond, trace, existing, reply);
            !out.0.ScheduleFailed? ==>
              reply.LlmText? && out == AfterProposal(env, userId, respond, trace, existing, Propose(env.loads, reply.text))
  {
  }

  /** Only a successful context leads past the context stage, and it leads to the model stage. */
  lemma AfterContextReachesReply(env: Env, userId: Option<string>, respond: (seq<Call>, Call) -> Reply,
                                 req: ScheduleRequest, context: (ContextResult, seq<Call>))
    requires env.llm.Some?
    ensures var out := AfterContext(env, userId, respond, req, context);
            !out.0.ScheduleFailed? ==>
              && context.0.ContextOk?
              && out == AfterReply(env, userId, respond, context.1, context.0.existingEvents,
                                   env.llm.value(PromptFor(req, context.0.existingEvents)))
  {
  }

  /**
   * The workflow reaches its commit stage only through a successful context,
   * a text reply and a valid proposal, and then its outcome is that of the
   * commit stage.
   */
  lemma ScheduleReachesFinish(env: Env, userId: Option<string>, respond: (seq<Call>, Call) -> Reply,
                              trace: seq<Call>, req: ScheduleRequest)
    ensures var out := Schedule(env, userId, respond, trace, req);
            !out.0.ScheduleFailed? ==>
              && env.llm.Some?
              && var (context, afterContext) := Context(env, userId, respond, trace, req.startTime, req.endTime);
              && context.ContextOk?
              && var reply := env.llm.value(PromptFor(req, context.existingEvents));
              && reply.LlmText? && Propose(env.loads, reply.text).Proposed?
              && var events := Propose(env.loads, reply.text).events;
              && (forall i :: 0 <= i < |events| ==> IsProposal(events[i]))
              && out == Finish(env, userId, respond, afterContext, context.existingEvents, events)
  {
    if env.llm.Some? {
      var context := Context(env, userId, respond, trace, req.startTime, req.endTime);
      AfterContextReachesReply(env, userId, respond, req, context);
      if context.0.ContextOk? {
        var reply := env.llm.value(PromptFor(req, context.0.existingEvents));
        AfterReplyReachesProposal(env, userId, respond, context.1, context.0.existingEvents, reply);
        if reply.LlmText? {
          AfterProposalReachesFinish(env, userId, respond, context.1, context.0.existingEvents, Propose(env.loads, reply.text));
        }
      }
    }
  }

  /** A failed commit stage reports the whole validated proposal and the commit's own error, with the commit's trace. */
  lemma FinishCreationFailed(env: Env, userId: Option<string>, respond: (seq<Call>, Call) -> Reply, trace: seq<Call>,
                             existing: seq<FormattedEvent>, events: seq<JsonValue>)
    requires forall i :: 0 <= i < |events| ==> IsProposal(events[i])
    ensures var out := Finish(env, userId, respond, trace, existing, events);
            var commit := Commit(env, userId, respond, trace, AsProposedAll(events));
            out.0.CreationFailed? <==>
              && commit.0.CommitErr?
              && out == (CreationFailed(commit.0.error, events), commit.1)
  {
  }

  /** A successful commit stage reports what the commit created and the existing events the model was shown, with the commit's trace. */
  lemma FinishCommitted(env: Env, userId: Option<string>, respond: (seq<Call>, Call) -> Reply, trace: seq<Call>,
                        existing: seq<FormattedEvent>, events: seq<JsonValue>)
    requires forall i :: 0 <= i < |events| ==> IsProposal(events[i])
    ensures var out := Finish(env, userId, respond, trace, existing, events);
            var commit := Commit(env, userId, respond, trace, AsProposedAll(events));
            out.0.Scheduled? <==>
              && commit.0.CommitOk?
              && out == (Scheduled(commit.0.events, existing), commit.1)
  {
  }

  /**
   * A successful commit stage created one event per proposal element, in
   * order, issuing the create call of each in turn.
   */
  lemma FinishSucceeded(env: Env, userId: Option<string>, respond: (seq<Call>, Call) -> Reply, trace: seq<Call>,
                        existing: seq<FormattedEvent>, events: seq<JsonValue>)
    requires forall i :: 0 <= i < |events| ==> IsProposal(events[i])
    ensures var (r, tr) := Finish(env, userId, respond, trace, existing, events);
            r.Scheduled? ==>
              && |r.eventsCreated| == |events|
              && |tr| == |trace| + |events|
              && forall k :: 0 <= k < |events| ==>
                   && CreatedFor(env, AsProposed(events[k])) == Some(r.eventsCreated[k])
                   && CreateCall(env, userId, AsProposed(events[k])) == Some(tr[|trace| + k])
  {
    var proposed := AsProposedAll(events);
    CommitCallsInOrder(env, userId, respond, trace, proposed);
    CommitSucceedsExactly(env, userId, respond, trace, proposed);
    CommitRecords(env, userId, respond, trace, proposed);
  }

  // ================================================================ the scheduler object

  class SimpleTimeScheduler {
    const session: Session
    const userId: Option<string>
    const env: Env

    constructor (session: Session, userId: Option<string>, env: Env)
      ensures this.session == session && this.userId == userId && this.env == env
    {
      this.session := session;
      this.userId := userId;
      this.env := env;
    }

    /** `get_scheduling_context`. */
    method GetSchedulingContext(startTime: string, endTime: string) returns (r: ContextResult)
      modifies session
      ensures (r, session.trace) == Context(env, userId, session.respond, old(session.trace), startTime, endTime)
    {
      var start, end := ParseTime(env, startTime), ParseTime(env, endTime);
      if start.None? || end.None? {
        return ContextErr(InvalidTimeFormat);
      }
      var listed := session.Issue(ListTools);
      if !listed.Raised? && CalendarTool !in ToolNames(listed) {
        return ContextErr(CalendarToolMissing);
      }
      var result := session.Issue(EventsQuery(env, userId, start.value, end.value));
      if result.Raised? {
        return ContextErr(ContextFailed(result.message));
      }
      var raws := CollectRawEvents(env, ContentOf(result));
      var formatted := FormatEvents(env, raws);
      r := ContextOk(formatted, env.minuteText(start.value), env.minuteText(end.value),
                     |raws| > 0 || |formatted| >= 0);
    }

    /** `create_events`: one call per proposal, in order, stopping at the first failure. */
    method CreateEvents(events: seq<ProposedEvent>) returns (r: CommitResult)
      modifies session
      ensures (r, session.trace) == Commit(env, userId, session.respond, old(session.trace), events)
    {
      var created := [];
      var i := 0;
      while i < |events|
        invariant 0 <= i <= |events|
        invariant CommitFrom(CommitStepper(env, userId, session.respond), session.trace, events, i, created)
                  == Commit(env, userId, session.respond, old(session.trace), events)
      {
        var event := events[i];
        StepperIsStep(env, userId, session.respond, session.trace, event);
        var start, end := ProposalTime(env, event.startTime), ProposalTime(env, event.endTime);
        if start.None? || end.None? {
          assert session.trace + [] == session.trace;
          if start.None? {
            return CommitErr(TimeUnparsable(env.parseFailure(event.startTime)));
          }
          return CommitErr(TimeUnparsable(env.parseFailure(event.endTime)));
        }
        var reply := session.Issue(CreateCall(env, userId, event).value);
        if reply.Raised? {
          return CommitErr(CallRaised(reply.message));
        }
        if ReportsError(reply) {
          return CommitErr(CallReported(ErrorText(reply.content)));
        }
        created := created + [CreatedFor(env, event).value];
        i := i + 1;
      }
      r := CommitOk(created);
    }

    /** `schedule_complete`. */
    method ScheduleComplete(req: ScheduleRequest) returns (r: ScheduleResult)
      modifies session
      ensures (r, session.trace) == Schedule(env, userId, session.respond, old(session.trace), req)
    {
      if env.llm.None? {
        return ScheduleFailed(ClientMissing);
      }
      var context := GetSchedulingContext(req.startTime, req.endTime);
      if context.ContextErr? {
        return ScheduleFailed(context.error);
      }
      var reply := env.llm.value(PromptFor(req, context.existingEvents));
      if reply.LlmRaised? {
        return ScheduleFailed(WorkflowFailed(reply.message));
      }
      var response := Strip(reply.text);
      var decoded := env.loads(JsonCandidate(Unfenced(response)));
      if decoded.None? {
        return ScheduleFailed(InvalidJson(Take(response, 200)));
      }
      var items := Iterated(decoded.value);
      if items.None? {
        return ScheduleFailed(WorkflowFailed(NotIterable(decoded.value)));
      }
      var valid := KeepValid(items.value);
      if valid == [] {
        return ScheduleFailed(NoValidEvents);
      }
      var commit := CreateEvents(AsProposedAll(valid));
      if commit.CommitOk? {
        r := Scheduled(commit.events, context.existingEvents);
      } else {
        r := CreationFailed(commit.error, valid);
      }
    }
  }
}
