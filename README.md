# Mailbot G Suite MCP client: the scheduler and the conversation client, in Dafny

This project models the two parts of the Mailbot G Suite MCP client that carry logic of their own:

- **`SimpleTimeScheduler`** (`server/simple_scheduler.py`): the one-call scheduling workflow. It works in stages:
  1. It normalises the requested window to the America/New_York zone.
  2. It fetches the existing bookings through the MCP session's `get_calendar_events` tool and reduces each to a summary, a start and an end.
  3. It asks the language model for a proposal, extracts the JSON array from the reply, and keeps only the elements that are dictionaries with `summary`, `start_time` and `end_time`.
  4. It creates the kept events one at a time with `create_calendar_event`. The batch stops at the first failure, with no rollback.
  5. It shapes the result at each exit.
- **`InteractiveMCPClient`** (`app/web_client.py`):
  - the routing of the `list` and `inspect <name>` commands;
  - the rewriting of the server's tool schemas into function declarations: `user_id` becomes `__user_id__`, and the per-property `required` flags become a `required` list;
  - the renaming of the model's call arguments and the rejection of tools the server does not list;
  - the history the client keeps between requests (`conversation_history`, `interaction_count`), and its compression to the last `max_context_words` words.

## How it is modelled

- **Foreign code becomes oracles.** The date parser, time-zone conversion, `strftime`/`isoformat`, `json.loads`, the language model, the HTTP server and the clock are modelled as function-valued fields:
  - `Scheduler.Env` holds the scheduler's oracles.
  - `WebClient.Services` holds the web client's.
  - The clock's date and zone name are constructor parameters.
- **The MCP session is a `Mcp.Session` object.** Its `trace` records every call issued, in order. Its replies come from a server oracle that may answer each call according to everything asked before it. So "no call before X" and "no call after the first failure" are statements about the trace.
- **Each stage is a function of the trace, and each method is proved against it.**
  - The stage functions are `Context`, `Commit` and `Schedule` on the scheduler side, and `SelectTool`, `Answer` and `Handle` on the client side. Each takes the trace or history before and returns the result with the trace or history after.
  - The methods of `SimpleTimeScheduler` and `InteractiveClient` update the session or the client's fields in place. Each is proved to agree with its stage function, loop by loop.
  - The properties are lemmas about the stage functions.
- **Failures are datatypes.** The scheduler's failures are the datatypes `Failure` and `CreateFailure`. `FailureText`, `CreateFailureText` and `ResultText` render them, along with the success message, to the exact strings the source returns.
- **JSON objects are association lists.** A decoded object keeps its keys in insertion order, as a Python dictionary does. `Put` overwrites a present key in its place and appends an absent one, as `d[k] = v` does.

## Model

| member | source | states |
|---|---|---|
| Text.Strip | app/web_client.py:140 | `strip()`: the result is a slice of the input with only whitespace before and after it, neither starts nor ends with whitespace, and is the input itself when the input has no whitespace |
| Text.Split | app/web_client.py:277 | `split()`: every piece is a non-empty run of non-whitespace |
| Text.SplitJoin | app/web_client.py:281-282 | splitting words joined by single spaces gives back exactly those words |
| Text.SplitAppend | app/web_client.py:179-185 | text followed by a whitespace-led part splits into its own words followed by that part's words |
| Text.IndexOf | server/simple_scheduler.py:225-228 | `find` of a substring: an index where it occurs, with no occurrence before it, or -1 when it occurs nowhere |
| Text.FirstPiece | server/simple_scheduler.py:226 | `split(sep)[0]`: the prefix up to the first occurrence of `sep`, which does not occur inside it; its length is the index `find` gives; the whole text when `sep` does not occur |
| Text.SecondPiece | server/simple_scheduler.py:226 | `split(sep)[1]`: the text after the first separator, up to the next occurrence of `sep` or to the end, with no occurrence inside it |
| Text.Find | server/simple_scheduler.py:231 | `find('[')`: -1 exactly when the character is absent, otherwise the index of its first occurrence |
| Text.RFind | server/simple_scheduler.py:232 | `rfind(']')`: -1 exactly when the character is absent, otherwise the index of its last occurrence |
| Text.Slice | server/simple_scheduler.py:235 | `s[lo:hi]`: the slice when `lo <= hi`, empty otherwise |
| Text.Take | server/simple_scheduler.py:256 | `s[:200]`: the prefix of length `min(|s|, 200)` |
| Text.Lower | app/web_client.py:142-144 | `lower()` on the characters the command words use: length is kept |
| Text.NatToString | server/simple_scheduler.py:266 | `str(len(...))`: a non-empty run of decimal digits |
| Text.NatToStringValue | server/simple_scheduler.py:266 | the digits read back as the number they were made from, with no leading zero except for 0 itself |
| Json.Lookup | app/web_client.py:71-72 | `d.get(k)`: None exactly when `k` is not a key, otherwise a value stored under `k` |
| Json.HasKeyInKeys | app/web_client.py:71 | `k in d` is membership in the dictionary's key list |
| Json.Put | app/web_client.py:72 | `d[k] = v`: `k` now maps to `v` and every other key is unchanged; a present key keeps its place, an absent one is appended |
| Json.Remove | app/web_client.py:76 | `pop(k)`: `k` is gone, every other key maps to what it did, and the remaining keys keep their order |
| Mcp.Session.Issue | server/simple_scheduler.py:140 | a session call appends the call to the trace and answers with the server's reply to the calls before it |
| Scheduler.ToEastern | server/simple_scheduler.py:41-42 | the result is in the reference zone; a naive time keeps its wall clock (`localize`), an aware one gets the converted wall clock (`astimezone`) |
| Scheduler.ParseTime | server/simple_scheduler.py:44-48 | never fails: None exactly for the empty string or text the parser rejects, otherwise the parsed time normalised to the reference zone |
| Scheduler.ParseValue | server/simple_scheduler.py:99-100 | a string is given to the parser as it is; any other value does not parse |
| Scheduler.RawEventsOf | server/simple_scheduler.py:75-83 | a text item that decodes to a list contributes that list's elements; one that decodes to a dictionary contributes its `items` list, nothing when `items` is missing or not iterable; an item contributes something only when it is text that decodes to a list or a dictionary |
| Scheduler.RawEventsAppend | server/simple_scheduler.py:75-83 | collection distributes over concatenation of the content items, so their order is kept |
| Scheduler.FormatEvent | server/simple_scheduler.py:88-107 | a value that is not a dictionary is skipped; a reduced event's summary is the raw `summary`, "Event" when it is missing |
| Scheduler.Iterated | server/simple_scheduler.py:80-81 | what `extend` and `for` see: nothing exactly for values that are not lists, dictionaries or strings; a list's own elements; a dictionary's keys, in order; a string's one-character strings |
| Scheduler.Context | server/simple_scheduler.py:50-116 | at most two calls, appended to the trace; an unparsable bound returns "Invalid time format" with no call; a success always reports calendar access as working |
| Scheduler.CollectRawEvents | server/simple_scheduler.py:73-83 | the loop gathers, in order, the events each text content item decodes to |
| Scheduler.FormatEvents | server/simple_scheduler.py:85-107 | the loop yields exactly the reduction of the raw events, skipping the ones that cannot be reduced |
| Scheduler.FormatEventExactly | server/simple_scheduler.py:90-107 | a raw event is reduced exactly when it is a dictionary whose start and end have a truthy `dateTime` or `date` that parses; the summary defaults to "Event"; the start and end times are the parsed values, normalised to the reference zone and formatted to the minute |
| Scheduler.EventTimePrefersDateTime | server/simple_scheduler.py:92-94 | a truthy `dateTime` wins over `date`; `date` is used only when `dateTime` is missing or falsy |
| Scheduler.FormattedAppend | server/simple_scheduler.py:90-107 | the reduction distributes over concatenation, so input order is kept |
| Scheduler.FormattedMembers | server/simple_scheduler.py:90-107 | every reduced event comes from some raw event, and every reducible raw event appears |
| Scheduler.FormattedImage | server/simple_scheduler.py:90-107 | when every raw event is reducible, the result is their element-wise image, in order |
| Scheduler.ContextCalls | server/simple_scheduler.py:52-71 | no call when a bound does not parse; otherwise `list_tools` first, then the events query exactly when the calendar tool is listed or the listing raised, and "tool not available" otherwise |
| Scheduler.ContextSuccess | server/simple_scheduler.py:73-114 | a query that does not raise yields success with the reduction of every raw event, an empty list when there were none |
| Scheduler.JsonCandidate | server/simple_scheduler.py:231-239 | the whole text when a `[` or a `]` is missing; otherwise text that starts with `[` and ends with `]`, or is empty, and is empty when the last `]` comes before the first `[` |
| Scheduler.Unfenced | server/simple_scheduler.py:224-228 | fence removal never lengthens the reply, and a reply without a code fence is used as it is |
| Scheduler.UnfencedJson | server/simple_scheduler.py:225-226 | a reply with a "```json" fence is read as the stripped text between that fence and the next "```" |
| Scheduler.UnfencedPlain | server/simple_scheduler.py:227-228 | a reply with a plain fence and no "```json" is read as the stripped text between its first two fences |
| Scheduler.ProseAroundArray | server/simple_scheduler.py:231-235 | prose without brackets around a JSON array leaves exactly that array to decode |
| Scheduler.ProposalReadsArray | server/simple_scheduler.py:221-236 | for an unfenced reply, the decoder is given exactly the array the prose surrounds |
| Scheduler.ValidProposals | server/simple_scheduler.py:242-247 | every kept element is a dictionary with all three keys, and none is added |
| Scheduler.KeepValid | server/simple_scheduler.py:242-247 | the validation loop keeps exactly what `ValidProposals` keeps |
| Scheduler.ValidProposalsAppend | server/simple_scheduler.py:242-247 | validation distributes over concatenation, so survivors keep their order |
| Scheduler.ValidProposalsMembers | server/simple_scheduler.py:244-245 | an element survives exactly when it is in the input and is a dictionary with all three keys |
| Scheduler.ValidProposalsKeepAll | server/simple_scheduler.py:242-247 | a list of well-formed elements passes unchanged |
| Scheduler.ValidProposalsNone | server/simple_scheduler.py:242-247 | a list without a well-formed element leaves nothing |
| Scheduler.NoValidProposalFails | server/simple_scheduler.py:249-250 | a decoded list with no well-formed element fails with "No valid events generated by Gemini" |
| Scheduler.ProposalOf | server/simple_scheduler.py:241-253 | a value that is not iterable fails the workflow with Python's "not iterable" text; otherwise the workflow goes on with exactly the well-formed elements of what iterating it gives, in order, or fails with "No valid events" when there are none |
| Scheduler.Propose | server/simple_scheduler.py:221-256 | text that does not decode fails with "invalid JSON" and the first 200 characters of the stripped reply; decoded text is validated |
| Scheduler.AsProposed | server/simple_scheduler.py:126-132 | the committer reads exactly the `summary`, `start_time` and `end_time` entries of a validated element |
| Scheduler.AsProposedAll | server/simple_scheduler.py:252-258 | the whole validated proposal, element by element, in order |
| Scheduler.ProposalTime | server/simple_scheduler.py:126-127 | a proposal time parses exactly when the parser accepts it, and it is then normalised |
| Scheduler.CreateCall | server/simple_scheduler.py:126-140 | a create call exists exactly when both times parse, and it calls `create_calendar_event` |
| Scheduler.CreateCallArguments | server/simple_scheduler.py:131-136 | the call carries the proposal's summary as it is and `__calendar_id__ = "primary"` |
| Scheduler.CreateCallTimes | server/simple_scheduler.py:126-134 | the call's `start_time` and `end_time` are the proposal's times, parsed, normalised to the reference zone and in ISO form |
| Scheduler.CreateCallUserId | server/simple_scheduler.py:137-138 | the call carries `__user_id__` exactly when the scheduler has a non-empty user id, and then it is that id |
| Scheduler.CreatedFor | server/simple_scheduler.py:126-157 | a record exists exactly when both times parse; it keeps the proposal's summary and holds both times normalised to the reference zone, in ISO form |
| Scheduler.ErrorText | server/simple_scheduler.py:144-149 | "Unknown error" when no item is text; the first item's text when it is text |
| Scheduler.ErrorTextFirstText | server/simple_scheduler.py:144-149 | the loop stops at the first text item: the error text is that item's text, whatever comes after it |
| Scheduler.CommitStep | server/simple_scheduler.py:123-157 | one iteration: it either creates after a successful call, or stops with no call (unparsable time) or after exactly its own call, which raised or reported the error it carries |
| Scheduler.CommitFrom | server/simple_scheduler.py:123-160 | the loop from any position only appends to the trace; on success it has one record for each remaining proposal after those already built, which it keeps |
| Scheduler.Commit | server/simple_scheduler.py:118-162 | the commit only appends to the trace; a success holds one record per proposal |
| Scheduler.CommitStop | server/simple_scheduler.py:123-162 | the loop stops at one proposal: it made one successful call per earlier proposal and at most one more; it succeeds exactly when it ran to the end |
| Scheduler.CommitCalledAt | server/simple_scheduler.py:123-151 | each proposal before the stop has its create call at its own position in the trace, and that call succeeded |
| Scheduler.CommitCalledAtStop | server/simple_scheduler.py:126-140 | the proposal where the loop stopped is called for at most once, with its own create call, and nothing is issued after it |
| Scheduler.CommitRecordAt | server/simple_scheduler.py:153-160 | on success, each proposal's record is at its own position |
| Scheduler.CommitCallsBound | server/simple_scheduler.py:123-140 | the commit only appends to the trace, at most one call per proposal |
| Scheduler.CommitCallsInOrder | server/simple_scheduler.py:123-140 | the calls follow the proposals in input order, each being the create call of its proposal |
| Scheduler.CommitCallsSucceeded | server/simple_scheduler.py:140-151 | every call but the last succeeded: nothing is issued after a failure |
| Scheduler.CommitOkCalledAll | server/simple_scheduler.py:123-160 | a successful commit called once for every proposal, and its last call succeeded |
| Scheduler.CommitSucceedsExactly | server/simple_scheduler.py:123-162 | the commit succeeds exactly when every proposal was called for and the last call succeeded |
| Scheduler.CommitErrorCause | server/simple_scheduler.py:123-162 | a failed commit either stopped before the call of a proposal whose time did not parse, or carries the report of its last call (the raised message, or the first text item or "Unknown error") |
| Scheduler.CommitRecords | server/simple_scheduler.py:153-160 | a successful commit holds one record per proposal, in order |
| Scheduler.Schedule | server/simple_scheduler.py:164-282 | without a model client the workflow fails with the configuration error and issues no call; the trace only grows; a workflow that fails before its commit stage issued at most the two context calls |
| Scheduler.AfterContext | server/simple_scheduler.py:178-183 | a failed context is returned as it is, with no further call; a later failure before the commit issues no call either |
| Scheduler.AfterReply | server/simple_scheduler.py:205-282 | a model that raises fails the workflow with its message as the workflow failure and issues no further call |
| Scheduler.AfterProposal | server/simple_scheduler.py:241-276 | a failed proposal is the workflow's failure, with no call; a valid one always reaches the commit and never reports a pre-commit failure |
| Scheduler.Finish | server/simple_scheduler.py:258-276 | the commit stage either succeeds with one created event per proposal and the existing events the model was shown, or reports creation failure with the whole proposal; the trace only grows |
| Scheduler.FailureText | server/simple_scheduler.py:55-282 | the "error" texts of the pre-commit failures: an exception's message ends the text; an undecodable reply's excerpt sits just before the closing "..." |
| Scheduler.CreateFailureText | server/simple_scheduler.py:141-162 | every commit error starts with "Failed to create events: " and ends with the message that caused it |
| Scheduler.ResultText | server/simple_scheduler.py:258-282 | a success message gives the number of created events right after its opening words; a pre-commit failure is its own text; a creation failure ends with the commit's error text |
| Scheduler.ScheduleEarlyExits | server/simple_scheduler.py:178-256 | a failed context is returned as it is; a model that raises and a failed proposal end the workflow with no call after the context stage |
| Scheduler.ScheduleReachesFinish | server/simple_scheduler.py:178-276 | the workflow reaches its commit only through a successful context, a text reply and a valid proposal, and its outcome is then the commit's |
| Scheduler.FinishCreationFailed | server/simple_scheduler.py:270-276 | the commit stage fails exactly when the commit fails, and then reports the whole validated proposal, the commit's own error and the commit's trace |
| Scheduler.FinishCommitted | server/simple_scheduler.py:258-269 | the commit stage succeeds exactly when the commit succeeds, and then reports what the commit created, the existing events the model was shown and the commit's trace |
| Scheduler.FinishSucceeded | server/simple_scheduler.py:258-269 | a successful commit stage created one record per proposal element, in order, issuing each element's create call in turn |
| Scheduler.SimpleTimeScheduler.constructor | server/simple_scheduler.py:37-39 | the scheduler keeps its session and user id |
| Scheduler.SimpleTimeScheduler.GetSchedulingContext | server/simple_scheduler.py:50-116 | the result and the session's new trace are those of `Context` on the old trace |
| Scheduler.SimpleTimeScheduler.CreateEvents | server/simple_scheduler.py:118-162 | the result and the session's new trace are those of `Commit` on the old trace |
| Scheduler.SimpleTimeScheduler.ScheduleComplete | server/simple_scheduler.py:164-282 | the result and the session's new trace are those of `Schedule` on the old trace |
| WebClient.Route | app/web_client.py:140-146 | the stripped input is `list` (in any case) exactly for the listing, starts with `inspect ` (in any case) exactly for an inspection of `input[8:].strip()`, and is otherwise a request |
| WebClient.RouteIgnoresCase | app/web_client.py:142-144 | inputs that agree after stripping and lower-casing are routed to the same command |
| WebClient.RouteInspect | app/web_client.py:144-146 | "inspect " in any case followed by a name inspects that name, with its case kept |
| WebClient.RenameUserId | app/web_client.py:71-72 | `user_id` is gone and `__user_id__` holds its value; every other key is kept; a dictionary without `user_id` is unchanged |
| WebClient.PopRequired | app/web_client.py:74-77 | fails exactly when a property schema is not a dictionary; otherwise every property keeps its name and place and loses its `required` flag, and the names listed appear in property order |
| WebClient.PopRequiredNames | app/web_client.py:74-77 | a name is listed exactly when a property of that name had a truthy flag |
| WebClient.PopRequiredLookup | app/web_client.py:74-77 | looking a property up afterwards is looking it up before and dropping its flag |
| WebClient.RewriteSchema | app/web_client.py:67-79 | a falsy schema, or a dictionary without `properties`, is kept as it is; a truthy number or boolean makes the loop raise |
| WebClient.RewriteSchemaDict | app/web_client.py:69-79 | `properties` becomes the rewritten properties; `required` is set to the flagged names only when there are some; every other entry is kept |
| WebClient.RewriteSchemaProperties | app/web_client.py:70-77 | key by key: `user_id` is gone, `__user_id__` holds what `user_id` held, every other property is kept, and none still carries a `required` flag |
| WebClient.RewriteSchemaRejects | app/web_client.py:69-76 | `properties` that are not a dictionary make the rewriting raise |
| WebClient.Declare | app/web_client.py:66-87 | a declaration exists exactly for a dictionary spec whose schema rewrites and that has a name and a description; it carries those two and exactly the rewritten schema |
| WebClient.AllOrNone | app/web_client.py:65-87 | the shape of the declaration loop, for any step `f` (`DeclareAll` is it with `Declare`): a result exists exactly when every element gives one, and it then holds their results, one per element, in order |
| WebClient.DeclareAll | app/web_client.py:65-87 | declarations exist exactly when every spec declares, and then there is one per spec, in order, each that spec's declaration |
| WebClient.DeclareTools | app/web_client.py:65-87 | the declaration loop builds exactly `DeclareAll` of the specs, stopping at the first that raises |
| WebClient.SelectTool | app/web_client.py:53-135 | the model is not asked exactly when fetching fails or there are no specs; a raising spec propagates; otherwise a function call whose stripped name the server lists is selected, with its arguments renamed, and any other reply selects nothing |
| WebClient.SelectedArguments | app/web_client.py:116-131 | a selected call never carries `user_id`; the value the model gave for it travels as `__user_id__` |
| WebClient.LastWords | app/web_client.py:281 | `words[-m:]`: a suffix of the words; the last `m` for positive `m`; all of them for `m = 0` |
| WebClient.Compressed | app/web_client.py:274-286 | a history within the bound is left alone; one over it has its count reset |
| WebClient.CompressKeepsLastWords | app/web_client.py:277-285 | a history over a positive bound becomes exactly its last `max` words joined by single spaces, with the count reset |
| WebClient.CompressBound | app/web_client.py:274-286 | with a positive bound, the compressed history has at most `max` words |
| WebClient.CompressIdempotent | app/web_client.py:274-286 | with a positive bound, compressing twice is compressing once |
| WebClient.CompressZeroKeepsAll | app/web_client.py:279-285 | with a bound of 0, compression keeps every word and only resets the count |
| WebClient.InteractionSplit | app/web_client.py:179-182 | the text one interaction appends splits into "Interaction", "k:", "User:", the request's words, then "Model:" and the answer's words only when the answer is non-empty |
| WebClient.Interaction | app/web_client.py:179-182 | an interaction's text starts a new line |
| WebClient.Recorded | app/web_client.py:178-183 | recording increments the count and appends text after the old history, which it keeps as a strict prefix |
| WebClient.RecordedWords | app/web_client.py:178-183 | recording keeps the old history as a prefix, adds the interaction's words after the old words, and increments the count |
| WebClient.Answer | app/web_client.py:153-176 | a selected tool's outcome names that tool and is its summary or its error; otherwise the model's stripped answer is used, or "LLM API error: " and its message |
| WebClient.Handle | app/web_client.py:138-190 | `list` gives the listing and `inspect <name>` the inspection of that name, neither touching the history; a request raises exactly when the declaration loop does, leaving the history alone; otherwise the response is `Answer` of the selection and the history records its text and compresses |
| WebClient.HandleRequest | app/web_client.py:148-190 | the request branch: a raising selection changes nothing; otherwise the response is the answer to the selection and the interaction is recorded |
| WebClient.AfterRequest | app/web_client.py:178-188 | after a request the count is up by one, or reset to 0 when compression applied |
| WebClient.AfterRequestWords | app/web_client.py:178-188 | after a request the history holds the old words and the interaction's, with the count up by one, unless that is over the bound; then the count is 0 and, for a positive bound, exactly the last `max` words remain |
| WebClient.AfterRequestWithin | app/web_client.py:178-186 | a recorded history within the bound is kept whole |
| WebClient.AfterRequestOver | app/web_client.py:184-188 | a recorded history over a positive bound is cut to exactly its last `max` words |
| WebClient.HandleBound | app/web_client.py:184-188 | with a positive bound, a history within the bound stays within it after any request |
| WebClient.InteractiveClient.constructor | app/web_client.py:12-26 | empty history, count 0, the stripped header followed by the date line |
| WebClient.InteractiveClient.CompressContext | app/web_client.py:274-286 | the new history and count are `Compressed` of the old ones |
| WebClient.InteractiveClient.GetToolAndArguments | app/web_client.py:53-135 | returns `SelectTool` of the fetched specs and the current conversation |
| WebClient.InteractiveClient.HandleUserRequest | app/web_client.py:138-190 | the response and the new history and count are `Handle` of the old ones |
| WebClient.InteractiveClient.AppendInteraction | app/web_client.py:178-183 | the three appends and the increment give `Recorded` of the old history and count |
| WebClient.InteractiveClient.RecordInteraction | app/web_client.py:178-188 | the new history and count are `AfterRequest` of the old ones |

## Left out

- Date parsing (`dateutil`), time-zone arithmetic (`pytz`, `astimezone`) and datetime formatting (`strftime`, `isoformat`) are oracles in `Env`. No calendar arithmetic is modelled.
- `json.loads` is an oracle that returns a decoded value or nothing. `json.dumps` and the wording of both prompts are not modelled: a `Prompt` and a `Conversation` record only what the prompts are built from.
- The language model, the HTTP server (`/tools`, `/tools/{name}`, `/tools/call`), the summary the model writes of a tool result (`generate_response`) and the wall clock are oracles. `execute_tool` is reduced to its outcome.
- Decoded JSON has no floating-point numbers, and duplicate keys are not modelled.
- Schema rewriting mutates the spec dictionaries in place. The model rewrites them as values; the only later reader of those dictionaries is the list of tool names, and the rewriting does not touch it.
- The `await`s run strictly one after another, so every call is an ordinary sequential call. There is no concurrency.
- `print` and `traceback` output are not modelled.
- Scheduler.SimpleTimeScheduler.CreateEvents takes the validated proposal already reduced to its three entries (`AsProposedAll`). The source reads the same three entries from each dictionary.
- Text.Lower folds only ASCII letters. This decides the two command tests exactly, since no other character lowers to part of `list` or `inspect `.
- Scheduler.ScheduleRequest takes `events_to_schedule` as a list, as the server's tool schema declares it. A non-list value would make `len(events_to_schedule)` raise, giving "Scheduling workflow failed: …"; that path is not modelled.
- Scheduler.ScheduleComplete is given the start and end as strings. A missing argument (`None`) behaves like the empty string, since `_parse_time` treats both as unparsable.
- The texts `execute_tool` reports, and the error a failing listing or inspection returns, are taken to be strings.
- `_load_available_tools`, `initialize`, the Flask routes and the creation of the model clients are not modelled. The client's constructor takes the clock's date and zone name as parameters; if creating the model client fails, construction fails, and that is not modelled.
- The `FunctionDeclaration` constructor's own validation of its fields is not modelled.
