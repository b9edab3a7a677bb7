# Submagic MCP server: a Dafny model of its tool core

The server exposes seven tools that wrap the Submagic video-editing REST API:

- list languages;
- list templates;
- create a project;
- get a project;
- update a project;
- export a project;
- create magic clips.

Every tool does the same four things:

1. It validates its arguments with a Pydantic model.
2. It builds a camelCase JSON body.
3. It calls `make_api_request`, which turns every HTTP outcome into either the decoded payload or an error dict.
4. It renders a markdown reply, cut to 25000 characters by `truncate_text`.

This project models those four steps as pure functions and proves what they promise. The modules follow the program's structure:

| module | file | models |
|---|---|---|
| `Wrappers` | wrappers.dfy | `Option` and `Result` |
| `Json` | json.dfy | JSON values, Python truthiness, `dict.get`, `str()` of integers with a parse-back |
| `Text` | text.dfy | `truncate_text` and `CHARACTER_LIMIT` |
| `Patterns` | patterns.dfy | the three `pattern=` regular expressions, as predicates and as matching loops |
| `Collate` | collate.dfy | Python string order, `sorted`, ASCII `lower()` and substring search |
| `Templates` | templates.dfy | the Hormozi/other partition of the template list |
| `Inputs` | inputs.dfy | the five Pydantic input models, including the `info.data` behaviour of the exclusivity validator |
| `Bodies` | bodies.dfy | the four request bodies, each with a reader that recovers the arguments |
| `Dispatch` | dispatch.dfy | `make_api_request` with the transport outcome as a parameter, and `get_api_key` |
| `Format` | format.dfy | `format_project_response` as a document of headings, fields and lines |
| `Tools` | tools.dfy | each tool as a plan (validate, answer early or name the request) and a finish (render the payload), plus `Run`, which joins them |

Validation errors are the list of failing fields, in declaration order. Pydantic collects all of them.

Replies are documents: sequences of headings, fields, lines and bullets. Their rendering to text is approximate markdown. The model is about which parts appear with which values, and about the length bound.

The credential in the environment and the outcome of the HTTP exchange are parameters of `Tools.Run`. Nothing is sent anywhere.

`Tools.Run` follows the code as written. `Tools.RunIntended` applies the corrections listed under "## Findings"; `Tools.IntendedAgrees` states where the two differ.

## Model

| member | source | states |
|---|---|---|
| Text.Truncate | src/submagic_mcp/__init__.py:298-302 | text within the limit is returned unchanged; longer text keeps its first `max-3` characters and ends in "..."; for limits of 3 or more the result never exceeds the limit |
| Text.Limit | src/submagic_mcp/__init__.py:20 | truncation at `CHARACTER_LIMIT` = 25000 never yields more than 25000 characters |
| Text.TruncateIdempotent | src/submagic_mcp/__init__.py:298-302 | truncating twice to the same limit (at least 3) is truncating once |
| Text.SmallLimitOverflows | src/submagic_mcp/__init__.py:298-302 | with a limit below 3 an over-long text comes back longer than the limit, because the marker alone has 3 characters |
| Text.TruncateKeepsPrefix | src/submagic_mcp/__init__.py:298-302 | a truncated text is a prefix of the original followed by the marker |
| Patterns.MatchLanguageCode | src/submagic_mcp/__init__.py:37-41 | the scanning matcher accepts exactly the strings `^[a-z]{2}(-[A-Z]{2})?$` accepts |
| Patterns.MatchClipLanguageCode | src/submagic_mcp/__init__.py:166-170 | the scanning matcher accepts exactly the strings `^[a-z]{2,10}(_[a-z]{2})?$` accepts |
| Patterns.LanguagePatternsOverlap | src/submagic_mcp/__init__.py:166-170 | a project language code is a clip language code exactly when it has no region suffix |
| Json.NatToStringRoundTrip | src/submagic_mcp/__init__.py:393 | the decimal text of a count is all digits and parses back to the count |
| Json.IntToStringRoundTrip | src/submagic_mcp/__init__.py:1075 | the decimal text of any integer parses back to it |
| Json.StrsRoundTrip | src/submagic_mcp/__init__.py:574-575 | a list of strings sent as JSON strings reads back unchanged |
| Collate.LeTotal | src/submagic_mcp/__init__.py:459 | Python's string order compares every two strings |
| Collate.LeTransitive | src/submagic_mcp/__init__.py:459 | Python's string order is transitive |
| Collate.LeAntisymmetric | src/submagic_mcp/__init__.py:459 | two strings each at most the other are equal |
| Collate.Sort | src/submagic_mcp/__init__.py:459 | `sorted` yields an ordered permutation of its input |
| Collate.SortedPermutationUnique | src/submagic_mcp/__init__.py:465 | two ordered permutations of the same list are equal, so the printed order is determined |
| Collate.ContainsIffOccurs | src/submagic_mcp/__init__.py:454 | the `in` test on strings holds exactly when the keyword occurs at some position |
| Templates.Select | src/submagic_mcp/__init__.py:454-455 | each comprehension keeps exactly the templates on its side of the keyword test, drawn from the input |
| Templates.SelectSplits | src/submagic_mcp/__init__.py:454-455 | the two comprehensions together hold every template exactly as often as the input |
| Templates.GroupsPartition | src/submagic_mcp/__init__.py:454-466 | both groups are sorted, they partition the input by the keyword test, and each is the only sorted arrangement of its members |
| Inputs.ValidateCreateAsWritten | src/submagic_mcp/__init__.py:29-92 | the create model as written accepts exactly the arguments whose field constraints hold, whether or not both styles are given |
| Inputs.ExclusivityNeverFires | src/submagic_mcp/__init__.py:87-92 | at neither field does `info.data` hold both a template name and a theme, so the exclusivity check never raises |
| Inputs.BothStylesAcceptedAsWritten | src/submagic_mcp/__init__.py:87-92 | a call with both a template name and a theme id is accepted |
| Inputs.ValidateCreate | src/submagic_mcp/__init__.py:29-92 | the corrected create model accepts exactly when every field constraint holds and not both styles are given; each field is named in a rejection exactly when it breaks its constraint |
| Inputs.ToolDefaultsRejected | src/submagic_mcp/__init__.py:487 | with the tool's default pace "medium" the pace field is rejected, whatever the other arguments |
| Inputs.IntendedDefaultsAccepted | src/submagic_mcp/__init__.py:77-81 | with the documented default pace "natural" the defaults pass the pace check |
| Inputs.ValidateGet | src/submagic_mcp/__init__.py:95-100 | the project identifier is unconstrained, so every call is accepted with the identifier kept |
| Inputs.ValidateUpdate | src/submagic_mcp/__init__.py:103-121 | only the pace is checked, and only when given; B-roll items pass unchecked |
| Inputs.ValidateExport | src/submagic_mcp/__init__.py:124-151 | fps in 1..60 and width and height in 100..4000, when given; each field is named in a rejection exactly when it is out of range |
| Inputs.ValidateClips | src/submagic_mcp/__init__.py:154-190 | title length, the clip language pattern and both lengths in 15..300 are checked each on its own; each field is named exactly when it fails |
| Bodies.WireRoundTrip | src/submagic_mcp/__init__.py:554-575 | every body key's camelCase name maps back to that key |
| Bodies.CreateOptionalKeys | src/submagic_mcp/__init__.py:563-575 | the template, theme and webhook keys are chosen exactly when the argument is a non-empty string, and the dictionary key exactly when the list is non-empty |
| Bodies.CreateBody | src/submagic_mcp/__init__.py:554-575 | the body's keys are the eight required keys plus exactly the chosen optional keys |
| Bodies.CreateBodyValues | src/submagic_mcp/__init__.py:554-575 | each required key carries its argument, and each chosen optional key carries its argument's value |
| Bodies.CreateBodyRoundTrip | src/submagic_mcp/__init__.py:554-575 | reading the create body back gives the arguments, with falsy optional arguments read as absent |
| Bodies.ProjectItem | src/submagic_mcp/__init__.py:765-772 | an item projects to exactly the three API keys with their values, or raises `KeyError` naming a missing key |
| Bodies.UpdateBody | src/submagic_mcp/__init__.py:754-777 | the update body fails exactly when some item lacks a key; otherwise it has the pace iff it is a non-empty string, the flag iff given (`False` included), and the items iff the list is non-empty |
| Bodies.UpdateBodyRoundTrip | src/submagic_mcp/__init__.py:754-777 | reading the update body back gives the non-empty pace, the flag as given, and items exactly when some were given |
| Bodies.ExportBodyRoundTrip | src/submagic_mcp/__init__.py:888-896 | the export body holds each setting given, `is not None` included, and reads back to the arguments exactly |
| Bodies.ExportBody | src/submagic_mcp/__init__.py:888-896 | the export body has exactly one key per argument that is not `None`, so an empty webhook URL is sent |
| Bodies.ClipsBody | src/submagic_mcp/__init__.py:1033-1045 | the five required keys are always present, with the two lengths as integers |
| Bodies.ClipsBodyRoundTrip | src/submagic_mcp/__init__.py:1033-1045 | reading the magic-clips body back gives the arguments, with falsy optional strings read as absent |
| Dispatch.ErrorDetail | src/submagic_mcp/__init__.py:269-274 | the message of an API error is read from the error body exactly when that body is a JSON object |
| Dispatch.Classify | src/submagic_mcp/__init__.py:238-295 | a payload exactly for a 2xx response with valid JSON; 429 and 401 take precedence and carry no suggestion; every other non-2xx is an API error with its status and detail; a timeout and any other failure are told apart |
| Dispatch.AsDict | src/submagic_mcp/__init__.py:248-295 | every failure dict has `error` and `message`, with `error` the kind's title; `suggestion` appears unless rate-limited or unauthenticated; `limits` appears only when rate-limited; a payload is returned as decoded |
| Dispatch.CallersSeeEveryFailure | src/submagic_mcp/__init__.py:385 | the callers' `"error" in result` test holds exactly for failures and for payload dicts with their own `error` key |
| Dispatch.Title | src/submagic_mcp/__init__.py:248-295 | exactly the API errors get a title starting with "API Error (" |
| Dispatch.DetailValue | src/submagic_mcp/__init__.py:269-295 | a message taken from the body's `message` or `error` keeps its JSON value; every other message is a string |
| Dispatch.ApiKey | src/submagic_mcp/__init__.py:197-205 | the key is returned exactly when it is set and non-empty |
| Dispatch.TitleRoundTrip | src/submagic_mcp/__init__.py:248-295 | the `error` title determines the kind of failure, including an API error's status |
| Format.SummaryDoc | src/submagic_mcp/__init__.py:316-329 | the summary shows the status and template, with their defaults for missing keys, and a tick for magic zooms exactly when the flag is truthy |
| Format.DetailedDoc | src/submagic_mcp/__init__.py:332-362 | the detailed rendering is the 18 fixed items, then one item for a truthy video URL, then two for a truthy output URL, ending in the download URL |
| Format.DetailedFields | src/submagic_mcp/__init__.py:339-353 | missing status, theme and pace show "unknown", "none" and "medium" |
| Format.DetailedSections | src/submagic_mcp/__init__.py:356-360 | after the fixed items the video URL appears exactly when it is truthy, and the output section exactly when the output URL is truthy |
| Format.FormatProject | src/submagic_mcp/__init__.py:305-362 | any level but "summary" selects the detailed rendering, which never exceeds 25000 characters and is unchanged when it fits |
| Tools.PlanCreate | src/submagic_mcp/__init__.py:531-577 | as written, a request is sent exactly when the create model's field constraints hold, both styles together included, as a POST to `projects` with the creation body; otherwise the reply names the rejected fields |
| Tools.BothStylesSent | src/submagic_mcp/__init__.py:563-567 | a valid call with both a template name and a theme is sent, and its body carries both `templateName` and `userThemeId` |
| Tools.PlanCreateIntended | src/submagic_mcp/__init__.py:82-92 | with the documented exclusivity rule, a request is sent exactly when the field constraints hold and not both styles are given |
| Tools.CreatePlansDiffer | src/submagic_mcp/__init__.py:82-92 | the create call's outcome as written and with the exclusivity rule differ exactly when both a template name and a theme are given |
| Tools.PlanUpdate | src/submagic_mcp/__init__.py:740-779 | a request is sent exactly when the pace validates, every item has its keys and the body is non-empty, as a PUT to the project with that body; a bad pace is rejected and an item without a key raises |
| Tools.PlanExport | src/submagic_mcp/__init__.py:874-898 | a request is sent exactly when the settings validate, as a POST to the project's export endpoint with the export body |
| Tools.PlanClips | src/submagic_mcp/__init__.py:1012-1047 | a request is sent exactly when the arguments validate and min <= max, as a POST to `projects/magic-clips` with the clips body; a reversed range gets its own answer |
| Tools.Plan | src/submagic_mcp/__init__.py:369-1047 | the list and get tools always send, without a body; every request goes to its tool's endpoint: GET `languages`, GET `templates`, POST `projects`, GET and PUT `projects/{id}`, POST `projects/{id}/export`, POST `projects/magic-clips` |
| Tools.EndpointIdentifiesTool | src/submagic_mcp/__init__.py:369-1047 | no two tools share a verb and endpoint: the request tells which tool sent it and which project it addresses |
| Tools.PlanIntended | src/submagic_mcp/__init__.py:82-92 | the corrected plans differ from the plans as written exactly for create calls giving both a template name and a theme |
| Tools.NoUpdatesIffNothingGiven | src/submagic_mcp/__init__.py:773-777 | the update tool answers "no updates" without a request exactly when the pace is valid and no non-empty pace, no flag and no items were given |
| Tools.ClipsRequestOrdered | src/submagic_mcp/__init__.py:1026-1030 | a magic-clips request is sent only when 15 <= min <= max <= 300, and it carries both lengths |
| Tools.LanguagesDoc | src/submagic_mcp/__init__.py:393-408 | the language list has one entry per language, in order: dicts show code and name, anything else shows as it is |
| Tools.LanguagesCounted | src/submagic_mcp/__init__.py:393 | the count in the heading parses back to the number of entries listed |
| Tools.TemplatesLayout | src/submagic_mcp/__init__.py:445-472 | the template list is the count heading and introduction, then the Hormozi section, then the other styles, then the usage and note lines; both sections are in sorted order and together a permutation of the templates received |
| Tools.TemplatesListed | src/submagic_mcp/__init__.py:445-472 | the names listed are the Hormozi group followed by the other styles, so every template received is listed exactly as often as it was received, and nothing else is |
| Tools.CreatedDoc | src/submagic_mcp/__init__.py:585-596 | the creation report is the project in detail, then next steps whose identifier to save and whose suggested `submagic_get_project` call both read back as the payload's `id`, "None" when absent |
| Tools.StatusHint | src/submagic_mcp/__init__.py:648-655 | a hint appears exactly for the statuses "processing", "completed" and "failed"; the failed hint shows the payload's `error`, defaulting to "Unknown error" |
| Tools.QueuedHasNoHint | src/submagic_mcp/__init__.py:648-655 | a queued project gets no hint |
| Tools.ProjectDoc | src/submagic_mcp/__init__.py:646-657 | the project report is the detailed rendering, then a banner exactly for the statuses "processing", "completed" and "failed", and the banner reads back as the status; a failed project's banner is followed by the error shown |
| Tools.PaceDescription | src/submagic_mcp/__init__.py:796-802 | the paces "natural", "fast" and "extra-fast" get their three descriptions; any other pace is shown as it is |
| Tools.PaceDescriptionsDistinct | src/submagic_mcp/__init__.py:797-801 | the three paces have three different descriptions |
| Tools.UpdatesMatchBody | src/submagic_mcp/__init__.py:796-814 | the update confirmation lists the silence, bad-takes and B-roll lines exactly for the keys the update body sent |
| Tools.UpdatedDoc | src/submagic_mcp/__init__.py:786-829 | the update report shows the project and its status ("updated" when missing), then exactly the updates applied, then next steps whose status call reads back as the project, then the four pro tips |
| Tools.SettingsShown | src/submagic_mcp/__init__.py:912-915 | for accepted export arguments, each displayed setting reads back as the setting given, "Project default" as none |
| Tools.ExportedDoc | src/submagic_mcp/__init__.py:906-923 | the export report shows the project and its status ("exporting" when missing), the three settings and the webhook ("None" when absent or empty), a status call that reads back as the project, and the closing tip |
| Tools.Band | src/submagic_mcp/__init__.py:1059-1066 | the band of a maximum clip length is the first whose ceiling (30, 60, 90) it does not exceed, else the last |
| Tools.PlatformFit | src/submagic_mcp/__init__.py:1058-1066 | the `if`/`elif` chain picks the hint of the maximum length's band |
| Tools.PlatformFitByBand | src/submagic_mcp/__init__.py:1059-1066 | the `if`/`elif` chain picks its band's hint; bands grow with the length; two lengths get the same hint exactly when they share a band |
| Tools.EveryBandReachable | src/submagic_mcp/__init__.py:1059-1066 | every band is reached by some accepted maximum length |
| Tools.ClipsDoc | src/submagic_mcp/__init__.py:1055-1098 | the clips report shows the payload's `id`, else its `projectId`, else "Unknown"; its status call reads back as that same project; the platform hint is the maximum length's band; it ends with the "What's Happening Now" section and the note |
| Tools.Finish | src/submagic_mcp/__init__.py:391-472 | the list tools raise exactly when their entry is neither a list nor a string, or a template is not a string; a string entry lists one entry per character; every other tool reports |
| Tools.Answer | src/submagic_mcp/__init__.py:579-583 | a result with `error` gives the error reply of its `error` and `message`, or raises when `message` is missing; a non-dict raises; anything else reaches the finish |
| Tools.Run | src/submagic_mcp/__init__.py:369-1100 | validation and the early answers come before the credential is read and need no request; a missing key raises only for a call that would send; the early answers come only from the plan; a report that follows a request comes only from a 2xx JSON object without `error` |
| Tools.FailuresReachTheCaller | src/submagic_mcp/__init__.py:640-644 | every dispatcher failure reaches the caller as an error reply with its title, message and suggestion ("" when none); a payload dict without `error` reaches the finish |
| Tools.ErrorText | src/submagic_mcp/__init__.py:640-644 | the error branch's text starts with the title line, then holds the message in full, and ends with the suggestion |
| Tools.Output | src/submagic_mcp/__init__.py:657 | report text never exceeds 25000 characters and is unchanged when it fits |
| Tools.ErrorRepliesAreNotLimited | src/submagic_mcp/__init__.py:640-644 | the error branch is not truncated: for every tool, an error message longer than 25000 characters is shown in full |
| Tools.ApiErrorReply | src/submagic_mcp/__init__.py:268-281 | for every tool, an API error reaches the caller with its status in the title, the documentation suggestion, and the body's `message`, else its `error`, else the whole body; a non-empty body that is not a JSON object gives its raw text |
| Tools.LongErrorMessage | src/submagic_mcp/__init__.py:269-281 | a status 500 whose JSON body has a `message` longer than the limit is a failure carrying that message |
| Tools.FailedHintAsWritten | src/submagic_mcp/__init__.py:640-655 | as written, a get report comes only from a payload dict without `error`, so the failed hint always says "Unknown error" |
| Tools.FailedProjectCrashesAsWritten | src/submagic_mcp/__init__.py:640-644 | a failed project whose payload states its error and has no `message` makes the get tool raise |
| Tools.AnswerIntended | src/submagic_mcp/__init__.py:640-655 | corrected answer: only dispatcher failures take the error branch; every payload dict reaches the finish |
| Tools.RunIntended | src/submagic_mcp/__init__.py:640-655 | corrected end to end: a create call with both styles is rejected; only dispatcher failures give an error reply; every payload dict reaches the finish |
| Tools.IntendedAgrees | src/submagic_mcp/__init__.py:640-644 | the corrections change the outcome only for create calls giving both styles and for payload dicts with their own `error` key |
| Tools.FailedHintIntended | src/submagic_mcp/__init__.py:648-655 | with the correction, a failed project's report shows the reason its payload gives |

## Left out

- The HTTP exchange is not modelled: the client, the 120-second timeout, the URL join and the headers. Its outcome is the `Dispatch.Transport` parameter.
- JSON decoding of the response is not modelled. The decoded value, or its absence, is part of the transport outcome.
- FastMCP registration, the server lifecycle and `main` are not modelled.
- `setup.py` is not part of this model.
- The test file is not part of this model.
- Rendered markdown is not byte-exact. The documents fix which headings, fields and lines appear with which values, not the exact whitespace or emphasis.
- `str()` of floats, lists and dicts is rendered as a placeholder. Floats are one example: the B-roll clip times.
- The per-clip duration `endTime - startTime` with `:.1f` is not shown. That arithmetic raises for non-numeric times, and this is not modelled either.
- `lower()` is ASCII only. Non-ASCII case mappings are left out.
- Tools.Finish: a `languages` or `templates` entry that is a dict is modelled as raising. Python would iterate its keys in insertion order, and a decoded JSON object is modelled as a map, which keeps no order.
- Format.FormatProject: the contract says nothing about the summary level, which no tool requests. `Format.SummaryDoc` states what the summary shows.
- Tools.Output: validation texts list the failing field names, not Pydantic's full message.
- Tools.Output: error replies, validation replies and the early answers are not truncated, because the code does not truncate them.
- `Tools.Crash` replies stand for any exception that escapes a tool. The exception's type and message are only sketched.
- Dispatch.DetailValue: for an error response with an empty body, the message is a stand-in, "HTTP status error" and the status. The code shows `str()` of httpx's status exception, which also names the reason phrase and the URL; the transport outcome carries neither.
- Dispatch.Classify: a 2xx response whose body is not valid JSON fails with a fixed stand-in message. The code shows `str()` of the decoder's exception, whose wording depends on where decoding stopped.

## Findings

| source | as written | input that shows it | evidently intended | confidence | as-written member | corrected member |
|---|---|---|---|---|---|---|
| src/submagic_mcp/__init__.py:87-92 | the exclusivity validator reads both fields from `info.data`, which holds only the fields validated before the current one | `template_name="Hormozi 2"`, `user_theme_id="theme-1"` is accepted, and the request carries both `templateName` and `userThemeId` | a call with both a template name and a theme id is rejected | high, not executed | Inputs.BothStylesAcceptedAsWritten | Inputs.ValidateCreate |
| src/submagic_mcp/__init__.py:640-655 | every result with an `error` key takes the error branch, including a project payload | a 200 reply `{"status": "failed", "error": "download failed"}` raises `KeyError: 'message'`; a failed payload without `error` shows "Unknown error" | the failed-status hint shows the reason the project payload gives | medium, not executed | Tools.FailedHintAsWritten | Tools.FailedHintIntended |
| src/submagic_mcp/__init__.py:487 | the create tool's default pace is "medium", which the pace pattern at line 79 rejects | a create call that omits `remove_silence_pace` | the documented default "natural" | high, not executed | Inputs.ToolDefaultsRejected | Inputs.IntendedDefaultsAccepted |
