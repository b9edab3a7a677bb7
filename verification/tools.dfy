/**
 The seven tools of the server. Each is split into a plan, which validates
 the arguments and either answers at once or names the request to send, and
 a finish, which turns the payload of a successful request into the report.
 `Run` strings the two together around the dispatcher; the credential in the
 environment and the outcome of the HTTP exchange are parameters.
 */
module Tools {
  import opened Wrappers
  import opened Json
  import opened Text
  import Inputs
  import opened Patterns
  import opened Bodies
  import opened Dispatch
  import opened Collate
  import opened Templates
  import opened Format

  datatype Verb = GET | POST | PUT

  /** A call of `make_api_request`: the verb, the endpoint and the JSON body, if any. */
  datatype Request = Request(verb: Verb, path: string, body: Option<Body>)

  /** A tool call with its arguments. */
  datatype Tool =
    | ListLanguages
    | ListTemplates
    | CreateProject(createInput: Inputs.CreateProjectInput)
    | GetProject(projectId: string)
    | UpdateProject(updateInput: Inputs.UpdateProjectInput)
    | ExportProject(exportInput: Inputs.ExportProjectInput)
    | CreateMagicClips(clipsInput: Inputs.CreateMagicClipsInput)

  /**
   What a tool gives back: a rejection of its arguments, the two early
   answers of the update and magic-clips tools, the error branch shared by
   every tool (the `error`, `message` and `suggestion` of the result), a
   report, or an exception that escapes the tool.
   */
  datatype Reply =
    | InputRejected(errors: Inputs.FieldErrors)
    | NoUpdates
    | InvalidClipRange(minClipLength: int, maxClipLength: int)
    | ErrorReply(error: Value, message: Value, suggestion: Value)
    | Report(doc: Doc)
    | Crash(reason: string)

  /** The first half of a tool: answer now, or send a request. */
  datatype Step = Respond(reply: Reply) | Send(request: Request)

  // ---------------------------------------------------------------- plans

  const LanguagesPath: string := "languages"
  const TemplatesPath: string := "templates"
  const ProjectsPath: string := "projects"
  const ClipsPath: string := "projects/magic-clips"
  const ExportSuffix: string := "/export"

  /** The endpoint of one project. */
  function ProjectPath(projectId: string): string {
    ProjectsPath + "/" + projectId
  }

  /**
   `submagic_create_project` before the request, as written: the model's
   field constraints decide, since its exclusivity validator never fires, so
   a call giving both a template name and a theme is sent.
   */
  function PlanCreate(i: Inputs.CreateProjectInput): (s: Step)
    ensures s.Send? <==> Inputs.CreateFieldsOk(i)
    ensures s.Send? ==> s.request == Request(POST, ProjectsPath, Some(CreateBody(i)))
    ensures s.Respond? ==> s.reply == InputRejected(Inputs.ValidateCreateAsWritten(i).error)
  {
    match Inputs.ValidateCreateAsWritten(i)
    case Failure(errors) => Respond(InputRejected(errors))
    case Success(v) => Send(Request(POST, ProjectsPath, Some(CreateBody(v))))
  }

  /** A call with both a template name and a theme and otherwise valid arguments sends both to the API. */
  lemma BothStylesSent(i: Inputs.CreateProjectInput)
    requires Inputs.CreateFieldsOk(i) && Inputs.BothStyles(i)
    ensures PlanCreate(i).Send?
    ensures var b := PlanCreate(i).request.body.value;
      KTemplateName in b && KUserThemeId in b
      && b[KTemplateName] == Str(i.templateName.value) && b[KUserThemeId] == Str(i.userThemeId.value)
  {
    CreateBodyValues(i);
  }

  /** `submagic_create_project` before the request, with the exclusivity rule its validator documents. */
  function PlanCreateIntended(i: Inputs.CreateProjectInput): (s: Step)
    ensures s.Send? <==> Inputs.CreateFieldsOk(i) && !Inputs.BothStyles(i)
    ensures s.Send? ==> s.request == Request(POST, ProjectsPath, Some(CreateBody(i)))
    ensures s.Respond? ==> s.reply == InputRejected(Inputs.ValidateCreate(i).error)
  {
    match Inputs.ValidateCreate(i)
    case Failure(errors) => Respond(InputRejected(errors))
    case Success(v) => Send(Request(POST, ProjectsPath, Some(CreateBody(v))))
  }

  /**
   `submagic_update_project` before the request: validation, the body (whose
   B-roll items may lack a key), and the early answer when the body is empty.
   */
  function PlanUpdate(i: Inputs.UpdateProjectInput): (s: Step)
    ensures s.Send? <==>
              Inputs.ValidateUpdate(i).Success? && UpdateBody(i).Success? && |UpdateBody(i).value| > 0
    ensures s.Send? ==> s.request == Request(PUT, ProjectPath(i.projectId), Some(UpdateBody(i).value))
    ensures Inputs.ValidateUpdate(i).Failure? ==> s == Respond(InputRejected([Inputs.RemoveSilencePace]))
    ensures Inputs.ValidateUpdate(i).Success? && UpdateBody(i).Failure? ==> s.Respond? && s.reply.Crash?
  {
    match Inputs.ValidateUpdate(i)
    case Failure(errors) => Respond(InputRejected(errors))
    case Success(v) =>
      match UpdateBody(v)
      case Failure(key) => Respond(Crash("KeyError: '" + key + "'"))
      case Success(body) =>
        if |body| == 0 then Respond(NoUpdates) else Send(Request(PUT, ProjectPath(v.projectId), Some(body)))
  }

  /** `submagic_export_project` before the request: validation, then the export body. */
  function PlanExport(i: Inputs.ExportProjectInput): (s: Step)
    ensures s.Send? <==> Inputs.ValidateExport(i).Success?
    ensures s.Send? ==> s.request == Request(POST, ProjectPath(i.projectId) + ExportSuffix, Some(ExportBody(i)))
    ensures s.Respond? ==> s.reply == InputRejected(Inputs.ValidateExport(i).error)
  {
    match Inputs.ValidateExport(i)
    case Failure(errors) => Respond(InputRejected(errors))
    case Success(v) => Send(Request(POST, ProjectPath(v.projectId) + ExportSuffix, Some(ExportBody(v))))
  }

  /**
   `submagic_create_magic_clips` before the request: validation, then the
   check that the minimum length does not exceed the maximum.
   */
  function PlanClips(i: Inputs.CreateMagicClipsInput): (s: Step)
    ensures s.Send? <==> Inputs.ValidateClips(i).Success? && i.minClipLength <= i.maxClipLength
    ensures s.Send? ==> s.request == Request(POST, ClipsPath, Some(ClipsBody(i)))
    ensures Inputs.ValidateClips(i).Success? && i.minClipLength > i.maxClipLength ==>
              s == Respond(InvalidClipRange(i.minClipLength, i.maxClipLength))
    ensures Inputs.ValidateClips(i).Failure? ==> s == Respond(InputRejected(Inputs.ValidateClips(i).error))
  {
    match Inputs.ValidateClips(i)
    case Failure(errors) => Respond(InputRejected(errors))
    case Success(v) =>
      if v.minClipLength > v.maxClipLength then Respond(InvalidClipRange(v.minClipLength, v.maxClipLength))
      else Send(Request(POST, ClipsPath, Some(ClipsBody(v))))
  }

  /** The verb and endpoint each tool's request goes to. */
  function Endpoint(tool: Tool): (Verb, string) {
    match tool
    case ListLanguages => (GET, LanguagesPath)
    case ListTemplates => (GET, TemplatesPath)
    case CreateProject(_) => (POST, ProjectsPath)
    case GetProject(id) => (GET, ProjectPath(id))
    case UpdateProject(i) => (PUT, ProjectPath(i.projectId))
    case ExportProject(i) => (POST, ProjectPath(i.projectId) + ExportSuffix)
    case CreateMagicClips(_) => (POST, ClipsPath)
  }

  /**
   Validation, the early answers, and the request each tool sends: to its
   endpoint, with a body for the tools that write. The list tools and the
   get tool always send.
   */
  function Plan(tool: Tool): (s: Step)
    ensures tool.ListLanguages? || tool.ListTemplates? || tool.GetProject? ==> s.Send? && s.request.body.None?
    ensures s.Send? ==> (s.request.verb, s.request.path) == Endpoint(tool)
    ensures tool.CreateProject? ==> s == PlanCreate(tool.createInput)
    ensures tool.UpdateProject? ==> s == PlanUpdate(tool.updateInput)
    ensures tool.ExportProject? ==> s == PlanExport(tool.exportInput)
    ensures tool.CreateMagicClips? ==> s == PlanClips(tool.clipsInput)
  {
    match tool
    case ListLanguages => Send(Request(GET, LanguagesPath, None))
    case ListTemplates => Send(Request(GET, TemplatesPath, None))
    case CreateProject(i) => PlanCreate(i)
    case GetProject(id) =>
      var v := Inputs.ValidateGet(id).value;
      Send(Request(GET, ProjectPath(v.projectId), None))
    case UpdateProject(i) => PlanUpdate(i)
    case ExportProject(i) => PlanExport(i)
    case CreateMagicClips(i) => PlanClips(i)
  }

  /** The two create plans differ exactly for calls giving both a template name and a theme. */
  lemma CreatePlansDiffer(i: Inputs.CreateProjectInput)
    ensures PlanCreateIntended(i) != PlanCreate(i) <==> Inputs.BothStyles(i)
  {
    if !Inputs.BothStyles(i) {
      Inputs.SameErrorsWithOneStyle(i);
    } else if !Inputs.CreateFieldsOk(i) {
      Inputs.ExclusivityNeverFires(i);
      assert Inputs.UserThemeId in Inputs.ValidateCreate(i).error;
      assert Inputs.UserThemeId !in Inputs.ValidateCreateAsWritten(i).error;
    }
  }

  /** The plans with the create tool's exclusivity rule enforced. */
  function PlanIntended(tool: Tool): (s: Step)
    ensures s != Plan(tool) <==> tool.CreateProject? && Inputs.BothStyles(tool.createInput)
  {
    match tool
    case CreateProject(i) =>
      CreatePlansDiffer(i);
      PlanCreateIntended(i)
    case _ => Plan(tool)
  }

  /** The position of a tool in the list of seven. */
  function ToolIndex(tool: Tool): nat {
    match tool
    case ListLanguages => 0
    case ListTemplates => 1
    case CreateProject(_) => 2
    case GetProject(_) => 3
    case UpdateProject(_) => 4
    case ExportProject(_) => 5
    case CreateMagicClips(_) => 6
  }

  /** The project a tool addresses by its endpoint, if any. */
  function AddressedProject(tool: Tool): Option<string> {
    match tool
    case GetProject(id) => Some(id)
    case UpdateProject(i) => Some(i.projectId)
    case ExportProject(i) => Some(i.projectId)
    case _ => None
  }

  /** What tells the endpoints apart: the verb, the first and last characters, the length, the identifier. */
  lemma EndpointShape(tool: Tool)
    ensures var (verb, path) := Endpoint(tool);
      && (verb == GET <==> ToolIndex(tool) in {0, 1, 3})
      && (verb == PUT <==> ToolIndex(tool) == 4)
      && |path| >= 8
      && (ToolIndex(tool) == 0 ==> path[0] == 'l')
      && (ToolIndex(tool) == 1 ==> path[0] == 't')
      && (ToolIndex(tool) == 2 ==> |path| == 8)
      && (ToolIndex(tool) == 3 ==> path[0] == 'p')
      && (ToolIndex(tool) == 5 ==> |path| >= 16 && path[|path| - 1] == 't')
      && (ToolIndex(tool) == 6 ==> |path| == 20 && path[|path| - 1] == 's')
      && (ToolIndex(tool) in {3, 4} ==> path[9..] == AddressedProject(tool).value)
      && (ToolIndex(tool) == 5 ==> path[9..|path| - 7] == AddressedProject(tool).value)
  {
    match tool
    case GetProject(id) =>
      assert ProjectPath(id)[9..] == id;
    case UpdateProject(i) =>
      assert ProjectPath(i.projectId)[9..] == i.projectId;
    case ExportProject(i) =>
      var path := ProjectPath(i.projectId) + ExportSuffix;
      assert path[9..|path| - 7] == i.projectId;
    case _ =>
  }

  /**
   No two tools share an endpoint: the verb and path of a request tell which
   tool sent it and which project it addresses.
   */
  lemma EndpointIdentifiesTool(a: Tool, b: Tool)
    requires Endpoint(a) == Endpoint(b)
    ensures ToolIndex(a) == ToolIndex(b)
    ensures AddressedProject(a) == AddressedProject(b)
  {
    EndpointShape(a);
    EndpointShape(b);
  }

  /**
   The update tool answers "no updates" without a request exactly when the
   pace is valid and nothing would be sent: no non-empty pace, no flag, and
   no B-roll items.
   */
  lemma NoUpdatesIffNothingGiven(i: Inputs.UpdateProjectInput)
    ensures PlanUpdate(i) == Respond(NoUpdates) <==>
              && (i.removeSilencePace.Some? ==> Pace(i.removeSilencePace.value))
              && !Present(i.removeSilencePace)
              && i.removeBadTakes.None?
              && (i.items.None? || |i.items.value| == 0)
  {
    var b := UpdateBody(i);
    if b.Success? && |b.value| == 0 {
      assert KRemoveSilencePace !in b.value && KRemoveBadTakes !in b.value && KItems !in b.value;
    }
    if !Present(i.removeSilencePace) && i.removeBadTakes.None? && (i.items.None? || |i.items.value| == 0) {
      assert b.Success?;
      assert b.value.Keys == {};
    }
  }

  /**
   A magic-clips request is sent only with both lengths in 15..300 and the
   minimum no greater than the maximum, and it carries the two lengths.
   */
  lemma ClipsRequestOrdered(i: Inputs.CreateMagicClipsInput)
    requires PlanClips(i).Send?
    ensures 15 <= i.minClipLength <= i.maxClipLength <= 300
    ensures var body := PlanClips(i).request.body.value;
      body[KMinClipLength] == Int(i.minClipLength) && body[KMaxClipLength] == Int(i.maxClipLength)
  {
  }

  // ---------------------------------------------------------------- shared text

  /** The call the reports suggest for checking on a project. */
  function GetCall(projectId: string): string {
    GetCallPrefix + projectId + GetCallSuffix
  }

  const GetCallPrefix: string := "submagic_get_project(\""
  const GetCallSuffix: string := "\")"

  /**
   Reads back the project a report line suggests checking on: the line is
   `lead`, the call, then `trail`.
   */
  function SuggestedProject(line: string, lead: string, trail: string): Option<string> {
    var inner := |lead| + |GetCallPrefix|;
    var outer := |GetCallSuffix| + |trail|;
    if |line| >= inner + outer
       && line[..inner] == lead + GetCallPrefix
       && line[|line| - outer..] == GetCallSuffix + trail
    then Some(line[inner..|line| - outer])
    else None
  }

  /** The suggested call names the project unambiguously, whatever characters its identifier holds. */
  lemma SuggestedProjectRoundTrip(lead: string, projectId: string, trail: string)
    ensures SuggestedProject(lead + GetCall(projectId) + trail, lead, trail) == Some(projectId)
  {
    var line := lead + GetCall(projectId) + trail;
    assert line == (lead + GetCallPrefix) + projectId + (GetCallSuffix + trail);
  }

  // ---------------------------------------------------------------- languages

  const LanguagesCountOpen: string := "Supported Languages ("
  const CountClose: string := " total)"

  /** A language entry: a dict shows its code and name, anything else shows as it is. */
  function LanguageEntry(lang: Value): (it: Item)
    ensures lang.Obj? ==> it.Pair?
    ensures !lang.Obj? ==> it == Entry(Show(lang))
  {
    if lang.Obj? then Pair(Shown(lang.fields, "code", ""), Shown(lang.fields, "name", "")) else Entry(Show(lang))
  }

  const LanguagesIntro: string := "Available language codes for transcription and captions:"
  const LanguagesUsage: string := "**Usage:** Use the language code (e.g., 'en', 'es') when creating a project."

  /** The language list: a count, then one entry per language in the order received. */
  function LanguagesDoc(langs: seq<Value>): (d: Doc)
    ensures |d| == |langs| + 3
    ensures d[0] == Heading(LanguagesCountOpen + IntToString(|langs|) + CountClose)
    ensures forall k | 0 <= k < |langs| :: d[k + 2] == LanguageEntry(langs[k])
  {
    [Heading(LanguagesCountOpen + IntToString(|langs|) + CountClose), Line(LanguagesIntro)]
    + seq(|langs|, k requires 0 <= k < |langs| => LanguageEntry(langs[k]))
    + [Line(LanguagesUsage)]
  }

  /** The heading's count is the number of entries listed. */
  lemma LanguagesCounted(langs: seq<Value>)
    ensures var d := LanguagesDoc(langs);
      ParseInt(d[0].text[|LanguagesCountOpen|..|d[0].text| - |CountClose|]) == Some(|d| - 3)
  {
    var d := LanguagesDoc(langs);
    var count := IntToString(|langs|);
    assert d[0].text == LanguagesCountOpen + count + CountClose;
    assert d[0].text[|LanguagesCountOpen|..|d[0].text| - |CountClose|] == count;
    IntToStringRoundTrip(|langs|);
  }

  // ---------------------------------------------------------------- templates

  const TemplatesCountOpen: string := "Available Templates ("

  /** One bullet per name. */
  function Codes(ts: seq<string>): (d: Doc)
    ensures |d| == |ts|
    ensures forall k | 0 <= k < |ts| :: d[k] == Code(ts[k])
  {
    seq(|ts|, k requires 0 <= k < |ts| => Code(ts[k]))
  }

  const TemplatesIntro: string := "Choose a template name to apply professional styling to your videos:"
  const HormoziHeading: string := "Hormozi Series (Business/Sales)"
  const OtherHeading: string := "Other Styles"
  const TemplatesUsage: string := "**Usage:** Pass the exact template name to `submagic_create_project`"
  const TemplatesNote: string := "**Note:** Template names are case-sensitive. If not specified, \"Sara\" is used by default."

  /** The header of the template list. */
  function TemplatesHeader(count: nat): Doc {
    [Heading(TemplatesCountOpen + IntToString(count) + CountClose), Line(TemplatesIntro)]
  }

  /** The sections of the template list: the Hormozi series, then the other styles, each only when non-empty. */
  function TemplateSections(h: seq<string>, o: seq<string>): Doc {
    (if |h| > 0 then [Heading(HormoziHeading)] + Codes(h) + [Line("")] else [])
    + (if |o| > 0 then [Heading(OtherHeading)] + Codes(o) else [])
  }

  /** The closing lines of the template list. */
  const TemplatesFooter: Doc := [Line(TemplatesUsage), Line(TemplatesNote)]

  /** The template list, with the groups of `Templates.Groups`. */
  function TemplatesDoc(ts: seq<string>): Doc {
    var (h, o) := Groups(ts);
    TemplatesHeader(|ts|) + TemplateSections(h, o) + TemplatesFooter
  }

  /**
   Between the header and the footer, the list holds exactly the two
   sections: the Hormozi series first, both in Python's sorted order, and
   together a permutation of the templates received.
   */
  lemma TemplatesLayout(ts: seq<string>)
    ensures var (h, o) := Groups(ts);
      && TemplatesDoc(ts)[..2] == TemplatesHeader(|ts|)
      && TemplatesDoc(ts)[2..|TemplatesDoc(ts)| - 2] == TemplateSections(h, o)
      && TemplatesDoc(ts)[|TemplatesDoc(ts)| - 2..] == TemplatesFooter
      && Sorted(h) && Sorted(o)
      && multiset(h) + multiset(o) == multiset(ts)
  {
    var (h, o) := Groups(ts);
    SelectSplits(ts);
    var d := TemplatesDoc(ts);
    assert d == TemplatesHeader(|ts|) + TemplateSections(h, o) + TemplatesFooter;
  }

  /** The names the code bullets of a document show, in order. */
  function Listed(d: Doc): seq<string> {
    if |d| == 0 then [] else (if d[0].Code? then [d[0].text] else []) + Listed(d[1..])
  }

  lemma {:induction false} ListedAppend(a: Doc, b: Doc)
    ensures Listed(a + b) == Listed(a) + Listed(b)
  {
    if |a| == 0 {
      assert a + b == b;
    } else {
      assert (a + b)[0] == a[0];
      assert (a + b)[1..] == a[1..] + b;
      ListedAppend(a[1..], b);
    }
  }

  lemma {:induction false} ListedWithoutCodes(d: Doc)
    requires forall k | 0 <= k < |d| :: !d[k].Code?
    ensures Listed(d) == []
  {
    if |d| > 0 {
      ListedWithoutCodes(d[1..]);
    }
  }

  lemma {:induction false} ListedCodes(ts: seq<string>)
    ensures Listed(Codes(ts)) == ts
  {
    if |ts| > 0 {
      assert Codes(ts)[1..] == Codes(ts[1..]);
      ListedCodes(ts[1..]);
    }
  }

  /** A code bullet list between a heading and a trailer names exactly its codes. */
  lemma ListedSection(title: string, ts: seq<string>, trailer: Doc)
    requires forall k | 0 <= k < |trailer| :: !trailer[k].Code?
    ensures Listed([Heading(title)] + Codes(ts) + trailer) == ts
  {
    var head: Doc := [Heading(title)];
    var codes := Codes(ts);
    assert Listed(head) == [] by { assert head[1..] == []; }
    ListedCodes(ts);
    ListedWithoutCodes(trailer);
    ListedAppend(head, codes);
    ListedAppend(head + codes, trailer);
  }

  /** Bullets of code only between a header and a footer without any: the list names those. */
  lemma ListedFramed(header: Doc, body: Doc, footer: Doc)
    requires forall k | 0 <= k < |header| :: !header[k].Code?
    requires forall k | 0 <= k < |footer| :: !footer[k].Code?
    ensures Listed(header + body + footer) == Listed(body)
  {
    ListedWithoutCodes(header);
    ListedWithoutCodes(footer);
    ListedAppend(header, body);
    ListedAppend(header + body, footer);
  }

  /** The sections name the Hormozi series, then the other styles. */
  lemma ListedSections(h: seq<string>, o: seq<string>)
    ensures Listed(TemplateSections(h, o)) == h + o
  {
    var hs := if |h| > 0 then [Heading(HormoziHeading)] + Codes(h) + [Line("")] else [];
    var os := if |o| > 0 then [Heading(OtherHeading)] + Codes(o) + [] else [];
    if |h| > 0 { ListedSection(HormoziHeading, h, [Line("")]); }
    if |o| > 0 { ListedSection(OtherHeading, o, []); }
    ListedAppend(hs, os);
    assert TemplateSections(h, o) == hs + os;
  }

  /**
   The template list names the Hormozi series and then the other styles,
   and each template received appears exactly as often as it was received.
   */
  lemma TemplatesListed(ts: seq<string>)
    ensures var (h, o) := Groups(ts); Listed(TemplatesDoc(ts)) == h + o
    ensures multiset(Listed(TemplatesDoc(ts))) == multiset(ts)
  {
    var (h, o) := Groups(ts);
    assert Listed(TemplatesDoc(ts)) == h + o by {
      ListedFramed(TemplatesHeader(|ts|), TemplateSections(h, o), TemplatesFooter);
      ListedSections(h, o);
    }
    GroupsPermute(ts);
  }

  // ---------------------------------------------------------------- create

  const DetailedLevel: string := "detailed"
  const NextStepsHeading: string := "Next Steps"
  const SaveIdStep: string := "1. Save the project ID: `"
  const CheckStatusStep: string := "2. Check processing status with: `"
  const ExportWhenCompletedStep: string := "3. Once status is \"completed\", use `submagic_export_project` to download"
  const ProcessingTimeName: string := "Processing Time"
  const ProcessingTimeText: string := "Usually 2-10 minutes depending on video length"
  const StatusCheckName: string := "Status Check"
  const StatusCheckText: string := "Poll every 30-60 seconds until complete"

  /** The next steps after creating a project, naming its identifier. */
  function CreatedSteps(id: string): Doc {
    [ Heading(NextStepsHeading),
      Line(SaveIdStep + id + "`"),
      Line(CheckStatusStep + GetCall(id) + "`"),
      Line(ExportWhenCompletedStep),
      Field(ProcessingTimeName, ProcessingTimeText),
      Field(StatusCheckName, StatusCheckText) ]
  }

  /**
   The creation report: the project in detail, then the next steps. The
   identifier to save and the suggested status call both name the payload's
   `id`, "None" when it has none.
   */
  function CreatedDoc(m: Object): (d: Doc)
    ensures |d| == 7 && d[0] == Line(FormatProject(m, DetailedLevel)) && d[2].Line? && d[3].Line?
    ensures d[2].text == SaveIdStep + Shown(m, "id", "None") + "`"
    ensures SuggestedProject(d[3].text, CheckStatusStep, "`") == Some(Shown(m, "id", "None"))
  {
    var id := Shown(m, "id", "None");
    SuggestedProjectRoundTrip(CheckStatusStep, id, "`");
    [Line(FormatProject(m, DetailedLevel))] + CreatedSteps(id)
  }

  // ---------------------------------------------------------------- get

  const ProcessingAdvice: string := "Check again in 30-60 seconds."
  const CompletedAdvice: string := "Ready to export! Use `submagic_export_project` to download."
  const UnknownError: string := "Unknown error"
  const Processing: string := "processing"
  const Completed: string := "completed"

  const FailedStatus: string := "failed"
  const ErrorPrefix: string := "Error: "

  const ProcessingBanner: string := "**⏳ Status: Processing**"
  const CompletedBanner: string := "**✅ Status: Completed**"
  const FailedBanner: string := "**❌ Status: Failed**"

  /** The failed-status hint with the error text it shows. */
  function FailedHint(error: string): Doc {
    [Line(FailedBanner), Line(ErrorPrefix + error)]
  }

  /**
   The hint after the project details: for the statuses "processing",
   "completed" and "failed" only; every other status, "queued" included,
   and a missing status get none.
   */
  function StatusHint(m: Object): (h: Doc)
    ensures h != [] <==> Get(m, StatusKey, Str(Unknown)) in {Str(Processing), Str(Completed), Str(FailedStatus)}
    ensures Get(m, StatusKey, Str(Unknown)) == Str(FailedStatus) ==> h == FailedHint(Shown(m, "error", UnknownError))
  {
    var status := Get(m, StatusKey, Str(Unknown));
    if status == Str(Processing) then [Line(ProcessingBanner), Line(ProcessingAdvice)]
    else if status == Str(Completed) then [Line(CompletedBanner), Line(CompletedAdvice)]
    else if status == Str(FailedStatus) then FailedHint(Shown(m, "error", UnknownError))
    else []
  }

  /** A queued project gets no hint. */
  lemma QueuedHasNoHint(m: Object)
    requires StatusKey in m && m[StatusKey] == Str("queued")
    ensures StatusHint(m) == []
  {
  }

  /** The status a hint's banner announces. */
  function BannerStatus(it: Item): Option<string> {
    if it == Line(ProcessingBanner) then Some(Processing)
    else if it == Line(CompletedBanner) then Some(Completed)
    else if it == Line(FailedBanner) then Some(FailedStatus)
    else None
  }

  /**
   The project report: the project in detail, then a banner exactly for the
   statuses "processing", "completed" and "failed", announcing that status;
   a failed project's banner is followed by the error shown.
   */
  function ProjectDoc(m: Object): (d: Doc)
    ensures |d| >= 1 && d[0] == Line(FormatProject(m, DetailedLevel))
    ensures |d| > 1 <==> Get(m, StatusKey, Str(Unknown)) in {Str(Processing), Str(Completed), Str(FailedStatus)}
    ensures |d| > 1 ==> BannerStatus(d[1]).Some? && Get(m, StatusKey, Str(Unknown)) == Str(BannerStatus(d[1]).value)
    ensures Get(m, StatusKey, Str(Unknown)) == Str(FailedStatus) ==>
              |d| == 3 && d[2] == Line(ErrorPrefix + Shown(m, "error", UnknownError))
  {
    [Line(FormatProject(m, DetailedLevel))] + StatusHint(m)
  }

  // ---------------------------------------------------------------- update

  const NaturalDescription: string := "Natural (0.6+ sec) - Gentle pacing"
  const FastDescription: string := "Fast (0.2-0.6 sec) - Moderate compression"
  const ExtraFastDescription: string := "Extra-Fast (0.1-0.2 sec) - Maximum compression"
  const Natural: string := "natural"
  const Fast: string := "fast"
  const ExtraFast: string := "extra-fast"
  const SilenceRemovalName: string := "Silence Removal"
  const BadTakesRemovalName: string := "Bad Takes Removal"
  const BadTakesEnabled: string := "Enabled (AI processing filler words - takes 1-2 min)"
  const CustomBrollsName: string := "Custom B-rolls"
  const ClipsInserted: string := " clip(s) inserted"
  const UpdatedHeading: string := "Project Updated Successfully"
  const UpdatesAppliedHeading: string := "Updates Applied:"
  const WaitStep: string := "1. **Wait for processing:** If you enabled remove_bad_takes, wait 1-2 minutes"
  const CheckStep: string := "2. **Check status:** Use `"
  const CheckStepEnd: string := "` to verify completion"
  const ReexportStep: string := "3. **Re-export:** Run `submagic_export_project(\""
  const ReexportStepEnd: string := "\")` to apply changes"
  const DownloadStep: string := "4. **Download:** Get the new video with your updates!"
  const ReexportWarning: string := "**Important:** Changes won't appear in the video until you re-export!"

  /**
   `pace_desc.get(pace, pace)`: each of the three accepted paces has its
   description; any other text is shown as it is.
   */
  function PaceDescription(pace: string): (r: string)
    ensures pace == Natural ==> r == NaturalDescription
    ensures pace == Fast ==> r == FastDescription
    ensures pace == ExtraFast ==> r == ExtraFastDescription
    ensures !Pace(pace) ==> r == pace
  {
    if pace == Natural then NaturalDescription
    else if pace == Fast then FastDescription
    else if pace == ExtraFast then ExtraFastDescription
    else pace
  }

  /** Each pace has its own description. */
  lemma PaceDescriptionsDistinct(a: string, b: string)
    requires Pace(a) && Pace(b) && a != b
    ensures PaceDescription(a) != PaceDescription(b)
  {
  }

  /** The line of one custom B-roll clip, numbered from 1. */
  function ClipLine(n: nat, item: Object): Item {
    Entry("Clip " + IntToString(n) + ": " + Shown(item, "startTime", "None") + "s to " + Shown(item, "endTime", "None") + "s")
  }

  /** The clip lines, one per item in order. */
  function ClipLines(items: seq<Object>): (d: Doc)
    ensures |d| == |items|
    ensures forall k | 0 <= k < |items| :: d[k] == ClipLine(k + 1, items[k]) && d[k].Entry?
  {
    seq(|items|, k requires 0 <= k < |items| => ClipLine(k + 1, items[k]))
  }

  /** The pace line: when the pace is a non-empty string. */
  function PaceLine(i: Inputs.UpdateProjectInput): Doc {
    if Present(i.removeSilencePace) then [Field(SilenceRemovalName, PaceDescription(i.removeSilencePace.value))] else []
  }

  /** The bad-takes line: whenever the flag was given. */
  function TakesLine(i: Inputs.UpdateProjectInput): Doc {
    if i.removeBadTakes.Some? then
      [Field(BadTakesRemovalName, if i.removeBadTakes.value then BadTakesEnabled else "Disabled")]
    else []
  }

  /** The B-roll lines: a count, then one line per clip, when the list is non-empty. */
  function BrollLines(i: Inputs.UpdateProjectInput): Doc {
    if i.items.Some? && |i.items.value| > 0 then
      [Field(CustomBrollsName, IntToString(|i.items.value|) + ClipsInserted)] + ClipLines(i.items.value)
    else []
  }

  /** The "Updates Applied" list. */
  function UpdatesApplied(i: Inputs.UpdateProjectInput): Doc {
    PaceLine(i) + TakesLine(i) + BrollLines(i)
  }

  /** `d` has a field of this name. */
  predicate HasField(d: Doc, name: string) {
    exists k | 0 <= k < |d| :: d[k].Field? && d[k].name == name
  }

  lemma HasFieldAppend(a: Doc, b: Doc, name: string)
    ensures HasField(a + b, name) <==> HasField(a, name) || HasField(b, name)
  {
    if HasField(a + b, name) {
      var k :| 0 <= k < |a + b| && (a + b)[k].Field? && (a + b)[k].name == name;
      if k >= |a| { assert b[k - |a|] == (a + b)[k]; }
    }
    if HasField(a, name) {
      var k :| 0 <= k < |a| && a[k].Field? && a[k].name == name;
      assert (a + b)[k] == a[k];
    }
    if HasField(b, name) {
      var k :| 0 <= k < |b| && b[k].Field? && b[k].name == name;
      assert (a + b)[k + |a|] == b[k];
    }
  }

  /**
   The confirmation lists exactly the fields the update body sent: the pace
   line when `removeSilencePace` was sent, the bad-takes line when
   `removeBadTakes` was sent, the B-roll count when `items` was sent.
   */
  lemma UpdatesMatchBody(i: Inputs.UpdateProjectInput)
    requires UpdateBody(i).Success?
    ensures var (d, b) := (UpdatesApplied(i), UpdateBody(i).value);
      && (HasField(d, SilenceRemovalName) <==> KRemoveSilencePace in b)
      && (HasField(d, BadTakesRemovalName) <==> KRemoveBadTakes in b)
      && (HasField(d, CustomBrollsName) <==> KItems in b)
  {
    var p, t, r := PaceLine(i), TakesLine(i), BrollLines(i);
    HasFieldAppend(p + t, r, SilenceRemovalName);
    HasFieldAppend(p, t, SilenceRemovalName);
    HasFieldAppend(p + t, r, BadTakesRemovalName);
    HasFieldAppend(p, t, BadTakesRemovalName);
    HasFieldAppend(p + t, r, CustomBrollsName);
    HasFieldAppend(p, t, CustomBrollsName);
    if |r| > 0 {
      var clips := ClipLines(i.items.value);
      assert r == [r[0]] + clips;
      HasFieldAppend([r[0]], clips, SilenceRemovalName);
      HasFieldAppend([r[0]], clips, BadTakesRemovalName);
      assert !HasField(clips, SilenceRemovalName) && !HasField(clips, BadTakesRemovalName);
    }
    if |p| > 0 { assert p[0].name == SilenceRemovalName; }
    if |t| > 0 { assert t[0].name == BadTakesRemovalName; }
    if |r| > 0 { assert r[0].name == CustomBrollsName; }
  }

  const ProTipsHeading: string := "Pro Tips"
  const ExtraFastTip: string := "Use extra-fast silence removal for tutorials and talking heads"
  const BadTakesTip: string := "Enable remove_bad_takes for podcast and interview content"
  const BrollTip: string := "Custom B-rolls work great for covering transitions or adding product shots"
  const RepeatTip: string := "You can update and re-export multiple times to fine-tune your video"

  /** The closing tips of the update report. */
  const ProTips: Doc := [Heading(ProTipsHeading), Entry(ExtraFastTip), Entry(BadTakesTip), Entry(BrollTip), Entry(RepeatTip)]

  /** The next steps after an update, naming the project. */
  function UpdatedSteps(projectId: string): Doc {
    [ Heading(NextStepsHeading),
      Line(WaitStep),
      Line(CheckStep + GetCall(projectId) + CheckStepEnd),
      Line(ReexportStep + projectId + ReexportStepEnd),
      Line(DownloadStep),
      Line(ReexportWarning) ]
  }

  /**
   The update report: the project and its status ("updated" when the payload
   has none), the updates applied, next steps whose status call names the
   project, and the tips.
   */
  function UpdatedDoc(i: Inputs.UpdateProjectInput, m: Object): (d: Doc)
    ensures var n := |UpdatesApplied(i)|;
      && |d| == n + 15
      && d[..4] == [Heading(UpdatedHeading), Field(ProjectIdLabel, i.projectId),
                    Field(StatusLabel, Shown(m, StatusKey, "updated")), Heading(UpdatesAppliedHeading)]
      && d[4..n + 4] == UpdatesApplied(i)
      && d[n + 6].Line? && SuggestedProject(d[n + 6].text, CheckStep, CheckStepEnd) == Some(i.projectId)
      && d[n + 10..] == ProTips
  {
    SuggestedProjectRoundTrip(CheckStep, i.projectId, CheckStepEnd);
    [ Heading(UpdatedHeading),
      Field(ProjectIdLabel, i.projectId),
      Field(StatusLabel, Shown(m, StatusKey, "updated")),
      Heading(UpdatesAppliedHeading) ]
    + UpdatesApplied(i) + UpdatedSteps(i.projectId) + ProTips
  }

  // ---------------------------------------------------------------- export

  const ExportedHeading: string := "Export Started Successfully"
  const Exporting: string := "exporting"
  const ExportSettingsHeading: string := "Export Settings"
  const AsyncStep: string := "1. The export process is asynchronous and will take a few minutes"
  const MonitorStep: string := "2. Monitor progress with: `"
  const DownloadFieldsStep: string := "3. Once complete, the project will have `downloadUrl` and `directUrl` fields"
  const ExportTip: string := "**Tip:** Use `submagic_get_project` to check when the export is ready and get the download URL."

  const ProjectDefault: string := "Project default"

  /** `value or 'Project default'` for an optional integer setting. */
  function Setting(o: Option<int>): string {
    if o.Some? && o.value != 0 then IntToString(o.value) else ProjectDefault
  }

  /** Reads a displayed setting back: a number, or nothing for the default. */
  function ReadSetting(s: string): Option<int> {
    ParseInt(s)
  }

  /** For accepted export arguments, each displayed setting reads back as the setting given. */
  lemma SettingsShown(i: Inputs.ExportProjectInput)
    requires Inputs.ValidateExport(i).Success?
    ensures ReadSetting(Setting(i.fps)) == i.fps
    ensures ReadSetting(Setting(i.width)) == i.width
    ensures ReadSetting(Setting(i.height)) == i.height
  {
    assert ParseNat(ProjectDefault[1..]) == None by {
      assert ProjectDefault[1..][|ProjectDefault[1..]| - 1] == 't';
    }
    if i.fps.Some? { IntToStringRoundTrip(i.fps.value); }
    if i.width.Some? { IntToStringRoundTrip(i.width.value); }
    if i.height.Some? { IntToStringRoundTrip(i.height.value); }
  }

  /**
   The export report: the project and its status ("exporting" when the
   payload has none), the settings requested with "Project default" for
   those not given and "None" for no webhook, next steps whose status call
   names the project, and the closing tip.
   */
  function ExportedDoc(i: Inputs.ExportProjectInput, m: Object): (d: Doc)
    ensures |d| == 13
    ensures d[1..3] == [Field(ProjectIdLabel, i.projectId), Field(StatusLabel, Shown(m, StatusKey, Exporting))]
    ensures d[4..8] == [Field("FPS", Setting(i.fps)), Field("Width", Setting(i.width)), Field("Height", Setting(i.height)),
                        Field("Webhook", if Present(i.webhookUrl) then i.webhookUrl.value else "None")]
    ensures d[10].Line? && SuggestedProject(d[10].text, MonitorStep, "`") == Some(i.projectId)
    ensures d[12] == Line(ExportTip)
  {
    SuggestedProjectRoundTrip(MonitorStep, i.projectId, "`");
    [ Heading(ExportedHeading),
      Field(ProjectIdLabel, i.projectId),
      Field(StatusLabel, Shown(m, StatusKey, Exporting)),
      Heading(ExportSettingsHeading),
      Field("FPS", Setting(i.fps)),
      Field("Width", Setting(i.width)),
      Field("Height", Setting(i.height)),
      Field("Webhook", if Present(i.webhookUrl) then i.webhookUrl.value else "None"),
      Heading(NextStepsHeading),
      Line(AsyncStep),
      Line(MonitorStep + GetCall(i.projectId) + "`"),
      Line(DownloadFieldsStep),
      Line(ExportTip) ]
  }

  // ---------------------------------------------------------------- magic clips

  const TikTokHint: string := "Perfect for TikTok!"
  const ReelsHint: string := "Optimized for Instagram Reels & YouTube Shorts!"
  const ExtendedShortsHint: string := "Great for extended YouTube Shorts!"
  const LongFormHint: string := "Ideal for longer social media content!"
  const ClipsHeading: string := "Magic Clips Generation Started"
  const ConfigurationHeading: string := "Configuration"
  const ClipLengthName: string := "Clip Length"
  const CustomTheme: string := "Custom branded theme"
  const DefaultTemplate: string := "Default template"
  const Configured: string := "Configured"
  const PlatformFitName: string := "Platform Fit"
  const WaitForClipsStep: string := "1. Wait 5-15 minutes for AI analysis and clip generation"
  const CheckClipsStep: string := "2. Check status with: `"
  const ClipIdsStep: string := "3. Once complete, the response will include individual clip IDs with download URLs"
  const ClipLengthStep: string := "4. Each clip will be "
  const SecondsLong: string := " seconds long"
  const WhatsHappeningHeading: string := "What's Happening Now"
  const AnalysisIntro: string := "The AI is analyzing your YouTube video to:"
  const MomentsGoal: string := "Identify the most engaging moments"
  const CutPointsGoal: string := "Find natural cut points for viral clips"
  const CaptionsGoal: string := "Apply captions and styling"
  const AlgorithmsGoal: string := "Optimize for social media algorithms"
  const ClipsNote: string := "**Note:** Clips are selected for maximum viral potential based on content analysis!"

  /** The closing section of the magic-clips report. */
  const WhatsHappening: Doc := [
    Heading(WhatsHappeningHeading), Line(AnalysisIntro),
    Entry(MomentsGoal), Entry(CutPointsGoal), Entry(CaptionsGoal), Entry(AlgorithmsGoal),
    Line(ClipsNote)]

  const PlatformHints: seq<string> := [
    TikTokHint,
    ReelsHint,
    ExtendedShortsHint,
    LongFormHint]

  /** The upper bounds of the first three bands of maximum clip length, in seconds. */
  const BandCeilings: seq<int> := [30, 60, 90]

  /** The band a maximum clip length falls in: the first whose ceiling it does not exceed, else the last. */
  function Band(n: int): (b: nat)
    ensures b < 4
    ensures b < 3 ==> n <= BandCeilings[b]
    ensures b > 0 ==> n > BandCeilings[b - 1]
  {
    if n <= 30 then 0 else if n <= 60 then 1 else if n <= 90 then 2 else 3
  }

  /** The platform hint for a maximum clip length, as the tool's `if`/`elif` chain picks it: its band's hint. */
  function PlatformFit(maxClipLength: int): (h: string)
    ensures h == PlatformHints[Band(maxClipLength)]
  {
    if maxClipLength <= 30 then TikTokHint
    else if maxClipLength <= 60 then ReelsHint
    else if maxClipLength <= 90 then ExtendedShortsHint
    else LongFormHint
  }

  /** The chain picks the hint of the length's band; the bands are ordered, and the hint tells the band. */
  lemma PlatformFitByBand(a: int, b: int)
    ensures PlatformFit(a) == PlatformHints[Band(a)]
    ensures a <= b ==> Band(a) <= Band(b)
    ensures PlatformFit(a) == PlatformFit(b) <==> Band(a) == Band(b)
  {
  }

  /** Every band is reachable with accepted arguments. */
  lemma EveryBandReachable(b: nat)
    requires b < 4
    ensures exists n | 15 <= n <= 300 :: Band(n) == b
  {
    var n := [15, 45, 75, 300][b];
    assert Band(n) == b;
  }

  /**
   The magic-clips report. The project shown is the payload's `id`, else its
   `projectId`, else "Unknown", and the status call names that same project;
   the platform hint is that of the maximum length's band.
   */
  function ClipsDoc(i: Inputs.CreateMagicClipsInput, m: Object): (d: Doc)
    ensures |d| == 23 && d[1].Field? && d[1].name == ProjectIdLabel
    ensures "id" in m ==> d[1].value == Show(m["id"])
    ensures "id" !in m && "projectId" in m ==> d[1].value == Show(m["projectId"])
    ensures "id" !in m && "projectId" !in m ==> d[1].value == "Unknown"
    ensures d[13].Line? && SuggestedProject(d[13].text, CheckClipsStep, "`") == Some(d[1].value)
    ensures d[9] == Field(PlatformFitName, PlatformHints[Band(i.maxClipLength)])
    ensures d[16..] == WhatsHappening
  {
    var id := Get(m, "id", Str(Shown(m, "projectId", "Unknown")));
    SuggestedProjectRoundTrip(CheckClipsStep, Show(id), "`");
    [ Heading(ClipsHeading),
      Field(ProjectIdLabel, Show(id)),
      Field("Title", i.title),
      Field("Source", i.youtubeUrl),
      Heading(ConfigurationHeading),
      Field(ClipLengthName, IntToString(i.minClipLength) + "s to " + IntToString(i.maxClipLength) + "s"),
      Field("Language", i.language),
      Field("Theme", if Present(i.userThemeId) then CustomTheme else DefaultTemplate),
      Field("Webhook", if Present(i.webhookUrl) then Configured else "None"),
      Field(PlatformFitName, PlatformFit(i.maxClipLength)),
      Field(StatusLabel, Shown(m, StatusKey, Processing)),
      Heading(NextStepsHeading),
      Line(WaitForClipsStep),
      Line(CheckClipsStep + GetCall(Show(id)) + "`"),
      Line(ClipIdsStep),
      Line(ClipLengthStep + IntToString(i.minClipLength) + "-" + IntToString(i.maxClipLength) + SecondsLong) ]
    + WhatsHappening
  }

  // ---------------------------------------------------------------- finishing

  const LanguagesKey: string := "languages"
  const TemplatesKey: string := "templates"
  const LanguagesNotIterable: string := "the languages entry is neither a list nor a string"
  const TemplateNotAString: string := "a template name is not a string"
  const TemplatesNotIterable: string := "the templates entry is neither a list nor a string"
  const NotADict: string := "the result is not a dict"
  const MessageMissing: string := "KeyError: 'message'"
  const ValidationErrorPrefix: string := "Input validation error: "
  const ValidationErrorAdvice: string := "\n\nPlease check your parameters and try again."
  const ClipRangeOpen: string := "Invalid clip lengths: minClipLength ("
  const ClipRangeMiddle: string := ") must be <= maxClipLength ("

  /** What iterating over a `str` yields: its characters, each a string of its own. */
  function Chars(s: string): (cs: seq<string>)
    ensures |cs| == |s| && forall k | 0 <= k < |s| :: cs[k] == [s[k]]
  {
    seq(|s|, k requires 0 <= k < |s| => [s[k]])
  }

  /** A list entry the list tools can iterate: a list, or a string, whose characters are iterated. */
  predicate Iterable(v: Value) {
    v.Arr? || v.Str?
  }

  /**
   The report of each tool for a payload object without an `error` key. The
   language and template lists iterate their entry: a list element by
   element, a string character by character; any other entry raises, and so
   does a template that is not a string. Every other tool reports.
   */
  function Finish(tool: Tool, m: Object): (r: Reply)
    ensures r.Report? || r.Crash?
    ensures tool.ListLanguages? ==> (r.Crash? <==> !Iterable(Get(m, LanguagesKey, Arr([]))))
    ensures tool.ListTemplates? ==>
              var e := Get(m, TemplatesKey, Arr([]));
              (r.Crash? <==> !Iterable(e) || (e.Arr? && exists k | 0 <= k < |e.items| :: !e.items[k].Str?))
    ensures tool.ListLanguages? && Get(m, LanguagesKey, Arr([])).Str? ==>
              r.Report? && |r.doc| == |Get(m, LanguagesKey, Arr([])).s| + 3
    ensures r.Crash? ==> tool.ListLanguages? || tool.ListTemplates?
  {
    match tool
    case ListLanguages =>
      (match Get(m, LanguagesKey, Arr([]))
       case Arr(langs) => Report(LanguagesDoc(langs))
       case Str(text) => Report(LanguagesDoc(Strs(Chars(text))))
       case _ => Crash(LanguagesNotIterable))
    case ListTemplates =>
      (match Get(m, TemplatesKey, Arr([]))
       case Arr(items) =>
         (match StrsOf(items)
          case Some(ts) => Report(TemplatesDoc(ts))
          case None => Crash(TemplateNotAString))
       case Str(text) => Report(TemplatesDoc(Chars(text)))
       case _ => Crash(TemplatesNotIterable))
    case CreateProject(_) => Report(CreatedDoc(m))
    case GetProject(_) => Report(ProjectDoc(m))
    case UpdateProject(i) => Report(UpdatedDoc(i, m))
    case ExportProject(i) => Report(ExportedDoc(i, m))
    case CreateMagicClips(i) => Report(ClipsDoc(i, m))
  }

  /**
   What every tool does with the dispatcher's result: `"error" in result`
   selects the error branch, which reads `result['message']`; otherwise the
   tool's finish. A result that is not a dict raises either way.
   */
  function Answer(tool: Tool, result: Value): (r: Reply)
    ensures !result.Obj? ==> r.Crash?
    ensures result.Obj? && "error" in result.fields ==>
              (r.Crash? <==> "message" !in result.fields)
              && (r.ErrorReply? <==> "message" in result.fields)
    ensures r.ErrorReply? ==> result.Obj? && "error" in result.fields && "message" in result.fields
    ensures r.ErrorReply? ==> r.error == result.fields["error"] && r.message == result.fields["message"]
    ensures result.Obj? && "error" !in result.fields ==> r == Finish(tool, result.fields)
  {
    match result
    case Obj(m) =>
      if "error" in m then
        if "message" in m then ErrorReply(m["error"], m["message"], Get(m, "suggestion", Str("")))
        else Crash(MessageMissing)
      else Finish(tool, m)
    case _ => Crash(NotADict)
  }

  /**
   A tool call end to end, given the environment's API key and what the
   HTTP exchange produced: the plan's answer, or the request's outcome
   classified by the dispatcher and answered. A missing key raises.
   */
  function Run(tool: Tool, env: Option<string>, t: Transport): (r: Reply)
    ensures Plan(tool).Respond? ==> r == Plan(tool).reply
    ensures Plan(tool).Send? && ApiKey(env).Failure? ==> r == Crash(ApiKeyMissing)
    ensures r.InputRejected? || r.NoUpdates? || r.InvalidClipRange? ==> Plan(tool).Respond?
    ensures r.Report? ==>
              || Plan(tool).Respond?
              || (ApiKey(env).Success? && Classify(t).Payload? && Classify(t).v.Obj? && "error" !in Classify(t).v.fields)
  {
    match Plan(tool)
    case Respond(reply) => reply
    case Send(_) =>
      if ApiKey(env).Failure? then Crash(ApiKey(env).error)
      else Answer(tool, AsDict(Classify(t)))
  }

  /**
   Every failure the dispatcher reports reaches the caller as an error
   reply with its title, its message and its suggestion (empty when it has
   none); a payload dict without an `error` key reaches the tool's finish.
   */
  lemma FailuresReachTheCaller(tool: Tool, env: Option<string>, t: Transport)
    requires Plan(tool).Send? && ApiKey(env).Success?
    ensures Classify(t).Failed? ==>
              var rec := Classify(t).record;
              Run(tool, env, t) == ErrorReply(Str(Title(rec.kind)), DetailValue(rec.message),
                                               Str(if rec.suggestion.Some? then rec.suggestion.value else ""))
    ensures Classify(t).Payload? && Classify(t).v.Obj? && "error" !in Classify(t).v.fields ==>
              Run(tool, env, t) == Finish(tool, Classify(t).v.fields)
  {
  }

  const NoUpdatesText: string :=
    "No updates provided. Please specify at least one field to update:\n- remove_silence_pace\n- remove_bad_takes\n- custom_broll_items"

  /**
   The text of the error branch: the title on the first line, then the
   message in full, and the suggestion at the end.
   */
  function ErrorText(error: Value, message: Value, suggestion: Value): (text: string)
    ensures var head := ErrorPrefix + Show(error) + "\n";
      && |text| == |head| + |Show(message)| + 2 + |Show(suggestion)|
      && text[..|head|] == head
      && text[|head|..|head| + |Show(message)|] == Show(message)
      && text[|text| - |Show(suggestion)|..] == Show(suggestion)
  {
    var head := ErrorPrefix + Show(error) + "\n";
    var text := head + Show(message) + "\n\n" + Show(suggestion);
    assert text == head + (Show(message) + "\n\n") + Show(suggestion);
    text
  }

  /** The text of a clip range rejected by the tool. */
  function ClipRangeText(lo: int, hi: int): string {
    ClipRangeOpen + IntToString(lo) + ClipRangeMiddle + IntToString(hi) + ")"
  }

  /** The text a reply puts in front of the user; only reports pass through `truncate_text`. */
  function Output(r: Reply): (text: string)
    ensures r.Report? ==> |text| <= CharacterLimit
    ensures r.Report? && |Render(r.doc)| <= CharacterLimit ==> text == Render(r.doc)
  {
    match r
    case InputRejected(errors) => ValidationErrorPrefix + FieldList(errors) + ValidationErrorAdvice
    case NoUpdates => NoUpdatesText
    case InvalidClipRange(lo, hi) => ClipRangeText(lo, hi)
    case ErrorReply(error, message, suggestion) => ErrorText(error, message, suggestion)
    case Report(doc) => Limit(Render(doc))
    case Crash(reason) => reason
  }

  /** The names of the rejected fields, in the order they were checked. */
  function FieldList(errors: Inputs.FieldErrors): string {
    if |errors| == 0 then ""
    else if |errors| == 1 then Inputs.FieldName(errors[0])
    else Inputs.FieldName(errors[0]) + ", " + FieldList(errors[1..])
  }

  /**
   The error branch does not truncate: whichever tool sent the request, an
   error whose message is longer than the limit is shown in full.
   */
  lemma ErrorRepliesAreNotLimited(tool: Tool, env: Option<string>, t: Transport)
    requires Plan(tool).Send? && ApiKey(env).Success? && Classify(t).Failed?
    requires |Show(DetailValue(Classify(t).record.message))| > CharacterLimit
    ensures |Output(Run(tool, env, t))| > CharacterLimit
  {
    FailuresReachTheCaller(tool, env, t);
  }

  /**
   An API error reaches the caller of any tool with its status in the title
   and the documentation suggestion. For a JSON object body the message is
   the body's `message`, else its `error`, else the whole body; for any
   other non-empty body it is the raw text.
   */
  lemma ApiErrorReply(tool: Tool, env: Option<string>, t: Transport)
    requires Plan(tool).Send? && ApiKey(env).Success?
    requires t.Response? && !IsSuccess(t.status) && t.status != 429 && t.status != 401
    ensures var r := Run(tool, env, t);
      && r.ErrorReply?
      && r.error == Str(Title(ApiError(t.status)))
      && r.suggestion == Str(DocsSuggestion)
      && (t.decoded.Some? && t.decoded.value.Obj? ==>
            var m := t.decoded.value.fields;
            r.message == (if "message" in m then m["message"] else if "error" in m then m["error"] else Str(Show(t.decoded.value))))
      && (!(t.decoded.Some? && t.decoded.value.Obj?) && |t.text| > 0 ==> r.message == Str(t.text))
  {
    FailuresReachTheCaller(tool, env, t);
  }

  const MessageJsonOpen: string := "{\"message\": \""
  const MessageJsonClose: string := "\"}"

  /** Such an error exists: a status 500 whose JSON body carries a long `message`. */
  lemma LongErrorMessage()
    ensures var long := seq(CharacterLimit + 1, _ => 'x');
      var t := Response(500, MessageJsonOpen + long + MessageJsonClose, Some(Obj(map["message" := Str(long)])));
      Classify(t).Failed? && |Show(DetailValue(Classify(t).record.message))| > CharacterLimit
  {
    var long := seq(CharacterLimit + 1, _ => 'x');
    var t := Response(500, MessageJsonOpen + long + MessageJsonClose, Some(Obj(map["message" := Str(long)])));
    assert ErrorDetail(500, t.text, t.decoded) == BodyField(Str(long));
  }

  // ---------------------------------------------------------------- the failed-status hint

  const DownloadFailed: string := "download failed"
  const FailedProjectJson: string := "{\"status\": \"failed\", \"error\": \"download failed\"}"

  /**
   As written, the failed-status hint can only say "Unknown error": a
   project payload reaches the hint only when it has no `error` key.
   */
  lemma FailedHintAsWritten(id: string, env: Option<string>, t: Transport)
    requires ApiKey(env).Success?
    ensures Run(GetProject(id), env, t).Report? ==>
              Classify(t).Payload? && Classify(t).v.Obj? && "error" !in Classify(t).v.fields
    ensures Run(GetProject(id), env, t).Report? && Get(Classify(t).v.fields, StatusKey, Str(Unknown)) == Str(FailedStatus) ==>
              Run(GetProject(id), env, t).doc[1..] == FailedHint(UnknownError)
  {
    CallersSeeEveryFailure(Classify(t));
  }

  /** A failed project whose payload gives its reason is not reported at all: reading `message` raises. */
  lemma FailedProjectCrashesAsWritten()
    ensures var t := Response(200, FailedProjectJson, Some(Obj(map[StatusKey := Str(FailedStatus), "error" := Str(DownloadFailed)])));
      Run(GetProject("p"), Some("key"), t).Crash?
  {
  }

  /**
   The answer as evidently intended: the dispatcher's own failures take the
   error branch, and every payload dict, with or without an `error` key of
   its own, reaches the tool's finish.
   */
  function AnswerIntended(tool: Tool, d: Dispatched): (r: Reply)
    ensures d.Payload? && d.v.Obj? ==> r == Finish(tool, d.v.fields)
    ensures d.Failed? ==> r.ErrorReply? && r.error == Str(Title(d.record.kind))
  {
    match d
    case Failed(ErrorRecord(kind, message, suggestion)) =>
      ErrorReply(Str(Title(kind)), DetailValue(message), Str(if suggestion.Some? then suggestion.value else ""))
    case Payload(Obj(m)) => Finish(tool, m)
    case Payload(_) => Crash(NotADict)
  }

  /**
   A tool call end to end as evidently intended: the create tool enforces
   the exclusivity rule, only the dispatcher's own failures take the error
   branch, and every payload dict reaches the tool's finish.
   */
  function RunIntended(tool: Tool, env: Option<string>, t: Transport): (r: Reply)
    ensures r.ErrorReply? ==> PlanIntended(tool).Send? && Classify(t).Failed?
    ensures PlanIntended(tool).Send? && ApiKey(env).Success? && Classify(t).Payload? && Classify(t).v.Obj? ==>
              r == Finish(tool, Classify(t).v.fields)
    ensures tool.CreateProject? && Inputs.BothStyles(tool.createInput) ==> r.InputRejected?
  {
    match PlanIntended(tool)
    case Respond(reply) => reply
    case Send(_) =>
      if ApiKey(env).Failure? then Crash(ApiKey(env).error)
      else AnswerIntended(tool, Classify(t))
  }

  /**
   The corrections change nothing unless the create call gives both a
   template and a theme, or the payload is a dict with an `error` key.
   */
  lemma IntendedAgrees(tool: Tool, env: Option<string>, t: Transport)
    requires !(tool.CreateProject? && Inputs.BothStyles(tool.createInput))
    requires !(Classify(t).Payload? && Classify(t).v.Obj? && "error" in Classify(t).v.fields)
    ensures RunIntended(tool, env, t) == Run(tool, env, t)
  {
    var d := Classify(t);
    if Plan(tool).Send? && ApiKey(env).Success? {
      AnswersAgree(tool, d);
    }
  }

  lemma AnswersAgree(tool: Tool, d: Dispatched)
    requires !(d.Payload? && d.v.Obj? && "error" in d.v.fields)
    ensures AnswerIntended(tool, d) == Answer(tool, AsDict(d))
  {
    if d.Payload? && !d.v.Obj? {
      assert Answer(tool, d.v) == Crash(NotADict);
    }
  }

  /** With the intended answer, a failed project's hint shows the reason its payload gives. */
  lemma FailedHintIntended(id: string, env: Option<string>, t: Transport)
    requires ApiKey(env).Success?
    requires Classify(t).Payload? && Classify(t).v.Obj?
    requires var m := Classify(t).v.fields; StatusKey in m && m[StatusKey] == Str(FailedStatus) && "error" in m
    ensures var m := Classify(t).v.fields;
      RunIntended(GetProject(id), env, t) == Report(ProjectDoc(m))
      && ProjectDoc(m)[1..] == FailedHint(Show(m["error"]))
  {
  }
}
