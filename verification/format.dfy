/**
 Tool replies as documents: which headings, fields and lines appear, with
 the values they show. Rendering to text is approximate markdown; the model
 is about which sections appear, and about the length bound on the text.
 */
module Format {
  import opened Json
  import opened Text

  datatype Item =
    | Heading(text: string)
    | Field(name: string, value: string)
    | Line(text: string)
    | Entry(text: string)               // a plain bullet
    | Code(text: string)                // a bullet holding a literal name
    | Pair(term: string, gloss: string) // a bullet with a bold term and its gloss

  type Doc = seq<Item>

  // Keys of the project payload
  const OutputUrlKey: string := "outputUrl"
  const VideoUrlKey: string := "videoUrl"
  const TemplateNameKey: string := "templateName"
  const MagicZoomsKey: string := "magicZooms"
  const MagicBrollsKey: string := "magicBrolls"
  const MagicBrollsPercentageKey: string := "magicBrollsPercentage"
  const UserThemeIdKey: string := "userThemeId"
  const RemoveSilencePaceKey: string := "removeSilencePace"
  const RemoveBadTakesKey: string := "removeBadTakes"
  const CreatedAtKey: string := "createdAt"
  const UpdatedAtKey: string := "updatedAt"
  const WebhookUrlKey: string := "webhookUrl"
  const LanguageKey: string := "language"
  const StatusKey: string := "status"

  // Labels, headings and placeholders of the renderings
  const Unknown: string := "unknown"
  const SummaryLevel: string := "summary"
  const DefaultName: string := "default"
  const VideoUrlLabel: string := "Video URL"
  const TemplateLabel: string := "Template"
  const MagicZoomsLabel: string := "Magic Zooms"
  const Enabled: string := "Enabled"
  const DownloadUrlLabel: string := "Download URL"
  const Disabled: string := "Disabled"
  const UserThemeIdLabel: string := "User Theme ID"
  const Untitled: string := "Untitled"
  const RemoveSilencePaceLabel: string := "Remove Silence Pace"
  const RemoveBadTakesLabel: string := "Remove Bad Takes"
  const MagicBrollsLabel: string := "Magic B-rolls"
  const LanguageLabel: string := "Language"
  const CreatedLabel: string := "Created"
  const UpdatedLabel: string := "Updated"
  const StylingHeading: string := "Styling"
  const SummaryTitle: string := "Project: "
  const ProjectIdLabel: string := "Project ID"
  const DetailedTitle: string := "Project Details: "
  const IntegrationHeading: string := "Integration"
  const FeaturesHeading: string := "Features Enabled"
  const BasicInformationHeading: string := "Basic Information"
  const BrollPercentageLabel: string := "B-roll Percentage"
  const AiFeaturesHeading: string := "AI Features"
  const WebhookUrlLabel: string := "Webhook URL"
  const StatusLabel: string := "Status"
  const OutputHeading: string := "Output"
  const MediumPace: string := "medium"

  function RenderItem(it: Item): string {
    match it
    case Heading(text) => "# " + text + "\n"
    case Field(name, value) => "- **" + name + ":** " + value + "\n"
    case Line(text) => text + "\n"
    case Entry(text) => "- " + text + "\n"
    case Code(text) => "- `" + text + "`\n"
    case Pair(term, gloss) => "- **" + term + "** - " + gloss + "\n"
  }

  function Render(d: Doc): string {
    if |d| == 0 then "" else RenderItem(d[0]) + Render(d[1..])
  }

  /** `'✓' if project.get(key) else '✗'`, and the like for other pairs of words. */
  function Flag(p: Object, key: string, yes: string, no: string): string {
    if key in p && Truthy(p[key]) then yes else no
  }

  /** The summary rendering of a project. */
  function SummaryDoc(p: Object): (d: Doc)
    ensures Field(StatusLabel, Shown(p, StatusKey, Unknown)) in d
    ensures Field(TemplateLabel, Shown(p, TemplateNameKey, DefaultName)) in d
    ensures Field(MagicZoomsLabel, "✓") in d <==> Truthy(Get(p, MagicZoomsKey, Null))
  {
    [ Heading(SummaryTitle + Shown(p, "title", Untitled)),
      Field("ID", Shown(p, "id", "None")),
      Field(StatusLabel, Shown(p, StatusKey, Unknown)),
      Field(LanguageLabel, Shown(p, LanguageKey, Unknown)),
      Field(TemplateLabel, Shown(p, TemplateNameKey, DefaultName)),
      Field(CreatedLabel, Shown(p, CreatedAtKey, Unknown)),
      Heading(FeaturesHeading),
      Field(MagicZoomsLabel, Flag(p, MagicZoomsKey, "✓", "✗")),
      Field(MagicBrollsLabel, Flag(p, MagicBrollsKey, "✓", "✗")),
      Field(RemoveBadTakesLabel, Flag(p, RemoveBadTakesKey, "✓", "✗")) ]
  }

  /** The fixed part of the detailed rendering. */
  function DetailedBase(p: Object): Doc {
    [ Heading(DetailedTitle + Shown(p, "title", Untitled)),
      Heading(BasicInformationHeading),
      Field(ProjectIdLabel, Shown(p, "id", "None")),
      Field(StatusLabel, Shown(p, StatusKey, Unknown)),
      Field(LanguageLabel, Shown(p, LanguageKey, Unknown)),
      Field(CreatedLabel, Shown(p, CreatedAtKey, Unknown)),
      Field(UpdatedLabel, Shown(p, UpdatedAtKey, Unknown)),
      Heading(StylingHeading),
      Field(TemplateLabel, Shown(p, TemplateNameKey, DefaultName)),
      Field(UserThemeIdLabel, Shown(p, UserThemeIdKey, "none")),
      Heading(AiFeaturesHeading),
      Field(MagicZoomsLabel, Flag(p, MagicZoomsKey, Enabled, Disabled)),
      Field(MagicBrollsLabel, Flag(p, MagicBrollsKey, Enabled, Disabled)),
      Field(BrollPercentageLabel, Shown(p, MagicBrollsPercentageKey, "N/A") + "%"),
      Field(RemoveSilencePaceLabel, Shown(p, RemoveSilencePaceKey, MediumPace)),
      Field(RemoveBadTakesLabel, Flag(p, RemoveBadTakesKey, Enabled, Disabled)),
      Heading(IntegrationHeading),
      Field(WebhookUrlLabel, Shown(p, WebhookUrlKey, "none")) ]
  }

  /** The detailed rendering: the fixed fields, then the optional video URL and output section. */
  function DetailedDoc(p: Object): (d: Doc)
    ensures |d| == 18 + (if Truthy(Get(p, VideoUrlKey, Null)) then 1 else 0) + (if Truthy(Get(p, OutputUrlKey, Null)) then 2 else 0)
    ensures d[..18] == DetailedBase(p)
    ensures Truthy(Get(p, OutputUrlKey, Null)) ==> d[|d| - 1] == Field(DownloadUrlLabel, Shown(p, OutputUrlKey, "None"))
  {
    var base := DetailedBase(p);
    var video := if Truthy(Get(p, VideoUrlKey, Null)) then [Field(VideoUrlLabel, Shown(p, VideoUrlKey, "None"))] else [];
    var output := if Truthy(Get(p, OutputUrlKey, Null)) then [Heading(OutputHeading), Field(DownloadUrlLabel, Shown(p, OutputUrlKey, "None"))] else [];
    base + video + output
  }

  /** Missing keys show their placeholders in the detailed rendering. */
  lemma DetailedFields(p: Object)
    ensures Field(StatusLabel, Shown(p, StatusKey, Unknown)) in DetailedDoc(p)
    ensures Field(UserThemeIdLabel, Shown(p, UserThemeIdKey, "none")) in DetailedDoc(p)
    ensures Field(RemoveSilencePaceLabel, Shown(p, RemoveSilencePaceKey, MediumPace)) in DetailedDoc(p)
  {
    var d := DetailedDoc(p);
    assert d[3] == DetailedBase(p)[3];
    assert d[9] == DetailedBase(p)[9];
    assert d[14] == DetailedBase(p)[14];
  }

  /**
   After the fixed part, the video URL appears only when it is truthy, and
   the output section only when the output URL is truthy.
   */
  lemma DetailedSections(p: Object)
    ensures Field(VideoUrlLabel, Shown(p, VideoUrlKey, "None")) in DetailedDoc(p)[18..] <==> Truthy(Get(p, VideoUrlKey, Null))
    ensures Heading(OutputHeading) in DetailedDoc(p)[18..] <==> Truthy(Get(p, OutputUrlKey, Null))
  {
    var d := DetailedDoc(p);
    var video := if Truthy(Get(p, VideoUrlKey, Null)) then [Field(VideoUrlLabel, Shown(p, VideoUrlKey, "None"))] else [];
    var output := if Truthy(Get(p, OutputUrlKey, Null)) then [Heading(OutputHeading), Field(DownloadUrlLabel, Shown(p, OutputUrlKey, "None"))] else [];
    assert d[18..] == video + output;
  }

  /**
   `format_project_response(project, detail_level)`: anything but
   `"summary"` selects the detailed rendering, which alone is truncated.
   */
  function FormatProject(p: Object, level: string): (r: string)
    ensures level != SummaryLevel ==> |r| <= CharacterLimit
    ensures level != SummaryLevel && |Render(DetailedDoc(p))| <= CharacterLimit ==> r == Render(DetailedDoc(p))
  {
    if level == SummaryLevel then Render(SummaryDoc(p)) else Limit(Render(DetailedDoc(p)))
  }
}
