/**
 The five Pydantic input models and their validation. Pydantic reports every
 failing field, in declaration order, so a rejection is the list of the
 failing fields' names. Fields that the tool functions always pass a value
 for are plain types; the tools' `Optional` parameters are `Option`s, and a
 constraint on an optional field holds vacuously for `None`.
 */
module Inputs {
  import opened Wrappers
  import opened Json
  import opened Patterns

  /** The constrained fields of the five models. */
  datatype Field =
    | Title | Language | TemplateName | UserThemeId | Dictionary
    | MagicBrollsPercentage | RemoveSilencePace
    | Fps | Width | Height | MinClipLength | MaxClipLength

  /** The field's name as Pydantic reports it. */
  function FieldName(f: Field): string {
    match f
    case Title => "title"
    case Language => "language"
    case TemplateName => "template_name"
    case UserThemeId => "user_theme_id"
    case Dictionary => "dictionary"
    case MagicBrollsPercentage => "magic_brolls_percentage"
    case RemoveSilencePace => "remove_silence_pace"
    case Fps => "fps"
    case Width => "width"
    case Height => "height"
    case MinClipLength => "min_clip_length"
    case MaxClipLength => "max_clip_length"
  }

  /** The fields that failed validation, in declaration order. */
  type FieldErrors = seq<Field>

  /** A field's contribution to the error list. */
  function Check(ok: bool, field: Field): FieldErrors {
    if ok then [] else [field]
  }

  /** A model instance when no field failed. */
  function Outcome<T>(value: T, errors: FieldErrors): Result<T, FieldErrors> {
    if |errors| == 0 then Success(value) else Failure(errors)
  }

  /** `min_length=1, max_length=100` on a title. */
  predicate TitleOk(t: string) { 1 <= |t| <= 100 }

  /** `ge=lo, le=hi` on an optional integer field. */
  predicate InRange(o: Option<int>, lo: int, hi: int) {
    o.None? || lo <= o.value <= hi
  }

  // ---------------------------------------------------------------- create

  datatype CreateProjectInput = CreateProjectInput(
    title: string,
    language: string,
    videoUrl: string,
    templateName: Option<string>,
    userThemeId: Option<string>,
    webhookUrl: Option<string>,
    dictionary: Option<seq<string>>,
    magicZooms: bool,
    magicBrolls: bool,
    magicBrollsPercentage: int,
    removeSilencePace: string,
    removeBadTakes: bool)

  /** The field constraints of the create model, one per constrained field. */
  predicate CreateFieldsOk(i: CreateProjectInput) {
    && TitleOk(i.title)
    && LanguageCode(i.language)
    && (i.dictionary.Some? ==> |i.dictionary.value| <= 100)
    && 0 <= i.magicBrollsPercentage <= 100
    && Pace(i.removeSilencePace)
  }

  /** The rule the exclusivity validator's docstring states: a template and a theme are not both given. */
  predicate BothStyles(i: CreateProjectInput) {
    Present(i.templateName) && Present(i.userThemeId)
  }

  /**
   Pydantic v2's `info.data` when the field validator on `field` runs: the
   fields declared before it that passed their own constraints.
   */
  function CreateInfoData(i: CreateProjectInput, field: Field): Object
    requires field == TemplateName || field == UserThemeId
  {
    var earlier :=
      (if TitleOk(i.title) then map["title" := Str(i.title)] else map[])
      + (if LanguageCode(i.language) then map["language" := Str(i.language)] else map[])
      + map["video_url" := Str(i.videoUrl)];
    if field == TemplateName then earlier
    else earlier["template_name" := OptStr(i.templateName)]
  }

  /** The exclusivity validator's condition, evaluated against `info.data`. */
  predicate ExclusivityFires(data: Object) {
    && Truthy(Get(data, "template_name", Null))
    && Truthy(Get(data, "user_theme_id", Null))
  }

  /**
   The errors as the code reports them: the exclusivity validator runs for
   `template_name` and for `user_theme_id`, each time against the fields
   validated before that field.
   */
  function CreateErrorsAsWritten(i: CreateProjectInput): FieldErrors {
    Check(TitleOk(i.title), Title)
    + Check(LanguageCode(i.language), Language)
    + Check(!ExclusivityFires(CreateInfoData(i, TemplateName)), TemplateName)
    + Check(!ExclusivityFires(CreateInfoData(i, UserThemeId)), UserThemeId)
    + Check(i.dictionary.None? || |i.dictionary.value| <= 100, Dictionary)
    + Check(0 <= i.magicBrollsPercentage <= 100, MagicBrollsPercentage)
    + Check(Pace(i.removeSilencePace), RemoveSilencePace)
  }

  /** `CreateProjectInput(...)` as the code validates it. */
  function ValidateCreateAsWritten(i: CreateProjectInput): (r: Result<CreateProjectInput, FieldErrors>)
    ensures r.Success? <==> CreateFieldsOk(i)
    ensures r.Success? ==> r.value == i
  {
    Outcome(i, CreateErrorsAsWritten(i))
  }

  /** Neither run of the exclusivity validator can see both fields, so it never rejects. */
  lemma ExclusivityNeverFires(i: CreateProjectInput)
    ensures !ExclusivityFires(CreateInfoData(i, TemplateName))
    ensures !ExclusivityFires(CreateInfoData(i, UserThemeId))
  {
  }

  /** Without both a template and a theme, the two rule sets reject the same fields. */
  lemma SameErrorsWithOneStyle(i: CreateProjectInput)
    requires !BothStyles(i)
    ensures CreateErrorsAsWritten(i) == CreateErrors(i)
  {
    ExclusivityNeverFires(i);
  }

  /** An input with both a template and a theme that the code accepts. */
  lemma BothStylesAcceptedAsWritten()
    ensures var i := CreateProjectInput("Demo", "en", "https://x/y.mp4", Some("Hormozi 2"), Some("theme-1"),
                                        None, None, true, true, 75, "natural", true);
      BothStyles(i) && ValidateCreateAsWritten(i).Success?
  {
    var i := CreateProjectInput("Demo", "en", "https://x/y.mp4", Some("Hormozi 2"), Some("theme-1"),
                                None, None, true, true, 75, "natural", true);
    assert LanguageCode(i.language) by { assert LowerIn(i.language, 0, 2); }
  }

  /** The errors with the exclusivity rule applied as its docstring states it. */
  function CreateErrors(i: CreateProjectInput): FieldErrors {
    Check(TitleOk(i.title), Title)
    + Check(LanguageCode(i.language), Language)
    + Check(!BothStyles(i), UserThemeId)
    + Check(i.dictionary.None? || |i.dictionary.value| <= 100, Dictionary)
    + Check(0 <= i.magicBrollsPercentage <= 100, MagicBrollsPercentage)
    + Check(Pace(i.removeSilencePace), RemoveSilencePace)
  }

  /**
   `CreateProjectInput(...)` with the template/theme exclusivity enforced.
   Each constrained field is named in the rejection exactly when it breaks
   its constraint.
   */
  function ValidateCreate(i: CreateProjectInput): (r: Result<CreateProjectInput, FieldErrors>)
    ensures r.Success? <==> CreateFieldsOk(i) && !BothStyles(i)
    ensures r.Success? ==> r.value == i
    ensures r.Failure? ==>
      && (Title in r.error <==> !(1 <= |i.title| <= 100))
      && (Language in r.error <==> !LanguageCode(i.language))
      && (UserThemeId in r.error <==> BothStyles(i))
      && (Dictionary in r.error <==> i.dictionary.Some? && |i.dictionary.value| > 100)
      && (MagicBrollsPercentage in r.error <==> !(0 <= i.magicBrollsPercentage <= 100))
      && (RemoveSilencePace in r.error <==> !Pace(i.removeSilencePace))
  {
    Outcome(i, CreateErrors(i))
  }

  /** What `submagic_create_project` passes when only the required arguments are given. */
  function ToolDefaults(title: string, language: string, videoUrl: string): CreateProjectInput {
    CreateProjectInput(title, language, videoUrl, None, None, None, None, true, true, 75, "medium", true)
  }

  /** The tool's own default pace `"medium"` fails the pace pattern, so such a call is always rejected. */
  lemma ToolDefaultsRejected(title: string, language: string, videoUrl: string)
    ensures ValidateCreate(ToolDefaults(title, language, videoUrl)).Failure?
    ensures RemoveSilencePace in ValidateCreate(ToolDefaults(title, language, videoUrl)).error
    ensures ValidateCreateAsWritten(ToolDefaults(title, language, videoUrl)).Failure?
  {
  }

  /** The defaults with the pace the docstring and the Pydantic model name, `"natural"`. */
  function IntendedDefaults(title: string, language: string, videoUrl: string): CreateProjectInput {
    CreateProjectInput(title, language, videoUrl, None, None, None, None, true, true, 75, "natural", true)
  }

  /** With the intended default, a call with valid required arguments is accepted. */
  lemma IntendedDefaultsAccepted(title: string, language: string, videoUrl: string)
    requires TitleOk(title) && LanguageCode(language)
    ensures ValidateCreate(IntendedDefaults(title, language, videoUrl)) == Success(IntendedDefaults(title, language, videoUrl))
  {
  }

  // ---------------------------------------------------------------- get

  datatype GetProjectInput = GetProjectInput(projectId: string)

  /** `GetProjectInput(...)`: the identifier is an unconstrained string, so every call is accepted. */
  function ValidateGet(projectId: string): (r: Result<GetProjectInput, FieldErrors>)
    ensures r.Success? && r.value.projectId == projectId
  {
    Success(GetProjectInput(projectId))
  }

  // ---------------------------------------------------------------- update

  datatype UpdateProjectInput = UpdateProjectInput(
    projectId: string,
    removeSilencePace: Option<string>,
    removeBadTakes: Option<bool>,
    items: Option<seq<Object>>)

  /** `UpdateProjectInput(...)`: only the pace is constrained; B-roll items are not checked. */
  function ValidateUpdate(i: UpdateProjectInput): (r: Result<UpdateProjectInput, FieldErrors>)
    ensures r.Success? <==> (i.removeSilencePace.Some? ==> Pace(i.removeSilencePace.value))
    ensures r.Success? ==> r.value == i
    ensures r.Failure? ==> r.error == [RemoveSilencePace]
  {
    Outcome(i, Check(i.removeSilencePace.None? || Pace(i.removeSilencePace.value), RemoveSilencePace))
  }

  // ---------------------------------------------------------------- export

  datatype ExportProjectInput = ExportProjectInput(
    projectId: string,
    fps: Option<int>,
    width: Option<int>,
    height: Option<int>,
    webhookUrl: Option<string>)

  /** `ExportProjectInput(...)`: fps in 1..60, width and height in 100..4000, when given. */
  function ValidateExport(i: ExportProjectInput): (r: Result<ExportProjectInput, FieldErrors>)
    ensures r.Success? <==>
      && (i.fps.Some? ==> 1 <= i.fps.value <= 60)
      && (i.width.Some? ==> 100 <= i.width.value <= 4000)
      && (i.height.Some? ==> 100 <= i.height.value <= 4000)
    ensures r.Success? ==> r.value == i
    ensures r.Failure? ==>
      && (Fps in r.error <==> !InRange(i.fps, 1, 60))
      && (Width in r.error <==> !InRange(i.width, 100, 4000))
      && (Height in r.error <==> !InRange(i.height, 100, 4000))
  {
    Outcome(i, Check(InRange(i.fps, 1, 60), Fps)
               + Check(InRange(i.width, 100, 4000), Width)
               + Check(InRange(i.height, 100, 4000), Height))
  }

  // ---------------------------------------------------------------- magic clips

  datatype CreateMagicClipsInput = CreateMagicClipsInput(
    title: string,
    youtubeUrl: string,
    language: string,
    webhookUrl: Option<string>,
    userThemeId: Option<string>,
    minClipLength: int,
    maxClipLength: int)

  /** `ge=15, le=300` on a clip length. */
  predicate ClipLengthOk(n: int) { 15 <= n <= 300 }

  /**
   `CreateMagicClipsInput(...)`: each length is checked on its own; the order
   of the two lengths is checked afterwards by the tool.
   */
  function ValidateClips(i: CreateMagicClipsInput): (r: Result<CreateMagicClipsInput, FieldErrors>)
    ensures r.Success? <==>
      && TitleOk(i.title)
      && ClipLanguageCode(i.language)
      && 15 <= i.minClipLength <= 300
      && 15 <= i.maxClipLength <= 300
    ensures r.Success? ==> r.value == i
    ensures r.Failure? ==>
      && (Title in r.error <==> !TitleOk(i.title))
      && (Language in r.error <==> !ClipLanguageCode(i.language))
      && (MinClipLength in r.error <==> !ClipLengthOk(i.minClipLength))
      && (MaxClipLength in r.error <==> !ClipLengthOk(i.maxClipLength))
  {
    Outcome(i, Check(TitleOk(i.title), Title)
               + Check(ClipLanguageCode(i.language), Language)
               + Check(ClipLengthOk(i.minClipLength), MinClipLength)
               + Check(ClipLengthOk(i.maxClipLength), MaxClipLength))
  }
}
