/**
 The request bodies the tools send: each maps the validated snake_case
 fields to the service's camelCase keys and includes the optional keys only
 under the condition the tool tests. Each builder has a reader that recovers
 the fields from the body, and a round-trip lemma connecting the two.
 */
module Bodies {
  import opened Wrappers
  import opened Json
  import opened Inputs

  /** The top-level keys of the four request bodies. */
  datatype Key =
    | KTitle
    | KLanguage
    | KVideoUrl
    | KTemplateName
    | KUserThemeId
    | KWebhookUrl
    | KDictionary
    | KMagicZooms
    | KMagicBrolls
    | KMagicBrollsPercentage
    | KRemoveSilencePace
    | KRemoveBadTakes
    | KItems
    | KFps
    | KWidth
    | KHeight
    | KYoutubeUrl
    | KMinClipLength
    | KMaxClipLength

  /** The key's name on the wire: the explicit snake_case to camelCase table. */
  function Wire(k: Key): string {
    match k
    case KTitle => "title"
    case KLanguage => "language"
    case KVideoUrl => "videoUrl"
    case KTemplateName => "templateName"
    case KUserThemeId => "userThemeId"
    case KWebhookUrl => "webhookUrl"
    case KDictionary => "dictionary"
    case KMagicZooms => "magicZooms"
    case KMagicBrolls => "magicBrolls"
    case KMagicBrollsPercentage => "magicBrollsPercentage"
    case KRemoveSilencePace => "removeSilencePace"
    case KRemoveBadTakes => "removeBadTakes"
    case KItems => "items"
    case KFps => "fps"
    case KWidth => "width"
    case KHeight => "height"
    case KYoutubeUrl => "youtubeUrl"
    case KMinClipLength => "minClipLength"
    case KMaxClipLength => "maxClipLength"
  }

  /** Recognises a wire name. */
  function KeyOf(name: string): Option<Key> {
    if name == "title" then Some(KTitle) else
    if name == "language" then Some(KLanguage) else
    if name == "videoUrl" then Some(KVideoUrl) else
    if name == "templateName" then Some(KTemplateName) else
    if name == "userThemeId" then Some(KUserThemeId) else
    if name == "webhookUrl" then Some(KWebhookUrl) else
    if name == "dictionary" then Some(KDictionary) else
    if name == "magicZooms" then Some(KMagicZooms) else
    if name == "magicBrolls" then Some(KMagicBrolls) else
    if name == "magicBrollsPercentage" then Some(KMagicBrollsPercentage) else
    if name == "removeSilencePace" then Some(KRemoveSilencePace) else
    if name == "removeBadTakes" then Some(KRemoveBadTakes) else
    if name == "items" then Some(KItems) else
    if name == "fps" then Some(KFps) else
    if name == "width" then Some(KWidth) else
    if name == "height" then Some(KHeight) else
    if name == "youtubeUrl" then Some(KYoutubeUrl) else
    if name == "minClipLength" then Some(KMinClipLength) else
    if name == "maxClipLength" then Some(KMaxClipLength) else
    None
  }

  /** Every key's wire name is recognised as that key, so no two keys share a name. */
  lemma WireRoundTrip(k: Key)
    ensures KeyOf(Wire(k)) == Some(k)
  {
  }

  /** A request body. */
  type Body = map<Key, Value>

  /** The body as the JSON object sent on the wire. */
  function ToJson(b: Body): Object {
    map k | k in b :: Wire(k) := b[k]
  }

  // ---------------------------------------------------------------- create

  /** The keys every create body carries. */
  const CreateRequiredKeys: set<Key> :=
    {KTitle, KLanguage, KVideoUrl, KMagicZooms, KMagicBrolls,
     KMagicBrollsPercentage, KRemoveSilencePace, KRemoveBadTakes}

  /** The value the create body gives a key, from the argument of the same name. */
  function CreateValue(i: CreateProjectInput, k: Key): Value {
    match k
    case KTitle => Str(i.title)
    case KLanguage => Str(i.language)
    case KVideoUrl => Str(i.videoUrl)
    case KMagicZooms => Bool(i.magicZooms)
    case KMagicBrolls => Bool(i.magicBrolls)
    case KMagicBrollsPercentage => Int(i.magicBrollsPercentage)
    case KRemoveSilencePace => Str(i.removeSilencePace)
    case KRemoveBadTakes => Bool(i.removeBadTakes)
    case KTemplateName => OptStr(i.templateName)
    case KUserThemeId => OptStr(i.userThemeId)
    case KWebhookUrl => OptStr(i.webhookUrl)
    case KDictionary => if i.dictionary.Some? then Arr(Strs(i.dictionary.value)) else Null
    case _ => Null
  }

  /** The optional keys of the create body: each exactly when its argument is truthy. */
  function CreateOptionalKeys(i: CreateProjectInput): (ks: set<Key>)
    ensures ks <= {KTemplateName, KUserThemeId, KWebhookUrl, KDictionary}
    ensures KTemplateName in ks <==> Present(i.templateName)
    ensures KUserThemeId in ks <==> Present(i.userThemeId)
    ensures KWebhookUrl in ks <==> Present(i.webhookUrl)
    ensures KDictionary in ks <==> i.dictionary.Some? && |i.dictionary.value| > 0
  {
    (if Present(i.templateName) then {KTemplateName} else {})
    + (if Present(i.userThemeId) then {KUserThemeId} else {})
    + (if Present(i.webhookUrl) then {KWebhookUrl} else {})
    + (if i.dictionary.Some? && |i.dictionary.value| > 0 then {KDictionary} else {})
  }

  /**
   The create request body: the eight fixed keys, plus `templateName`,
   `userThemeId`, `webhookUrl` and `dictionary` exactly when the argument is
   truthy.
   */
  function CreateBody(i: CreateProjectInput): (b: Body)
    ensures b.Keys == CreateRequiredKeys + CreateOptionalKeys(i)
  {
    map k | k in CreateRequiredKeys + CreateOptionalKeys(i) :: CreateValue(i, k)
  }

  /** Each entry of the create body carries its argument's value. */
  lemma CreateBodyValues(i: CreateProjectInput)
    ensures var b := CreateBody(i);
      && b[KTitle] == Str(i.title) && b[KLanguage] == Str(i.language) && b[KVideoUrl] == Str(i.videoUrl)
      && b[KMagicZooms] == Bool(i.magicZooms) && b[KMagicBrolls] == Bool(i.magicBrolls)
      && b[KMagicBrollsPercentage] == Int(i.magicBrollsPercentage)
      && b[KRemoveSilencePace] == Str(i.removeSilencePace) && b[KRemoveBadTakes] == Bool(i.removeBadTakes)
      && (KTemplateName in b ==> b[KTemplateName] == Str(i.templateName.value))
      && (KUserThemeId in b ==> b[KUserThemeId] == Str(i.userThemeId.value))
      && (KWebhookUrl in b ==> b[KWebhookUrl] == Str(i.webhookUrl.value))
      && (KDictionary in b ==> b[KDictionary] == Arr(Strs(i.dictionary.value)))
  {
  }

  /** An optional string as `if x:` sees it: an empty string is as good as none. */
  function Truthful(o: Option<string>): Option<string> {
    if Present(o) then o else None
  }

  /** The input with every optional field the body builder leaves out when falsy set to `None`. */
  function NormalizeCreate(i: CreateProjectInput): CreateProjectInput {
    i.(templateName := Truthful(i.templateName),
       userThemeId := Truthful(i.userThemeId),
       webhookUrl := Truthful(i.webhookUrl),
       dictionary := if i.dictionary.Some? && |i.dictionary.value| > 0 then i.dictionary else None)
  }

  /** The string under `key`, if the body has one there. */
  function StrAt(b: Body, key: Key): Option<string> {
    if key in b && b[key].Str? then Some(b[key].s) else None
  }

  /** Reads a create body back into the input it was built from. */
  function ReadCreateBody(b: Body): Option<CreateProjectInput> {
    if && StrAt(b, KTitle).Some? && StrAt(b, KLanguage).Some? && StrAt(b, KVideoUrl).Some?
       && KMagicZooms in b && b[KMagicZooms].Bool?
       && KMagicBrolls in b && b[KMagicBrolls].Bool?
       && KMagicBrollsPercentage in b && b[KMagicBrollsPercentage].Int?
       && StrAt(b, KRemoveSilencePace).Some?
       && KRemoveBadTakes in b && b[KRemoveBadTakes].Bool?
    then
      var dictionary :=
        if KDictionary in b && b[KDictionary].Arr? then StrsOf(b[KDictionary].items) else None;
      Some(CreateProjectInput(
        StrAt(b, KTitle).value, StrAt(b, KLanguage).value, StrAt(b, KVideoUrl).value,
        StrAt(b, KTemplateName), StrAt(b, KUserThemeId), StrAt(b, KWebhookUrl), dictionary,
        b[KMagicZooms].b, b[KMagicBrolls].b, b[KMagicBrollsPercentage].i,
        StrAt(b, KRemoveSilencePace).value, b[KRemoveBadTakes].b))
    else None
  }

  /**
   The body loses nothing but the difference between an absent optional
   field and an empty one: reading it back gives the normalized input.
   */
  lemma CreateBodyRoundTrip(i: CreateProjectInput)
    ensures ReadCreateBody(CreateBody(i)) == Some(NormalizeCreate(i))
  {
    CreateBodyValues(i);
    if i.dictionary.Some? && |i.dictionary.value| > 0 {
      StrsRoundTrip(i.dictionary.value);
    }
  }

  // ---------------------------------------------------------------- update

  /** The keys each custom B-roll item is narrowed to. */
  const ItemKeys: set<string> := {"startTime", "endTime", "userMediaId"}

  /**
   `{"startTime": item["startTime"], "endTime": ..., "userMediaId": ...}`:
   the first missing key, in that order, raises `KeyError`.
   */
  function ProjectItem(item: Object): (r: Result<Object, string>)
    ensures r.Success? <==> ItemKeys <= item.Keys
    ensures r.Success? ==> r.value.Keys == ItemKeys && forall k | k in r.value :: r.value[k] == item[k]
    ensures r.Failure? ==> r.error in ItemKeys && r.error !in item
  {
    if "startTime" !in item then Failure("startTime")
    else if "endTime" !in item then Failure("endTime")
    else if "userMediaId" !in item then Failure("userMediaId")
    else Success(map["startTime" := item["startTime"], "endTime" := item["endTime"], "userMediaId" := item["userMediaId"]])
  }

  /** The list comprehension over the items: the first item that lacks a key stops it. */
  function ProjectItems(items: seq<Object>): (r: Result<seq<Value>, string>)
    ensures r.Success? <==> forall k | 0 <= k < |items| :: ItemKeys <= items[k].Keys
    ensures r.Success? ==> |r.value| == |items|
    ensures r.Success? ==> forall k | 0 <= k < |items| ::
              r.value[k].Obj? && r.value[k].fields.Keys == ItemKeys
              && forall key | key in ItemKeys :: r.value[k].fields[key] == items[k][key]
  {
    if |items| == 0 then Success([])
    else match ProjectItem(items[0])
      case Failure(key) => Failure(key)
      case Success(first) =>
        match ProjectItems(items[1..])
        case Failure(key) => Failure(key)
        case Success(rest) =>
          assert forall k | 1 <= k < |items| :: items[k] == items[1..][k - 1];
          Success([Obj(first)] + rest)
  }

  /**
   The update body: `removeSilencePace` when the pace is a non-empty string,
   `removeBadTakes` whenever it was given (so `false` is sent), and `items`
   when the list is non-empty. A `KeyError` from an item is the failure.
   */
  function UpdateBody(i: UpdateProjectInput): (r: Result<Body, string>)
    ensures r.Failure? <==> i.items.Some? && exists k | 0 <= k < |i.items.value| :: !(ItemKeys <= i.items.value[k].Keys)
    ensures r.Success? ==>
      && (KRemoveSilencePace in r.value <==> Present(i.removeSilencePace))
      && (KRemoveBadTakes in r.value <==> i.removeBadTakes.Some?)
      && (KItems in r.value <==> i.items.Some? && |i.items.value| > 0)
      && r.value.Keys <= {KRemoveSilencePace, KRemoveBadTakes, KItems}
    ensures r.Success? && KRemoveSilencePace in r.value ==> r.value[KRemoveSilencePace] == Str(i.removeSilencePace.value)
    ensures r.Success? && KRemoveBadTakes in r.value ==> r.value[KRemoveBadTakes] == Bool(i.removeBadTakes.value)
    ensures r.Success? && KItems in r.value ==> r.value[KItems].Arr? && |r.value[KItems].items| == |i.items.value|
  {
    var withPace: Body := if Present(i.removeSilencePace) then map[KRemoveSilencePace := Str(i.removeSilencePace.value)] else map[];
    var withTakes := if i.removeBadTakes.Some? then withPace[KRemoveBadTakes := Bool(i.removeBadTakes.value)] else withPace;
    if i.items.Some? && |i.items.value| > 0 then
      match ProjectItems(i.items.value)
      case Failure(key) => Failure(key)
      case Success(projected) => Success(withTakes[KItems := Arr(projected)])
    else Success(withTakes)
  }

  /** The three update fields, read back from a body. */
  function ReadUpdateBody(b: Body): (Option<string>, Option<bool>, Option<seq<Value>>) {
    (StrAt(b, KRemoveSilencePace),
     if KRemoveBadTakes in b && b[KRemoveBadTakes].Bool? then Some(b[KRemoveBadTakes].b) else None,
     if KItems in b && b[KItems].Arr? then Some(b[KItems].items) else None)
  }

  /** Reading an update body back gives the pace (if non-empty), the flag as given, and the projected items. */
  lemma UpdateBodyRoundTrip(i: UpdateProjectInput)
    requires UpdateBody(i).Success?
    ensures var (pace, takes, items) := ReadUpdateBody(UpdateBody(i).value);
      && pace == Truthful(i.removeSilencePace)
      && takes == i.removeBadTakes
      && (items.Some? <==> i.items.Some? && |i.items.value| > 0)
      && (items.Some? ==> ProjectItems(i.items.value) == Success(items.value))
  {
  }

  // ---------------------------------------------------------------- export

  /** The export body: exactly one key per argument that is not `None`, an empty webhook URL included. */
  function ExportBody(i: ExportProjectInput): (b: Body)
    ensures b.Keys ==
      (if i.fps.Some? then {KFps} else {})
      + (if i.width.Some? then {KWidth} else {})
      + (if i.height.Some? then {KHeight} else {})
      + (if i.webhookUrl.Some? then {KWebhookUrl} else {})
  {
    var withFps: Body := if i.fps.Some? then map[KFps := Int(i.fps.value)] else map[];
    var withWidth := if i.width.Some? then withFps[KWidth := Int(i.width.value)] else withFps;
    var withHeight := if i.height.Some? then withWidth[KHeight := Int(i.height.value)] else withWidth;
    if i.webhookUrl.Some? then withHeight[KWebhookUrl := Str(i.webhookUrl.value)] else withHeight
  }

  /** The integer under `key`, if the body has one there. */
  function IntAt(b: Body, key: Key): Option<int> {
    if key in b && b[key].Int? then Some(b[key].i) else None
  }

  /** Reads an export body back into the optional arguments. */
  function ReadExportBody(b: Body, projectId: string): ExportProjectInput {
    ExportProjectInput(projectId, IntAt(b, KFps), IntAt(b, KWidth), IntAt(b, KHeight), StrAt(b, KWebhookUrl))
  }

  /** The export body records every argument exactly, `None` and `Some("")` included. */
  lemma ExportBodyRoundTrip(i: ExportProjectInput)
    ensures ReadExportBody(ExportBody(i), i.projectId) == i
  {
  }

  // ---------------------------------------------------------------- magic clips

  /** The keys every magic-clips body carries. */
  const ClipsRequiredKeys: set<Key> := {KTitle, KYoutubeUrl, KLanguage, KMinClipLength, KMaxClipLength}

  /** The magic-clips body: five fixed keys, plus the webhook and theme when non-empty. */
  function ClipsBody(i: CreateMagicClipsInput): (b: Body)
    ensures b.Keys == ClipsRequiredKeys
      + (if Present(i.webhookUrl) then {KWebhookUrl} else {})
      + (if Present(i.userThemeId) then {KUserThemeId} else {})
    ensures b[KMinClipLength] == Int(i.minClipLength) && b[KMaxClipLength] == Int(i.maxClipLength)
  {
    var required := map[
      KTitle := Str(i.title),
      KYoutubeUrl := Str(i.youtubeUrl),
      KLanguage := Str(i.language),
      KMinClipLength := Int(i.minClipLength),
      KMaxClipLength := Int(i.maxClipLength)];
    var withWebhook := if Present(i.webhookUrl) then required[KWebhookUrl := Str(i.webhookUrl.value)] else required;
    if Present(i.userThemeId) then withWebhook[KUserThemeId := Str(i.userThemeId.value)] else withWebhook
  }

  /** Reads a magic-clips body back into the input it was built from. */
  function ReadClipsBody(b: Body): Option<CreateMagicClipsInput> {
    if StrAt(b, KTitle).Some? && StrAt(b, KYoutubeUrl).Some? && StrAt(b, KLanguage).Some?
       && IntAt(b, KMinClipLength).Some? && IntAt(b, KMaxClipLength).Some?
    then Some(CreateMagicClipsInput(
      StrAt(b, KTitle).value, StrAt(b, KYoutubeUrl).value, StrAt(b, KLanguage).value,
      StrAt(b, KWebhookUrl), StrAt(b, KUserThemeId),
      IntAt(b, KMinClipLength).value, IntAt(b, KMaxClipLength).value))
    else None
  }

  /** Reading a magic-clips body back gives the input with empty optional strings dropped. */
  lemma ClipsBodyRoundTrip(i: CreateMagicClipsInput)
    ensures ReadClipsBody(ClipsBody(i)) == Some(i.(webhookUrl := Truthful(i.webhookUrl), userThemeId := Truthful(i.userThemeId)))
  {
  }
}
