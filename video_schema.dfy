/**
 * The video metadata form schema and the two enumerations of the video
 * record. `durationSeconds` is a JavaScript number; it is modelled as a
 * `real`, which has no NaN and no infinities.
 */
module VideoSchema {
  import opened Wrappers
  import opened AuthSchema

  datatype SourceType = OWN | YOUTUBE
  datatype VideoStatus = CREATED | PROCESSING | READY | FAILED

  function SourceTypeName(t: SourceType): (name: string)
    ensures ParseSourceType(name) == Some(t)
  {
    match t
    case OWN => "OWN"
    case YOUTUBE => "YOUTUBE"
  }

  /** The enumeration check: only the two literal names are accepted. */
  function ParseSourceType(name: string): (t: Option<SourceType>)
    ensures t.Some? <==> name in {"OWN", "YOUTUBE"}
  {
    if name == "OWN" then Some(OWN)
    else if name == "YOUTUBE" then Some(YOUTUBE)
    else None
  }

  function VideoStatusName(s: VideoStatus): (name: string)
    ensures ParseVideoStatus(name) == Some(s)
  {
    match s
    case CREATED => "CREATED"
    case PROCESSING => "PROCESSING"
    case READY => "READY"
    case FAILED => "FAILED"
  }

  function ParseVideoStatus(name: string): (s: Option<VideoStatus>)
    ensures s.Some? <==> name in {"CREATED", "PROCESSING", "READY", "FAILED"}
  {
    if name == "CREATED" then Some(CREATED)
    else if name == "PROCESSING" then Some(PROCESSING)
    else if name == "READY" then Some(READY)
    else if name == "FAILED" then Some(FAILED)
    else None
  }

  const MinTitleLength := 3
  const MinDescriptionLength := 10

  const ShortTitleMessage := "Title must be at least 3 characters"
  const ShortDescriptionMessage := "Description must be at least 10 characters"
  /** The schema sets no message for the enumeration; the library's issue code stands in. */
  const InvalidSourceTypeMessage := "invalid_enum_value"
  const InvalidThumbnailMessage := "Invalid thumbnail URL"
  const ShortDurationMessage := "Duration must be at least 1 second"

  /** The form values; `sourceType` is the raw string the form submits. */
  datatype VideoMetadataInput = VideoMetadataInput(
    title: string,
    description: string,
    sourceType: string,
    thumbnailUrl: Option<string>,
    durationSeconds: real,
    isSafe: bool)

  /** The thumbnail may be left out, left empty, or be a URL. */
  predicate ThumbnailAccepted(c: FormatChecks, url: Option<string>) {
    match url
    case None => true
    case Some(u) => c.isUrl(u) || u == ""
  }

  function VideoIssues(c: FormatChecks, v: VideoMetadataInput): (issues: seq<Issue>)
    ensures issues == [] <==>
      && |v.title| >= MinTitleLength
      && |v.description| >= MinDescriptionLength
      && ParseSourceType(v.sourceType).Some?
      && (v.thumbnailUrl.None? || v.thumbnailUrl.value == "" || c.isUrl(v.thumbnailUrl.value))
      && v.durationSeconds >= 1.0
    ensures Issue("durationSeconds", ShortDurationMessage) in issues <==> v.durationSeconds < 1.0
    ensures Issue("thumbnailUrl", InvalidThumbnailMessage) in issues <==> !ThumbnailAccepted(c, v.thumbnailUrl)
  {
    Check(|v.title| >= MinTitleLength, "title", ShortTitleMessage)
    + Check(|v.description| >= MinDescriptionLength, "description", ShortDescriptionMessage)
    + Check(ParseSourceType(v.sourceType).Some?, "sourceType", InvalidSourceTypeMessage)
    + Check(ThumbnailAccepted(c, v.thumbnailUrl), "thumbnailUrl", InvalidThumbnailMessage)
    + Check(v.durationSeconds >= 1.0, "durationSeconds", ShortDurationMessage)
  }

  /** The upload page's initial form values. */
  const UploadFormDefaults := VideoMetadataInput("", "", "OWN", Some(""), 0.0, true)

  /**
   * With the initial values the form is rejected on the title, the
   * description and the duration, and on nothing else: the duration stays
   * rejected until one is detected or typed in.
   */
  lemma UploadFormDefaultsRejected(c: FormatChecks)
    ensures VideoIssues(c, UploadFormDefaults) == [
      Issue("title", ShortTitleMessage),
      Issue("description", ShortDescriptionMessage),
      Issue("durationSeconds", ShortDurationMessage)]
  {
  }

  /** Only the duration stands between otherwise valid values and acceptance. */
  lemma DurationAloneDecides(c: FormatChecks, v: VideoMetadataInput, d: real)
    requires VideoIssues(c, v) == []
    ensures VideoIssues(c, v.(durationSeconds := d)) == [] <==> d >= 1.0
  {
  }
}
