/** The record shapes of the `videos` table and of the composition's input props. */
module Schema {
  import opened Wrappers

  /** Document ids of the `videos`, `users` and `assets` tables. */
  type Id = nat
  type UserId = nat
  type AssetId = nat

  /** The status values the code writes into a video record. */
  datatype Status = Queued | Generating | Editing | ReadyToRender | Completed | Failed {
    function Name(): string {
      match this
      case Queued => "queued"
      case Generating => "generating"
      case Editing => "editing"
      case ReadyToRender => "ready_to_render"
      case Completed => "completed"
      case Failed => "failed"
    }
  }

  /** The six style ids the wizard offers; the prompt and background tables name each. */
  predicate NamedStyle(styleId: string) {
    styleId in {"cinematic", "vibrant", "slowmo", "minimal", "rustic", "luxury"}
  }

  /** The three scene roles, in timeline order. */
  datatype Role = Intro | Main | Outro {
    function Name(): string {
      match this
      case Intro => "intro"
      case Main => "main"
      case Outro => "outro"
    }
  }

  const Roles: seq<Role> := [Intro, Main, Outro]

  /** One generated scene: where its clip is stored, the prompt that produced it and its role
      (the schema's `type` field). */
  datatype Segment = Segment(storageId: string, prompt: string, kind: Role)

  datatype Caption = Caption(text: string, startFrame: int, endFrame: int)

  /** The schema's optional `remotionProps` object: every field may be absent. It is also the
      shape of the props a render command may pass on the command line. */
  datatype PartialProps = PartialProps(
    segmentUrls: Option<seq<string>>,
    images: Option<seq<string>>,
    logoUrl: Option<string>,
    captions: Option<seq<Caption>>,
    musicTrack: Option<string>,
    logoPosition: Option<string>,
    primaryColor: Option<string>,
    secondaryColor: Option<string>,
    styleId: Option<string>)

  const NoProps := PartialProps(None, None, None, None, None, None, None, None, None)

  /** The props the composition is rendered with: every field is present; a missing logo is `null`. */
  datatype CompositionProps = CompositionProps(
    segmentUrls: seq<string>,
    images: seq<string>,
    logoUrl: Option<string>,
    captions: seq<Caption>,
    musicTrack: string,
    logoPosition: string,
    primaryColor: string,
    secondaryColor: string,
    styleId: string)

  /** The complete props as a `remotionProps` object, with a missing logo left out. The
      schema's `logoUrl` is an optional string, so a complete object holding a `null` logo
      cannot be stored as it is (see `Videos.Storable`). */
  function ToPartial(p: CompositionProps): PartialProps {
    PartialProps(Some(p.segmentUrls), Some(p.images), p.logoUrl, Some(p.captions),
                 Some(p.musicTrack), Some(p.logoPosition), Some(p.primaryColor),
                 Some(p.secondaryColor), Some(p.styleId))
  }

  /** A document of the `videos` table. */
  datatype Video = Video(
    userId: UserId,
    prompt: string,
    styleId: string,
    status: Status,
    inputImageStorageIds: seq<string>,
    logoAssetId: Option<AssetId>,
    remotionProps: Option<PartialProps>,
    segments: Option<seq<Segment>>,
    generatedVideoStorageId: Option<string>,
    createdAt: int,
    errorMessage: Option<string>)
}
