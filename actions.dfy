/** The three server actions (convex/actions.ts): `generateAiVideo` asks the generator for
    three scene clips and stores them, `renderVideo` prepares and stores the render props,
    and `uploadRenderedVideo` stores the final video. Each action reads the job once and
    then writes to it through the table's mutations. */
module Actions {
  import opened Wrappers
  import opened Schema
  import opened Videos
  import Prompts
  import opened Gemini
  import Composition
  import Root

  /** The calls `generateAiVideo` makes outside the table: storage URL lookup, whether the
      API key is set, one generator call per scene (with the image URL and the prompt; an
      unreachable image or a rejected request is a thrown error), base64 decoding (`None`
      when `atob` throws) and storing a scene clip (the storage id, or a thrown error). */
  datatype Services = Services(
    getUrl: string -> Option<string>,
    apiKeyConfigured: bool,
    generate: (string, string) -> Result<GenerateResponse>,
    atob: string -> Option<string>,
    store: (Role, VideoData) -> Result<string>)

  const MissingKeyMessage: string :=
    "GOOGLE_GENAI_API_KEY not configured in Convex environment variables. Please add it in the Convex Dashboard."

  /** One scene of the `Promise.all`: prompt, generate, extract, store. */
  function SceneOutcome(role: Role, imageUrl: string, productName: string, styleId: string,
                        svc: Services): Result<Segment> {
    var prompt := Prompts.FullPrompt(role, productName, styleId);
    match svc.generate(imageUrl, prompt)
    case Failure(e) => Failure(e)
    case Success(response) =>
      match Extract(response, svc.atob)
      case None => Failure("No video data in " + role.Name() + " response")
      case Some(clip) =>
        match svc.store(role, clip)
        case Failure(e) => Failure(e)
        case Success(storageId) => Success(Segment(storageId, prompt, role))
  }

  /** The scene function `generateAiVideo` collects over. */
  function Scene(imageUrl: string, productName: string, styleId: string, svc: Services)
    : Role -> Result<Segment>
  {
    role => SceneOutcome(role, imageUrl, productName, styleId, svc)
  }

  /** What `generateAiVideo` decides for a job once it is marked generating: the segments to
      store, or the message of the error it throws, checked in the code's order. */
  function GenerationOutcome(v: Video, svc: Services): Result<seq<Segment>> {
    if |v.inputImageStorageIds| == 0 then Failure("No input images found")
    else
      var imageUrl := svc.getUrl(v.inputImageStorageIds[0]);
      if !Truthy(imageUrl) then Failure("Could not generate URL for image")
      else if !svc.apiKeyConfigured then Failure(MissingKeyMessage)
      else
        match All(Roles, Scene(imageUrl.value, Prompts.ProductName(v.prompt), v.styleId, svc))
        case Failure(e) => Failure(e)
        case Success(segments) =>
          if |segments| != 3
          then Failure("Expected 3 segments but got " + Prompts.NatToString(|segments|))
          else Success(segments)
  }

  /** `generateAiVideo` succeeds exactly when there is a first image with a URL, the key is
      set and all three scenes succeed; it then stores the intro, main and outro segments in
      that order, each with the prompt for its role. Every other outcome is the error of the
      first check that failed; the segment count check never fires. */
  lemma GenerationMeaning(v: Video, svc: Services)
    ensures var r := GenerationOutcome(v, svc);
      var ids := v.inputImageStorageIds;
      var name := Prompts.ProductName(v.prompt);
      && (|ids| == 0 ==> r == Failure("No input images found"))
      && (|ids| > 0 && !Truthy(svc.getUrl(ids[0])) ==> r == Failure("Could not generate URL for image"))
      && (|ids| > 0 && Truthy(svc.getUrl(ids[0])) ==>
            var url := svc.getUrl(ids[0]).value;
            && (!svc.apiKeyConfigured ==> r == Failure(MissingKeyMessage))
            && (svc.apiKeyConfigured ==>
                  && (r.Success? <==>
                        forall k :: 0 <= k < 3 ==> SceneOutcome(Roles[k], url, name, v.styleId, svc).Success?)
                  && (r.Failure? ==>
                        exists k :: 0 <= k < 3 && SceneOutcome(Roles[k], url, name, v.styleId, svc) == Failure(r.error))
                  && (r.Success? ==>
                        && |r.value| == 3
                        && forall k :: 0 <= k < 3 ==>
                             && r.value[k].kind == Roles[k]
                             && r.value[k].prompt == Prompts.FullPrompt(Roles[k], name, v.styleId)
                             && r.value[k] == SceneOutcome(Roles[k], url, name, v.styleId, svc).value)))
  {
    var ids := v.inputImageStorageIds;
    if |ids| > 0 && Truthy(svc.getUrl(ids[0])) {
      var url, name := svc.getUrl(ids[0]).value, Prompts.ProductName(v.prompt);
      ScenesMeaning(url, name, v.styleId, svc);
      forall k | 0 <= k < 3 && SceneOutcome(Roles[k], url, name, v.styleId, svc).Success?
        ensures SceneOutcome(Roles[k], url, name, v.styleId, svc).value.kind == Roles[k]
        ensures SceneOutcome(Roles[k], url, name, v.styleId, svc).value.prompt ==
                Prompts.FullPrompt(Roles[k], name, v.styleId)
      {
        SceneSegmentShape(Roles[k], url, name, v.styleId, svc);
      }
    }
  }

  /** The three scenes, collected in role order. */
  lemma ScenesMeaning(url: string, name: string, styleId: string, svc: Services)
    ensures var r := All(Roles, Scene(url, name, styleId, svc));
      && (r.Success? <==> forall k :: 0 <= k < 3 ==> SceneOutcome(Roles[k], url, name, styleId, svc).Success?)
      && (r.Failure? ==> exists k :: 0 <= k < 3 && SceneOutcome(Roles[k], url, name, styleId, svc) == Failure(r.error))
      && (r.Success? ==>
            && |r.value| == 3
            && forall k :: 0 <= k < 3 ==> r.value[k] == SceneOutcome(Roles[k], url, name, styleId, svc).value)
  {
    var scene := Scene(url, name, styleId, svc);
    assert |Roles| == 3;
    AllSuccess(Roles, scene);
    if All(Roles, scene).Failure? {
      AllFailure(Roles, scene);
    }
  }

  /** A scene that succeeds yields a segment of its own role with its role's prompt. */
  lemma SceneSegmentShape(role: Role, url: string, name: string, styleId: string, svc: Services)
    requires SceneOutcome(role, url, name, styleId, svc).Success?
    ensures SceneOutcome(role, url, name, styleId, svc).value.kind == role
    ensures SceneOutcome(role, url, name, styleId, svc).value.prompt == Prompts.FullPrompt(role, name, styleId)
  {
  }

  /** The body of `generateAiVideo`'s `try` between the two status writes: the segments to
      store, or the message of the first error thrown. */
  method GenerateSegments(v: Video, svc: Services) returns (r: Result<seq<Segment>>)
    ensures r == GenerationOutcome(v, svc)
  {
    var err: Option<string> := None;
    var segments: seq<Segment> := [];
    if |v.inputImageStorageIds| == 0 {
      err := Some("No input images found");
    } else {
      var imageUrl := svc.getUrl(v.inputImageStorageIds[0]);
      if !Truthy(imageUrl) {
        err := Some("Could not generate URL for image");
      } else {
        var productName := Prompts.ProductName(v.prompt);
        if !svc.apiKeyConfigured {
          err := Some(MissingKeyMessage);
        } else {
          var results := All(Roles, Scene(imageUrl.value, productName, v.styleId, svc));
          if results.Failure? {
            err := Some(results.error);
          } else {
            segments := results.value;
            if |segments| != 3 {
              err := Some("Expected 3 segments but got " + Prompts.NatToString(|segments|));
            }
          }
        }
      }
    }
    r := if err.None? then Success(segments) else Failure(err.value);
  }

  /** The reply of `generateAiVideo`: it rejects when the job does not exist, and otherwise
      resolves with the stored segments or with the error that marked the job failed. */
  datatype GenerateReply = GenerateThrew(error: string) | Generated(segments: seq<Segment>)
                         | GenerationFailed(error: string)

  /** `generateAiVideo`: mark the job generating, then either store its three segments and
      move it to editing, or mark it failed with the error message. */
  method GenerateAiVideo(table: VideoTable, id: Id, svc: Services) returns (reply: GenerateReply)
    requires table.Valid()
    modifies table`videos, table`writes
    ensures table.Valid()
    ensures id !in old(table.videos) ==>
      && reply == GenerateThrew("Video not found")
      && table.videos == old(table.videos) && table.writes == old(table.writes)
    ensures id in old(table.videos) ==>
      var v := old(table.videos)[id];
      var started := WithStatus(v, Generating, None);
      var outcome := GenerationOutcome(v, svc);
      if outcome.Success? then
        && reply == Generated(outcome.value)
        && table.videos == old(table.videos)[id := WithSegments(started, outcome.value, Editing)]
        && table.writes == old(table.writes) + [StatusWritten(id, Generating), SegmentsWritten(id, Editing)]
      else
        && reply == GenerationFailed(outcome.error)
        && table.videos == old(table.videos)[id := WithStatus(started, Failed, Some(outcome.error))]
        && table.writes == old(table.writes) + [StatusWritten(id, Generating), StatusWritten(id, Failed)]
  {
    var view := table.Get(id, svc.getUrl);
    if view.None? {
      return GenerateThrew("Video not found");
    }
    var v := view.value.video;
    var marked := table.UpdateStatus(id, Generating, None);
    var outcome := GenerateSegments(v, svc);
    if outcome.Success? {
      var stored := table.UpdateSegments(id, outcome.value, Editing);
      reply := Generated(outcome.value);
    } else {
      var failed := table.UpdateStatus(id, Failed, Some(outcome.error));
      reply := GenerationFailed(outcome.error);
    }
  }

  /** The record `generateAiVideo` leaves behind for an existing job. */
  function GenerationResult(v: Video, svc: Services): Video {
    var started := WithStatus(v, Generating, None);
    match GenerationOutcome(v, svc)
    case Success(segments) => WithSegments(started, segments, Editing)
    case Failure(e) => WithStatus(started, Failed, Some(e))
  }

  /** The arguments of `renderVideo` besides the job id. */
  datatype RenderArgs = RenderArgs(
    captions: seq<Caption>,
    musicTrack: Option<string>,
    logoPosition: Option<string>,
    primaryColor: Option<string>,
    logoUrl: Option<string>)

  const NoSegmentsMessage: string := "No video segments found. Please generate AI video first."
  const NoSegmentUrlsMessage: string := "No valid video segment URLs found"

  /** The props `renderVideo` prepares: the resolved clip URLs, no stills, the given options
      with their defaults (a missing or empty logo becomes `null`) and the job's style. */
  function RenderProps(segmentUrls: seq<string>, styleId: string, args: RenderArgs): CompositionProps {
    CompositionProps(
      segmentUrls, [], if Truthy(args.logoUrl) then args.logoUrl else None, args.captions,
      Or(args.musicTrack, ""), Or(args.logoPosition, "bottom-right"), Or(args.primaryColor, "#c72c41"),
      "#FFFFFF", Or(Some(styleId), "vibrant"))
  }

  predicate HasGeneratedSegments(v: Video) {
    v.segments.Some? && |v.segments.value| > 0
  }

  /** The URLs of the segments that resolve, in segment order. */
  function SegmentUrls(segments: seq<Segment>, getUrl: string -> Option<string>): seq<string> {
    Present(ResolveAll(StorageIds(segments), getUrl))
  }

  /** The props `renderVideo` has built by the time it stores them, or the error it throws
      before that. */
  function PreparedProps(v: Video, args: RenderArgs, getUrl: string -> Option<string>)
    : Result<CompositionProps>
  {
    if !HasGeneratedSegments(v) then Failure(NoSegmentsMessage)
    else
      var urls := SegmentUrls(v.segments.value, getUrl);
      if |urls| == 0 then Failure(NoSegmentUrlsMessage) else Success(RenderProps(urls, v.styleId, args))
  }

  /** What `renderVideo` decides for an existing job: the props, or the error it throws. The
      store rejects a props object whose logo is `null`, and that error is thrown too. */
  function RenderOutcome(v: Video, args: RenderArgs, getUrl: string -> Option<string>)
    : Result<CompositionProps>
  {
    match PreparedProps(v, args, getUrl)
    case Failure(e) => Failure(e)
    case Success(props) => if Storable(props) then Success(props) else Failure(SchemaMismatchMessage)
  }

  /** Resolving the first `k` segments gives the first `k` resolutions. */
  lemma ResolvedPrefix(segs: seq<Segment>, k: nat, getUrl: string -> Option<string>)
    requires k <= |segs|
    ensures ResolveAll(StorageIds(segs), getUrl)[..k] == ResolveAll(StorageIds(segs[..k]), getUrl)
  {
    ResolveAllAt(StorageIds(segs), getUrl);
    ResolveAllAt(StorageIds(segs[..k]), getUrl);
  }

  /** Segment k's URL comes right after the URLs of the segments before it. */
  lemma SegmentUrlsOrder(segs: seq<Segment>, getUrl: string -> Option<string>)
    ensures forall k :: 0 <= k < |segs| && getUrl(segs[k].storageId).Some? ==>
      && |SegmentUrls(segs[..k], getUrl)| < |SegmentUrls(segs, getUrl)|
      && SegmentUrls(segs, getUrl)[|SegmentUrls(segs[..k], getUrl)|] == getUrl(segs[k].storageId).value
  {
    var resolved := ResolveAll(StorageIds(segs), getUrl);
    forall k | 0 <= k < |segs| && getUrl(segs[k].storageId).Some?
      ensures |SegmentUrls(segs[..k], getUrl)| < |Present(resolved)|
      ensures Present(resolved)[|SegmentUrls(segs[..k], getUrl)|] == getUrl(segs[k].storageId).value
    {
      ResolveAllAt(StorageIds(segs), getUrl);
      ResolvedPrefix(segs, k, getUrl);
      PresentLength(resolved[..k]);
      PresentAt(resolved, k);
    }
  }

  /** The resolved URLs are exactly the URLs some segment resolves to (in segment order, by
      `SegmentUrlsOrder`). There is one as soon as any segment resolves, and when all do
      they line up with the segments. */
  lemma SegmentUrlsMeaning(segs: seq<Segment>, getUrl: string -> Option<string>)
    ensures var urls := SegmentUrls(segs, getUrl);
      && (forall u :: u in urls <==> exists k :: 0 <= k < |segs| && getUrl(segs[k].storageId) == Some(u))
      && (|urls| > 0 <==> exists k :: 0 <= k < |segs| && getUrl(segs[k].storageId).Some?)
      && ((forall k :: 0 <= k < |segs| ==> getUrl(segs[k].storageId).Some?) ==>
            && |urls| == |segs|
            && forall k :: 0 <= k < |segs| ==> urls[k] == getUrl(segs[k].storageId).value)
  {
    var resolved := ResolveAll(StorageIds(segs), getUrl);
    ResolveAllAt(StorageIds(segs), getUrl);
    forall u ensures u in Present(resolved) <==>
                     exists k :: 0 <= k < |segs| && getUrl(segs[k].storageId) == Some(u) {
      PresentMembers(resolved, u);
      if Some(u) in resolved {
        var k :| 0 <= k < |resolved| && resolved[k] == Some(u);
        assert getUrl(segs[k].storageId) == Some(u);
      }
    }
    if exists k :: 0 <= k < |segs| && getUrl(segs[k].storageId).Some? {
      var k :| 0 <= k < |segs| && getUrl(segs[k].storageId).Some?;
      assert getUrl(segs[k].storageId).value in Present(resolved);
    }
    if |Present(resolved)| > 0 {
      assert Present(resolved)[0] in Present(resolved);
    }
    if forall k :: 0 <= k < |segs| ==> getUrl(segs[k].storageId).Some? {
      PresentAll(resolved);
    }
  }

  /** Rendering succeeds exactly when the job has segments, at least one of them resolves
      and a non-empty logo URL is given: without one the props carry a `null` logo, which
      the store rejects. The props list precisely the resolved URLs, take every option with
      its default, and read back unchanged by `getProps`. */
  lemma RenderMeaning(v: Video, args: RenderArgs, getUrl: string -> Option<string>)
    ensures var r := RenderOutcome(v, args, getUrl);
      && (!HasGeneratedSegments(v) ==> r == Failure(NoSegmentsMessage))
      && (HasGeneratedSegments(v) ==>
            var segs := v.segments.value;
            var resolves := exists k :: 0 <= k < |segs| && getUrl(segs[k].storageId).Some?;
            && (!resolves ==> r == Failure(NoSegmentUrlsMessage))
            && (resolves && !Truthy(args.logoUrl) ==> r == Failure(SchemaMismatchMessage))
            && (r.Success? <==> resolves && Truthy(args.logoUrl))
            && (r.Success? ==> r.value.segmentUrls == SegmentUrls(segs, getUrl)))
    ensures var r := RenderOutcome(v, args, getUrl);
      r.Success? ==>
        && r.value.images == [] && r.value.secondaryColor == "#FFFFFF"
        && r.value.logoUrl == args.logoUrl
        && r.value.captions == args.captions
        && r.value.musicTrack == Or(args.musicTrack, "")
        && r.value.logoPosition == Or(args.logoPosition, "bottom-right")
        && r.value.primaryColor == Or(args.primaryColor, "#c72c41")
        && r.value.styleId == (if v.styleId != "" then v.styleId else "vibrant")
        && Root.GetProps(Some(Root.FromFields(ToPartial(r.value)))) == r.value
  {
    if HasGeneratedSegments(v) {
      SegmentUrlsMeaning(v.segments.value, getUrl);
    }
    var r := RenderOutcome(v, args, getUrl);
    if r.Success? {
      Root.GetPropsRoundTrip(r.value, None);
    }
  }

  /** As written, a job with a resolving segment fails to render whenever no non-empty logo
      URL is given, although its props were built. */
  lemma RenderWithoutLogoFails(v: Video, args: RenderArgs, getUrl: string -> Option<string>)
    requires HasGeneratedSegments(v) && !Truthy(args.logoUrl)
    requires exists k :: 0 <= k < |v.segments.value| && getUrl(v.segments.value[k].storageId).Some?
    ensures PreparedProps(v, args, getUrl).Success?
    ensures RenderOutcome(v, args, getUrl) == Failure(SchemaMismatchMessage)
  {
    SegmentUrlsMeaning(v.segments.value, getUrl);
  }

  /** The evidently intended store of `renderVideo`, with `logoUrl: args.logoUrl || undefined`:
      a missing logo is left out of the stored object instead of being `null`. */
  function IntendedRenderOutcome(v: Video, args: RenderArgs, getUrl: string -> Option<string>)
    : Result<PartialProps>
  {
    match PreparedProps(v, args, getUrl)
    case Failure(e) => Failure(e)
    case Success(props) => Success(ToPartial(props))
  }

  /** With the logo left out when missing, rendering succeeds exactly when the job has a
      segment that resolves, logo or not; the stored object has a logo exactly when a
      non-empty one was given, and `getProps` reads it back as the prepared props. */
  lemma IntendedRenderMeaning(v: Video, args: RenderArgs, getUrl: string -> Option<string>)
    ensures var r := IntendedRenderOutcome(v, args, getUrl);
      && (!HasGeneratedSegments(v) ==> r == Failure(NoSegmentsMessage))
      && (HasGeneratedSegments(v) ==>
            var segs := v.segments.value;
            && (r.Success? <==> exists k :: 0 <= k < |segs| && getUrl(segs[k].storageId).Some?)
            && (r.Failure? ==> r == Failure(NoSegmentUrlsMessage)))
      && (r.Success? ==>
            && PreparedProps(v, args, getUrl).Success?
            && (Truthy(args.logoUrl) ==> r.value.logoUrl == args.logoUrl)
            && (!Truthy(args.logoUrl) ==> r.value.logoUrl.None?)
            && Root.GetProps(Some(Root.FromFields(r.value))) == PreparedProps(v, args, getUrl).value)
  {
    if HasGeneratedSegments(v) {
      SegmentUrlsMeaning(v.segments.value, getUrl);
    }
    var p := PreparedProps(v, args, getUrl);
    if p.Success? {
      Root.GetPropsRoundTrip(p.value, None);
    }
  }

  /** A job `generateAiVideo` has just filled gets props with its three clips, intro to
      outro, as soon as every clip's URL resolves; storing them succeeds exactly when a
      non-empty logo URL is given. */
  lemma GeneratedJobRendersClips(v: Video, svc: Services, args: RenderArgs)
    requires GenerationOutcome(v, svc).Success?
    requires var segs := GenerationOutcome(v, svc).value;
      forall k :: 0 <= k < |segs| ==> svc.getUrl(segs[k].storageId).Some?
    ensures var segs := GenerationOutcome(v, svc).value;
      var job := WithSegments(WithStatus(v, Generating, None), segs, Editing);
      var prepared := PreparedProps(job, args, svc.getUrl);
      var r := RenderOutcome(job, args, svc.getUrl);
      && prepared.Success? && Composition.HasSegments(prepared.value)
      && (forall k :: 0 <= k < 3 ==>
            segs[k].kind == Roles[k] && prepared.value.segmentUrls[k] == svc.getUrl(segs[k].storageId).value)
      && (r.Success? <==> Truthy(args.logoUrl))
      && (r.Success? ==> r.value == prepared.value)
  {
    var segs := GenerationOutcome(v, svc).value;
    var job := WithSegments(WithStatus(v, Generating, None), segs, Editing);
    GenerationMeaning(v, svc);
    assert svc.getUrl(segs[0].storageId).Some?;
    RenderMeaning(job, args, svc.getUrl);
    SegmentUrlsMeaning(segs, svc.getUrl);
  }

  /** The reply of `renderVideo`. */
  datatype RenderReply = RenderThrew(error: string)
                       | Prepared(segmentUrls: seq<string>, props: CompositionProps)
                       | RenderFailed(error: string)

  /** `renderVideo`: mark the job ready to render and store its props, or mark it failed.
      For an unknown job the failure mark itself throws, and nothing is written. */
  method RenderVideo(table: VideoTable, id: Id, args: RenderArgs, getUrl: string -> Option<string>)
    returns (reply: RenderReply)
    requires table.Valid()
    modifies table`videos, table`writes
    ensures table.Valid()
    ensures id !in old(table.videos) ==>
      && reply == RenderThrew("Video not found")
      && table.videos == old(table.videos) && table.writes == old(table.writes)
    ensures id in old(table.videos) ==>
      var v := old(table.videos)[id];
      var ready := WithStatus(v, ReadyToRender, None);
      match RenderOutcome(v, args, getUrl)
      case Success(props) =>
        && reply == Prepared(props.segmentUrls, props)
        && table.videos == old(table.videos)[id := ready.(remotionProps := Some(ToPartial(props)))]
        && table.writes == old(table.writes) + [StatusWritten(id, ReadyToRender), PropsWritten(id)]
      case Failure(e) =>
        && reply == RenderFailed(e)
        && (!HasGeneratedSegments(v) ==>
              && table.videos == old(table.videos)[id := WithStatus(v, Failed, Some(e))]
              && table.writes == old(table.writes) + [StatusWritten(id, Failed)])
        && (HasGeneratedSegments(v) ==>
              && table.videos == old(table.videos)[id := WithStatus(ready, Failed, Some(e))]
              && table.writes == old(table.writes) + [StatusWritten(id, ReadyToRender), StatusWritten(id, Failed)])
  {
    var view := table.Get(id, getUrl);
    var err: string;
    if view.None? {
      err := "Video not found";
    } else {
      var v := view.value.video;
      if v.segments.None? || |v.segments.value| == 0 {
        err := NoSegmentsMessage;
      } else {
        var marked := table.UpdateStatus(id, ReadyToRender, None);
        var urls := SegmentUrls(v.segments.value, getUrl);
        if |urls| == 0 {
          err := NoSegmentUrlsMessage;
        } else {
          var props := RenderProps(urls, v.styleId, args);
          var stored := table.UpdateRemotionProps(id, PropsArgs(None, None, None, None, Some(props)));
          if stored.Pass? {
            return Prepared(urls, props);
          }
          err := stored.error;
        }
      }
    }
    var failed := table.UpdateStatus(id, Failed, Some(err));
    if failed.Fail? {
      return RenderThrew(failed.error);
    }
    reply := RenderFailed(err);
  }

  /** What `uploadRenderedVideo` decides from the download (a network error, or the HTTP
      status) and the storing of the body: the new storage id, or the error it catches. */
  function UploadOutcome(download: Result<nat>, stored: Result<string>): Result<string> {
    match download
    case Failure(e) => Failure(e)
    case Success(status) =>
      if !(200 <= status <= 299)
      then Failure("Failed to download rendered video: " + Prompts.NatToString(status))
      else stored
  }

  /** An upload yields a storage id only after a 2xx download; a download with any other
      status fails with a message that ends in exactly that status code. */
  lemma UploadMeaning(download: Result<nat>, stored: Result<string>)
    ensures var r := UploadOutcome(download, stored);
      && (r.Success? <==> download.Success? && 200 <= download.value <= 299 && stored.Success?)
      && (r.Success? ==> r.value == stored.value)
      && (download.Success? && !(200 <= download.value <= 299) ==>
            var prefix := "Failed to download rendered video: ";
            && r.Failure? && |prefix| < |r.error| && r.error[..|prefix|] == prefix
            && Prompts.DigitsValue(r.error[|prefix|..]) == download.value)
  {
    if download.Success? && !(200 <= download.value <= 299) {
      var prefix := "Failed to download rendered video: ";
      var digits := Prompts.NatToString(download.value);
      assert (prefix + digits)[|prefix|..] == digits;
      assert (prefix + digits)[..|prefix|] == prefix;
      Prompts.NatToStringRoundTrip(download.value);
    }
  }

  /** The reply of `uploadRenderedVideo`: it never rejects. */
  datatype UploadReply = Uploaded(storageId: string) | UploadFailed(error: string)

  /** `uploadRenderedVideo`: store the downloaded video and mark the job completed. A failure
      is reported but, unlike the other actions, not written to the job. */
  method UploadRenderedVideo(table: VideoTable, id: Id, download: Result<nat>, stored: Result<string>)
    returns (reply: UploadReply)
    requires table.Valid()
    modifies table`videos, table`writes
    ensures table.Valid()
    ensures match UploadOutcome(download, stored)
      case Failure(e) =>
        reply == UploadFailed(e) && table.videos == old(table.videos) && table.writes == old(table.writes)
      case Success(storageId) =>
        if id in old(table.videos) then
          && reply == Uploaded(storageId)
          && table.videos == old(table.videos)[id := WithGeneratedVideo(old(table.videos)[id], storageId, Completed)]
          && table.writes == old(table.writes) + [GeneratedVideoWritten(id, Completed)]
        else
          reply == UploadFailed("Video not found") && table.videos == old(table.videos) &&
          table.writes == old(table.writes)
  {
    if download.Failure? {
      return UploadFailed(download.error);
    }
    if !(200 <= download.value <= 299) {
      return UploadFailed("Failed to download rendered video: " + Prompts.NatToString(download.value));
    }
    if stored.Failure? {
      return UploadFailed(stored.error);
    }
    var written := table.UpdateGeneratedVideo(id, stored.value, Completed);
    if written.Fail? {
      return UploadFailed(written.error);
    }
    reply := Uploaded(stored.value);
  }
}
