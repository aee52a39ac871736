/** The editing screen's state (src/components/VideoEditor.tsx): the caption list and the
    chosen music, logo corner and accent colour, the props the preview player is given and
    the guard on the render button. */
module Editor {
  import opened Wrappers
  import opened Schema
  import opened Videos
  import Composition

  const MusicTrackIds: seq<string> := ["upbeat", "chill", "elegant", "tropical", "none"]
  const LogoPositionIds: seq<string> := ["top-left", "top-right", "bottom-left", "bottom-right"]
  const AccentColors: seq<string> := ["#6EDC14", "#FF6B6B", "#4ECDC4", "#FFE66D", "#FF9F43", "#FFFFFF"]

  const InitialCaption := Caption("Delicious Food", 0, 90)
  const NewCaption := Caption("New Caption", 0, 90)

  /** One edit of a caption field: its text, or a frame number read from a number input. */
  datatype CaptionEdit = SetText(text: string) | SetStart(frame: int) | SetEnd(frame: int)

  function ApplyEdit(c: Caption, edit: CaptionEdit): Caption {
    match edit
    case SetText(t) => c.(text := t)
    case SetStart(f) => c.(startFrame := f)
    case SetEnd(f) => c.(endFrame := f)
  }

  /** `captions.map((cap, i) => i === index ? { ...cap, [field]: value } : cap)`. */
  function EditAt(cs: seq<Caption>, index: int, edit: CaptionEdit): seq<Caption> {
    seq(|cs|, k requires 0 <= k < |cs| => if k == index then ApplyEdit(cs[k], edit) else cs[k])
  }

  /** An edit touches only the named field of the caption at `index`; every other caption,
      and every other field of that one, is left as it was. An index outside the list
      changes nothing. */
  lemma EditAtMeaning(cs: seq<Caption>, index: int, edit: CaptionEdit)
    ensures var r := EditAt(cs, index, edit);
      && |r| == |cs|
      && (forall k :: 0 <= k < |cs| && k != index ==> r[k] == cs[k])
      && (!(0 <= index < |cs|) ==> r == cs)
      && (0 <= index < |cs| ==>
            && (edit.SetText? ==> r[index] == cs[index].(text := edit.text))
            && (edit.SetStart? ==> r[index] == cs[index].(startFrame := edit.frame))
            && (edit.SetEnd? ==> r[index] == cs[index].(endFrame := edit.frame)))
  {
  }

  class CaptionEditor {
    var captions: seq<Caption>
    var musicTrack: string
    var logoPosition: string
    var primaryColor: string
    var isRendering: bool

    /** The choices the screen offers: every option holds one of its listed values. */
    ghost predicate Valid()
      reads this
    {
      musicTrack in MusicTrackIds && logoPosition in LogoPositionIds && primaryColor in AccentColors
    }

    constructor ()
      ensures Valid()
      ensures captions == [InitialCaption] && musicTrack == "upbeat"
      ensures logoPosition == "bottom-right" && primaryColor == "#6EDC14" && !isRendering
    {
      captions := [InitialCaption];
      musicTrack := "upbeat";
      logoPosition := "bottom-right";
      primaryColor := "#6EDC14";
      isRendering := false;
    }

    /** `handleAddCaption`. */
    method AddCaption()
      modifies this`captions
      ensures captions == old(captions) + [NewCaption]
    {
      captions := captions + [NewCaption];
    }

    /** `handleRemoveCaption`. */
    method RemoveCaption(index: int)
      modifies this`captions
      ensures captions == WithoutIndex(old(captions), index)
    {
      captions := WithoutIndex(captions, index);
    }

    /** `handleUpdateCaption`. */
    method UpdateCaption(index: int, edit: CaptionEdit)
      modifies this`captions
      ensures captions == EditAt(old(captions), index, edit)
    {
      captions := EditAt(captions, index, edit);
    }

    /** The music, logo corner and colour buttons set their option to the offered value. */
    method ChooseMusic(k: nat)
      requires Valid() && k < |MusicTrackIds|
      modifies this`musicTrack
      ensures Valid() && musicTrack == MusicTrackIds[k]
    {
      musicTrack := MusicTrackIds[k];
    }

    method ChooseLogoPosition(k: nat)
      requires Valid() && k < |LogoPositionIds|
      modifies this`logoPosition
      ensures Valid() && logoPosition == LogoPositionIds[k]
    {
      logoPosition := LogoPositionIds[k];
    }

    method ChooseColor(k: nat)
      requires Valid() && k < |AccentColors|
      modifies this`primaryColor
      ensures Valid() && primaryColor == AccentColors[k]
    {
      primaryColor := AccentColors[k];
    }

    /** The render button's `disabled` guard. */
    predicate RenderDisabled(segmentUrls: Option<seq<Option<string>>>)
      reads this
    {
      isRendering || segmentUrls.None? || |segmentUrls.value| != 3
    }

    /** The props handed to the preview player: the non-null URLs of the job's segments and
      images, the logo's URL when it has a non-empty one, and the screen's own options. */
    function PreviewProps(view: VideoView, logoUrl: Option<string>): CompositionProps
      reads this
    {
      CompositionProps(
        Present(view.segmentUrls.GetOr([])), Present(view.inputImageUrls),
        if Truthy(logoUrl) then logoUrl else None,
        captions, musicTrack, logoPosition, primaryColor, "#FFFFFF", view.video.styleId)
    }
  }

  /** Adding keeps every earlier caption in place and puts the new one last. */
  lemma AddCaptionMeaning(cs: seq<Caption>)
    ensures |cs + [NewCaption]| == |cs| + 1 && (cs + [NewCaption])[..|cs|] == cs
    ensures (cs + [NewCaption])[|cs|] == Caption("New Caption", 0, 90)
  {
  }

  /** The preview plays clips exactly when three segment URLs resolve; a job without
      segments shows the stills. Once the render button is enabled, clips mean that all
      three segments resolve, and clip k is segment k's URL. The stills are the resolved
      input images, in their order. */
  lemma PreviewMeaning(e: CaptionEditor, view: VideoView, logoUrl: Option<string>)
    ensures var p := e.PreviewProps(view, logoUrl);
      var urls := view.segmentUrls.GetOr([]);
      && (view.segmentUrls.None? ==> !Composition.HasSegments(p))
      && (Composition.HasSegments(p) <==> CountPresent(urls) == 3)
      && (!e.RenderDisabled(view.segmentUrls) ==>
            (Composition.HasSegments(p) <==> forall k :: 0 <= k < 3 ==> urls[k].Some?))
      && (|urls| == 3 && (forall k :: 0 <= k < 3 ==> urls[k].Some?) ==>
            && Composition.HasSegments(p)
            && forall k :: 0 <= k < 3 ==> p.segmentUrls[k] == urls[k].value)
      && p.secondaryColor == "#FFFFFF" && (p.logoUrl.None? <==> !Truthy(logoUrl))
      && (Truthy(logoUrl) ==> p.logoUrl == logoUrl)
    ensures var p := e.PreviewProps(view, logoUrl);
      var imgs := view.inputImageUrls;
      && |p.images| == CountPresent(imgs)
      && (forall u :: u in p.images <==> Some(u) in imgs)
      && (forall k :: 0 <= k < |imgs| && imgs[k].Some? ==>
            CountPresent(imgs[..k]) < |p.images| && p.images[CountPresent(imgs[..k])] == imgs[k].value)
  {
    var urls := view.segmentUrls.GetOr([]);
    var imgs := view.inputImageUrls;
    PresentLength(urls);
    PresentLength(imgs);
    if |urls| == 3 && (forall k :: 0 <= k < 3 ==> urls[k].Some?) {
      PresentAll(urls);
    }
    forall u ensures u in Present(imgs) <==> Some(u) in imgs {
      PresentMembers(imgs, u);
    }
    forall k | 0 <= k < |imgs| && imgs[k].Some?
      ensures CountPresent(imgs[..k]) < |Present(imgs)| && Present(imgs)[CountPresent(imgs[..k])] == imgs[k].value
    {
      PresentAt(imgs, k);
    }
  }

  /** Every corner the screen offers is one the composition places the logo in. */
  lemma LogoPositionsAreCorners(k: nat)
    requires k < |LogoPositionIds|
    ensures exists v, h ::
      (Composition.CornerId(v, h) == LogoPositionIds[k] &&
       Composition.LogoPlacement(LogoPositionIds[k]) == Composition.Placement(v, h, Composition.LogoPadding))
  {
    var corners := [(Composition.Top, Composition.Left), (Composition.Top, Composition.Right),
                    (Composition.Bottom, Composition.Left), (Composition.Bottom, Composition.Right)];
    var v, h := corners[k].0, corners[k].1;
    assert Composition.CornerId(v, h) == LogoPositionIds[k];
    Composition.LogoPlacementTable(v, h, LogoPositionIds[k]);
  }
}
