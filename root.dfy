/** The composition's registration (src/remotion/Root.tsx): the props it is rendered with,
    taken from the command line when any are given and from sample data otherwise. */
module Root {
  import opened Wrappers
  import opened Schema
  import Composition

  /** What `getInputProps()` hands over: the props fields that hold a value, and how many
      further keys `Object.keys` sees — keys whose value is `null` or `undefined`, and keys
      outside the props shape. */
  datatype InputProps = InputProps(fields: PartialProps, otherKeys: nat)

  /** Props given on the command line as exactly the fields of `p`. */
  function FromFields(p: PartialProps): InputProps {
    InputProps(p, 0)
  }

  /** `Object.keys(inputProps).length > 0`. */
  predicate AnyKey(input: InputProps) {
    var p := input.fields;
    || p.segmentUrls.Some? || p.images.Some? || p.logoUrl.Some? || p.captions.Some?
    || p.musicTrack.Some? || p.logoPosition.Some? || p.primaryColor.Some?
    || p.secondaryColor.Some? || p.styleId.Some? || input.otherKeys > 0
  }

  const SampleProps := CompositionProps(
    [],
    ["https://images.unsplash.com/photo-1506905925346-21bda4d32df4?w=1080&h=1920&fit=crop",
     "https://images.unsplash.com/photo-1469474968028-56623f02e42e?w=1080&h=1920&fit=crop",
     "https://images.unsplash.com/photo-1507003211169-0a1dd7228f2d?w=1080&h=1920&fit=crop"],
    Some("https://placehold.co/100x100/000000/FFFFFF?text=LOGO"),
    [Caption("Welcome to Your Brand", 0, 150),
     Caption("Amazing Features Await", 180, 330),
     Caption("Get Started Today!", 360, 540)],
    "",
    "bottom-right",
    "#c72c41",
    "#801336",
    "vibrant")

  /** `getProps`: every field of the given props, each falling back to its default when
      missing (or, for a string, empty); the sample when no props are given. */
  function GetProps(input: Option<InputProps>): CompositionProps {
    if input.Some? && AnyKey(input.value) then
      var p := input.value.fields;
      CompositionProps(
        p.segmentUrls.GetOr([]),
        p.images.GetOr([]),
        if Truthy(p.logoUrl) then p.logoUrl else None,
        p.captions.GetOr([]),
        Or(p.musicTrack, ""),
        Or(p.logoPosition, "bottom-right"),
        Or(p.primaryColor, "#c72c41"),
        Or(p.secondaryColor, "#801336"),
        Or(p.styleId, "vibrant"))
    else SampleProps
  }

  /** The shape of the props `getProps` hands out: a logo only when it is non-empty, and
      every string with a default non-empty. */
  predicate Normalized(p: CompositionProps) {
    && (p.logoUrl.None? || Truthy(p.logoUrl))
    && p.logoPosition != "" && p.primaryColor != "" && p.secondaryColor != "" && p.styleId != ""
  }

  /** Passing complete props on the command line renders exactly those props precisely when
      they are normalized; whatever `getProps` returns is normalized, so feeding its result
      back in changes nothing. */
  lemma GetPropsRoundTrip(p: CompositionProps, input: Option<InputProps>)
    ensures GetProps(Some(FromFields(ToPartial(p)))) == p <==> Normalized(p)
    ensures Normalized(GetProps(input))
    ensures GetProps(Some(FromFields(ToPartial(GetProps(input))))) == GetProps(input)
  {
    assert AnyKey(FromFields(ToPartial(p)));
    assert AnyKey(FromFields(ToPartial(GetProps(input))));
  }

  /** The props every field of which is missing: `getProps` fills in each default. */
  const DefaultProps := CompositionProps([], [], None, [], "", "bottom-right", "#c72c41", "#801336", "vibrant")

  /** Keys that hold no props value still count as given props: `{logoUrl: null}` or an
      unknown key selects the defaults (no stills, no logo, no captions), not the sample. */
  lemma OtherKeysSelectDefaults(input: InputProps)
    requires input.fields == NoProps && input.otherKeys > 0
    ensures GetProps(Some(input)) == DefaultProps
    ensures DefaultProps != SampleProps && DefaultProps.images == [] && DefaultProps.logoUrl.None?
  {
    assert AnyKey(input);
    assert |DefaultProps.images| != |SampleProps.images|;
  }

  /** Input props that are missing or have no key at all yield the sample, whose stills
      fill the three scenes and whose captions each fall inside one scene. */
  lemma SamplePreview(input: Option<InputProps>)
    requires input.None? || !AnyKey(input.value)
    ensures GetProps(input) == SampleProps
    ensures |SampleProps.images| == 3 && !Composition.HasSegments(SampleProps)
    ensures forall k :: 0 <= k < |SampleProps.captions| ==>
      var c := SampleProps.captions[k];
      && Composition.SceneDuration * k <= c.startFrame < c.endFrame
      && c.endFrame <= Composition.SceneDuration * (k + 1)
  {
  }

  /** A `<Composition>` registration. */
  datatype Registration = Registration(
    id: string, durationInFrames: nat, fps: nat, width: nat, height: nat,
    defaultProps: CompositionProps)

  function RemotionRoot(input: Option<InputProps>): (r: Registration)
    ensures r.id == "VideoComposition" && r.defaultProps == GetProps(input)
    ensures r.durationInFrames == 3 * Composition.SceneDuration == 18 * r.fps
    ensures r.fps == 30 && r.width == 1080 && r.height == 1920
  {
    Registration("VideoComposition", Composition.TotalDuration, Composition.VideoFps,
                 Composition.VideoWidth, Composition.VideoHeight, GetProps(input))
  }
}
