/** Frame-indexed evaluation of the video composition (src/components/VideoComposition.tsx):
    which scene is on screen, where the logo sits, which captions show and how far they have
    faded and slid, the background per style and the pan of a fallback still. */
module Composition {
  import opened Wrappers
  import opened Schema

  const VideoWidth: nat := 1080
  const VideoHeight: nat := 1920
  const VideoFps: nat := 30
  const SceneDuration: nat := 180
  const TotalDuration: nat := 540

  /** A `<Sequence from={from} durationInFrames={duration}>` shows its content on these frames. */
  predicate InSequence(frame: int, from: int, duration: nat) {
    from <= frame < from + duration
  }

  /** The scene slot whose sequence (from 180 i, 180 frames long) holds the frame. */
  function SceneSlot(frame: int): Option<nat> {
    if 0 <= frame < TotalDuration then Some(frame / SceneDuration) else None
  }

  /** The three scene sequences tile the timeline: a frame lies in slot i's sequence exactly
      when its slot is i, so at most one scene is on screen, and on every frame of
      [0, 540) exactly one slot is active. */
  lemma SceneSlotsTile(frame: int, i: nat)
    requires i < 3
    ensures InSequence(frame, SceneDuration * i, SceneDuration) <==> SceneSlot(frame) == Some(i)
    ensures SceneSlot(frame).Some? <==> 0 <= frame < TotalDuration
    ensures SceneSlot(frame).Some? ==> SceneSlot(frame).value < 3
    ensures TotalDuration == 3 * SceneDuration && TotalDuration == 18 * VideoFps
  {
  }

  /** Clips are used when there are exactly three segment URLs. */
  predicate HasSegments(p: CompositionProps) {
    |p.segmentUrls| == 3
  }

  /** What a scene slot shows: the clip, or the still image with its horizontal pan, or nothing. */
  datatype Visual = Clip(url: string) | Still(url: string, translateX: real)

  function SlotContent(p: CompositionProps, slot: nat, frame: nat): Option<Visual>
    requires slot < 3
  {
    if HasSegments(p) then Some(Clip(p.segmentUrls[slot]))
    else if |p.images| > slot then Some(Still(p.images[slot], KenBurnsShift(frame)))
    else None
  }

  function SceneAt(p: CompositionProps, frame: int): Option<Visual> {
    match SceneSlot(frame)
    case None => None
    case Some(slot) => SlotContent(p, slot, frame)
  }

  /** Slot i plays clip i exactly when there are three segment URLs; otherwise fallback
      image i is drawn only when there are more than i images, and nothing is drawn past
      the end of the timeline. */
  lemma SceneAtMeaning(p: CompositionProps, frame: int)
    ensures SceneSlot(frame).None? ==> SceneAt(p, frame).None?
    ensures SceneSlot(frame).Some? ==>
      var slot := SceneSlot(frame).value;
      && (HasSegments(p) ==> SceneAt(p, frame) == Some(Clip(p.segmentUrls[slot])))
      && (!HasSegments(p) && |p.images| > slot ==>
            SceneAt(p, frame).Some? && SceneAt(p, frame).value.Still? &&
            SceneAt(p, frame).value.url == p.images[slot])
      && (!HasSegments(p) && |p.images| <= slot ==> SceneAt(p, frame).None?)
    ensures SceneAt(p, frame).Some? && SceneAt(p, frame).value.Clip? <==>
              SceneSlot(frame).Some? && HasSegments(p)
  {
  }

  /** Strictly increasing breakpoints, as `interpolate` demands of its input range. */
  predicate Increasing(xs: seq<real>) {
    forall i, j :: 0 <= i < j < |xs| ==> xs[i] < xs[j]
  }

  /** Linear interpolation on one segment, clamped at both ends. */
  function Lerp(x: real, x0: real, x1: real, y0: real, y1: real): real
    requires x0 < x1
  {
    var t := if x < x0 then 0.0 else if x > x1 then 1.0 else (x - x0) / (x1 - x0);
    y0 + t * (y1 - y0)
  }

  lemma UnitRatio(a: real, d: real)
    requires 0.0 <= a <= d && d > 0.0
    ensures 0.0 <= a / d <= 1.0
  {
    var t := a / d;
    assert t * d == a;
    assert (1.0 - t) * d == d - a;
  }

  lemma LerpBounds(x: real, x0: real, x1: real, y0: real, y1: real, lo: real, hi: real)
    requires x0 < x1 && lo <= y0 <= hi && lo <= y1 <= hi
    ensures lo <= Lerp(x, x0, x1, y0, y1) <= hi
  {
    var t := if x < x0 then 0.0 else if x > x1 then 1.0 else (x - x0) / (x1 - x0);
    if x0 <= x <= x1 {
      UnitRatio(x - x0, x1 - x0);
    }
    assert Lerp(x, x0, x1, y0, y1) == (1.0 - t) * y0 + t * y1;
    assert (1.0 - t) * lo <= (1.0 - t) * y0 <= (1.0 - t) * hi;
    assert t * lo <= t * y1 <= t * hi;
  }

  /** Remotion's `interpolate` with clamping on both sides: the input range is searched for
      the first segment whose right end is at least `x` (the last segment when there is
      none), and that segment's clamped line gives the value. */
  function Interpolate(x: real, xs: seq<real>, ys: seq<real>): real
    requires |xs| == |ys| >= 2 && Increasing(xs)
    decreases |xs|
  {
    if |xs| == 2 || x <= xs[1] then Lerp(x, xs[0], xs[1], ys[0], ys[1])
    else Interpolate(x, xs[1..], ys[1..])
  }

  /** The value never leaves the range of the outputs. */
  lemma {:induction false} InterpolateBounds(x: real, xs: seq<real>, ys: seq<real>, lo: real, hi: real)
    requires |xs| == |ys| >= 2 && Increasing(xs)
    requires forall k :: 0 <= k < |ys| ==> lo <= ys[k] <= hi
    ensures lo <= Interpolate(x, xs, ys) <= hi
  {
    if |xs| == 2 || x <= xs[1] {
      LerpBounds(x, xs[0], xs[1], ys[0], ys[1], lo, hi);
    } else {
      assert forall k :: 0 <= k < |ys[1..]| ==> ys[1..][k] == ys[k + 1];
      InterpolateBounds(x, xs[1..], ys[1..], lo, hi);
    }
  }

  /** At a breakpoint, or clamped beyond the first or the last, the value is that output. */
  lemma {:induction false} InterpolateAt(x: real, xs: seq<real>, ys: seq<real>, k: nat)
    requires |xs| == |ys| >= 2 && Increasing(xs) && k < |xs|
    requires x == xs[k] || (k == 0 && x <= xs[0]) || (k == |xs| - 1 && x >= xs[k])
    ensures Interpolate(x, xs, ys) == ys[k]
  {
    if |xs| == 2 || x <= xs[1] {
      if k == 1 && x <= xs[1] {
        assert x - xs[0] == xs[1] - xs[0];
        assert (x - xs[0]) / (xs[1] - xs[0]) == 1.0;
      }
    } else {
      assert xs[0] < xs[1];
      InterpolateAt(x, xs[1..], ys[1..], k - 1);
    }
  }

  /** Between two breakpoints with equal outputs the value is that output. */
  lemma {:induction false} InterpolateFlat(x: real, xs: seq<real>, ys: seq<real>, k: nat)
    requires |xs| == |ys| >= 2 && Increasing(xs) && k + 1 < |xs|
    requires xs[k] <= x <= xs[k + 1] && ys[k] == ys[k + 1]
    ensures Interpolate(x, xs, ys) == ys[k]
  {
    if |xs| == 2 || x <= xs[1] {
      if k > 0 {
        assert xs[1] <= xs[k];
        InterpolateAt(x, xs, ys, 1);
        assert x == xs[1] && k == 1;
      }
    } else {
      if k == 0 {
        assert false;
      }
      InterpolateFlat(x, xs[1..], ys[1..], k - 1);
    }
  }

  /** Strictly past a segment's left breakpoint and up to its right one, the value lies on
      that segment's line. */
  lemma {:induction false} InterpolateLinear(x: real, xs: seq<real>, ys: seq<real>, k: nat)
    requires |xs| == |ys| >= 2 && Increasing(xs) && k + 1 < |xs|
    requires xs[k] < x <= xs[k + 1]
    ensures Interpolate(x, xs, ys) == ys[k] + (x - xs[k]) / (xs[k + 1] - xs[k]) * (ys[k + 1] - ys[k])
  {
    if k > 0 {
      assert xs[1] <= xs[k];
      InterpolateLinear(x, xs[1..], ys[1..], k - 1);
    }
  }

  const CaptionStops: seq<real> := [0.0, 0.1, 0.9, 1.0]
  const OpacityStops: seq<real> := [0.0, 1.0, 1.0, 0.0]
  const OffsetStops: seq<real> := [50.0, 0.0, 0.0, -50.0]

  function CaptionOpacity(progress: real): real {
    Interpolate(progress, CaptionStops, OpacityStops)
  }

  function CaptionOffset(progress: real): real {
    Interpolate(progress, CaptionStops, OffsetStops)
  }

  /** Opacity stays in [0, 1], is 0 at both ends and 1 on the middle band [0.1, 0.9]. */
  lemma CaptionOpacityShape(progress: real)
    ensures 0.0 <= CaptionOpacity(progress) <= 1.0
    ensures progress <= 0.0 || progress >= 1.0 ==> CaptionOpacity(progress) == 0.0
    ensures 0.1 <= progress <= 0.9 ==> CaptionOpacity(progress) == 1.0
  {
    InterpolateBounds(progress, CaptionStops, OpacityStops, 0.0, 1.0);
    if progress <= 0.0 { InterpolateAt(progress, CaptionStops, OpacityStops, 0); }
    if progress >= 1.0 { InterpolateAt(progress, CaptionStops, OpacityStops, 3); }
    if 0.1 <= progress <= 0.9 { InterpolateFlat(progress, CaptionStops, OpacityStops, 1); }
  }

  /** The offset stays in [-50, 50], starts at 50, ends at -50 and is 0 on the middle band. */
  lemma CaptionOffsetShape(progress: real)
    ensures -50.0 <= CaptionOffset(progress) <= 50.0
    ensures progress <= 0.0 ==> CaptionOffset(progress) == 50.0
    ensures progress >= 1.0 ==> CaptionOffset(progress) == -50.0
    ensures 0.1 <= progress <= 0.9 ==> CaptionOffset(progress) == 0.0
  {
    InterpolateBounds(progress, CaptionStops, OffsetStops, -50.0, 50.0);
    if progress <= 0.0 { InterpolateAt(progress, CaptionStops, OffsetStops, 0); }
    if progress >= 1.0 { InterpolateAt(progress, CaptionStops, OffsetStops, 3); }
    if 0.1 <= progress <= 0.9 { InterpolateFlat(progress, CaptionStops, OffsetStops, 1); }
  }

  /** A caption's vertical offset and opacity. */
  datatype Motion = Motion(offsetY: real, opacity: real)

  /** A visible caption; its motion is undefined (`0 / 0`) when it starts and ends on the
      same frame. */
  datatype CaptionView = CaptionView(text: string, motion: Option<Motion>)

  function Progress(c: Caption, frame: int): real
    requires c.startFrame < c.endFrame
  {
    (frame - c.startFrame) as real / (c.endFrame - c.startFrame) as real
  }

  function CaptionAt(c: Caption, frame: int): Option<CaptionView> {
    if !(c.startFrame <= frame <= c.endFrame) then None
    else if c.startFrame == c.endFrame then Some(CaptionView(c.text, None))
    else
      var p := Progress(c, frame);
      Some(CaptionView(c.text, Some(Motion(CaptionOffset(p), CaptionOpacity(p)))))
  }

  /** A caption shows on the closed frame range [start, end] (never when start > end); on
      its first and last frame it is transparent, sliding from 50 up to -50, and it is
      fully opaque and in place over the middle 80 % of its range. */
  lemma CaptionWindow(c: Caption, frame: int)
    ensures CaptionAt(c, frame).Some? <==> c.startFrame <= frame <= c.endFrame
    ensures CaptionAt(c, frame).Some? ==> CaptionAt(c, frame).value.text == c.text
    ensures c.startFrame < c.endFrame && c.startFrame <= frame <= c.endFrame ==>
      var m := CaptionAt(c, frame).value.motion.value;
      && 0.0 <= m.opacity <= 1.0 && -50.0 <= m.offsetY <= 50.0
      && (frame == c.startFrame ==> m.opacity == 0.0 && m.offsetY == 50.0)
      && (frame == c.endFrame ==> m.opacity == 0.0 && m.offsetY == -50.0)
      && (0.1 <= Progress(c, frame) <= 0.9 ==> m.opacity == 1.0 && m.offsetY == 0.0)
  {
    if c.startFrame < c.endFrame && c.startFrame <= frame <= c.endFrame {
      var p := Progress(c, frame);
      CaptionOpacityShape(p);
      CaptionOffsetShape(p);
      if frame == c.endFrame {
        assert p == 1.0;
      }
    }
  }

  /** Each caption is evaluated on its own, in order. */
  function CaptionsAt(cs: seq<Caption>, frame: int): (r: seq<Option<CaptionView>>) {
    if cs == [] then [] else [CaptionAt(cs[0], frame)] + CaptionsAt(cs[1..], frame)
  }

  lemma {:induction false} CaptionsIndependent(cs: seq<Caption>, frame: int)
    ensures |CaptionsAt(cs, frame)| == |cs|
    ensures forall k :: 0 <= k < |cs| ==> CaptionsAt(cs, frame)[k] == CaptionAt(cs[k], frame)
  {
    if cs != [] {
      CaptionsIndependent(cs[1..], frame);
      forall k | 0 <= k < |cs| ensures CaptionsAt(cs, frame)[k] == CaptionAt(cs[k], frame) {
        if k > 0 { assert cs[k] == cs[1..][k - 1]; }
      }
    }
  }

  datatype VerticalEdge = Top | Bottom
  datatype HorizontalEdge = Left | Right
  datatype Placement = Placement(vertical: VerticalEdge, horizontal: HorizontalEdge, padding: int)

  const LogoPadding: int := 40

  /** `getLogoPosition`: the corner a position id names; an unknown id means bottom-right. */
  function LogoPlacement(position: string): Placement {
    match position
    case "top-left" => Placement(Top, Left, LogoPadding)
    case "top-right" => Placement(Top, Right, LogoPadding)
    case "bottom-left" => Placement(Bottom, Left, LogoPadding)
    case "bottom-right" => Placement(Bottom, Right, LogoPadding)
    case _ => Placement(Bottom, Right, LogoPadding)
  }

  /** The position id of a corner. */
  function CornerId(v: VerticalEdge, h: HorizontalEdge): string {
    match (v, h)
    case (Top, Left) => "top-left"
    case (Top, Right) => "top-right"
    case (Bottom, Left) => "bottom-left"
    case (Bottom, Right) => "bottom-right"
  }

  /** Each corner's id maps back to that corner, always 40 from both edges; an id that is
      none of the four maps to bottom-right. */
  lemma LogoPlacementTable(v: VerticalEdge, h: HorizontalEdge, position: string)
    ensures LogoPlacement(CornerId(v, h)) == Placement(v, h, LogoPadding)
    ensures (forall v', h' :: CornerId(v', h') != position) ==>
              LogoPlacement(position) == Placement(Bottom, Right, LogoPadding)
  {
    if forall v', h' :: CornerId(v', h') != position {
      assert CornerId(Top, Left) != position && CornerId(Top, Right) != position;
      assert CornerId(Bottom, Left) != position && CornerId(Bottom, Right) != position;
    }
  }

  /** The logo is drawn when the props carry a (non-empty) logo URL. */
  function LogoAt(p: CompositionProps, frame: int): Option<Placement> {
    if Truthy(p.logoUrl) then Some(LogoPlacement(p.logoPosition)) else None
  }

  /** The logo does not depend on the frame: it is on every frame or on none. */
  lemma LogoOnEveryFrame(p: CompositionProps, f: int, g: int)
    ensures LogoAt(p, f) == LogoAt(p, g)
    ensures LogoAt(p, f).Some? <==> Truthy(p.logoUrl)
  {
  }

  /** `getBackgroundStyle`: one gradient per named style, a plain default otherwise. */
  function Background(styleId: string): string {
    match styleId
    case "cinematic" => "linear-gradient(135deg, #1a1a2e 0%, #16213e 50%, #0f3460 100%)"
    case "vibrant" => "linear-gradient(135deg, #2d132c 0%, #801336 50%, #c72c41 100%)"
    case "slowmo" => "linear-gradient(135deg, #0f2027 0%, #203a43 50%, #2c5364 100%)"
    case "minimal" => "linear-gradient(135deg, #232526 0%, #414345 100%)"
    case "rustic" => "linear-gradient(135deg, #3e2723 0%, #5d4037 50%, #8d6e63 100%)"
    case "luxury" => "linear-gradient(135deg, #0f0c29 0%, #302b63 50%, #24243e 100%)"
    case _ => DefaultBackground
  }

  const DefaultBackground: string := "linear-gradient(135deg, #1a1a2e 0%, #16213e 100%)"

  /** Any id other than the six named styles selects the default; no named style does. */
  lemma BackgroundTable(styleId: string)
    ensures !NamedStyle(styleId) <==> Background(styleId) == DefaultBackground
  {
  }

  /** The fallback still's horizontal pan: the frame's position within its 180-frame scene
      mapped linearly (no easing) onto [0, 20]. The frame is never negative. */
  function KenBurnsShift(frame: nat): real {
    Interpolate((frame % SceneDuration) as real / SceneDuration as real, [0.0, 1.0], [0.0, 20.0])
  }

  /** The pan is 20 times the elapsed fraction of the scene, lies in [0, 20) and restarts
      with every scene. */
  lemma KenBurnsShiftLinear(frame: nat)
    ensures KenBurnsShift(frame) == 20.0 * ((frame % SceneDuration) as real / SceneDuration as real)
    ensures 0.0 <= KenBurnsShift(frame) < 20.0
    ensures KenBurnsShift(frame + SceneDuration) == KenBurnsShift(frame)
  {
    var t := (frame % SceneDuration) as real / SceneDuration as real;
    assert 0.0 <= t < 1.0;
    assert (frame + SceneDuration) % SceneDuration == frame % SceneDuration;
  }

  /** Everything the composition puts on screen at one frame. The accent bars and corner
      marks are drawn on every frame in the primary colour. */
  datatype FrameView = FrameView(
    background: string,
    scene: Option<Visual>,
    logo: Option<Placement>,
    captions: seq<Option<CaptionView>>,
    accent: string)

  function EvaluateFrame(p: CompositionProps, frame: int): FrameView {
    FrameView(Background(p.styleId), SceneAt(p, frame), LogoAt(p, frame),
              CaptionsAt(p.captions, frame), p.primaryColor)
  }
}
