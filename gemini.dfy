/** The part of a generator response the code reads, and `extractVideoFromResponse`
    (convex/actions.ts), which takes the clip out of it. */
module Gemini {
  import opened Wrappers

  datatype InlineData = InlineData(data: Option<string>, mimeType: Option<string>)
  datatype Part = Part(inlineData: Option<InlineData>)
  datatype Content = Content(parts: Option<seq<Part>>)
  datatype Candidate = Candidate(content: Option<Content>)
  datatype GenerateResponse = GenerateResponse(candidates: Option<seq<Candidate>>)

  /** A decoded clip: its bytes and MIME type. */
  datatype VideoData = VideoData(data: seq<bv8>, mimeType: string)

  /** A part carries a clip when it has inline data with a non-empty payload. */
  predicate HasVideo(p: Part) {
    p.inlineData.Some? && Truthy(p.inlineData.value.data)
  }

  /** The parts of the first candidate, when the response has one with content. */
  function FirstCandidateParts(r: GenerateResponse): Option<seq<Part>> {
    if r.candidates.Some? && |r.candidates.value| > 0 && r.candidates.value[0].content.Some?
    then r.candidates.value[0].content.value.parts
    else None
  }

  /** The first part that carries a clip. */
  function FirstVideoPart(parts: seq<Part>): (r: Option<nat>)
    ensures r.Some? ==> r.value < |parts| && HasVideo(parts[r.value]) &&
                        forall j :: 0 <= j < r.value ==> !HasVideo(parts[j])
    ensures r.None? ==> forall j :: 0 <= j < |parts| ==> !HasVideo(parts[j])
  {
    if parts == [] then None
    else if HasVideo(parts[0]) then Some(0)
    else match FirstVideoPart(parts[1..])
      case None => None
      case Some(k) => Some(k + 1)
  }

  /** `Uint8Array` stores a character code modulo 256. */
  function ToByte(c: char): bv8 {
    (c as int % 256) as bv8
  }

  function ToBytes(s: string): (r: seq<bv8>)
    ensures |r| == |s|
  {
    seq(|s|, k requires 0 <= k < |s| => ToByte(s[k]))
  }

  /** What `extractVideoFromResponse` returns. `atob` is base64 decoding, `None` when it
      throws (the code catches that and returns null). */
  function Extract(r: GenerateResponse, atob: string -> Option<string>): Option<VideoData> {
    match FirstCandidateParts(r)
    case None => None
    case Some(parts) =>
      match FirstVideoPart(parts)
      case None => None
      case Some(k) =>
        var inline := parts[k].inlineData.value;
        match atob(inline.data.value)
        case None => None
        case Some(binary) =>
          Some(VideoData(ToBytes(binary),
                         if Truthy(inline.mimeType) then inline.mimeType.value else "video/mp4"))
  }

  /** Only the first candidate is examined, and in it the first part with a payload: its
      decoded bytes, one per decoded character, with its own MIME type or else video/mp4.
      Otherwise, or when decoding fails, there is no clip. */
  lemma ExtractMeaning(r: GenerateResponse, atob: string -> Option<string>)
    ensures Extract(r, atob).Some? <==>
      exists k :: FirstCandidateParts(r).Some? && 0 <= k < |FirstCandidateParts(r).value| &&
        var parts := FirstCandidateParts(r).value;
        HasVideo(parts[k]) && (forall j :: 0 <= j < k ==> !HasVideo(parts[j])) &&
        atob(parts[k].inlineData.value.data.value).Some?
    ensures Extract(r, atob).Some? ==>
      var parts := FirstCandidateParts(r).value;
      var k := FirstVideoPart(parts).value;
      var binary := atob(parts[k].inlineData.value.data.value).value;
      var v := Extract(r, atob).value;
      && |v.data| == |binary|
      && (forall i :: 0 <= i < |binary| ==> v.data[i] == ToByte(binary[i]))
      && v.mimeType != ""
      && (Truthy(parts[k].inlineData.value.mimeType) ==> v.mimeType == parts[k].inlineData.value.mimeType.value)
      && (!Truthy(parts[k].inlineData.value.mimeType) ==> v.mimeType == "video/mp4")
  {
    if Extract(r, atob).Some? {
      var parts := FirstCandidateParts(r).value;
      var k := FirstVideoPart(parts).value;
      assert FirstCandidateParts(r).Some? && 0 <= k < |parts|;
    }
    if FirstCandidateParts(r).Some? {
      var parts := FirstCandidateParts(r).value;
      forall k | 0 <= k < |parts| && HasVideo(parts[k]) && (forall j :: 0 <= j < k ==> !HasVideo(parts[j]))
        ensures FirstVideoPart(parts) == Some(k)
      {
      }
    }
  }

  /** `extractVideoFromResponse`: scan the first candidate's parts and copy the decoded
      payload of the first one with data into a fresh byte array. */
  method ExtractVideoFromResponse(r: GenerateResponse, atob: string -> Option<string>)
    returns (v: Option<VideoData>)
    ensures v == Extract(r, atob)
  {
    var candidate := FirstCandidateParts(r);
    if candidate.None? {
      return None;
    }
    var parts := candidate.value;
    var i := 0;
    while i < |parts|
      invariant 0 <= i <= |parts|
      invariant forall j :: 0 <= j < i ==> !HasVideo(parts[j])
    {
      var part := parts[i];
      if part.inlineData.Some? && part.inlineData.value.data.Some? && part.inlineData.value.data.value != "" {
        var decoded := atob(part.inlineData.value.data.value);
        if decoded.None? {
          return None;
        }
        var binary := decoded.value;
        var bytes := new bv8[|binary|];
        var n := 0;
        while n < |binary|
          invariant 0 <= n <= |binary|
          invariant forall k :: 0 <= k < n ==> bytes[k] == ToByte(binary[k])
        {
          bytes[n] := ToByte(binary[n]);
          n := n + 1;
        }
        var mime := part.inlineData.value.mimeType;
        assert FirstVideoPart(parts) == Some(i);
        assert bytes[..] == ToBytes(binary);
        return Some(VideoData(bytes[..], if mime.Some? && mime.value != "" then mime.value else "video/mp4"));
      }
      i := i + 1;
    }
    return None;
  }
}
