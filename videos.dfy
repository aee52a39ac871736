/** The `videos` table and the mutations and queries over it (convex/videos.ts). */
module Videos {
  import opened Wrappers
  import opened Schema

  /** One write the store has applied, in the order applied. Only the model keeps this log:
      it lets callers state in which order an action wrote to a job. */
  datatype Write =
    | Inserted(id: Id)
    | StatusWritten(id: Id, status: Status)
    | SegmentsWritten(id: Id, status: Status)
    | GeneratedVideoWritten(id: Id, status: Status)
    | PropsWritten(id: Id)

  /** The arguments of `updateRemotionProps`: either a complete props object, or the
      individual fields to merge. */
  datatype PropsArgs = PropsArgs(
    captions: Option<seq<Caption>>,
    musicTrack: Option<string>,
    logoPosition: Option<string>,
    primaryColor: Option<string>,
    remotionProps: Option<CompositionProps>)

  /** The error the database raises when a patch would leave a document that does not match
      the table's schema. */
  const SchemaMismatchMessage: string := "Document does not match the schema of table videos"

  /** A complete props object fits the schema only when its logo is a string: `logoUrl` is
      an optional string there, and `null` is not one. Every other field has its schema type. */
  predicate Storable(p: CompositionProps) {
    p.logoUrl.Some?
  }

  /** A video as the queries return it: the record plus its resolved storage URLs. */
  datatype VideoView = VideoView(
    video: Video,
    inputImageUrls: seq<Option<string>>,
    generatedVideoUrl: Option<string>,
    segmentUrls: Option<seq<Option<string>>>)

  /** The record `createJob` inserts. */
  function NewJob(user: UserId, styleId: string, prompt: string, inputImageStorageIds: seq<string>,
                  logoAssetId: Option<AssetId>, now: int): (v: Video)
    ensures v.status == Queued && v.userId == user && v.styleId == styleId && v.prompt == prompt
    ensures v.inputImageStorageIds == inputImageStorageIds && v.logoAssetId == logoAssetId
    ensures v.segments.None? && v.remotionProps.None? && v.generatedVideoStorageId.None?
    ensures v.errorMessage.None?
  {
    Video(user, prompt, styleId, Queued, inputImageStorageIds, logoAssetId, None, None, None, now, None)
  }

  /** The patch of `updateStatus`: the error message is written only when it is non-empty,
      so an earlier message is never cleared. */
  function WithStatus(v: Video, status: Status, errorMessage: Option<string>): (r: Video)
    ensures r.status == status
    ensures Truthy(errorMessage) ==> r.errorMessage == errorMessage
    ensures !Truthy(errorMessage) ==> r.errorMessage == v.errorMessage
    ensures v.errorMessage.Some? ==> r.errorMessage.Some?
    ensures r.(status := v.status, errorMessage := v.errorMessage) == v
  {
    if Truthy(errorMessage) then v.(status := status, errorMessage := errorMessage)
    else v.(status := status)
  }

  /** The patch of `updateSegments`: segments and status together, nothing else. */
  function WithSegments(v: Video, segments: seq<Segment>, status: Status): (r: Video)
    ensures r.segments == Some(segments) && r.status == status
    ensures r.(segments := v.segments, status := v.status) == v
  {
    v.(segments := Some(segments), status := status)
  }

  /** The patch of `updateGeneratedVideo`: the final video and status together, nothing else. */
  function WithGeneratedVideo(v: Video, storageId: string, status: Status): (r: Video)
    ensures r.generatedVideoStorageId == Some(storageId) && r.status == status
    ensures r.(generatedVideoStorageId := v.generatedVideoStorageId, status := v.status) == v
  {
    v.(generatedVideoStorageId := Some(storageId), status := status)
  }

  /** The field-wise merge of `updateRemotionProps` over the current props (or `{}`):
      captions overwrite whenever given, even when empty; a string field overwrites only when
      it is non-empty; every other field keeps its stored value. No default is filled in. */
  function MergeProps(current: Option<PartialProps>, args: PropsArgs): (r: PartialProps)
    ensures var base := current.GetOr(NoProps);
      && r.captions == (if args.captions.Some? then args.captions else base.captions)
      && r.musicTrack == (if Truthy(args.musicTrack) then args.musicTrack else base.musicTrack)
      && r.logoPosition == (if Truthy(args.logoPosition) then args.logoPosition else base.logoPosition)
      && r.primaryColor == (if Truthy(args.primaryColor) then args.primaryColor else base.primaryColor)
      && r.(captions := base.captions, musicTrack := base.musicTrack,
            logoPosition := base.logoPosition, primaryColor := base.primaryColor) == base
  {
    var base := current.GetOr(NoProps);
    var withCaptions := if args.captions.Some? then base.(captions := args.captions) else base;
    var withMusic := if Truthy(args.musicTrack) then withCaptions.(musicTrack := args.musicTrack) else withCaptions;
    var withLogo := if Truthy(args.logoPosition) then withMusic.(logoPosition := args.logoPosition) else withMusic;
    if Truthy(args.primaryColor) then withLogo.(primaryColor := args.primaryColor) else withLogo
  }

  /** The props `updateRemotionProps` stores: a complete object replaces, otherwise merge. */
  function UpdatedProps(current: Option<PartialProps>, args: PropsArgs): PartialProps {
    if args.remotionProps.Some? then ToPartial(args.remotionProps.value) else MergeProps(current, args)
  }

  /** Merging the same fields a second time changes nothing more. */
  lemma MergeIdempotent(current: Option<PartialProps>, args: PropsArgs)
    ensures MergeProps(Some(MergeProps(current, args)), args) == MergeProps(current, args)
  {
    var once := MergeProps(current, args);
    var twice := MergeProps(Some(once), args);
    assert twice.(captions := once.captions, musicTrack := once.musicTrack,
                  logoPosition := once.logoPosition, primaryColor := once.primaryColor) == once;
  }

  /** Storage URL resolution of each id, in order (`ids.map(id => ctx.storage.getUrl(id))`). */
  function ResolveAll(ids: seq<string>, getUrl: string -> Option<string>): (r: seq<Option<string>>)
    ensures |r| == |ids|
  {
    if ids == [] then [] else [getUrl(ids[0])] + ResolveAll(ids[1..], getUrl)
  }

  lemma {:induction false} ResolveAllAt(ids: seq<string>, getUrl: string -> Option<string>)
    ensures |ResolveAll(ids, getUrl)| == |ids|
    ensures forall k :: 0 <= k < |ids| ==> ResolveAll(ids, getUrl)[k] == getUrl(ids[k])
  {
    if ids != [] {
      ResolveAllAt(ids[1..], getUrl);
      forall k | 0 <= k < |ids| ensures ResolveAll(ids, getUrl)[k] == getUrl(ids[k]) {
        if k > 0 { assert ids[k] == ids[1..][k - 1]; }
      }
    }
  }

  function StorageIds(segments: seq<Segment>): (r: seq<string>)
    ensures |r| == |segments|
    ensures forall k :: 0 <= k < |segments| ==> r[k] == segments[k].storageId
  {
    if segments == [] then [] else [segments[0].storageId] + StorageIds(segments[1..])
  }

  /** The derived fields `get` and `list` add to a record. */
  function View(v: Video, getUrl: string -> Option<string>): VideoView {
    VideoView(
      v,
      ResolveAll(v.inputImageStorageIds, getUrl),
      if Truthy(v.generatedVideoStorageId) then getUrl(v.generatedVideoStorageId.value) else None,
      if v.segments.Some? then Some(ResolveAll(StorageIds(v.segments.value), getUrl)) else None)
  }

  /** One input URL per input id and one segment URL per segment, each in order; segment URLs
      are absent exactly when the record has no segments (an empty list still yields `[]`). */
  lemma ViewShape(v: Video, getUrl: string -> Option<string>)
    ensures var w := View(v, getUrl);
      && w.video == v
      && |w.inputImageUrls| == |v.inputImageStorageIds|
      && (forall k :: 0 <= k < |v.inputImageStorageIds| ==>
            w.inputImageUrls[k] == getUrl(v.inputImageStorageIds[k]))
      && (w.segmentUrls.None? <==> v.segments.None?)
      && (v.segments.Some? ==>
            && |w.segmentUrls.value| == |v.segments.value|
            && forall k :: 0 <= k < |v.segments.value| ==>
                 w.segmentUrls.value[k] == getUrl(v.segments.value[k].storageId))
      && (w.generatedVideoUrl.Some? ==> Truthy(v.generatedVideoStorageId))
  {
    ResolveAllAt(v.inputImageStorageIds, getUrl);
    if v.segments.Some? {
      ResolveAllAt(StorageIds(v.segments.value), getUrl);
    }
  }

  function Views(vs: seq<Video>, getUrl: string -> Option<string>): (r: seq<VideoView>)
    ensures |r| == |vs|
    ensures forall k :: 0 <= k < |vs| ==> r[k] == View(vs[k], getUrl)
  {
    if vs == [] then [] else [View(vs[0], getUrl)] + Views(vs[1..], getUrl)
  }

  /** The ids of `user`'s records below `n` (the `by_user` index read in descending order):
      each is one of the user's records, every such record is listed, newest first. */
  function UserIdsDesc(table: map<Id, Video>, user: UserId, n: nat): (r: seq<Id>)
    ensures forall k :: 0 <= k < |r| ==> r[k] < n && r[k] in table && table[r[k]].userId == user
    ensures forall id :: 0 <= id < n && id in table && table[id].userId == user ==> id in r
    ensures forall i, j :: 0 <= i < j < |r| ==> r[i] > r[j]
  {
    if n == 0 then []
    else
      var rest := UserIdsDesc(table, user, n - 1);
      if n - 1 in table && table[n - 1].userId == user then [n - 1] + rest else rest
  }

  /** The page size `list` uses: the given limit, or 50 when it is absent or 0. */
  function PageSize(limit: Option<nat>): nat {
    if limit.Some? && limit.value != 0 then limit.value else 50
  }

  class VideoTable {
    var videos: map<Id, Video>
    /** The id the next insert receives; ids grow with creation time. */
    var nextId: Id
    /** The `users` table's token index: token identifier to user id. */
    var users: map<string, UserId>
    ghost var writes: seq<Write>

    ghost predicate Valid()
      reads this
    {
      forall id :: id in videos ==> id < nextId
    }

    constructor (users: map<string, UserId>)
      ensures Valid() && videos == map[] && this.users == users && writes == []
    {
      videos := map[];
      nextId := 0;
      this.users := users;
      writes := [];
    }

    /** `createJob`: insert a queued record for the signed-in user and return its id. */
    method CreateJob(identity: Option<string>, styleId: string, prompt: string,
                     inputImageStorageIds: seq<string>, logoAssetId: Option<AssetId>, now: int)
      returns (r: Result<Id>)
      requires Valid()
      modifies this`videos, this`nextId, this`writes
      ensures Valid()
      ensures identity.None? ==> r == Failure("Unauthenticated call to createJob")
      ensures identity.Some? && identity.value !in users ==> r == Failure("User not found")
      ensures r.Failure? ==> videos == old(videos) && writes == old(writes)
      ensures identity.Some? && identity.value in users ==>
        && r.Success? && r.value !in old(videos)
        && videos == old(videos)[r.value := NewJob(users[identity.value], styleId, prompt,
                                                   inputImageStorageIds, logoAssetId, now)]
        && writes == old(writes) + [Inserted(r.value)]
    {
      if identity.None? {
        return Failure("Unauthenticated call to createJob");
      }
      if identity.value !in users {
        return Failure("User not found");
      }
      var id := nextId;
      videos := videos[id := NewJob(users[identity.value], styleId, prompt, inputImageStorageIds,
                                    logoAssetId, now)];
      nextId := nextId + 1;
      writes := writes + [Inserted(id)];
      r := Success(id);
    }

    /** `updateStatus`. */
    method UpdateStatus(id: Id, status: Status, errorMessage: Option<string>) returns (r: Outcome)
      requires Valid()
      modifies this`videos, this`writes
      ensures Valid()
      ensures id !in old(videos) ==>
        r == Fail("Video not found") && videos == old(videos) && writes == old(writes)
      ensures id in old(videos) ==>
        && r == Pass
        && videos == old(videos)[id := WithStatus(old(videos)[id], status, errorMessage)]
        && writes == old(writes) + [StatusWritten(id, status)]
    {
      if id !in videos {
        return Fail("Video not found");
      }
      videos := videos[id := WithStatus(videos[id], status, errorMessage)];
      writes := writes + [StatusWritten(id, status)];
      r := Pass;
    }

    /** `updateGeneratedVideo`. */
    method UpdateGeneratedVideo(id: Id, storageId: string, status: Status) returns (r: Outcome)
      requires Valid()
      modifies this`videos, this`writes
      ensures Valid()
      ensures id !in old(videos) ==>
        r == Fail("Video not found") && videos == old(videos) && writes == old(writes)
      ensures id in old(videos) ==>
        && r == Pass
        && videos == old(videos)[id := WithGeneratedVideo(old(videos)[id], storageId, status)]
        && writes == old(writes) + [GeneratedVideoWritten(id, status)]
    {
      if id !in videos {
        return Fail("Video not found");
      }
      videos := videos[id := WithGeneratedVideo(videos[id], storageId, status)];
      writes := writes + [GeneratedVideoWritten(id, status)];
      r := Pass;
    }

    /** `updateSegments`. */
    method UpdateSegments(id: Id, segments: seq<Segment>, status: Status) returns (r: Outcome)
      requires Valid()
      modifies this`videos, this`writes
      ensures Valid()
      ensures id !in old(videos) ==>
        r == Fail("Video not found") && videos == old(videos) && writes == old(writes)
      ensures id in old(videos) ==>
        && r == Pass
        && videos == old(videos)[id := WithSegments(old(videos)[id], segments, status)]
        && writes == old(writes) + [SegmentsWritten(id, status)]
    {
      if id !in videos {
        return Fail("Video not found");
      }
      videos := videos[id := WithSegments(videos[id], segments, status)];
      writes := writes + [SegmentsWritten(id, status)];
      r := Pass;
    }

    /** `updateRemotionProps`: replace wholesale, or merge field by field. The patch is
        rejected when the complete object does not fit the schema. */
    method UpdateRemotionProps(id: Id, args: PropsArgs) returns (r: Outcome)
      requires Valid()
      modifies this`videos, this`writes
      ensures Valid()
      ensures id !in old(videos) ==>
        r == Fail("Video not found") && videos == old(videos) && writes == old(writes)
      ensures id in old(videos) && args.remotionProps.Some? && !Storable(args.remotionProps.value) ==>
        r == Fail(SchemaMismatchMessage) && videos == old(videos) && writes == old(writes)
      ensures id in old(videos) && (args.remotionProps.None? || Storable(args.remotionProps.value)) ==>
        && r == Pass
        && videos == old(videos)[id := old(videos)[id].(
             remotionProps := Some(UpdatedProps(old(videos)[id].remotionProps, args)))]
        && writes == old(writes) + [PropsWritten(id)]
    {
      if id !in videos {
        return Fail("Video not found");
      }
      var v := videos[id];
      if args.remotionProps.Some? && !Storable(args.remotionProps.value) {
        return Fail(SchemaMismatchMessage);
      }
      var props := if args.remotionProps.Some? then ToPartial(args.remotionProps.value)
                   else MergeProps(v.remotionProps, args);
      videos := videos[id := v.(remotionProps := Some(props))];
      writes := writes + [PropsWritten(id)];
      r := Pass;
    }

    /** `get`: the record with its derived URLs, or null for an unknown id. */
    function Get(id: Id, getUrl: string -> Option<string>): (r: Option<VideoView>)
      reads this
      ensures r.None? <==> id !in videos
      ensures r.Some? ==> r.value == View(videos[id], getUrl)
    {
      if id in videos then (ViewShape(videos[id], getUrl); Some(View(videos[id], getUrl))) else None
    }

    /** `list`: one page of the signed-in user's records, newest first, each with its URLs. */
    function List(identity: Option<string>, limit: Option<nat>, getUrl: string -> Option<string>)
      : (r: seq<VideoView>)
      reads this
      ensures identity.None? || identity.value !in users ==> r == []
      ensures |r| <= PageSize(limit)
      ensures identity.Some? && identity.value in users ==>
        var ids := UserIdsDesc(videos, users[identity.value], nextId);
        && |r| == (if |ids| <= PageSize(limit) then |ids| else PageSize(limit))
        && forall k :: 0 <= k < |r| ==> r[k] == View(videos[ids[k]], getUrl)
    {
      if identity.None? || identity.value !in users then []
      else
        var vs := videos;
        var page := Take(UserIdsDesc(vs, users[identity.value], nextId), PageSize(limit));
        Views(seq(|page|, k requires 0 <= k < |page| => vs[page[k]]), getUrl)
    }
  }
}
