/** The video creation wizard (src/components/VideoWizard.tsx): four steps, the selected
    photos with their previews, and the hand-off from creating a job to editing it. */
module Wizard {
  import opened Wrappers
  import opened Schema
  import opened Videos
  import Actions

  datatype Step = Upload | Analysis | Style | Editing

  /** The step ids in indicator order. */
  const StepIds: seq<string> := ["upload", "analysis", "style", "editing"]

  function StepId(s: Step): string {
    match s
    case Upload => "upload"
    case Analysis => "analysis"
    case Style => "style"
    case Editing => "editing"
  }

  /** The position of a step in the flow. */
  function Rank(s: Step): nat {
    match s
    case Upload => 0
    case Analysis => 1
    case Style => 2
    case Editing => 3
  }

  /** JavaScript `ids.indexOf(x)`: the first position holding `x`, or -1. */
  function IndexOf(ids: seq<string>, x: string): (r: int)
    ensures -1 <= r < |ids|
    ensures r == -1 <==> x !in ids
    ensures r >= 0 ==> ids[r] == x && x !in ids[..r]
  {
    if ids == [] then -1
    else if ids[0] == x then 0
    else var i := IndexOf(ids[1..], x); if i == -1 then -1 else i + 1
  }

  /** Indicator entry k is highlighted as the current step, or ticked as done. */
  predicate IsActive(step: Step, k: nat)
    requires k < |StepIds|
  {
    StepId(step) == StepIds[k]
  }

  predicate IsCompleted(step: Step, k: nat) {
    IndexOf(StepIds, StepId(step)) > k
  }

  /** Entry k is active exactly at the current step and ticked exactly for the steps before
      it, so no entry is both and exactly one is active. */
  lemma StepIndicatorMeaning(step: Step, k: nat)
    requires k < |StepIds|
    ensures IsActive(step, k) <==> Rank(step) == k
    ensures IsCompleted(step, k) <==> Rank(step) > k
    ensures !(IsActive(step, k) && IsCompleted(step, k))
  {
    assert IndexOf(StepIds, StepId(step)) == Rank(step) by {
      assert StepIds[1..] == ["analysis", "style", "editing"];
      assert StepIds[1..][1..] == ["style", "editing"];
      assert StepIds[1..][1..][1..] == ["editing"];
    }
  }

  /** A photo picked in the file input. */
  datatype File = File(name: string, mimeType: string)

  class VideoWizard {
    var step: Step
    var images: seq<File>
    var imagePreviews: seq<string>
    var selectedLogoId: Option<AssetId>
    var selectedStyle: string
    var isProcessing: bool
    var createdVideoId: Option<Id>

    /** Each kept photo has its preview, and at most three are kept. */
    ghost predicate Valid()
      reads this
    {
      |images| == |imagePreviews| && |images| <= 3
    }

    constructor ()
      ensures Valid()
      ensures step == Upload && images == [] && imagePreviews == [] && selectedLogoId.None?
      ensures selectedStyle == "cinematic" && !isProcessing && createdVideoId.None?
    {
      step := Upload;
      images := [];
      imagePreviews := [];
      selectedLogoId := None;
      selectedStyle := "cinematic";
      isProcessing := false;
      createdVideoId := None;
    }

    /** `handleImageChange`: keep the first three files picked, each with a fresh preview
        URL; nothing changes when the input holds no file list. */
    method HandleImageChange(files: Option<seq<File>>, createObjectUrl: File -> string)
      requires Valid()
      modifies this`images, this`imagePreviews
      ensures Valid()
      ensures files.None? ==> images == old(images) && imagePreviews == old(imagePreviews)
      ensures files.Some? ==>
        && images == Take(files.value, 3)
        && forall k :: 0 <= k < |images| ==> imagePreviews[k] == createObjectUrl(images[k])
    {
      if files.Some? {
        var kept := Take(files.value, 3);
        images := kept;
        imagePreviews := seq(|kept|, k requires 0 <= k < |kept| => createObjectUrl(kept[k]));
      }
    }

    /** `removeImage`: drop the photo and its preview at the same index. */
    method RemoveImage(index: int)
      requires Valid()
      modifies this`images, this`imagePreviews
      ensures Valid()
      ensures images == WithoutIndex(old(images), index)
      ensures imagePreviews == WithoutIndex(old(imagePreviews), index)
    {
      WithoutIndexMeaning(images, index);
      WithoutIndexMeaning(imagePreviews, index);
      images := WithoutIndex(images, index);
      imagePreviews := WithoutIndex(imagePreviews, index);
    }

    /** `handleStartAnalysis`: with photos, go to the analysis step. */
    method HandleStartAnalysis()
      modifies this`step
      ensures |images| == 0 ==> step == old(step)
      ensures |images| > 0 ==> step == Analysis
    {
      if |images| == 0 {
        return;
      }
      step := Analysis;
    }

    /** The analysis timer's callback: go to the style step, whatever the step is by then. */
    method FinishAnalysis()
      modifies this`step
      ensures step == Style
    {
      step := Style;
    }

    /** The style step's back button, and the editor's. */
    method BackToUpload()
      modifies this`step
      ensures step == Upload
    {
      step := Upload;
    }

    method BackToStyle()
      modifies this`step
      ensures step == Style
    {
      step := Style;
    }

    method SelectStyle(styleId: string)
      modifies this`selectedStyle
      ensures selectedStyle == styleId
    {
      selectedStyle := styleId;
    }

    method SelectLogo(logo: Option<AssetId>)
      modifies this`selectedLogoId
      ensures selectedLogoId == logo
    {
      selectedLogoId := logo;
    }

    /** `handleCreateVideo`: upload the photos, create the job, run the generation and move
        to the editing step. Any thrown error leaves the step and the chosen job as they were;
        a generation that reports failure is not thrown, so the editor still opens. */
    method HandleCreateVideo(table: VideoTable, identity: Option<string>,
                             upload: File -> Result<string>, now: int, svc: Actions.Services)
      requires Valid() && table.Valid()
      modifies this`isProcessing, this`createdVideoId, this`step
      modifies table`videos, table`nextId, table`writes
      ensures Valid() && table.Valid()
      ensures |images| == 0 ==>
        && step == old(step) && createdVideoId == old(createdVideoId)
        && isProcessing == old(isProcessing)
        && table.videos == old(table.videos) && table.writes == old(table.writes)
      ensures |images| > 0 ==> !isProcessing
      ensures |images| > 0 ==>
        var ids := All(images, upload);
        var signedIn := identity.Some? && identity.value in table.users;
        && (!(ids.Success? && signedIn) ==>
              && step == old(step) && createdVideoId == old(createdVideoId)
              && table.videos == old(table.videos) && table.writes == old(table.writes))
        && (ids.Success? && signedIn ==>
              && step == Step.Editing && createdVideoId.Some?
              && createdVideoId.value !in old(table.videos)
              && JobStarted(table.videos, old(table.videos), table.writes, old(table.writes), createdVideoId.value,
                            NewJob(table.users[identity.value], selectedStyle, "Style: " + selectedStyle,
                                   ids.value, selectedLogoId, now), svc))
    {
      if |images| == 0 {
        return;
      }
      isProcessing := true;
      var storageIds := All(images, upload);
      if storageIds.Success? {
        var created := CreateAndGenerate(table, identity, selectedStyle, storageIds.value,
                                         selectedLogoId, now, svc);
        if created.Some? {
          createdVideoId := created;
          step := Step.Editing;
        }
      }
      isProcessing := false;
    }
  }

  /** After the wizard has created `job` as `id` and run its generation: the table holds the
      record generation left behind under the new id and nothing else changed; that record
      keeps the job's prompt, style and photos and its status says whether generation
      succeeded; the table has recorded the insert and the generation's two writes. */
  ghost predicate JobStarted(videos: map<Id, Video>, videosBefore: map<Id, Video>, writes: seq<Write>,
                             before: seq<Write>, id: Id, job: Video, svc: Actions.Services)
  {
    var success := Actions.GenerationOutcome(job, svc).Success?;
    && videos == videosBefore[id := Actions.GenerationResult(job, svc)]
    && videos[id].prompt == job.prompt && videos[id].styleId == job.styleId
    && videos[id].inputImageStorageIds == job.inputImageStorageIds
    && videos[id].status == (if success then Status.Editing else Failed)
    && writes == before + [Inserted(id), StatusWritten(id, Generating),
                           if success then SegmentsWritten(id, Status.Editing) else StatusWritten(id, Failed)]
  }

  /** The `createJob` call with the prompt `Style: <style>`, then `generateAiVideo` on the
      new job; the new id, or nothing when `createJob` throws. */
  method CreateAndGenerate(table: VideoTable, identity: Option<string>, styleId: string,
                           storageIds: seq<string>, logo: Option<AssetId>, now: int,
                           svc: Actions.Services) returns (created: Option<Id>)
    requires table.Valid()
    modifies table`videos, table`nextId, table`writes
    ensures table.Valid()
    ensures !(identity.Some? && identity.value in table.users) ==>
      created.None? && table.videos == old(table.videos) && table.writes == old(table.writes)
    ensures identity.Some? && identity.value in table.users ==>
      && created.Some? && created.value !in old(table.videos)
      && JobStarted(table.videos, old(table.videos), table.writes, old(table.writes), created.value,
                    NewJob(table.users[identity.value], styleId, "Style: " + styleId, storageIds, logo, now), svc)
  {
    var r := table.CreateJob(identity, styleId, "Style: " + styleId, storageIds, logo, now);
    if r.Failure? {
      return None;
    }
    var id := r.value;
    ghost var job := table.videos[id];
    ghost var outcome := Actions.GenerationOutcome(job, svc);
    ghost var before := table.writes;
    var reply := Actions.GenerateAiVideo(table, id, svc);
    if outcome.Success? {
      assert table.videos[id] == WithSegments(WithStatus(job, Generating, None), outcome.value, Status.Editing);
    } else {
      assert table.videos[id] == WithStatus(WithStatus(job, Generating, None), Failed, Some(outcome.error));
    }
    created := Some(id);
  }

  /** At most the first three picked files are kept, in the order picked. */
  lemma KeptFilesArePrefix(files: seq<File>)
    ensures var kept := Take(files, 3);
      && |kept| == (if |files| <= 3 then |files| else 3)
      && kept == files[..|kept|]
  {
  }
}
