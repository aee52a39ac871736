# VIDAI core, modelled in Dafny

VIDAI turns up to three product photos into an 18-second vertical video. Its core has these parts:

- **Jobs.** The wizard uploads the photos and creates a *job* in the Convex `videos` table with status `queued`.
- **Generation.** The `generateAiVideo` action asks the video generator for three six-second scene clips: intro, main and outro. Each prompt is built from the job's style and the first three words of its prompt. The action stores the clips as the job's *segments* and moves the job to `editing`. If anything goes wrong it moves the job to `failed` with the error message.
- **Editing.** The editor screen keeps a list of captions and the music, logo-corner and accent-colour choices. It shows a preview.
- **Rendering.** `renderVideo` resolves the segment URLs and stores the complete *render props* on the job, which becomes `ready_to_render`. `uploadRenderedVideo` stores the final file and marks the job `completed`.
- **Composition.** The Remotion composition is a function from the props and a frame number to what is on screen. It covers which scene clip or fallback still is visible, where the logo sits, and which captions show, at what opacity and offset.

The model has one Dafny module per source file, plus `Wrappers` (results, options, JavaScript truthiness, the null filter, `Promise.all` in list order) and `Schema` (the record shapes of `convex/schema.ts`):

| module | source | form |
|---|---|---|
| `Videos` | convex/videos.ts | class `VideoTable` over a `map<Id, Video>`, one method per mutation, functions for the queries |
| `Prompts`, `Gemini`, `Actions` | convex/actions.ts | prompt tables and string functions; a response datatype with the extraction loop as a method; the three actions as methods on the table |
| `Composition` | src/components/VideoComposition.tsx | pure functions of props and frame |
| `Root` | src/remotion/Root.tsx | pure `getProps` and the registration |
| `Editor` | src/components/VideoEditor.tsx | class `CaptionEditor` for the screen's state, functions for the preview props and the render guard |
| `Wizard` | src/components/VideoWizard.tsx | class `VideoWizard` for the step machine and photo lists |

Calls outside the core are parameters:

- storage URL lookup;
- the generator call;
- `atob`;
- storing a blob;
- whether the API key is set;
- uploading a photo;
- `URL.createObjectURL`;
- the clock;
- the download status.

Authentication is a token-to-user map on the table. The table also keeps a ghost log of the writes it applied, so each action's contract can state the order in which it wrote to the job.

Each action method is proved against a pure outcome function: `GenerationOutcome`, `RenderOutcome` or `UploadOutcome`. Lemmas then state what these outcomes mean:

- Generation is all-or-nothing, and its segments come in role order with the role's prompt.
- Rendering succeeds exactly when some segment URL resolves and a non-empty logo URL is given. Without a logo URL the store rejects the props; see "## Findings".
- The stored render props read back unchanged through `getProps`.
- An upload succeeds only after a 2xx download.

Where the code and the description of the system disagree, the model follows the code:

- **Merge defaults.** `updateRemotionProps` fills in no defaults when it merges fields (convex/videos.ts:224-234). Absent fields stay absent.
- **Zero-length captions.** A caption with equal start and end frames is visible on that one frame (src/components/VideoComposition.tsx:201). It is not always invisible. Its motion is `0 / 0`, and the model gives it no motion.
- **Fallback stills.** The composition falls back to stills whenever the number of segment URLs is not exactly three (src/components/VideoComposition.tsx:77). This is not limited to segments being absent altogether.
- **Missing job.** `generateAiVideo` rejects with "Video not found" before its `try` (convex/actions.ts:45). It does not always resolve to a result.
- **Failed jobs.** A job marked failed with an empty message gets no `errorMessage` (convex/videos.ts:157).
- **Completed jobs.** `uploadRenderedVideo` marks a job completed without looking at its segments.
- **Ready-to-render jobs.** `renderVideo` marks a job `ready_to_render` with any non-zero number of segments.

So "completed, editing or ready_to_render implies three segments" is not an invariant of the code. The model states what each write does instead.

- **Logo visibility.** The logo is drawn when `logoUrl` is non-empty (JavaScript truthiness, src/components/VideoComposition.tsx:174), not merely non-null.
- **Logo optional.** The logo is meant to be optional, but a render without a logo URL stores `logoUrl: null`, which the schema rejects (convex/actions.ts:279, convex/schema.ts:35). The job then ends up failed; see "## Findings".

## Model

| member | source | states |
|---|---|---|
| Wrappers.PresentLength | convex/actions.ts:267 | filtering nulls keeps as many entries as are non-null, and loses none exactly when no entry is null |
| Wrappers.PresentMembers | convex/actions.ts:267 | a value survives the null filter exactly when some entry holds it |
| Wrappers.PresentAll | src/components/VideoEditor.tsx:111 | when no entry is null the filter keeps every value at its own position |
| Wrappers.PresentConcat | convex/actions.ts:267 | filtering a concatenation filters each part, so the kept values stay in input order |
| Wrappers.PresentAt | convex/actions.ts:267 | the value of entry k is kept at the position given by the number of non-null entries before k |
| Wrappers.AllSuccess | convex/actions.ts:111-157 | `Promise.all` over a list succeeds exactly when every call does, and result k is call k's value |
| Wrappers.AllFailure | convex/actions.ts:111-157 | a failed `Promise.all` carries the error of the first failing call, every earlier call having succeeded |
| Wrappers.WithoutIndexMeaning | src/components/VideoEditor.tsx:58-60 | `filter((_, i) => i !== index)` removes exactly the entry at index and keeps the rest in order; an out-of-range index removes nothing |
| Videos.NewJob | convex/videos.ts:31-39 | `createJob` inserts a queued record with the caller's user, style, prompt, images and logo, and no segments, props, final video or error |
| Videos.WithStatus | convex/videos.ts:155-158 | `updateStatus` sets the status, writes the error message only when it is non-empty (an earlier message is never cleared) and changes nothing else |
| Videos.WithSegments | convex/videos.ts:193-196 | `updateSegments` sets segments and status together and nothing else |
| Videos.WithGeneratedVideo | convex/videos.ts:172-175 | `updateGeneratedVideo` sets the final video id and status together and nothing else |
| Videos.MergeProps | convex/videos.ts:224-234 | the field merge over the stored props (or `{}`): captions overwrite when given, strings only when non-empty, every other field keeps its stored value |
| Videos.MergeIdempotent | convex/videos.ts:224-234 | merging the same fields twice gives the same props as merging once |
| Videos.ResolveAllAt | convex/videos.ts:134-136 | URL resolution yields one URL per storage id, each that id's own |
| Videos.ViewShape | convex/videos.ts:126-141 | a returned job carries its record, one URL per input image and per segment in order, segment URLs exactly when it has segments, a final video URL only when it has a final video id |
| Videos.Views | convex/videos.ts:95-115 | every listed record is returned with its derived URLs (the view `ViewShape` describes), one view per record in order |
| Videos.UserIdsDesc | convex/videos.ts:63-66 | the `by_user` query in descending order lists every record of the user with an id below the bound, only those, newest first |
| Videos.VideoTable.CreateJob | convex/videos.ts:15-44 | no identity: "Unauthenticated call to createJob"; unknown token: "User not found", nothing written; otherwise a fresh id holding the new queued record, and one insert logged |
| Videos.VideoTable.UpdateStatus | convex/videos.ts:151-158 | unknown id: "Video not found" and nothing written; otherwise exactly that record receives the status patch |
| Videos.VideoTable.UpdateGeneratedVideo | convex/videos.ts:168-175 | unknown id: "Video not found" and nothing written; otherwise exactly that record receives the final video and status |
| Videos.VideoTable.UpdateSegments | convex/videos.ts:189-196 | unknown id: "Video not found" and nothing written; otherwise exactly that record receives segments and status |
| Videos.VideoTable.UpdateRemotionProps | convex/videos.ts:213-235 | unknown id: "Video not found"; a complete props object with a `null` logo is rejected by the schema (convex/schema.ts:35) and nothing is written; any other complete object replaces the stored props; otherwise the fields are merged |
| Videos.VideoTable.Get | convex/videos.ts:121-142 | null exactly for an unknown id; otherwise the record's view: one URL per input image and per segment in order, each that id's own |
| Videos.VideoTable.List | convex/videos.ts:50-116 | empty without an identity or for an unknown user; otherwise the first page (the limit, or 50 when absent or 0) of the caller's records, newest first, each with its URLs |
| Prompts.BaseStylePromptTable | convex/actions.ts:64-84 | every base style prompt ends with the vertical-format, six-second suffix, and an id outside the six named styles gets the default prompt while no named style does |
| Prompts.FullPromptParts | convex/actions.ts:117-129 | a scene prompt starts with its role's sentence, names the product verbatim (recoverable from the prompt alone) and ends with the style prompt |
| Prompts.FullPromptsDiffer | convex/actions.ts:117-129 | the three roles never receive the same prompt |
| Prompts.Split | convex/actions.ts:87 | `split(" ")` always yields at least one piece |
| Prompts.JoinSplit | convex/actions.ts:87 | joining the pieces of a split with spaces gives back the prompt |
| Prompts.JoinTakeSplit | convex/actions.ts:87 | keeping the first n pieces and joining them gives the prompt up to its n-th space |
| Prompts.ProductNameIsFirstWords | convex/actions.ts:87 | the product name is the prefix of the job prompt before its third space, or "product" when that prefix is empty |
| Prompts.NatToString | convex/actions.ts:333 | a status code prints as a non-empty string of decimal digits |
| Prompts.NatToStringRoundTrip | convex/actions.ts:333 | reading the printed digits back gives the status code |
| Gemini.FirstVideoPart | convex/actions.ts:13-14 | the first part with inline data, or none when no part has any |
| Gemini.ToBytes | convex/actions.ts:17-20 | the byte array has one byte per decoded character |
| Gemini.ExtractMeaning | convex/actions.ts:7-35 | a video is found exactly when the first candidate has a part with inline data that decodes; it then holds the first such part's bytes and that part's own MIME type when non-empty, else "video/mp4" |
| Gemini.ExtractVideoFromResponse | convex/actions.ts:7-35 | the loops over parts and over decoded characters compute exactly the extracted video |
| Composition.SceneSlotsTile | src/components/VideoComposition.tsx:91-161 | the three 180-frame sequences tile frames [0, 540): a frame lies in sequence i exactly when its slot is i |
| Composition.SceneAtMeaning | src/components/VideoComposition.tsx:77-161 | slot i shows clip i exactly when there are three segment URLs; otherwise still i when there are more than i images, else nothing |
| Composition.InterpolateBounds | src/components/VideoComposition.tsx:204-216 | clamped interpolation never leaves the range of its outputs |
| Composition.InterpolateAt | src/components/VideoComposition.tsx:204-216 | at a breakpoint, or clamped beyond the ends, interpolation returns that breakpoint's output |
| Composition.InterpolateFlat | src/components/VideoComposition.tsx:204-216 | between two breakpoints with equal outputs interpolation is that output |
| Composition.InterpolateLinear | src/components/VideoComposition.tsx:204-216 | between two breakpoints interpolation lies on the line through them |
| Composition.CaptionOpacityShape | src/components/VideoComposition.tsx:211-216 | caption opacity lies in [0, 1], is 0 at both ends and 1 over progress [0.1, 0.9] |
| Composition.CaptionOffsetShape | src/components/VideoComposition.tsx:204-209 | caption offset lies in [-50, 50], is 50 at the start, -50 at the end and 0 over [0.1, 0.9] |
| Composition.CaptionWindow | src/components/VideoComposition.tsx:200-218 | a caption shows exactly on frames start..end, transparent on its first and last frame and fully visible in place over the middle 80 % |
| Composition.CaptionsIndependent | src/components/VideoComposition.tsx:200-248 | one result per caption, each evaluated on its own |
| Composition.LogoPlacementTable | src/components/VideoComposition.tsx:60-74 | each corner id places the logo 40 from that corner's edges; any other id means bottom-right |
| Composition.LogoOnEveryFrame | src/components/VideoComposition.tsx:174-197 | the logo is on every frame or on none, and on them exactly when the logo URL is non-empty |
| Composition.BackgroundTable | src/components/VideoComposition.tsx:40-57 | an id outside the six named styles selects the default gradient and no named style does |
| Composition.KenBurnsShiftLinear | src/components/VideoComposition.tsx:336-339 | a still pans by 20 times the elapsed fraction of its scene, within [0, 20), restarting every 180 frames |
| Root.GetPropsRoundTrip | src/remotion/Root.tsx:16-27 | complete props passed on the command line render unchanged exactly when they are normalized (a logo only if non-empty, non-empty strings where a default exists), and `getProps` always returns normalized props |
| Root.OtherKeysSelectDefaults | src/remotion/Root.tsx:16-27 | keys holding no props value, such as `logoUrl: null` or an unknown key, still select the defaults branch (no stills, no logo), not the sample |
| Root.SamplePreview | src/remotion/Root.tsx:31-49 | without props the sample is used: three stills, no clips, and three captions each inside its own scene |
| Root.RemotionRoot | src/remotion/Root.tsx:57-65 | the composition is registered as 540 frames (18 s at 30 fps, three scenes) of 1080x1920 with `getProps`'s props |
| Actions.GenerationMeaning | convex/actions.ts:56-163 | generation fails with "No input images found", "Could not generate URL for image" or the missing-key message in that order of checks; otherwise it succeeds exactly when all three scenes do, yielding intro, main and outro segments with their role's prompt; a failure is some scene's own error (the count check never fires) |
| Actions.GenerateSegments | convex/actions.ts:56-163 | the step-by-step checks inside the `try` compute exactly the generation outcome |
| Actions.GenerateAiVideo | convex/actions.ts:41-193 | unknown job: rejects with "Video not found" and writes nothing; otherwise marks it generating, then stores the segments with status editing, or marks it failed with the error, and returns that result |
| Actions.SegmentUrlsMeaning | convex/actions.ts:259-267 | the valid segment URLs are exactly those some segment resolves to, there is one when any segment resolves, and when all resolve they line up with the segments |
| Actions.SegmentUrlsOrder | convex/actions.ts:259-267 | the valid URLs keep segment order: segment k's URL comes right after those of the segments before it |
| Actions.RenderMeaning | convex/actions.ts:245-292 | rendering fails with the no-segments message, with the no-valid-URL message when no segment resolves, and with the schema error when no non-empty logo URL is given; otherwise the props carry the valid URLs, no stills, the given logo and captions, music "" by default, corner "bottom-right", colour "#c72c41", white secondary colour, the job's style or "vibrant", and read back unchanged by `getProps` |
| Actions.RenderWithoutLogoFails | convex/actions.ts:279 | a job with a resolving segment and no logo URL has its props built and still fails with the schema error |
| Actions.IntendedRenderMeaning | convex/actions.ts:279 | with a missing logo left out instead of `null`, rendering succeeds exactly when some segment resolves, the stored object has a logo exactly when one was given, and `getProps` reads it back as the prepared props |
| Actions.GeneratedJobRendersClips | convex/actions.ts:259-292 | a freshly generated job whose three clip URLs resolve gets props with those clips, intro to outro; storing them succeeds exactly when a logo URL is given |
| Actions.RenderVideo | convex/actions.ts:235-317 | unknown job: rejects, nothing written; no segments: marked failed; no valid URL or props rejected by the schema: marked ready then failed; otherwise marked ready and the props stored whole |
| Actions.UploadMeaning | convex/actions.ts:331-340 | an upload yields a storage id only after a 2xx download; another status fails with a message ending in exactly that status code |
| Actions.UploadRenderedVideo | convex/actions.ts:326-362 | a failure is returned and nothing is written; otherwise the job gets the final video and status completed, or "Video not found" for an unknown job |
| Editor.EditAtMeaning | src/components/VideoEditor.tsx:62-66 | an edit changes only its field of the caption at its index; other captions and fields are untouched; an out-of-range index changes nothing |
| Editor.CaptionEditor.constructor | src/components/VideoEditor.tsx:38-42 | one caption "Delicious Food" 0-90, music "upbeat", logo bottom-right, colour "#6EDC14", not rendering |
| Editor.CaptionEditor.AddCaption | src/components/VideoEditor.tsx:54-56 | appends "New Caption" 0-90 |
| Editor.CaptionEditor.RemoveCaption | src/components/VideoEditor.tsx:58-60 | removes the caption at the index by the index filter |
| Editor.CaptionEditor.UpdateCaption | src/components/VideoEditor.tsx:62-66 | applies the field edit at the index |
| Editor.CaptionEditor.ChooseMusic | src/components/VideoEditor.tsx:195-199 | the music becomes the chosen listed track, so every option stays one the screen offers |
| Editor.CaptionEditor.ChooseLogoPosition | src/components/VideoEditor.tsx:214-218 | the logo position becomes the chosen listed corner |
| Editor.CaptionEditor.ChooseColor | src/components/VideoEditor.tsx:232-235 | the accent colour becomes the chosen listed colour |
| Editor.AddCaptionMeaning | src/components/VideoEditor.tsx:54-56 | adding keeps every earlier caption in place and puts the new one last |
| Editor.PreviewMeaning | src/components/VideoEditor.tsx:110-120 | the preview plays clips exactly when three segment URLs resolve, and a job without segments shows stills; once rendering is enabled that means all three, and clip k is segment k's URL; the stills are the resolved images in their order; white secondary colour; the logo exactly when its URL is non-empty |
| Editor.LogoPositionsAreCorners | src/components/VideoEditor.tsx:23-28 | every corner the editor offers is one where the composition places the logo |
| Wizard.IndexOf | src/components/VideoWizard.tsx:158-160 | `indexOf` is -1 exactly when the id is absent, and otherwise the first position holding it |
| Wizard.StepIndicatorMeaning | src/components/VideoWizard.tsx:156-160 | indicator entry k is active exactly at the current step and completed exactly for earlier steps, never both |
| Wizard.VideoWizard.constructor | src/components/VideoWizard.tsx:60-66 | the wizard starts at the upload step with no photos, no logo, style "cinematic" and no job |
| Wizard.VideoWizard.HandleImageChange | src/components/VideoWizard.tsx:73-82 | keeps the first three picked files with one preview each; nothing changes without a file list |
| Wizard.VideoWizard.RemoveImage | src/components/VideoWizard.tsx:84-90 | removes the same index from photos and previews, so they stay paired |
| Wizard.VideoWizard.HandleStartAnalysis | src/components/VideoWizard.tsx:92-95 | no photos: nothing happens; otherwise the analysis step |
| Wizard.VideoWizard.FinishAnalysis | src/components/VideoWizard.tsx:97-99 | the timer moves to the style step |
| Wizard.VideoWizard.BackToUpload | src/components/VideoWizard.tsx:410 | the style step's back button returns to upload |
| Wizard.VideoWizard.BackToStyle | src/components/VideoWizard.tsx:440 | the editor's back button returns to style |
| Wizard.VideoWizard.SelectStyle | src/components/VideoWizard.tsx:373 | a style card selects its style |
| Wizard.VideoWizard.SelectLogo | src/components/VideoWizard.tsx:289 | the brand kit selects the logo |
| Wizard.VideoWizard.HandleCreateVideo | src/components/VideoWizard.tsx:102-147 | no photos: nothing happens; a failed upload or job creation leaves step and job unchanged; otherwise the editing step opens on a new job with prompt "Style: <style>"; the table gains exactly that record as generation left it (segments and status editing, or status failed with the error) and nothing else changes |
| Wizard.CreateAndGenerate | src/components/VideoWizard.tsx:122-137 | creates the job with the style prompt and runs its generation: the table gains exactly the record generation left behind, and logs the insert, the generating mark and the final write |
| Wizard.KeptFilesArePrefix | src/components/VideoWizard.tsx:75 | the kept files are the first min(3, n) picked, in order |

## Left out

- Network, storage, the generator and authentication are parameters. This covers `fetch`, `ctx.storage`, the Gemini call, `atob`, `Date.now`, `URL.createObjectURL`, and Clerk/Convex identity, which is modelled as a token-to-user map. No behaviour of these services is assumed.
- Concurrency. `Promise.all` is taken in list order, so the first failure is the first in role or file order, not the first in time. Sibling calls that keep running after a failure are not modelled. Each action is one uninterrupted sequence of writes, so a job cannot disappear between an action's read and its writes.
- Actions.GenerateAiVideo: the second throw from the `catch` block's status write is not modelled. It cannot happen under the previous point.
- Logged-only text: console logging and the multi-line guidance text built at convex/actions.ts:93-99.
- Status values. The schema allows any status string; the model has only the six values the code writes.
- Gemini.ToBytes: models `charCodeAt` truncated to a byte. `atob` only yields characters below 256.
- Remotion rendering itself, the eased `scale` of the still (a bezier curve), and the colours and layout of overlays, bars and corner marks. The accent colour is kept as the frame's accent field.
- Floating point. `interpolate` is exact over `real`.
- Zero-length captions get no motion, because the code divides 0 by 0 there.
- Composition.EvaluateFrame: `musicTrack` and `secondaryColor` are passed through props but the composition never reads them.
- Root.GetProps: the command-line input is its props fields plus a count of the other keys `Object.keys` sees; the values of those other keys are not modelled.
- Videos.SchemaMismatchMessage: the wording of the database's schema-validation error is not modelled. The model uses one fixed message.
- Videos.VideoTable.UpdateRemotionProps: the complete props object is typed `v.any()`; the model passes only a complete composition props object, which is all the code ever passes.
- Videos.VideoTable.List: the `by_user` index and `order("desc")` are modelled as newest id first, ids growing with creation time.
- Editor: `handleRender` is not modelled. It makes the same two calls as Actions.RenderVideo and Videos.VideoTable.UpdateRemotionProps, then shows toasts and builds a command string.
- Editor.CaptionEditor.UpdateCaption: a frame read with `parseInt` can be `NaN`; the model takes an integer.
- Wizard: the 2.5-second delay before FinishAnalysis, `URL.revokeObjectURL`, the `isProcessing` button guard and the reload button.
- `convex/assets.ts`, `BrandKit.tsx`, `VideoList.tsx`, `App.tsx`, `CreateVideo.tsx`, `main.tsx` and `remotion.config.ts` are not part of this model. The editor's logo lookup in the asset list is a logo URL parameter.

## Findings

| source | as written | input that shows it | evidently intended | confidence | as-written member | corrected member |
|---|---|---|---|---|---|---|
| convex/actions.ts:279 | `logoUrl: args.logoUrl \|\| null` is stored through `updateRemotionProps`; the schema's `logoUrl` is an optional string (convex/schema.ts:35), so the patch is rejected, and the job is marked failed | `renderVideo` on a job with a resolving segment and no logo URL (the editor sends `logo?.url \|\| undefined`, src/components/VideoEditor.tsx:87) | a missing logo is left out of the stored props, as `logoUrl: args.logoUrl \|\| undefined`, and the render is prepared | high; not executed | Actions.RenderWithoutLogoFails | Actions.IntendedRenderOutcome |

Actions.RenderVideo follows the code as written. Actions.IntendedRenderOutcome is the corrected store, and Actions.IntendedRenderMeaning states what it achieves.
