# Video upload wizard — Dafny model

This project models the non-visual logic of a Next.js video-upload wizard and proves
properties of that model. The wizard's parts are:

- **upload lifecycle** (`useUploadProgress` in `lib/hooks.ts`): a simulated upload. An
  interval raises the progress by a random increment below 15 points per tick. Once the
  interval reaches 100 it clears itself and starts a chain of timeouts:
  `queued → processing → ready`.
- **draft store** (`useAutosave`): saves, loads, clears and checks one metadata draft
  under one `localStorage` key.
- **helpers** (`lib/utils.ts`): `formatDuration` and `validateVideoFile`.
- **tag editor** (`MetadataForm.tsx`): at most 15 distinct trimmed tags, and at most
  five suggestions at a time.
- **trim tool** (`TrimTool.tsx`): clamps the start and end of the kept range against
  each other and against the duration.
- **dropzone** (`UploadDropzone.tsx`): checks the first dropped or picked file, then
  forwards it or shows an error.
- **wizard controller** (`UploadModal.tsx`):
  - four steps, with validation before "next";
  - publishing allowed only when the upload is `ready`;
  - a confirmation before closing while bytes are still being sent;
  - draft restore and autosave.

Each source file has its own module:

| file | module | source |
|---|---|---|
| `wrappers.dfy` | `Wrappers` | `Option`, for JavaScript's `undefined`/`null` |
| `seqs.dfy` | `Seqs` | no-duplicates and subsequence facts |
| `text_ops.dfy` | `TextOps` | the string built-ins: `trim`, `toString` on naturals, `padStart`, `startsWith` |
| `utils.dfy` | `Utils` | `lib/utils.ts` |
| `metadata.dfy` | `Metadata` | the `VideoMetadata` record; `{...m, [field]: v}` |
| `upload_progress.dfy` | `UploadProgress` | `useUploadProgress` |
| `autosave.dfy` | `Autosave` | `useAutosave` |
| `form.dfy` | `Form` | `MetadataForm.tsx` |
| `trim.dfy` | `Trim` | `TrimTool.tsx` |
| `dropzone.dfy` | `Dropzone` | `UploadDropzone.tsx` |
| `modal.dfy` | `Modal` | `UploadModal.tsx` |

Code that changes state becomes a class whose methods tie the new state to a pure
function of the old one:

- `UploadProgressHook`, `DraftStore`, `MetadataForm`, `TrimTool`, `UploadDropzone` and
  `UploadModal` are those classes.
- The properties are then proved about the pure functions.

How ambient inputs are handled:

- **Passed in as parameters:** `Math.random() * 15` (an increment in [0, 15)),
  `Date.now()` ids, `new Date().toISOString()`, answers to `confirm`, `typeof window`,
  and whether a storage call throws.
- **Modelled as events:** each timer callback is an event that may run only while it
  is scheduled. The scheduled callbacks form a multiset.

**Timers are never cancelled.** `reset` and a second `startUpload` cancel no earlier
timer: `lib/hooks.ts:142` returns a cleanup that `components/upload/UploadModal.tsx:90`
discards, and `reset` (`lib/hooks.ts:154-162`) touches no timer. The model therefore
keeps stale callbacks, and proves what they do:

- `StaleTickAfterReset`: a stale tick still changes progress after `reset`.
- `StaleQueueAfterReset`: a stale timeout moves `idle` straight to `queued`.
- `StaleReadyAfterReset`: a stale chain reaches `ready` with no video id. This is the
  case where publishing reports `"mock-video-id"`.
- `TwoIntervalsCanLowerProgress`: two intervals take turns, so progress falls.

The ordering and monotonicity properties are proved for a single attempt (`ChainAt`).

Other facts of the code that the model keeps:

- `retryUpload` (`lib/hooks.ts:145-152`) works from any status and starts no interval.
- No code path ever sets status `error` (`NoStepEntersError`).
- `Math.random() * 15` (`lib/hooks.ts:115`) gives increments in [0, 15).

## Model

| member | source | states |
|---|---|---|
| TextOps.Trim | components/upload/MetadataForm.tsx:57 | `trim` returns a contiguous slice of its input with only whitespace before and after it. That slice is empty exactly when every character is ECMAScript whitespace, and otherwise starts and ends with a non-whitespace character |
| TextOps.TrimUnique | components/upload/MetadataForm.tsx:57 | a non-empty slice with only whitespace around it that starts and ends with non-whitespace is the trim: the contract of `Trim` determines its result |
| TextOps.TrimIdempotent | components/upload/MetadataForm.tsx:57 | trimming twice is trimming once |
| TextOps.NatToString | lib/utils.ts:22-26 | `toString` of a natural gives decimal digits that denote the number, with no leading zero except for 0, and is one character long exactly below 10 |
| TextOps.PadStart | lib/utils.ts:22-26 | `padStart` reaches the width by prepending the fill character and keeps the original text as a suffix |
| TextOps.PadZerosKeepsValue | lib/utils.ts:22-26 | zero-padding a digit string keeps its numeric value |
| Utils.SplitSeconds | lib/utils.ts:16-19 | `mins < 60`, `secs < 60`, `hrs*3600 + mins*60 + secs == seconds`, and `hrs > 0` exactly from 3600 seconds on |
| Utils.TwoDigits | lib/utils.ts:22-26 | a value below 60 padded to exactly two digits that denote it |
| Utils.TwoDigitsIsPadStart | lib/utils.ts:22-26 | `n.toString().padStart(2, "0")` gives exactly `TwoDigits(n)` for every `n` below 60 |
| TextOps.DigitsDetermine | lib/utils.ts:22-26 | two digit strings of equal length and equal value are the same string, so a padded field is determined by its value |
| Utils.JoinThreeShaped | lib/utils.ts:21-24 | joining an unpadded positive hour field and two two-digit fields with colons gives the `h:mm:ss` shape with each field where a reader looks for it |
| Utils.JoinTwoShaped | lib/utils.ts:26 | joining an unpadded minute field and a two-digit seconds field with a colon gives the `m:ss` shape |
| Utils.FormatDurationForm | lib/utils.ts:21-26 | `FormatDuration` (`formatDuration`): the output is `h:mm:ss` when `hrs > 0`, otherwise `m:ss`. The padded fields are exactly two digits with the right values, and the leading field has no padding |
| Utils.FormatDurationRoundTrip | lib/utils.ts:16-27 | reading the output back as a clock gives the input seconds: nothing is lost |
| Utils.HourFormFromOneHour | lib/utils.ts:21-26 | the hour form appears exactly when seconds ≥ 3600 |
| Utils.TooLargeError | lib/utils.ts:42 | the size error is longer than the size label and ends with it |
| Utils.TooLargeErrorLeadIsFixed | lib/utils.ts:42 | the text before the label is the same for every label, so different labels give different messages |
| Utils.ValidateVideoFile | lib/utils.ts:29-47 | the ceiling defaults to 5 GiB; valid iff the MIME type starts with `video/` and size ≤ the ceiling (equal passes); valid iff no error; every error is non-empty; a non-video gets the type error; an oversized video gets the size error |
| Utils.ValidationMonotoneInCeiling | lib/utils.ts:39-44 | raising the ceiling never invalidates a valid file |
| Utils.TypeCheckBeforeSize | lib/utils.ts:33-36 | a non-video gets the same error whatever its size |
| Metadata.Get | lib/hooks.ts:4-18 | reading a key yields a value tagged with that key |
| Metadata.GetDetermines | lib/hooks.ts:4-18 | a record is determined by its keys and `savedAt` |
| Metadata.WithField | components/upload/MetadataForm.tsx:52-54 | `handleChange` sets the named key to the value; every other key and `savedAt` read as before |
| Metadata.WithFieldTwice | components/upload/MetadataForm.tsx:52-54 | setting a key twice keeps only the second value |
| UploadProgress.StartResetsRecord | lib/hooks.ts:102-113 | `startUpload` gives progress 0, `uploading`, the new upload id, no video id and no error. It adds one interval at 0 and cancels nothing |
| UploadProgress.TickReportsCappedCounter | lib/hooks.ts:114-139 | see the tick list below |
| UploadProgress.StageStepsChangeOnlyStatus | lib/hooks.ts:121-136 | entering `queued` sets progress 100 and the video id; `processing` and `ready` change only the status |
| UploadProgress.RetryKeepsIds | lib/hooks.ts:145-152 | `retryUpload` clears the error, sets `uploading` and progress 0, and keeps both ids and every scheduled callback |
| UploadProgress.ResetRestoresInitial | lib/hooks.ts:154-162 | `reset` yields exactly the initial record of lines 93-100 and is idempotent |
| UploadProgress.StepKeepsValid | lib/hooks.ts:102-162 | every callback and command keeps progress in [0, 100] and every interval counter in [0, 100) |
| UploadProgress.NoStepEntersError | lib/hooks.ts:102-162 | no transition enters `error` |
| UploadProgress.StartBeginsChain | lib/hooks.ts:102-113 | starting with nothing scheduled begins a single attempt at counter 0 |
| UploadProgress.ChainStep | lib/hooks.ts:113-136 | within one attempt a callback advances the status by zero or one stage (never skipping one), never lowers progress, and keeps the upload id and any assigned video id |
| UploadProgress.ChainRun | lib/hooks.ts:113-136 | along any run of one attempt's callbacks the status only moves forward, progress only grows and the upload id is kept |
| UploadProgress.TicksFinishTransfer | lib/hooks.ts:114-121 | ticks of 10 points always bring the interval to 100, leaving only the queued timeout |
| UploadProgress.QueuedAttemptFinishes | lib/hooks.ts:121-136 | the three timeouts take a finished transfer to `ready` with the given video id, leaving nothing scheduled |
| UploadProgress.StartedUploadReachesReady | lib/hooks.ts:102-140 | a started upload left alone ends `ready` with progress 100, both ids and no error |
| UploadProgress.StaleTickAfterReset | lib/hooks.ts:154-162 | after `reset`, a leftover interval still changes the reported progress of the idle record |
| UploadProgress.StaleQueueAfterReset | lib/hooks.ts:154-162 | after `reset`, a leftover queued timeout moves `idle` straight to `queued` |
| UploadProgress.StaleReadyAfterReset | lib/hooks.ts:154-162 | after `reset`, leftover timeouts reach `ready` with no video id |
| UploadProgress.TwoIntervalsCanLowerProgress | lib/hooks.ts:102-142 | two `startUpload` calls leave two intervals whose ticks lower the progress while `uploading` |
| UploadProgress.UploadProgressHook.constructor | lib/hooks.ts:93-100 | the hook starts in the initial record with nothing scheduled |
| UploadProgress.UploadProgressHook.StartUpload | lib/hooks.ts:102-143 | the new state is `AfterStart` of the old one, well formed |
| UploadProgress.UploadProgressHook.OnIntervalTick | lib/hooks.ts:114-139 | the new state is `AfterTick` of the old one, well formed |
| UploadProgress.UploadProgressHook.OnQueueTimeout | lib/hooks.ts:121-128 | the new state is `AfterQueueTimer` of the old one |
| UploadProgress.UploadProgressHook.OnProcessingTimeout | lib/hooks.ts:130-131 | the new state is `AfterProcessingTimer` of the old one |
| UploadProgress.UploadProgressHook.OnReadyTimeout | lib/hooks.ts:132-134 | the new state is `AfterReadyTimer` of the old one |
| UploadProgress.UploadProgressHook.RetryUpload | lib/hooks.ts:145-152 | the new state is `AfterRetry` of the old one |
| UploadProgress.UploadProgressHook.Reset | lib/hooks.ts:154-162 | the new state is `AfterReset` of the old one |
| Autosave.Serialize | lib/hooks.ts:41-47 | the stored draft carries `savedAt` = the save time and no thumbnail file; every other key is kept |
| Autosave.Saved | lib/hooks.ts:36-54 | `saveDraft` returns true exactly when storage is reachable and does not throw |
| Autosave.Cleared | lib/hooks.ts:69-78 | `clearDraft` returns true exactly when storage works, whether or not the key existed |
| Autosave.SaveThenLoad | lib/hooks.ts:36-67 | a saved draft loads back with every key except the thumbnail file, and with `savedAt` = the save time, even if the caller passed another `savedAt` |
| Autosave.LoadThenSave | lib/hooks.ts:36-67 | re-saving a loaded draft at its own time stores the same item |
| Autosave.LastSaveWins | lib/hooks.ts:36-54 | of two saves only the second is visible |
| Autosave.FailedCallsChangeNothing | lib/hooks.ts:36-87 | without a window or on a throw, save and clear return false and change nothing; load gives null and `hasDraft` false |
| Autosave.ClearRemovesDraft | lib/hooks.ts:69-78 | after a clear nothing loads and `hasDraft` is false; clearing is idempotent |
| Autosave.HasDraftMeansPresent | lib/hooks.ts:36-87 | every loadable draft is reported by `hasDraft`, and right after a save `hasDraft` holds exactly when storage works |
| Autosave.PresentButNotLoadable | lib/hooks.ts:56-87 | an empty or unparsable item counts for `hasDraft` but loads as null |
| Autosave.OtherKeysUntouched | lib/hooks.ts:36-78 | save and clear change no other key |
| Autosave.DraftStore.constructor | lib/hooks.ts:35 | the store is bound to its key |
| Autosave.DraftStore.SaveDraft | lib/hooks.ts:36-54 | the new storage and result are `Saved` of the old storage |
| Autosave.DraftStore.LoadDraft | lib/hooks.ts:56-67 | the result is `Loaded` of the storage, and a loaded draft is present |
| Autosave.DraftStore.ClearDraft | lib/hooks.ts:69-78 | the new storage and result are `Cleared` of the old storage |
| Autosave.DraftStore.HasDraft | lib/hooks.ts:80-87 | the result is `Present` of the storage |
| Form.Without | components/upload/MetadataForm.tsx:71 | the filter drops every occurrence of the tag, keeps the count of every other tag, keeps their order (a subsequence), and its length is the old length minus the occurrences |
| Form.NotTaken | components/upload/MetadataForm.tsx:195 | the suggestion filter keeps, in order (a subsequence), only candidates not already used as tags, and every such candidate appears |
| Form.NotTakenCounts | components/upload/MetadataForm.tsx:195 | the filter keeps every occurrence of an unused candidate and none of a used one, which with the subsequence fixes the result even for repeated candidates |
| Form.Suggestions | components/upload/MetadataForm.tsx:195-196 | see the suggestions list below |
| Form.AddTagReaction | components/upload/MetadataForm.tsx:56-65 | see the `addTag` list below |
| Form.AppendKeepsWellFormed | components/upload/MetadataForm.tsx:60-63 | appending a trimmed, non-empty, absent tag to a well-formed list of fewer than 15 tags keeps it well formed |
| Form.AddTagKeepsWellFormed | components/upload/MetadataForm.tsx:60-63 | adding keeps the list at most 15 long, free of duplicates and made of trimmed non-empty tags; it grows by one, and no other key changes |
| Form.AddTagIdempotent | components/upload/MetadataForm.tsx:61 | adding the same tag again does not add it a second time |
| Form.RemoveTagKeepsWellFormed | components/upload/MetadataForm.tsx:67-73 | removing keeps the list well formed, drops the tag and keeps every other tag |
| Form.RemoveUndoesAdd | components/upload/MetadataForm.tsx:56-73 | `RemoveTag` (`removeTag`) after `AddTagReaction`: removing the tag just added gives back the earlier list |
| Form.WithoutLast | components/upload/MetadataForm.tsx:67-73 | filtering the last tag out of a list without repetitions leaves exactly the tags before it |
| Form.BackspaceDropsLastTag | components/upload/MetadataForm.tsx:79-86 | on a list without repetitions, Backspace on an empty input removes exactly the last tag |
| Form.OnlyEnterAndCommaAdd | components/upload/MetadataForm.tsx:75-87 | `TagKeyDown` (`handleTagKeyDown`): Enter and "," add the input; Backspace with a non-empty input and any other key do nothing |
| Form.SuggestionsAreTagText | components/upload/MetadataForm.tsx:32-43 | every suggestion is already trimmed |
| Form.SuggestionClickAdds | components/upload/MetadataForm.tsx:195-201 | clicking an offered suggestion appends it unchanged unless 15 tags exist |
| Form.MetadataForm.constructor | components/upload/MetadataForm.tsx:50 | the tag input starts empty |
| Form.MetadataForm.TypeTagText | components/upload/MetadataForm.tsx:185 | typing sets the tag input |
| Form.MetadataForm.AddTag | components/upload/MetadataForm.tsx:56-65 | the new tag input and the emitted record are `AddTagReaction` of the old input |
| Form.MetadataForm.HandleTagKeyDown | components/upload/MetadataForm.tsx:75-87 | the new tag input and the emitted record are `TagKeyDown` of the old input |
| Trim.ClampStart | components/upload/TrimTool.tsx:42 | the new start is ≥ 0, ≤ end − 1 whenever end ≥ 1, 0 when end < 1, and equal to the request when it lies in [0, end − 1] |
| Trim.ClampEnd | components/upload/TrimTool.tsx:48 | the new end is ≥ start + 1, ≤ duration whenever duration ≥ start + 1, and equal to the request when it lies in [start + 1, duration] |
| Trim.ClampStartIsNearest | components/upload/TrimTool.tsx:42 | the new start is the allowed point closest to the request |
| Trim.ClampEndIsNearest | components/upload/TrimTool.tsx:48 | the new end is the allowed point closest to the request |
| Trim.ClampsIdempotent | components/upload/TrimTool.tsx:42-48 | clamping twice is clamping once |
| Trim.DefaultsDisagreeOnZero | components/upload/TrimTool.tsx:21-26 | the initial end (`trimEnd \|\| duration`) and the resync target (`trimEnd ?? duration`) differ exactly when `trimEnd` is 0 and the duration is not |
| Trim.InitialEndNonZero | components/upload/TrimTool.tsx:21 | with a non-zero duration, `trimEnd \|\| duration` is never 0 |
| Trim.HandlersKeepOneSecond | components/upload/TrimTool.tsx:41-53 | after the end handler, and after the start handler when end ≥ 1, `end - start ≥ 1`; each handler leaves the other bound alone |
| Trim.EchoedReportIsStable | components/upload/TrimTool.tsx:23-51 | when the parent returns a reported pair as props, the effect finds nothing to change |
| Trim.ZeroTrimEndCollapses | components/upload/TrimTool.tsx:20-34 | mounted with `trimEnd` 0, the tool first shows the whole video, then resyncs the range to end at 0 |
| Trim.TrimTool.constructor | components/upload/TrimTool.tsx:14-21 | `start` is `trimStart` (default 0); `end` is `trimEnd`, or the duration when that is absent or 0 |
| Trim.TrimTool.ReceiveProps | components/upload/TrimTool.tsx:14-19 | new props leave the local range alone |
| Trim.TrimTool.HandleStartChange | components/upload/TrimTool.tsx:41-53 | only `start` changes, to `ClampStart`; `(newStart, end)` is reported; `trimmedDuration` (`TrimTool.TrimmedDuration`) is at least 1 when end ≥ 1 |
| Trim.TrimTool.HandleEndChange | components/upload/TrimTool.tsx:47-53 | only `end` changes, to `ClampEnd`; `(start, newEnd)` is reported; `trimmedDuration` (`TrimTool.TrimmedDuration`, `end - start`) is at least 1 |
| Trim.TrimTool.ResyncFromProps | components/upload/TrimTool.tsx:23-39 | the range becomes `(trimStart ?? 0, trimEnd ?? duration)` |
| Dropzone.Process | components/upload/UploadDropzone.tsx:57-69 | no files gives nothing; a file is forwarded exactly when the first one validates, and then it is that file |
| Dropzone.RejectionExplainsWhy | components/upload/UploadDropzone.tsx:61-66 | a rejection shows the type error for a non-video and the size error for an oversized video; the fallback text is never shown |
| Dropzone.OnlyFirstFileMatters | components/upload/UploadDropzone.tsx:58-61 | later files never change the outcome |
| Dropzone.UploadDropzone.constructor | components/upload/UploadDropzone.tsx:13-19 | not dragging, no error |
| Dropzone.UploadDropzone.HandleDragEnter | components/upload/UploadDropzone.tsx:22-26 | `isDragging` becomes true |
| Dropzone.UploadDropzone.HandleDragLeave | components/upload/UploadDropzone.tsx:28-32 | `isDragging` becomes false |
| Dropzone.UploadDropzone.ProcessFiles | components/upload/UploadDropzone.tsx:57-69 | a rejection sets the error and forwards nothing; a valid first file is forwarded and the error is left alone; no files changes nothing |
| Dropzone.UploadDropzone.HandleDrop | components/upload/UploadDropzone.tsx:39-47 | ends dragging, clears the old error, then processes the files |
| Dropzone.UploadDropzone.HandleFileInput | components/upload/UploadDropzone.tsx:49-55 | clears the old error, then processes the files if the input has a list |
| Modal.StepErrors | components/upload/UploadModal.tsx:137-148 | the only possible error is the title error, recorded exactly on Details with a missing or blank title |
| Modal.StepValidIffVisibleTitle | components/upload/UploadModal.tsx:137-148 | a step validates iff it is not Details or the title has a non-whitespace character |
| Modal.ValidDetailsHasTitle | components/upload/UploadModal.tsx:140-143 | a Details step that validates has a non-empty title |
| Modal.NextStep | components/upload/UploadModal.tsx:150-154 | one step forward only when valid, capped at 4; stays in [1, 4] |
| Modal.BackStep | components/upload/UploadModal.tsx:156-158 | one step back, floored at 1; stays in [1, 4] |
| Modal.TabTarget | components/upload/UploadModal.tsx:228-289 | tab clicks keep the step in [1, 4] |
| Modal.BackAndNextAreInverse | components/upload/UploadModal.tsx:150-158 | inside the range, back undoes next and next undoes back |
| Modal.TabsNeverAdvance | components/upload/UploadModal.tsx:228-289 | Details is always reachable; tab k goes to k exactly when the current step is ≥ k, and no click moves forward |
| Modal.FlagsMatchMoves | components/upload/UploadModal.tsx:185-187 | `canNext`/`canBack` hold exactly when next/back would move |
| Modal.WithTrim | components/upload/UploadModal.tsx:181-183 | the trim report sets `trimStart` and `trimEnd` |
| Modal.TrimChangeTouchesOnlyTrim | components/upload/UploadModal.tsx:181-183 | no other key, and not `savedAt`, changes |
| Modal.UploadModal.CanPublish | components/upload/UploadModal.tsx:160-170 | `canPublish` holds iff the upload is `ready`; `HandlePublish` requests the close, and reports an id, exactly when `CanPublish()` held |
| Modal.UploadModal.CanNext | components/upload/UploadModal.tsx:186 | true iff next would move |
| Modal.UploadModal.CanBack | components/upload/UploadModal.tsx:187 | true iff back would move |
| Modal.UploadModal.TrimDuration | components/upload/UploadModal.tsx:384 | the duration handed to the trim tool is never 0, is the player's value once one is reported, and is positive unless the player reported a negative time |
| Modal.UploadModal.MountTrimTool | components/upload/UploadModal.tsx:383-388 | the trim tool gets `TrimDuration()` and the metadata's trim keys; its initial range never ends at 0 |
| Modal.UploadModal.constructor | components/upload/UploadModal.tsx:41-64 | step 1, the initial metadata of lines 44-55, no errors, refs cleared, an idle upload and the draft store under `video-upload-draft` |
| Modal.UploadModal.SetOpen | components/upload/UploadModal.tsx:34-40 | the parent changes only `open` |
| Modal.UploadModal.HandleTimeUpdate | components/upload/UploadModal.tsx:321 | the player's time becomes the duration |
| Modal.UploadModal.RunDraftEffect | components/upload/UploadModal.tsx:67-80 | the first run while open loads the draft and takes it only if it loads and the user accepts; closing re-arms the check |
| Modal.UploadModal.VideoFileEffect | components/upload/UploadModal.tsx:83-101 | a new file sets the preview URL and starts an upload; a removed file drops the URL; the same file changes nothing |
| Modal.UploadModal.AutosaveFires | components/upload/UploadModal.tsx:104-111 | the timer exists only while open with a non-empty title, and saves the current metadata |
| Modal.UploadModal.HandleClose | components/upload/UploadModal.tsx:113-135 | see the `handleClose` list below |
| Modal.UploadModal.ValidateStep | components/upload/UploadModal.tsx:137-148 | records `StepErrors` and returns whether there are none |
| Modal.UploadModal.HandleNext | components/upload/UploadModal.tsx:150-154 | the step becomes `NextStep` of the validation; only the errors and the step change |
| Modal.UploadModal.HandleBack | components/upload/UploadModal.tsx:156-158 | the step becomes `BackStep`; nothing else changes |
| Modal.UploadModal.ClickTab | components/upload/UploadModal.tsx:228-289 | the step becomes `TabTarget`; nothing else changes |
| Modal.ReportedId | components/upload/UploadModal.tsx:167 | `videoId \|\| "mock-video-id"` is never empty; a non-empty id is reported as it is, and anything but the placeholder is the id |
| Modal.UploadModal.HandlePublish | components/upload/UploadModal.tsx:160-170 | see the `handlePublish` list below |
| Modal.UploadModal.HandleSaveDraft | components/upload/UploadModal.tsx:172-175 | saves the current metadata whatever the result |
| Modal.UploadModal.HandleMetadataChange | components/upload/UploadModal.tsx:177-179 | replaces the metadata with the form's record |
| Modal.UploadModal.HandleTrimChange | components/upload/UploadModal.tsx:181-183 | the metadata becomes `WithTrim` of the old one |
| Modal.UploadModal.SelectThumbnail | components/upload/UploadModal.tsx:369-374 | sets only `thumbnailIndex` |
| Modal.UploadModal.UploadCustomThumbnail | components/upload/UploadModal.tsx:375-380 | sets only `customThumbnail` |
| Modal.UploadModal.RestoreDraft | components/upload/UploadModal.tsx:207-211 | takes the stored draft, without asking, when it loads |
| Modal.UploadModal.DiscardDraft | components/upload/UploadModal.tsx:216-217 | clears the stored draft |

The rows that hold several rules:

- **`UploadProgress.TickReportsCappedCounter`:**
  - A tick reports the counter plus the increment, capped at exactly 100.
  - The report is never below the counter, and only the progress changes.
  - Progress is 100 exactly when the sum reaches 100. Then the interval is cleared, no
    interval takes its place, and the queued timeout is scheduled.
- **`Form.Suggestions`:**
  - At most five suggestions are shown, in list order, none of them already a tag.
  - They are the start of the list of unused suggestions (`.slice(0, 5)`): the first
    five of them, or all of them when fewer than five are left.
- **`Form.AddTagReaction` (`addTag`):**
  - A blank input changes nothing, the tag input included.
  - Otherwise the tag input is cleared.
  - A record is emitted exactly when the trimmed tag is absent and fewer than 15 tags
    exist. That record is the old tags plus the trimmed tag at the end.
- **`Modal.UploadModal.HandleClose`:**
  - While `uploading` below 100, a declined confirmation changes nothing.
  - Otherwise:
    - the draft is saved if it has a title and the user agrees;
    - close is requested: `closeRequested` stands for both `onOpenChange(false)` and
      `onCancel?.()`, which always run together;
    - the upload is reset and the step returns to 1;
    - the metadata is kept.
- **`Modal.UploadModal.HandlePublish`:**
  - When not `ready`, nothing changes and nothing is reported.
  - Close is requested exactly when `CanPublish()` held (the upload is `ready`), and an id is reported
    exactly then.
  - When `ready`:
    - the draft is cleared;
    - `ReportedId` of the video id is reported: the id, or `mock-video-id` when it is
      absent or empty;
    - close is requested (`onOpenChange(false)`);
    - the upload is reset;
    - the step is kept.

## Left out

- Rendering: JSX, Tailwind classes, framer-motion, the Dialog, the `errors` display,
  the category and language lists, and the draft banner's visibility. They hold no
  state that can be stated.
- `ProcessingStatus.tsx`, `PublishControls.tsx`, `UploadProgressHeader.tsx`,
  `VideoJsPlayer.tsx`, `VideoPreviewPlayer.tsx`, `ThumbnailSelector.tsx` and
  `app/upload/page.tsx`. They are presentation, media elements or wiring. Only the
  callbacks they invoke on the modal are modelled.
- `cn` and `formatFileSize`: they depend on clsx/tailwind-merge and on floating-point
  `Math.log`. `formatFileSize` is an opaque `int -> string` parameter.
- `Utils.FormatDuration`: defined only for natural seconds. Fractional or negative
  input (floored floating-point division in the code) is not modelled.
- Floating point: progress and trim times are exact reals, so NaN, `parseFloat`
  failures and the `|| 0` fallback of the number inputs are not modelled.
- Form controls: the handlers run whether or not the control is enabled. The tag input
  disabled at 15 tags, the Next button disabled on an empty title and the Publish
  button disabled until `ready` are not modelled.
- Timers: delays of 500, 2000 and 3000 ms are not modelled. Any scheduled callback may
  run next.
- `UploadModal.AutosaveFires`: the effect's timer cancellation on every re-render
  becomes the precondition that the timer exists.
- `TrimTool.ResyncFromProps`: the resync effect's cleanup is not modelled.
- `URL.revokeObjectURL`.
- React batching: `setState` applies at once. Callbacks that close over stale values
  are not modelled, apart from the interval's own counter.
- File identity: `videoFile !== videoFileRef.current` compares object identity. The
  model compares `File` values, so two equal files count as the same.
- JSON: `JSON.stringify` of a `File` yields `{}`, and the model treats that as absent.
  JSON that parses to a non-object is folded into "does not parse".
- `console.error` logging.
- `handleDragOver`, the button and keyboard handlers that open the file picker, and
  the `accept` filter: they change no state of the component, or belong to the
  browser.
- The HTML `maxLength={100}` of the title input.
