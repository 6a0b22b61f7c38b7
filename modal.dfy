/**
  Model of components/upload/UploadModal.tsx: the four-step wizard around one upload.

  The modal owns the current step, the metadata being edited, the validation errors,
  the preview URL and two refs; it drives one `useUploadProgress` hook and one
  `useAutosave("video-upload-draft")` hook. Its props are `open` and `videoFile`; the
  parent's answers to `onOpenChange`, `onCancel` and `onComplete` are not modelled, and
  a handler returns what it reports through them. Answers to `confirm` are inputs.
 */
module Modal {
  import opened Wrappers
  import opened TextOps
  import opened Utils
  import opened Metadata
  import UploadProgress
  import Autosave
  import Trimming = Trim

  const DETAILS: int := 1
  const ELEMENTS: int := 2
  const CHECKS: int := 3
  const VISIBILITY: int := 4

  const DRAFT_KEY: string := "video-upload-draft"
  const TITLE_REQUIRED: string := "Tiêu đề không được để trống"
  const MOCK_VIDEO_ID: string := "mock-video-id"

  /** The duration the trim tool is given while the player has reported none. */
  const FALLBACK_DURATION: real := 120.0

  /** The metadata a freshly mounted modal starts from. */
  const INITIAL_METADATA: VideoMetadata := VideoMetadata(
    title := Some(""), description := Some(""), tags := Some([]), category := Some(""),
    language := Some("vi"), allowComments := Some(true), addToPlaylist := Some(false),
    visibility := Some(Public), scheduledAt := None, thumbnailIndex := Some(0),
    customThumbnail := None, trimStart := Some(0.0), trimEnd := None, savedAt := None)

  predicate IsStep(step: int) {
    DETAILS <= step <= VISIBILITY
  }

  /** `metadata.title` is truthy: present and not the empty string. */
  predicate TitleTruthy(m: VideoMetadata) {
    m.title.Some? && m.title.value != ""
  }

  /** `!metadata.title || metadata.title.trim().length === 0` */
  predicate TitleMissing(m: VideoMetadata) {
    m.title.None? || |Trim(m.title.value)| == 0
  }

  /** The errors `validateStep(step)` records: only the Details step checks anything. */
  function StepErrors(step: int, m: VideoMetadata): (errors: map<string, string>)
    ensures errors == map[] || errors == map["title" := TITLE_REQUIRED]
    ensures "title" in errors <==> step == DETAILS && TitleMissing(m)
  {
    if step == DETAILS && TitleMissing(m) then map["title" := TITLE_REQUIRED] else map[]
  }

  /** What `validateStep(step)` returns. */
  predicate StepValid(step: int, m: VideoMetadata) {
    StepErrors(step, m) == map[]
  }

  /** A step fails validation exactly when it is Details and the title has no visible character. */
  lemma StepValidIffVisibleTitle(step: int, m: VideoMetadata)
    ensures StepValid(step, m) <==>
      step != DETAILS || (m.title.Some? && exists i :: 0 <= i < |m.title.value| && !IsWhitespace(m.title.value[i]))
  {
    if step == DETAILS && m.title.Some? {
      var t := m.title.value;
      if |Trim(t)| != 0 {
        var i :| 0 <= i < |t| && !IsWhitespace(t[i]);
      }
    }
  }

  /** `handleNext`: one step forward when the step validates, never past Visibility. */
  function NextStep(step: int, valid: bool): (r: int)
    ensures IsStep(step) ==> IsStep(r)
    ensures !valid ==> r == step
    ensures valid && step < VISIBILITY ==> r == step + 1
    ensures valid && step >= VISIBILITY ==> r == VISIBILITY
  {
    if valid then (if step + 1 <= VISIBILITY then step + 1 else VISIBILITY) else step
  }

  /** `handleBack`: one step back, never before Details. */
  function BackStep(step: int): (r: int)
    ensures IsStep(step) ==> IsStep(r)
    ensures step > DETAILS ==> r == step - 1
    ensures step <= DETAILS ==> r == DETAILS
  {
    if step - 1 >= DETAILS then step - 1 else DETAILS
  }

  /**
    The step after clicking tab `tab`: Details always, any other tab only when the
    current step is already beyond the one before it.
   */
  function TabTarget(step: int, tab: int): (r: int)
    requires IsStep(tab)
    ensures IsStep(step) ==> IsStep(r)
  {
    if tab == DETAILS then DETAILS
    else if step > tab - 1 then tab
    else step
  }

  /** Back and Next undo each other inside the range. */
  lemma BackAndNextAreInverse(step: int)
    requires IsStep(step)
    ensures step < VISIBILITY ==> BackStep(NextStep(step, true)) == step
    ensures step > DETAILS ==> NextStep(BackStep(step), true) == step
  {
  }

  /** A tab click never moves forward: it goes to a step already reached, or stays. */
  lemma TabsNeverAdvance(step: int, tab: int)
    requires IsStep(step) && IsStep(tab)
    ensures TabTarget(step, tab) <= step
    ensures TabTarget(step, tab) == (if tab <= step then tab else step)
  {
  }

  /** `canNext` and `canBack` are exactly "the button would move". */
  lemma FlagsMatchMoves(step: int)
    requires IsStep(step)
    ensures (step < VISIBILITY) <==> NextStep(step, true) != step
    ensures (step > DETAILS) <==> BackStep(step) != step
  {
  }

  /** `{...prev, trimStart: start, trimEnd: end}` */
  function WithTrim(m: VideoMetadata, start: real, end: real): (r: VideoMetadata)
    ensures r.trimStart == Some(start) && r.trimEnd == Some(end)
  {
    WithField(WithField(m, TrimStart(start)), TrimEnd(end))
  }

  /** A trim report changes the two trim keys and nothing else. */
  lemma TrimChangeTouchesOnlyTrim(m: VideoMetadata, start: real, end: real)
    ensures forall f :: f != TrimStartField && f != TrimEndField ==> Get(WithTrim(m, start, end), f) == Get(m, f)
    ensures WithTrim(m, start, end).savedAt == m.savedAt
  {
  }

  /** The autosave timer is pending only while the modal is open and the title is non-empty. */
  predicate AutosaveArmed(open: bool, m: VideoMetadata) {
    open && TitleTruthy(m)
  }

  /** A title the Next button accepts always exists once Details validates. */
  lemma ValidDetailsHasTitle(m: VideoMetadata)
    requires StepValid(DETAILS, m)
    ensures TitleTruthy(m)
  {
  }

  /** The modal's own state, apart from the two hooks. */
  datatype View = View(
    open: bool,
    currentStep: int,
    videoUrl: Option<string>,
    videoDuration: real,
    metadata: VideoMetadata,
    errors: map<string, string>,
    draftChecked: bool,
    videoFileRef: Option<File>)

  /**
    `videoId || "mock-video-id"`: the id handed to `onComplete`. An absent and an empty
    id are both falsy and give the placeholder; any other id is reported as it is.
   */
  function ReportedId(videoId: Option<string>): (r: string)
    ensures r != ""
    ensures videoId.Some? && videoId.value != "" ==> r == videoId.value
    ensures r != MOCK_VIDEO_ID ==> videoId == Some(r)
  {
    if videoId.Some? && videoId.value != "" then videoId.value else MOCK_VIDEO_ID
  }

  class UploadModal {
    const upload: UploadProgress.UploadProgressHook
    const drafts: Autosave.DraftStore
    var open: bool
    var currentStep: int
    var videoUrl: Option<string>
    var videoDuration: real
    var metadata: VideoMetadata
    var errors: map<string, string>
    var draftChecked: bool
    var videoFileRef: Option<File>

    function ViewOf(): View
      reads this
    {
      View(open, currentStep, videoUrl, videoDuration, metadata, errors, draftChecked, videoFileRef)
    }

    /** The step is one of the four and the upload record is well formed. */
    ghost predicate Valid()
      reads this, upload
    {
      IsStep(currentStep) && UploadProgress.Valid(upload.Snapshot())
    }

    function CanPublish(): (b: bool)
      reads this, upload
      ensures b <==> upload.state.processingStatus == UploadProgress.Ready
    {
      upload.state.processingStatus == UploadProgress.Ready
    }

    function CanNext(): (b: bool)
      reads this
      ensures IsStep(currentStep) ==> (b <==> NextStep(currentStep, true) != currentStep)
    {
      currentStep < VISIBILITY
    }

    function CanBack(): (b: bool)
      reads this
      ensures IsStep(currentStep) ==> (b <==> BackStep(currentStep) != currentStep)
    {
      currentStep > DETAILS
    }

    /**
      `videoDuration || 120`, the duration handed to the trim tool: never zero, the
      player's own value once it has reported one, and positive unless the player
      reported a negative time.
     */
    function TrimDuration(): (d: real)
      reads this
      ensures d != 0.0
      ensures videoDuration != 0.0 ==> d == videoDuration
      ensures videoDuration >= 0.0 ==> d > 0.0
    {
      if videoDuration == 0.0 then FALLBACK_DURATION else videoDuration
    }

    /**
      The trim tool as the Elements step mounts it: the metadata's trim keys and
      `TrimDuration()`. Its range never starts out ending at 0.
     */
    method MountTrimTool() returns (tool: Trimming.TrimTool)
      ensures fresh(tool)
      ensures tool.duration == TrimDuration()
      ensures tool.trimStart == metadata.trimStart && tool.trimEnd == metadata.trimEnd
      ensures tool.Current() == Trimming.Range(metadata.trimStart.GetOr(0.0), Trimming.InitialEnd(metadata.trimEnd, TrimDuration()))
      ensures tool.Current().end != 0.0
    {
      tool := new Trimming.TrimTool(TrimDuration(), metadata.trimStart, metadata.trimEnd);
      Trimming.InitialEndNonZero(metadata.trimEnd, TrimDuration());
    }

    constructor (open: bool, storage: Autosave.Storage)
      ensures Valid() && fresh(upload) && fresh(drafts)
      ensures ViewOf() == View(open, DETAILS, None, 0.0, INITIAL_METADATA, map[], false, None)
      ensures upload.Snapshot() == UploadProgress.Hook(UploadProgress.INITIAL, multiset{})
      ensures drafts.key == DRAFT_KEY && drafts.storage == storage
    {
      upload := new UploadProgress.UploadProgressHook();
      drafts := new Autosave.DraftStore(DRAFT_KEY, storage);
      this.open := open;
      currentStep := DETAILS;
      videoUrl := None;
      videoDuration := 0.0;
      metadata := INITIAL_METADATA;
      errors := map[];
      draftChecked := false;
      videoFileRef := None;
    }

    /** The parent re-renders with a new `open` prop. */
    method SetOpen(open: bool)
      modifies this
      ensures ViewOf() == old(ViewOf()).(open := open)
    {
      this.open := open;
    }

    /** The player reports a time, which the modal keeps as the video's duration. */
    method HandleTimeUpdate(time: real)
      modifies this
      ensures ViewOf() == old(ViewOf()).(videoDuration := time)
    {
      videoDuration := time;
    }

    /**
      The draft effect: on the first run while open, offer the stored draft (the
      question is asked only when a draft loads) and take it if accepted; closing
      arms the check again.
     */
    method RunDraftEffect(env: Autosave.Env, confirmRestore: bool)
      modifies this
      ensures var loaded := Autosave.Loaded(drafts.storage, drafts.key, env);
        ViewOf() == old(ViewOf()).(
          draftChecked := open,
          metadata := if open && !old(draftChecked) && loaded.Some? && confirmRestore then loaded.value
                      else old(metadata))
    {
      if open && !draftChecked {
        draftChecked := true;
        var present := drafts.HasDraft(env);
        if present {
          var draft := drafts.LoadDraft(env);
          if draft.Some? && confirmRestore {
            metadata := draft.value;
          }
        }
      }
      if !open {
        draftChecked := false;
      }
    }

    /**
      The `videoFile` effect: a new file gets a preview URL and starts the simulated
      upload; a removed file drops the URL. `url` and `uploadId` stand for
      `URL.createObjectURL` and `upload_${Date.now()}`.
     */
    method VideoFileEffect(videoFile: Option<File>, url: string, uploadId: string)
      requires Valid()
      modifies this, upload
      ensures Valid()
      ensures videoFile.Some? && videoFile != old(videoFileRef) ==>
        && ViewOf() == old(ViewOf()).(videoFileRef := videoFile, videoUrl := Some(url))
        && upload.Snapshot() == UploadProgress.AfterStart(old(upload.Snapshot()), uploadId)
      ensures videoFile.None? && old(videoFileRef).Some? ==>
        ViewOf() == old(ViewOf()).(videoFileRef := None, videoUrl := None) && unchanged(upload)
      ensures videoFile == old(videoFileRef) ==> ViewOf() == old(ViewOf()) && unchanged(upload)
    {
      if videoFile.Some? && videoFile != videoFileRef {
        videoFileRef := videoFile;
        videoUrl := Some(url);
        upload.StartUpload(uploadId);
        return;
      }
      if videoFile.None? && videoFileRef.Some? {
        videoFileRef := None;
        videoUrl := None;
      }
    }

    /** The autosave timer firing two seconds after the last change of the metadata. */
    method AutosaveFires(env: Autosave.Env, now: string)
      requires AutosaveArmed(open, metadata)
      modifies drafts
      ensures drafts.storage == Autosave.Saved(old(drafts.storage), drafts.key, metadata, now, env).0
    {
      var saved := drafts.SaveDraft(metadata, now, env);
    }

    /**
      `handleClose`: while bytes are still being sent, a declined confirmation keeps
      everything as it is; otherwise the draft is saved if it has a title and the user
      agrees, the modal asks to be closed, the upload is reset and the wizard goes back
      to Details. The metadata is kept.
     */
    method HandleClose(confirmLeave: bool, confirmSave: bool, env: Autosave.Env, now: string)
      returns (closeRequested: bool)
      requires Valid()
      modifies this, upload, drafts
      ensures Valid()
      ensures var s := old(upload.state);
        s.processingStatus == UploadProgress.Uploading && s.uploadProgress < 100.0 && !confirmLeave ==>
          !closeRequested && unchanged(this, upload, drafts)
      ensures var s := old(upload.state);
        !(s.processingStatus == UploadProgress.Uploading && s.uploadProgress < 100.0 && !confirmLeave) ==>
          && closeRequested
          && ViewOf() == old(ViewOf()).(currentStep := DETAILS)
          && upload.Snapshot() == UploadProgress.AfterReset(old(upload.Snapshot()))
          && drafts.storage == (if TitleTruthy(old(metadata)) && confirmSave
                                then Autosave.Saved(old(drafts.storage), drafts.key, old(metadata), now, env).0
                                else old(drafts.storage))
    {
      if upload.state.processingStatus == UploadProgress.Uploading && upload.state.uploadProgress < 100.0 {
        if !confirmLeave {
          return false;
        }
      }
      if TitleTruthy(metadata) && confirmSave {
        var saved := drafts.SaveDraft(metadata, now, env);
      }
      closeRequested := true;
      upload.Reset();
      currentStep := DETAILS;
    }

    /** `validateStep(step)`: records the step's errors and reports whether there are none. */
    method ValidateStep(step: int) returns (ok: bool)
      modifies this
      ensures ok == StepValid(step, metadata)
      ensures ViewOf() == old(ViewOf()).(errors := StepErrors(step, metadata))
    {
      var newErrors: map<string, string> := map[];
      if step == DETAILS {
        if metadata.title.None? || |Trim(metadata.title.value)| == 0 {
          newErrors := newErrors["title" := TITLE_REQUIRED];
        }
      }
      errors := newErrors;
      assert |newErrors| == 0 <==> newErrors == map[] by {
        if newErrors != map[] {
          assert "title" in newErrors;
        }
      }
      ok := |newErrors| == 0;
    }

    method HandleNext()
      requires Valid()
      modifies this
      ensures Valid()
      ensures ViewOf() == old(ViewOf()).(
        errors := StepErrors(old(currentStep), metadata),
        currentStep := NextStep(old(currentStep), StepValid(old(currentStep), metadata)))
    {
      var ok := ValidateStep(currentStep);
      if ok {
        currentStep := if currentStep + 1 <= VISIBILITY then currentStep + 1 else VISIBILITY;
      }
    }

    method HandleBack()
      requires Valid()
      modifies this
      ensures Valid()
      ensures ViewOf() == old(ViewOf()).(currentStep := BackStep(old(currentStep)))
    {
      currentStep := if currentStep - 1 >= DETAILS then currentStep - 1 else DETAILS;
    }

    /** A click on step tab `tab` (1 to 4). */
    method ClickTab(tab: int)
      requires Valid() && IsStep(tab)
      modifies this
      ensures Valid()
      ensures ViewOf() == old(ViewOf()).(currentStep := TabTarget(old(currentStep), tab))
    {
      if tab == DETAILS {
        currentStep := DETAILS;
      } else if currentStep > tab - 1 {
        currentStep := tab;
      }
    }

    /**
      `handlePublish`: without a `ready` upload nothing changes; otherwise the draft is
      cleared, the video id (or the placeholder) is reported, the modal asks to be
      closed and the upload is reset. The step and the metadata are kept.
     */
    method HandlePublish(env: Autosave.Env) returns (completedWith: Option<string>, closeRequested: bool)
      requires Valid()
      modifies upload, drafts
      ensures Valid()
      ensures closeRequested <==> old(CanPublish())
      ensures completedWith.Some? <==> closeRequested
      ensures !closeRequested ==> unchanged(upload, drafts)
      ensures closeRequested ==>
        && completedWith == Some(ReportedId(old(upload.state.videoId)))
        && drafts.storage == Autosave.Cleared(old(drafts.storage), drafts.key, env).0
        && upload.Snapshot() == UploadProgress.AfterReset(old(upload.Snapshot()))
    {
      if upload.state.processingStatus != UploadProgress.Ready {
        return None, false;
      }
      var cleared := drafts.ClearDraft(env);
      completedWith := Some(ReportedId(upload.state.videoId));
      closeRequested := true;
      upload.Reset();
    }

    /** The Save Draft button; the confirmation alert is shown whatever the result. */
    method HandleSaveDraft(env: Autosave.Env, now: string) returns (saved: bool)
      modifies drafts
      ensures (drafts.storage, saved) == Autosave.Saved(old(drafts.storage), drafts.key, metadata, now, env)
    {
      saved := drafts.SaveDraft(metadata, now, env);
    }

    method HandleMetadataChange(newMetadata: VideoMetadata)
      modifies this
      ensures ViewOf() == old(ViewOf()).(metadata := newMetadata)
    {
      metadata := newMetadata;
    }

    method HandleTrimChange(start: real, end: real)
      modifies this
      ensures ViewOf() == old(ViewOf()).(metadata := WithTrim(old(metadata), start, end))
    {
      metadata := metadata.(trimStart := Some(start), trimEnd := Some(end));
    }

    /** The thumbnail selector's `onSelect`. */
    method SelectThumbnail(index: int)
      modifies this
      ensures ViewOf() == old(ViewOf()).(metadata := WithField(old(metadata), ThumbnailIndex(index)))
    {
      metadata := metadata.(thumbnailIndex := Some(index));
    }

    /** The thumbnail selector's `onCustomUpload`. */
    method UploadCustomThumbnail(file: File)
      modifies this
      ensures ViewOf() == old(ViewOf()).(metadata := WithField(old(metadata), CustomThumbnail(file)))
    {
      metadata := metadata.(customThumbnail := Some(file));
    }

    /** The banner's Restore Draft button: no question is asked. */
    method RestoreDraft(env: Autosave.Env)
      modifies this
      ensures var loaded := Autosave.Loaded(drafts.storage, drafts.key, env);
        ViewOf() == old(ViewOf()).(metadata := if loaded.Some? then loaded.value else old(metadata))
    {
      var draft := drafts.LoadDraft(env);
      if draft.Some? {
        metadata := draft.value;
      }
    }

    /** The banner's Discard button. */
    method DiscardDraft(env: Autosave.Env)
      modifies drafts
      ensures drafts.storage == Autosave.Cleared(old(drafts.storage), drafts.key, env).0
    {
      var cleared := drafts.ClearDraft(env);
    }
  }
}
