/**
  Model of `useUploadProgress` in lib/hooks.ts: the simulated upload record and the
  timer callbacks that advance it.

  The hook keeps one `UploadState`. `startUpload` starts a 500 ms interval whose
  closure accumulates a local `progress` (an increment in [0, 15) per tick, standing
  for `Math.random() * 15`); once that counter reaches 100 it clears its own interval
  and schedules a 500 ms timeout that enters `queued`, which schedules a 2000 ms
  timeout that enters `processing`, which schedules a 3000 ms timeout that enters
  `ready`. Nothing ever cancels these callbacks: `reset`, `retryUpload` and a second
  `startUpload` leave every scheduled callback in place. Every callback is therefore an
  event on its own, and the set of scheduled callbacks is part of the state.
 */
module UploadProgress {
  import opened Wrappers

  datatype Status = Idle | Uploading | Queued | Processing | Ready | Error

  datatype UploadState = UploadState(
    uploadProgress: real,
    processingStatus: Status,
    uploadId: Option<string>,
    videoId: Option<string>,
    error: Option<string>)

  /** The state the hook starts in and `reset` restores. */
  const INITIAL: UploadState := UploadState(0.0, Idle, None, None, None)

  /** `Math.random() * 15` lies in [0, 15). */
  const MAX_INCREMENT: real := 15.0

  /** A callback that is scheduled and has not run (or, for the interval, not been cleared). */
  datatype Timer =
    | Interval(progress: real)  // the 500 ms interval with the current value of its closure's `progress`
    | QueueTimer                // the 500 ms timeout that enters `queued`
    | ProcessingTimer           // the 2000 ms timeout that enters `processing`
    | ReadyTimer                // the 3000 ms timeout that enters `ready`

  /** The hook's state together with its scheduled callbacks. */
  datatype Hook = Hook(state: UploadState, pending: multiset<Timer>)

  /** Reported progress is a percentage and every live interval counter is below 100. */
  ghost predicate Valid(h: Hook) {
    && 0.0 <= h.state.uploadProgress <= 100.0
    && forall t :: t in h.pending && t.Interval? ==> 0.0 <= t.progress < 100.0
  }

  function Min(a: real, b: real): real {
    if a <= b then a else b
  }

  // ---------------------------------------------------------------- the callbacks

  /** `startUpload`: a fresh record, plus a new interval; earlier callbacks stay scheduled. */
  function AfterStart(h: Hook, uploadId: string): Hook {
    Hook(UploadState(0.0, Uploading, Some(uploadId), None, None), h.pending + multiset{Interval(0.0)})
  }

  /** One run of the interval callback whose counter is `p`, with increment `inc`. */
  function AfterTick(h: Hook, p: real, inc: real): Hook
    requires Interval(p) in h.pending
  {
    var reached := p + inc >= 100.0;
    var progress := if reached then 100.0 else p + inc;
    var rest := h.pending - multiset{Interval(p)};
    Hook(h.state.(uploadProgress := Min(progress, 100.0)),
         if reached then rest + multiset{QueueTimer} else rest + multiset{Interval(progress)})
  }

  /** The 500 ms timeout: `queued`, progress 100 and a video id. */
  function AfterQueueTimer(h: Hook, videoId: string): Hook
    requires QueueTimer in h.pending
  {
    Hook(h.state.(uploadProgress := 100.0, processingStatus := Queued, videoId := Some(videoId)),
         h.pending - multiset{QueueTimer} + multiset{ProcessingTimer})
  }

  /** The 2000 ms timeout: `processing`. */
  function AfterProcessingTimer(h: Hook): Hook
    requires ProcessingTimer in h.pending
  {
    Hook(h.state.(processingStatus := Processing), h.pending - multiset{ProcessingTimer} + multiset{ReadyTimer})
  }

  /** The 3000 ms timeout: `ready`. */
  function AfterReadyTimer(h: Hook): Hook
    requires ReadyTimer in h.pending
  {
    Hook(h.state.(processingStatus := Ready), h.pending - multiset{ReadyTimer})
  }

  /** `retryUpload`: no new interval is started. */
  function AfterRetry(h: Hook): Hook {
    Hook(h.state.(error := None, processingStatus := Uploading, uploadProgress := 0.0), h.pending)
  }

  /** `reset`: no scheduled callback is cancelled. */
  function AfterReset(h: Hook): Hook {
    Hook(INITIAL, h.pending)
  }

  // ---------------------------------------------------------------- events and runs

  datatype Event =
    | Start(uploadId: string)
    | Tick(p: real, inc: real)
    | QueueFires(videoId: string)
    | ProcessingFires
    | ReadyFires
    | Retry
    | ResetCalled

  predicate IsTimerEvent(e: Event) {
    e.Tick? || e.QueueFires? || e.ProcessingFires? || e.ReadyFires?
  }

  /** A callback can only run while it is scheduled; an increment is in [0, 15). */
  predicate Enabled(h: Hook, e: Event) {
    match e
    case Tick(p, inc) => Interval(p) in h.pending && 0.0 <= inc < MAX_INCREMENT
    case QueueFires(_) => QueueTimer in h.pending
    case ProcessingFires => ProcessingTimer in h.pending
    case ReadyFires => ReadyTimer in h.pending
    case _ => true
  }

  function Step(h: Hook, e: Event): Hook
    requires Enabled(h, e)
  {
    match e
    case Start(id) => AfterStart(h, id)
    case Tick(p, inc) => AfterTick(h, p, inc)
    case QueueFires(v) => AfterQueueTimer(h, v)
    case ProcessingFires => AfterProcessingTimer(h)
    case ReadyFires => AfterReadyTimer(h)
    case Retry => AfterRetry(h)
    case ResetCalled => AfterReset(h)
  }

  /** The hook after a sequence of events, or `None` if one of them could not run. */
  function Run(h: Hook, es: seq<Event>): Option<Hook>
    decreases |es|
  {
    if es == [] then Some(h)
    else if Enabled(h, es[0]) then Run(Step(h, es[0]), es[1..])
    else None
  }

  /** Running `e` and then `es` is running `es` from the hook `e` leaves. */
  lemma RunOne(h: Hook, e: Event, es: seq<Event>)
    requires Enabled(h, e)
    ensures Run(h, [e] + es) == Run(Step(h, e), es)
  {
    assert ([e] + es)[1..] == es;
  }

  lemma {:induction false} RunAppend(h: Hook, a: seq<Event>, b: seq<Event>)
    ensures Run(h, a + b) == if Run(h, a).Some? then Run(Run(h, a).value, b) else None
    decreases |a|
  {
    if a == [] {
      assert a + b == b;
    } else {
      assert a + b != [] && (a + b)[0] == a[0] && (a + b)[1..] == a[1..] + b;
      if Enabled(h, a[0]) {
        RunAppend(Step(h, a[0]), a[1..], b);
      }
    }
  }

  // ---------------------------------------------------------------- single-call properties

  /** `startUpload` sets a fresh record and adds one interval, cancelling nothing. */
  lemma StartResetsRecord(h: Hook, uploadId: string)
    ensures var r := AfterStart(h, uploadId);
      r.state.uploadProgress == 0.0 && r.state.processingStatus == Uploading
      && r.state.uploadId == Some(uploadId) && r.state.videoId == None && r.state.error == None
      && r.pending[Interval(0.0)] == h.pending[Interval(0.0)] + 1
      && forall t: Timer :: t != Interval(0.0) ==> r.pending[t] == h.pending[t]
  {
  }

  /**
    A tick reports its counter plus the increment, capped at exactly 100; the reported
    value is never below the counter; only `uploadProgress` changes in the record. A
    tick that reaches 100 clears its interval (no interval is left in its place) and
    schedules the queued timeout.
   */
  lemma TickReportsCappedCounter(h: Hook, p: real, inc: real)
    requires Valid(h) && Enabled(h, Tick(p, inc))
    ensures var r := AfterTick(h, p, inc);
      && p <= r.state.uploadProgress <= 100.0
      && r.state == h.state.(uploadProgress := r.state.uploadProgress)
      && (r.state.uploadProgress == 100.0 <==> p + inc >= 100.0)
      && (p + inc >= 100.0 ==>
            && r.pending[Interval(p)] == h.pending[Interval(p)] - 1
            && r.pending[QueueTimer] == h.pending[QueueTimer] + 1
            && forall t: Timer :: t.Interval? ==> r.pending[t] <= h.pending[t])
      && (p + inc < 100.0 ==> Interval(p + inc) in r.pending && r.state.uploadProgress == p + inc)
  {
  }

  /** `retryUpload` clears the error and restarts the percentage, keeping both ids and every callback. */
  lemma RetryKeepsIds(h: Hook)
    ensures var r := AfterRetry(h);
      r.state.error == None && r.state.processingStatus == Uploading && r.state.uploadProgress == 0.0
      && r.state.uploadId == h.state.uploadId && r.state.videoId == h.state.videoId
      && r.pending == h.pending
  {
  }

  /** `reset` restores exactly the initial record and is idempotent. */
  lemma ResetRestoresInitial(h: Hook)
    ensures AfterReset(h).state == UploadState(0.0, Idle, None, None, None)
    ensures AfterReset(AfterReset(h)) == AfterReset(h)
  {
  }

  /** The queued step sets progress 100 and the video id; the two later steps change only the status. */
  lemma StageStepsChangeOnlyStatus(h: Hook, videoId: string)
    ensures QueueTimer in h.pending ==>
      AfterQueueTimer(h, videoId).state
        == h.state.(uploadProgress := 100.0, processingStatus := Queued, videoId := Some(videoId))
    ensures ProcessingTimer in h.pending ==>
      AfterProcessingTimer(h).state == h.state.(processingStatus := Processing)
    ensures ReadyTimer in h.pending ==>
      AfterReadyTimer(h).state == h.state.(processingStatus := Ready)
  {
  }

  /** Every callback and command keeps progress within [0, 100]. */
  lemma StepKeepsValid(h: Hook, e: Event)
    requires Valid(h) && Enabled(h, e)
    ensures Valid(Step(h, e))
  {
    var r := Step(h, e);
    forall t | t in r.pending && t.Interval?
      ensures 0.0 <= t.progress < 100.0
    {
      if t in h.pending {
      } else if e.Tick? {
        assert t == Interval(e.p + e.inc);
      } else {
        assert e.Start? && t == Interval(0.0);
      }
    }
  }

  /** No callback or command ever enters `error`. */
  lemma NoStepEntersError(h: Hook, e: Event)
    requires Enabled(h, e) && h.state.processingStatus != Error
    ensures Step(h, e).state.processingStatus != Error
  {
  }

  // ---------------------------------------------------------------- one attempt, in order

  /** Where a single attempt stands, by the one callback it has scheduled. */
  datatype Stage = Transferring(progress: real) | AwaitQueued | AwaitProcessing | AwaitReady | Finished

  function StageTimers(st: Stage): multiset<Timer> {
    match st
    case Transferring(p) => multiset{Interval(p)}
    case AwaitQueued => multiset{QueueTimer}
    case AwaitProcessing => multiset{ProcessingTimer}
    case AwaitReady => multiset{ReadyTimer}
    case Finished => multiset{}
  }

  /** The hook runs exactly one attempt, and it is at stage `st`. */
  ghost predicate ChainAt(h: Hook, st: Stage) {
    && h.pending == StageTimers(st)
    && h.state.uploadId.Some? && h.state.error == None
    && match st
       case Transferring(p) =>
         0.0 <= p < 100.0 && h.state.processingStatus == Uploading
         && h.state.uploadProgress == p && h.state.videoId == None
       case AwaitQueued =>
         h.state.processingStatus == Uploading && h.state.uploadProgress == 100.0 && h.state.videoId == None
       case AwaitProcessing =>
         h.state.processingStatus == Queued && h.state.uploadProgress == 100.0 && h.state.videoId.Some?
       case AwaitReady =>
         h.state.processingStatus == Processing && h.state.uploadProgress == 100.0 && h.state.videoId.Some?
       case Finished =>
         h.state.processingStatus == Ready && h.state.uploadProgress == 100.0 && h.state.videoId.Some?
  }

  /** Position of a status in `idle → uploading → queued → processing → ready`. */
  function Rank(s: Status): nat {
    match s
    case Idle => 0
    case Uploading => 1
    case Queued => 2
    case Processing => 3
    case Ready => 4
    case Error => 5
  }

  function NextStage(st: Stage, e: Event): Stage {
    match st
    case Transferring(p) =>
      if e.Tick? then (if p + e.inc >= 100.0 then AwaitQueued else Transferring(p + e.inc)) else st
    case AwaitQueued => if e.QueueFires? then AwaitProcessing else st
    case AwaitProcessing => if e.ProcessingFires? then AwaitReady else st
    case AwaitReady => if e.ReadyFires? then Finished else st
    case Finished => st
  }

  function StageAfter(st: Stage, es: seq<Event>): Stage
    decreases |es|
  {
    if es == [] then st else StageAfter(NextStage(st, es[0]), es[1..])
  }

  /** `startUpload` on a hook with nothing scheduled begins a single attempt. */
  lemma StartBeginsChain(h: Hook, uploadId: string)
    requires h.pending == multiset{}
    ensures ChainAt(AfterStart(h, uploadId), Transferring(0.0))
  {
  }

  /**
    Within one attempt every callback moves at most one status forward (the stages are
    never skipped), never lowers the progress, and never changes the upload id or an
    assigned video id.
   */
  lemma ChainStep(h: Hook, st: Stage, e: Event)
    requires ChainAt(h, st) && IsTimerEvent(e) && Enabled(h, e)
    ensures StepAdvances(h, NextStage(st, e), Step(h, e))
  {
    match st
    case Transferring(p) => TransferStep(h, p, e);
    case AwaitQueued => QueueStep(h, e);
    case AwaitProcessing => ProcessingStep(h, e);
    case AwaitReady => ReadyStep(h, e);
    case Finished =>
      assert false;
  }

  /**
    `r` follows `h` within one attempt and sits at stage `st`: the status moved at most
    one place forward, progress did not drop, and the ids were kept.
   */
  ghost predicate StepAdvances(h: Hook, st: Stage, r: Hook) {
    && ChainAt(r, st)
    && (Rank(r.state.processingStatus) == Rank(h.state.processingStatus)
        || Rank(r.state.processingStatus) == Rank(h.state.processingStatus) + 1)
    && h.state.uploadProgress <= r.state.uploadProgress
    && r.state.uploadId == h.state.uploadId
    && (h.state.videoId.Some? ==> r.state.videoId == h.state.videoId)
  }

  lemma TransferStep(h: Hook, p: real, e: Event)
    requires ChainAt(h, Transferring(p)) && IsTimerEvent(e) && Enabled(h, e)
    ensures StepAdvances(h, NextStage(Transferring(p), e), Step(h, e))
  {
    assert e.Tick? && e.p == p by {
      assert QueueTimer !in h.pending && ProcessingTimer !in h.pending && ReadyTimer !in h.pending;
    }
    assert multiset{Interval(p)} - multiset{Interval(p)} == multiset{};
  }

  lemma QueueStep(h: Hook, e: Event)
    requires ChainAt(h, AwaitQueued) && IsTimerEvent(e) && Enabled(h, e)
    ensures StepAdvances(h, NextStage(AwaitQueued, e), Step(h, e))
  {
    assert e.QueueFires? by {
      assert forall q :: Interval(q) !in h.pending;
      assert ProcessingTimer !in h.pending && ReadyTimer !in h.pending;
    }
    assert multiset{QueueTimer} - multiset{QueueTimer} == multiset{};
  }

  lemma ProcessingStep(h: Hook, e: Event)
    requires ChainAt(h, AwaitProcessing) && IsTimerEvent(e) && Enabled(h, e)
    ensures StepAdvances(h, NextStage(AwaitProcessing, e), Step(h, e))
  {
    assert e.ProcessingFires? by {
      assert forall q :: Interval(q) !in h.pending;
      assert QueueTimer !in h.pending && ReadyTimer !in h.pending;
    }
    assert multiset{ProcessingTimer} - multiset{ProcessingTimer} == multiset{};
  }

  lemma ReadyStep(h: Hook, e: Event)
    requires ChainAt(h, AwaitReady) && IsTimerEvent(e) && Enabled(h, e)
    ensures StepAdvances(h, NextStage(AwaitReady, e), Step(h, e))
  {
    assert e.ReadyFires? by {
      assert forall q :: Interval(q) !in h.pending;
      assert QueueTimer !in h.pending && ProcessingTimer !in h.pending;
    }
    assert multiset{ReadyTimer} - multiset{ReadyTimer} == multiset{};
  }

  /** Along any run of one attempt's callbacks the status only moves forward and progress only grows. */
  lemma {:induction false} ChainRun(h: Hook, st: Stage, es: seq<Event>)
    requires ChainAt(h, st)
    requires forall i :: 0 <= i < |es| ==> IsTimerEvent(es[i])
    requires Run(h, es).Some?
    ensures var r := Run(h, es).value;
      && ChainAt(r, StageAfter(st, es))
      && Rank(h.state.processingStatus) <= Rank(r.state.processingStatus)
      && h.state.uploadProgress <= r.state.uploadProgress
      && r.state.uploadId == h.state.uploadId
    decreases |es|
  {
    if es != [] {
      ChainStep(h, st, es[0]);
      ChainRun(Step(h, es[0]), NextStage(st, es[0]), es[1..]);
    }
  }

  /** Distance of an interval counter from 100, as a termination measure. */
  function PointsLeft(p: real): int {
    if p >= 100.0 then 0 else (100.0 - p).Floor + 1
  }

  /** Ticks of 10 points from counter `p` until the interval has cleared itself. */
  function TickEvents(p: real): seq<Event>
    decreases PointsLeft(p)
  {
    if p >= 100.0 then [] else [Tick(p, 10.0)] + TickEvents(p + 10.0)
  }

  lemma {:induction false} TicksFinishTransfer(h: Hook, p: real)
    requires ChainAt(h, Transferring(p))
    ensures Run(h, TickEvents(p)).Some? && ChainAt(Run(h, TickEvents(p)).value, AwaitQueued)
    decreases PointsLeft(p)
  {
    var es := TickEvents(p);
    assert es[0] == Tick(p, 10.0) && es[1..] == TickEvents(p + 10.0);
    ChainStep(h, Transferring(p), Tick(p, 10.0));
    var h' := Step(h, Tick(p, 10.0));
    if p + 10.0 >= 100.0 {
      assert TickEvents(p + 10.0) == [];
    } else {
      TicksFinishTransfer(h', p + 10.0);
    }
  }

  /** The three stage timeouts take an attempt whose transfer is done to `ready`. */
  lemma QueuedAttemptFinishes(h: Hook, videoId: string)
    requires ChainAt(h, AwaitQueued)
    ensures var r := Run(h, [QueueFires(videoId), ProcessingFires, ReadyFires]);
      r.Some? && r.value.pending == multiset{}
      && r.value.state == h.state.(processingStatus := Ready, videoId := Some(videoId))
  {
    var h3 := AfterQueueTimer(h, videoId);
    assert h3.pending == multiset{ProcessingTimer} by {
      assert multiset{QueueTimer} - multiset{QueueTimer} + multiset{ProcessingTimer} == multiset{ProcessingTimer};
    }
    var h4 := AfterProcessingTimer(h3);
    assert h4.pending == multiset{ReadyTimer} by {
      assert multiset{ProcessingTimer} - multiset{ProcessingTimer} + multiset{ReadyTimer} == multiset{ReadyTimer};
    }
    var h5 := AfterReadyTimer(h4);
    assert h5.pending == multiset{} by {
      assert multiset{ReadyTimer} - multiset{ReadyTimer} == multiset{};
    }
    RunOne(h4, ReadyFires, []);
    RunOne(h3, ProcessingFires, [ReadyFires]);
    RunOne(h, QueueFires(videoId), [ProcessingFires, ReadyFires]);
  }

  /** The events of an upload left alone from `startUpload` on. */
  function CompletionEvents(uploadId: string, videoId: string): seq<Event> {
    [Start(uploadId)] + TickEvents(0.0) + [QueueFires(videoId), ProcessingFires, ReadyFires]
  }

  /**
    A started upload, left alone, reaches `ready` with progress 100 and the video id it
    was given, keeping its upload id.
   */
  lemma StartedUploadReachesReady(h: Hook, uploadId: string, videoId: string)
    requires h.pending == multiset{}
    ensures var r := Run(h, CompletionEvents(uploadId, videoId));
      r.Some? && r.value.pending == multiset{}
      && r.value.state == UploadState(100.0, Ready, Some(uploadId), Some(videoId), None)
  {
    var h1 := AfterStart(h, uploadId);
    StartBeginsChain(h, uploadId);
    var ticks := TickEvents(0.0);
    TicksFinishTransfer(h1, 0.0);
    var h2 := Run(h1, ticks).value;
    var tail := [QueueFires(videoId), ProcessingFires, ReadyFires];
    assert Run(h, [Start(uploadId)]) == Some(h1);
    RunAppend(h, [Start(uploadId)], ticks);
    RunAppend(h, [Start(uploadId)] + ticks, tail);
    QueuedAttemptFinishes(h2, videoId);
  }

  // ---------------------------------------------------------------- callbacks nobody cancels

  /** After `reset`, an interval left over from the abandoned attempt still changes the reported progress. */
  lemma StaleTickAfterReset(h: Hook, p: real, inc: real)
    requires Valid(h) && Enabled(h, Tick(p, inc)) && p + inc > 0.0
    ensures var r := AfterTick(AfterReset(h), p, inc);
      r.state.processingStatus == Idle && r.state.uploadProgress > 0.0
  {
  }

  /** After `reset`, a leftover queued timeout moves the record from `idle` straight to `queued`. */
  lemma StaleQueueAfterReset(h: Hook, videoId: string)
    requires QueueTimer in h.pending
    ensures AfterReset(h).state.processingStatus == Idle
    ensures AfterQueueTimer(AfterReset(h), videoId).state.processingStatus == Queued
  {
  }

  /**
    After `reset`, leftover stage timeouts reach `ready` without any video id: this is
    the record in which publishing falls back to a placeholder id.
   */
  lemma StaleReadyAfterReset(h: Hook)
    requires ProcessingTimer in h.pending
    ensures var r := AfterReadyTimer(AfterProcessingTimer(AfterReset(h)));
      r.state.processingStatus == Ready && r.state.videoId == None && r.state.uploadId == None
  {
  }

  /**
    A second `startUpload` while the first interval still runs: the two intervals take
    turns writing their own counters, so the reported progress falls while `uploading`.
   */
  lemma TwoIntervalsCanLowerProgress()
    ensures var h0 := AfterStart(Hook(INITIAL, multiset{}), "upload_1");
      var h1 := AfterTick(h0, 0.0, 14.0);
      var h2 := AfterStart(h1, "upload_2");
      var h3 := AfterTick(h2, 14.0, 14.0);
      var h4 := AfterTick(h3, 0.0, 1.0);
      && h3.state.processingStatus == Uploading && h4.state.processingStatus == Uploading
      && h3.state.uploadProgress == 28.0 && h4.state.uploadProgress == 1.0
  {
    var h0 := AfterStart(Hook(INITIAL, multiset{}), "upload_1");
    var h1 := AfterTick(h0, 0.0, 14.0);
    assert h1.pending == multiset{Interval(14.0)};
    var h2 := AfterStart(h1, "upload_2");
    var h3 := AfterTick(h2, 14.0, 14.0);
    assert Interval(0.0) in h3.pending;
  }

  // ---------------------------------------------------------------- the hook object

  /** The hook's `useState` cell and the callbacks it has scheduled. */
  class UploadProgressHook {
    var state: UploadState
    var pending: multiset<Timer>

    function Snapshot(): Hook
      reads this
    {
      Hook(state, pending)
    }

    constructor ()
      ensures Snapshot() == Hook(INITIAL, multiset{})
    {
      state := UploadState(0.0, Idle, None, None, None);
      pending := multiset{};
    }

    method StartUpload(uploadId: string)
      requires Valid(Snapshot())
      modifies this
      ensures Valid(Snapshot())
      ensures Snapshot() == AfterStart(old(Snapshot()), uploadId)
    {
      state := UploadState(0.0, Uploading, Some(uploadId), None, None);
      pending := pending + multiset{Interval(0.0)};
    }

    /** The interval callback whose closure counter is `p`; `inc` stands for `Math.random() * 15`. */
    method OnIntervalTick(p: real, inc: real)
      requires Valid(Snapshot()) && Interval(p) in pending && 0.0 <= inc < MAX_INCREMENT
      modifies this
      ensures Valid(Snapshot())
      ensures Snapshot() == AfterTick(old(Snapshot()), p, inc)
    {
      StepKeepsValid(Snapshot(), Tick(p, inc));
      var progress := p + inc;
      pending := pending - multiset{Interval(p)};
      if progress >= 100.0 {
        progress := 100.0;
        pending := pending + multiset{QueueTimer};
      } else {
        pending := pending + multiset{Interval(progress)};
      }
      state := state.(uploadProgress := Min(progress, 100.0));
    }

    method OnQueueTimeout(videoId: string)
      requires Valid(Snapshot()) && QueueTimer in pending
      modifies this
      ensures Valid(Snapshot())
      ensures Snapshot() == AfterQueueTimer(old(Snapshot()), videoId)
    {
      StepKeepsValid(Snapshot(), QueueFires(videoId));
      state := state.(uploadProgress := 100.0, processingStatus := Queued, videoId := Some(videoId));
      pending := pending - multiset{QueueTimer} + multiset{ProcessingTimer};
    }

    method OnProcessingTimeout()
      requires Valid(Snapshot()) && ProcessingTimer in pending
      modifies this
      ensures Valid(Snapshot())
      ensures Snapshot() == AfterProcessingTimer(old(Snapshot()))
    {
      StepKeepsValid(Snapshot(), ProcessingFires);
      state := state.(processingStatus := Processing);
      pending := pending - multiset{ProcessingTimer} + multiset{ReadyTimer};
    }

    method OnReadyTimeout()
      requires Valid(Snapshot()) && ReadyTimer in pending
      modifies this
      ensures Valid(Snapshot())
      ensures Snapshot() == AfterReadyTimer(old(Snapshot()))
    {
      StepKeepsValid(Snapshot(), ReadyFires);
      state := state.(processingStatus := Ready);
      pending := pending - multiset{ReadyTimer};
    }

    method RetryUpload()
      requires Valid(Snapshot())
      modifies this
      ensures Valid(Snapshot())
      ensures Snapshot() == AfterRetry(old(Snapshot()))
    {
      state := state.(error := None, processingStatus := Uploading, uploadProgress := 0.0);
    }

    method Reset()
      requires Valid(Snapshot())
      modifies this
      ensures Valid(Snapshot())
      ensures Snapshot() == AfterReset(old(Snapshot()))
    {
      state := UploadState(0.0, Idle, None, None, None);
    }
  }
}
