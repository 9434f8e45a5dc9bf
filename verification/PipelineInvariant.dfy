/** What holds in every state of the pipeline, whatever the interleaving of main,
    the three tasks, the capture thread and the driver. */
module PipelineInvariant {
  import opened Bytes
  import opened Sensor
  import opened CaptureControl
  import opened Handoff
  import opened Pipeline
  import D = Detection
  import ColorPpm
  import Common
  import Stdio
  import Storage
  import Telemetry
  import R = RingModel
  import Task1
  import Cam = Camera
  import CI = CameraInvariant
  import CT = CameraTheorems

  // ----- Task 1 -----

  ghost predicate SensorOk(m: D.Trig, t1: Sensing, latencyStart: nat, detection: nat) {
    var n := |t1.samples|;
    match t1.pc
    case Sampling => Task1.Quiet(m, t1.samples) && t1.tracker == Task1.Track(m, t1.samples)
    case Analysing =>
      // the last sample is in the ring, but not yet seen by the detector
      n > 0 && Task1.Quiet(m, t1.samples[..n - 1]) && t1.tracker == Task1.Track(m, t1.samples[..n - 1])
    case Freezing => Task1.Reported(m, t1.samples, latencyStart, detection)
    case Signalling => Task1.Reported(m, t1.samples, latencyStart, detection)
    case Ended(detected) => detected ==> Task1.Reported(m, t1.samples, latencyStart, detection)
  }

  ghost predicate ClockOk(samples: seq<RawSample>, now: nat) {
    && Task1.Positive(samples)
    && (forall i, j :: 0 <= i < j < |samples| ==> samples[i].timestampNs <= samples[j].timestampNs)
    && (forall i :: 0 <= i < |samples| ==> samples[i].timestampNs <= now)
    && 0 < now
  }

  // ----- The ring -----

  predicate Writing(t1: Sensing) { t1.pc.Sampling? || t1.pc.Analysing? }

  /** Task 3 has reset the ring: its LOCK worked, and so did its UNLOCK. */
  predicate Reset(t3: Storing) { t3.locked && t3.unlocks }

  predicate BeforeLock(t3: Storing) { t3.pc.AwaitingData? || t3.pc.Locking? }

  /** Until task 3 resets it the ring stands for everything task 1 wrote, and is
      frozen exactly if one of the two LOCKs worked. */
  ghost predicate RingOk(cap: nat, ring: R.Ring<RawSample>, t1: Sensing, t3: Storing) {
    && R.WellFormed(ring) && |ring.slots| == cap
    && R.Represents(ring, if Reset(t3) then [] else t1.samples)
    && ring.locked == (!Reset(t3) && (t1.froze || t3.locked))
    && (Writing(t1) || t1.pc.Freezing? ==> !t1.froze)
    && (BeforeLock(t3) ==> !t3.locked)
    && (t3.unlocks ==> t3.pc.Finished?)
  }

  // ----- Who runs after whom -----

  ghost predicate GatesOk(s: System) {
    && (s.signal ==> s.t1.pc == Ended(true))
    && (!s.t2.pc.AwaitingSignal? && !s.t2.pc.GaveUp? ==>
          s.t1.pc == Ended(true) && s.t2.latencyStart == s.latencyStart && s.t2.detection == s.detection)
    && (s.mailbox.ready <==> s.t2.pc.Posted?)
    && (s.mailbox.ready ==> s.mailbox == Filled(s.t2.detection, s.t2.captured, s.t2.image))
    && (!s.t3.pc.AwaitingData? ==>
          && s.mailbox.ready && s.t3.detection == s.t2.detection
          && s.t3.captured == s.t2.captured && (s.t2.captured ==> s.t3.image == s.t2.image))
  }

  // ----- Task 2 and the camera -----

  /** Task 2's image is the one its camera call returned, its memory is still
      mapped while `live`, and the request came no earlier than the detection. */
  ghost predicate Keeps(t2: Capturing, cam: Cam.State, c: Cam.Caller, live: bool) {
    && c.Holding? && c.image == t2.image && c.pending == [] && t2.detection <= c.time
    && (live ==> c.releases == cam.releases)
    && (t2.latencyValid <==> t2.latencyStart <= t2.image.firstByteNs)
    && (!cam.clockFailed ==> t2.latencyValid)
  }

  ghost predicate ClientOk(t2: Capturing, cam: Cam.State, live: bool) {
    && CI.Inv(cam) && CT.SoleClient(cam)
    && match t2.pc
       case InCall =>
         cam.callers[0].Waiting? && cam.callers[0].pending == [] && t2.detection <= cam.callers[0].time
       case Posting => t2.captured ==> Keeps(t2, cam, cam.callers[0], live)
       case Posted => t2.captured ==> Keeps(t2, cam, cam.callers[0], live)
       case _ => cam.callers[0].Idle? && cam.firstAccept == []
  }

  predicate Live(t3: Storing) { !t3.pc.Finished? }

  // ----- Task 3 -----

  predicate Saved(t3: Storing) { t3.pc == Unlocking(true) || t3.pc == Finished(true) }

  /** The text reads back if and only if every fprintf succeeded; then the samples can
      be recovered from the file alone. */
  ghost predicate TelemetryWritten(t3: Storing, samples: seq<RawSample>) {
    && (Telemetry.ReadsBack(t3.telemetryFile, Telemetry.Header(|samples|, t3.details), samples) <==> t3.complete)
    && (t3.complete ==> Telemetry.Recover(t3.telemetryFile) == Common.Some(samples))
  }

  ghost predicate TelemetryOk(cap: nat, ring: R.Ring<RawSample>, samples: seq<RawSample>, t3: Storing) {
    var saved := TelemetryWritten(t3, R.LastN(samples, cap));
    match t3.pc
    case CopyingOut => t3.count == ring.count && t3.tail == ring.tail
    case SavingTelemetry => t3.telemetry == R.LastN(samples, cap)
    case SavingImage => saved
    case SavingPreview => saved
    case Unlocking(ok) => ok ==> saved
    case Finished(ok) => ok ==> saved
    case AwaitingData => t3.telemetry == []
    case Locking => t3.telemetry == []
    case Snapshotting => t3.telemetry == []
  }

  /** Stages at which the image file cannot have begun, and may still grow. */
  predicate BeforeImage(t3: Storing) {
    t3.pc.AwaitingData? || t3.pc.Locking? || t3.pc.Snapshotting? || t3.pc.CopyingOut? || t3.pc.SavingTelemetry?
  }

  ghost predicate PreviewOf(file: seq<byte>, picture: ColorPpm.Picture) {
    ColorPpm.Acceptable(picture) && ColorPpm.LongEnough(picture) && file == ColorPpm.Preview(picture)
  }

  /** What is in the image file so far, and what the preview has read so far, is the
      start of the one frame that was handed over; the image file is all of it once
      the save is through, and a preview is one of that frame. */
  ghost predicate SavedImageOk(t3: Storing, cam: Cam.State) {
    && |cam.callers| == 1
    && (BeforeImage(t3) ==> t3.imageFile == [])
    && (BeforeImage(t3) || t3.pc.SavingImage? ==> t3.seen == [])
    && (BeforeImage(t3) || t3.pc.SavingImage? || t3.pc.SavingPreview? ==> t3.previewFile == [])
    && (!t3.captured ==> t3.previewFile == [])
    && (!t3.pc.AwaitingData? && t3.captured ==>
          && cam.callers[0].Holding? && cam.callers[0].delivery.frame < |cam.frames|
          && SavesFrom(t3, cam.frames[cam.callers[0].delivery.frame]))
  }

  ghost predicate SavesFrom(t3: Storing, frame: seq<byte>) {
    && t3.imageFile <= frame && t3.seen <= frame && |frame| == t3.image.size
    && (t3.pc.SavingPreview? || Saved(t3) ==> t3.imageFile == frame)
    && (t3.previewFile != [] ==> PreviewOf(t3.previewFile, Storage.PictureOf(t3.image, frame)))
  }

  ghost predicate Inv(m: D.Trig, cap: nat, s: System) {
    && SensorOk(m, s.t1, s.latencyStart, s.detection)
    && ClockOk(s.t1.samples, s.cam.now)
    && RingOk(cap, s.ring, s.t1, s.t3)
    && GatesOk(s)
    && ClientOk(s.t2, s.cam, Live(s.t3))
    && TelemetryOk(cap, s.ring, s.t1.samples, s.t3)
    && SavedImageOk(s.t3, s.cam)
  }

  // ----- Steps of task 1 -----

  lemma AnalyseStep(m: D.Trig, s: System, sleepFails: bool)
    requires SensorOk(m, s.t1, s.latencyStart, s.detection) && s.t1.pc.Analysing?
    ensures var s' := Analysed(m, s, sleepFails); SensorOk(m, s'.t1, s'.latencyStart, s'.detection)
  {
    hide Task1.Observe, Task1.EventOf, Task1.LatencyStart, Task1.Track, Task1.Quiet;
    var samples := s.t1.samples;
    var before, raw := samples[..|samples| - 1], samples[|samples| - 1];
    assert before + [raw] == samples;
    Task1.Append(m, before, raw, Task1.EventOf(m, s.t1.tracker, raw), Task1.Observe(m, s.t1.tracker, raw));
  }

  lemma SensorStep(m: D.Trig, s: System, a: Action1)
    requires SensorOk(m, s.t1, s.latencyStart, s.detection) && Enabled1(s, a)
    ensures var s' := Next1(m, s, a); SensorOk(m, s'.t1, s'.latencyStart, s'.detection)
  {
    hide Analysed, Task1.Reported, Task1.Track, Task1.Quiet, R.Step;
    var samples := s.t1.samples;
    match a
    case WriteSample(raw) =>
      assert (samples + [raw])[..|samples|] == samples;
    case StopSampling =>
    case Analyse(sleepFails) => AnalyseStep(m, s, sleepFails);
    case Freeze(_) =>
    case Kill(_) =>
  }

  lemma ClockStep1(m: D.Trig, s: System, a: Action1)
    requires ClockOk(s.t1.samples, s.cam.now) && Enabled1(s, a)
    ensures ClockOk(Next1(m, s, a).t1.samples, Next1(m, s, a).cam.now)
  {
    hide Task1.Observe, Task1.EventOf, Task1.LatencyStart, R.Step;
  }

  lemma RingStep1(m: D.Trig, cap: nat, s: System, a: Action1)
    requires RingOk(cap, s.ring, s.t1, s.t3) && Enabled1(s, a) && s.t3.pc.AwaitingData?
    ensures var s' := Next1(m, s, a); RingOk(cap, s'.ring, s'.t1, s'.t3)
  {
    hide Task1.Observe, Task1.EventOf, Task1.LatencyStart, R.Represents;
    match a
    case WriteSample(raw) => R.StepRefines(s.ring, R.Record(s.t1.samples, [], false), R.Write(raw));
    case StopSampling =>
    case Analyse(_) =>
    case Freeze(fails) =>
      if !fails { R.StepRefines(s.ring, R.Record(s.t1.samples, [], false), R.Lock); }
    case Kill(_) =>
  }

  lemma GatesStep1(m: D.Trig, s: System, a: Action1)
    requires GatesOk(s) && Enabled1(s, a)
    ensures GatesOk(Next1(m, s, a)) && s.t3.pc.AwaitingData?
    ensures var s' := Next1(m, s, a);
      s'.t2 == s.t2 && s'.cam == s.cam && s'.mailbox == s.mailbox && s'.t3 == s.t3
  {
    hide Task1.Observe, Task1.EventOf, Task1.LatencyStart, R.Step;
    match a
    case WriteSample(_) =>
    case StopSampling =>
    case Analyse(_) =>
    case Freeze(_) =>
    case Kill(_) =>
  }

  lemma Task1Keeps(m: D.Trig, cap: nat, s: System, a: Action1)
    requires Inv(m, cap, s) && Enabled1(s, a)
    ensures Inv(m, cap, Next1(m, s, a))
  {
    hide SensorOk, ClockOk, RingOk, GatesOk, ClientOk, Next1;
    SensorStep(m, s, a);
    ClockStep1(m, s, a);
    GatesStep1(m, s, a);
    RingStep1(m, cap, s, a);
  }

  // ----- Steps of task 2 -----

  /** What the first task published: the accident began before it was detected,
      and both lie in the past. */
  lemma StampsOrdered(m: D.Trig, samples: seq<RawSample>, latencyStart: nat, detection: nat, now: nat)
    requires Task1.Reported(m, samples, latencyStart, detection) && ClockOk(samples, now)
    ensures latencyStart <= detection <= now
  {
    hide Task1.Track, Task1.EventAt, Task1.Quiet, Task1.LatencyStart;
    Task1.DetectionPublishes(m, samples);
  }

  lemma EnterKeepsClient(s: System, clockWorks: bool)
    requires ClientOk(s.t2, s.cam, true) && Enabled2(s, EnterSnapshot(clockWorks)) && s.t2.detection <= s.cam.now
    ensures var s' := Next2(s, EnterSnapshot(clockWorks)); ClientOk(s'.t2, s'.cam, true)
  {
    hide CI.Inv;
    var a := Cam.Enter(0, clockWorks);
    CI.CallKeeps(s.cam, a);
    CT.SoleClientStep(s.cam, Cam.ByCaller(a));
    CT.CallerFrame(s.cam, a);
    if BeginOutcome(s.cam.flags, s.cam.started, clockWorks).Waits? {
      CT.PendingNeedsWithdrawal(s.cam, 0, clockWorks);
    }
  }

  lemma ReturnKeepsClient(s: System, w: Wait)
    requires ClientOk(s.t2, s.cam, true) && Enabled2(s, LeaveWait(w)) && s.t2.latencyStart <= s.t2.detection
    ensures var s' := Next2(s, LeaveWait(w)); ClientOk(s'.t2, s'.cam, true)
  {
    hide CI.Inv;
    var a := Cam.Return(0, w);
    var cam' := Cam.CallNext(s.cam, a);
    CI.CallKeeps(s.cam, a);
    CT.SoleClientStep(s.cam, Cam.ByCaller(a));
    ReturnsInPlace(s.cam, w);
    hide Cam.CallNext, CT.SoleClient;
    if cam'.callers[0].Holding? && !cam'.clockFailed {
      CT.FreshIffNotPending(cam', 0);
    }
  }

  /** What a wait's end leaves the one caller with. */
  lemma ReturnsInPlace(cam: Cam.State, w: Wait)
    requires |cam.callers| == 1 && Cam.CallEnabled(cam, Cam.Return(0, w))
    ensures var cam' := Cam.CallNext(cam, Cam.Return(0, w));
      var c, c' := cam.callers[0], cam'.callers[0];
      && |cam'.callers| == 1 && cam'.clockFailed == cam.clockFailed
      && (c'.Waiting? ==> c' == c)
      && (c'.Holding? ==> c'.pending == c.pending && c'.time == c.time && c'.releases == cam'.releases)
  {}

  lemma ClientStep2(s: System, a: Action2)
    requires ClientOk(s.t2, s.cam, true) && Enabled2(s, a) && GatesOk(s)
    requires s.t1.pc == Ended(true) ==> s.latencyStart <= s.detection <= s.cam.now
    ensures var s' := Next2(s, a); ClientOk(s'.t2, s'.cam, true)
  {
    match a
    case TakeSignal =>
    case SigwaitFails =>
    case EnterSnapshot(works) => EnterKeepsClient(s, works);
    case LeaveWait(w) => ReturnKeepsClient(s, w);
    case Post =>
  }

  lemma GatesStep2(s: System, a: Action2)
    requires GatesOk(s) && Enabled2(s, a)
    ensures GatesOk(Next2(s, a)) && s.t3.pc.AwaitingData?
    ensures var s' := Next2(s, a);
      s'.t1 == s.t1 && s'.ring == s.ring && s'.t3 == s.t3 && s'.latencyStart == s.latencyStart
      && s'.detection == s.detection && s'.cam.now == s.cam.now && |s'.cam.callers| == |s.cam.callers|
  {
    hide Cam.CallNext;
    match a
    case TakeSignal =>
    case SigwaitFails =>
    case EnterSnapshot(works) => NowStays(s.cam, Cam.Enter(0, works));
    case LeaveWait(w) => NowStays(s.cam, Cam.Return(0, w));
    case Post =>
  }

  lemma NowStays(cam: Cam.State, a: Cam.CallAction)
    requires Cam.CallEnabled(cam, a)
    ensures Cam.CallNext(cam, a).now == cam.now && |Cam.CallNext(cam, a).callers| == |cam.callers|
  {
    match a
    case Enter(_, _) =>
    case Return(_, w) =>
      if ResumeOutcome(cam.flags, w).Captured? {
      } else {
      }
  }

  lemma Task2Keeps(m: D.Trig, cap: nat, s: System, a: Action2)
    requires Inv(m, cap, s) && Enabled2(s, a)
    ensures Inv(m, cap, Next2(s, a))
  {
    hide ClockOk, RingOk, GatesOk, ClientOk, Next2, Task1.Reported;
    GatesStep2(s, a);
    if s.t1.pc == Ended(true) {
      StampsOrdered(m, s.t1.samples, s.latencyStart, s.detection, s.cam.now);
    }
    ClientStep2(s, a);
  }

  // ----- Steps of task 3 -----

  lemma GatesStep3(s: System, a: Action3)
    requires GatesOk(s) && Enabled3(s, a)
    ensures GatesOk(Next3(s, a)) && s.t1.pc == Ended(true) && s.t2.pc.Posted?
    ensures var s' := Next3(s, a);
      s'.t1 == s.t1 && s'.t2 == s.t2 && s'.cam == s.cam && s'.latencyStart == s.latencyStart
      && s'.detection == s.detection && Live(s.t3)
      && (Live(s'.t3) ==> s'.ring == s.ring || s'.ring == s.ring.(locked := true))
  {
    match a
    case TakeMail =>
    case LockRing(_) =>
    case SnapshotRing =>
    case CopyRing =>
    case SaveTelemetry(_, _) =>
    case SaveByte =>
    case ImageDone =>
    case UnpackByte =>
    case PreviewDone(_) =>
    case GiveUp =>
    case UnlockRing(_) =>
  }

  lemma RingStep3(cap: nat, s: System, a: Action3)
    requires RingOk(cap, s.ring, s.t1, s.t3) && Enabled3(s, a) && s.t1.pc.Ended?
    ensures var s' := Next3(s, a); RingOk(cap, s'.ring, s'.t1, s'.t3)
  {
    match a
    case TakeMail =>
    case LockRing(_) =>
    case SnapshotRing =>
    case CopyRing =>
    case SaveTelemetry(_, _) =>
    case SaveByte =>
    case ImageDone =>
    case UnpackByte =>
    case PreviewDone(_) =>
    case GiveUp =>
    case UnlockRing(_) =>
  }

  lemma ReadIsWindow(cap: nat, ring: R.Ring<RawSample>, samples: seq<RawSample>)
    requires R.Represents(ring, samples) && |ring.slots| == cap
    ensures R.Entries(ring, ring.tail, ring.count) == R.LastN(samples, cap)
    ensures ring.count == 0 ==> R.LastN(samples, cap) == []
  {
    R.RepresentsShows(ring, samples);
  }

  lemma TelemetryStep3(cap: nat, s: System, a: Action3)
    requires RingOk(cap, s.ring, s.t1, s.t3) && TelemetryOk(cap, s.ring, s.t1.samples, s.t3) && Enabled3(s, a)
    ensures var s' := Next3(s, a); TelemetryOk(cap, s'.ring, s'.t1.samples, s'.t3)
  {
    hide R.LastN, R.Entries, R.Represents, R.Step;
    hide Telemetry.ReadsBack, Telemetry.Header, Telemetry.Recover, Telemetry.Texts;
    hide Stdio.Written, Stdio.Complete, ColorPpm.Preview;
    match a
    case TakeMail =>
    case LockRing(_) =>
    case SnapshotRing => ReadIsWindow(cap, s.ring, s.t1.samples);
    case CopyRing => ReadIsWindow(cap, s.ring, s.t1.samples);
    case SaveTelemetry(details, io) =>
      if Stdio.Succeeds(io) { Telemetry.SuccessReadsBackIffComplete(s.t3.telemetry, details, io); }
    case SaveByte =>
    case ImageDone =>
    case UnpackByte =>
    case PreviewDone(_) =>
    case GiveUp =>
    case UnlockRing(_) =>
  }

  /** Whenever task 3 can read the image, the secure memory still is the frame that
      the snapshot handed over. */
  lemma MemoryIsFrame(s: System)
    requires ClientOk(s.t2, s.cam, true) && s.t2.pc.Posted? && s.t2.captured
    ensures |s.cam.callers| == 1 && s.cam.callers[0].Holding?
    ensures var c := s.cam.callers[0];
      c.image == s.t2.image && CI.Contains(s.cam, c.image.size, c.delivery.frame)
      && !Cam.InFlight(s.cam.thread) && c.image.size == |s.cam.frames[c.delivery.frame]|
  {
    assert CI.HolderOk(s.cam, s.cam.callers[0]) by { assert s.cam.callers[0] in s.cam.callers; }
  }

  /** One more byte of the memory continues a prefix of the frame. */
  lemma NextByte(part: seq<byte>, size: nat, cam: Cam.State, frame: nat)
    requires CI.Contains(cam, size, frame) && part <= cam.frames[frame] && |part| < size
    ensures |part| < |cam.memory| && part + [cam.memory[|part|]] <= cam.frames[frame]
  {
    var bytes, k := cam.frames[frame], |part|;
    assert cam.memory[k] == cam.memory[..size][k];
    assert bytes[..k] + [bytes[k]] == bytes[..k + 1];
    assert part == bytes[..k];
  }

  lemma SaveByteStep(t3: Storing, cam: Cam.State)
    requires SavedImageOk(t3, cam) && t3.pc.SavingImage? && t3.captured && |t3.imageFile| < t3.image.size
    requires CI.Contains(cam, t3.image.size, cam.callers[0].delivery.frame)
    ensures |t3.imageFile| < |cam.memory|
    ensures SavedImageOk(t3.(imageFile := t3.imageFile + [cam.memory[|t3.imageFile|]]), cam)
  {
    hide PreviewOf, CI.Contains;
    NextByte(t3.imageFile, t3.image.size, cam, cam.callers[0].delivery.frame);
  }

  lemma UnpackByteStep(t3: Storing, cam: Cam.State)
    requires SavedImageOk(t3, cam) && t3.pc.SavingPreview? && t3.captured && |t3.seen| < t3.image.size
    requires CI.Contains(cam, t3.image.size, cam.callers[0].delivery.frame)
    ensures |t3.seen| < |cam.memory|
    ensures SavedImageOk(t3.(seen := t3.seen + [cam.memory[|t3.seen|]]), cam)
  {
    hide PreviewOf, CI.Contains;
    NextByte(t3.seen, t3.image.size, cam, cam.callers[0].delivery.frame);
  }

  lemma PreviewStep(s: System, works: bool)
    requires SavedImageOk(s.t3, s.cam) && Enabled3(s, PreviewDone(works))
    ensures SavedImageOk(Next3(s, PreviewDone(works)).t3, s.cam)
  {
    hide ColorPpm.Acceptable, ColorPpm.LongEnough, ColorPpm.Preview;
    if works {
      var frame := s.cam.frames[s.cam.callers[0].delivery.frame];
      assert s.t3.seen == frame;
    }
  }

  lemma ImageStep3(s: System, a: Action3)
    requires SavedImageOk(s.t3, s.cam) && ClientOk(s.t2, s.cam, true) && GatesOk(s) && Enabled3(s, a)
    ensures var s' := Next3(s, a); SavedImageOk(s'.t3, s'.cam)
  {
    hide ClientOk, R.Step, R.Entries, PreviewOf, ColorPpm.Preview, Stdio.Written, Stdio.Complete, CanPreview;
    match a
    case TakeMail => if s.t2.captured { MemoryIsFrame(s); }
    case LockRing(_) =>
    case SnapshotRing =>
    case CopyRing =>
    case SaveTelemetry(_, _) =>
    case SaveByte =>
      MemoryIsFrame(s);
      SaveByteStep(s.t3, s.cam);
    case ImageDone =>
    case UnpackByte =>
      MemoryIsFrame(s);
      UnpackByteStep(s.t3, s.cam);
    case PreviewDone(works) => PreviewStep(s, works);
    case GiveUp =>
    case UnlockRing(_) =>
  }

  lemma ClientStays(t2: Capturing, cam: Cam.State)
    requires ClientOk(t2, cam, true)
    ensures ClientOk(t2, cam, false)
  {
    hide CI.Inv;
  }

  lemma Task3Keeps(m: D.Trig, cap: nat, s: System, a: Action3)
    requires Inv(m, cap, s) && Enabled3(s, a)
    ensures Inv(m, cap, Next3(s, a))
  {
    hide SensorOk, ClockOk, RingOk, GatesOk, ClientOk, TelemetryOk, SavedImageOk, Next3;
    GatesStep3(s, a);
    RingStep3(cap, s, a);
    TelemetryStep3(cap, s, a);
    ImageStep3(s, a);
    ClientStays(s.t2, s.cam);
  }

  // ----- Steps of the capture thread, of the driver and of main -----

  /** What such a step does to the parts of the camera the tasks can see. */
  ghost predicate Unseen(cam: Cam.State, cam': Cam.State) {
    && cam'.callers == cam.callers && cam.frames <= cam'.frames
    && cam'.firstAccept == cam.firstAccept && cam.now <= cam'.now
    && (cam.clockFailed ==> cam'.clockFailed)
  }

  lemma ThreadUnseen(cam: Cam.State, a: Cam.ThreadAction)
    requires Cam.ThreadEnabled(cam, a)
    ensures Unseen(cam, Cam.ThreadNext(cam, a))
  {
    match a
    case Dequeue(_) =>
    case Stamp(_) =>
    case CopyByte =>
    case PublishCopy(_) =>
    case Report =>
    case Requeue =>
    case RequeueFails(_) =>
    case _ =>
  }

  lemma OwnerUnseen(cam: Cam.State, a: Cam.OwnerAction)
    requires Cam.OwnerEnabled(cam, a) && !a.Initialise?
    ensures Unseen(cam, Cam.OwnerNext(cam, a))
  {}

  lemma ClientUnseen(t2: Capturing, cam: Cam.State, cam': Cam.State, live: bool)
    requires ClientOk(t2, cam, live) && Unseen(cam, cam')
    requires CI.Inv(cam') && CT.SoleClient(cam') && (live ==> cam'.releases == cam.releases)
    ensures ClientOk(t2, cam', live)
  {
    hide CI.Inv, CT.SoleClient;
  }

  lemma CameraKeeps(m: D.Trig, cap: nat, s: System, cam': Cam.State)
    requires Inv(m, cap, s) && Unseen(s.cam, cam')
    requires CI.Inv(cam') && CT.SoleClient(cam') && (Live(s.t3) ==> cam'.releases == s.cam.releases)
    ensures Inv(m, cap, s.(cam := cam'))
  {
    hide CI.Inv, CT.SoleClient, SensorOk, RingOk, TelemetryOk, ClientOk;
    ClientUnseen(s.t2, s.cam, cam', Live(s.t3));
  }

  lemma ThreadKeeps(m: D.Trig, cap: nat, s: System, a: Cam.ThreadAction)
    requires Inv(m, cap, s) && Cam.ThreadEnabled(s.cam, a)
    ensures Inv(m, cap, s.(cam := Cam.ThreadNext(s.cam, a)))
  {
    hide CI.Inv, CT.SoleClient, Cam.ThreadNext, Cam.ThreadEnabled;
    CI.ThreadKeeps(s.cam, a);
    CT.SoleClientStep(s.cam, Cam.ByThread(a));
    CT.ThreadPhaseFrame(s.cam, a);
    ThreadUnseen(s.cam, a);
    CameraKeeps(m, cap, s, Cam.ThreadNext(s.cam, a));
  }

  lemma DriverKeeps(m: D.Trig, cap: nat, s: System, a: Cam.DriverAction)
    requires Inv(m, cap, s) && Cam.DriverEnabled(s.cam, a)
    ensures Inv(m, cap, s.(cam := Cam.DriverNext(s.cam, a)))
  {
    hide CI.Inv, CT.SoleClient;
    CI.DriverKeeps(s.cam, a);
    CT.SoleClientStep(s.cam, Cam.ByDriver(a));
    CameraKeeps(m, cap, s, Cam.DriverNext(s.cam, a));
  }

  lemma MainKeeps(m: D.Trig, cap: nat, s: System, a: Cam.OwnerAction)
    requires Inv(m, cap, s) && Enabled(s, ByMain(a))
    ensures Inv(m, cap, s.(cam := Cam.OwnerNext(s.cam, a)))
  {
    hide CI.Inv, CT.SoleClient, Cam.OwnerNext, Cam.OwnerEnabled;
    CI.OwnerKeeps(s.cam, a);
    CT.SoleClientStep(s.cam, Cam.ByOwner(a));
    OwnerUnseen(s.cam, a);
    CameraKeeps(m, cap, s, Cam.OwnerNext(s.cam, a));
  }

  /** Every step of the pipeline keeps the invariant. */
  lemma StepKeepsInv(m: D.Trig, cap: nat, s: System, a: Action)
    requires Inv(m, cap, s) && Enabled(s, a)
    ensures Inv(m, cap, Next(m, s, a))
  {
    hide Inv, Next1, Next2, Next3, Enabled1, Enabled2, Enabled3;
    hide Cam.ThreadNext, Cam.DriverNext, Cam.OwnerNext;
    match a
    case By1(a1) => Task1Keeps(m, cap, s, a1);
    case By2(a2) => Task2Keeps(m, cap, s, a2);
    case By3(a3) => Task3Keeps(m, cap, s, a3);
    case ByCameraThread(t) => ThreadKeeps(m, cap, s, t);
    case ByDriver(d) => DriverKeeps(m, cap, s, d);
    case ByMain(o) => MainKeeps(m, cap, s, o);
  }

  // ----- The start -----

  lemma ResetRepresents(r: R.Ring<RawSample>)
    requires R.WellFormed(r)
    ensures R.Represents(R.Step(r, R.Unlock), []) && !R.Step(r, R.Unlock).locked
  {}

  lemma CameraStarts(cam: Cam.State)
    requires cam == Cam.Boot(1, cam.now) || Initialised(cam)
    ensures CI.Inv(cam) && CT.SoleClient(cam) && cam.callers == [Cam.Idle] && cam.firstAccept == []
  {
    hide CI.Inv;
    var boot := Cam.Boot(1, cam.now);
    CI.BootOk(1, cam.now);
    assert boot.callers == [Cam.Idle];
    if cam != boot {
      CI.OwnerKeeps(boot, Cam.Initialise(cam.buffers, cam.memory, cam.geometry));
    }
  }

  lemma StartOk(m: D.Trig, cap: nat, s: System)
    requires Starts(s, cap)
    ensures Inv(m, cap, s)
  {
    hide CI.Inv, R.Represents, Initialised;
    CameraStarts(s.cam);
    var r :| R.WellFormed(r) && |r.slots| == cap && s.ring == R.Step(r, R.Unlock);
    ResetRepresents(r);
  }

  lemma {:induction false} RunKeepsInv(m: D.Trig, cap: nat, s: System, actions: seq<Action>)
    requires Inv(m, cap, s) && Legal(m, s, actions)
    ensures Inv(m, cap, Run(m, s, actions))
    decreases |actions|
  {
    hide Inv, Next, Enabled;
    if actions != [] {
      StepKeepsInv(m, cap, s, actions[0]);
      RunKeepsInv(m, cap, Next(m, s, actions[0]), actions[1..]);
    }
  }
}
