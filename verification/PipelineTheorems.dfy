/** What the pipeline guarantees end to end, over every run: any interleaving, any
    failing system calls, any frame sizes and any ring of at least 250 samples. */
module PipelineTheorems {
  import opened Sensor
  import opened Pipeline
  import opened PipelineInvariant
  import D = Detection
  import ColorPpm
  import Common
  import Demosaic
  import Storage
  import PipelineGeometry
  import R = RingModel
  import Task1
  import Cam = Camera
  import CI = CameraInvariant
  import CT = CameraTheorems

  // ----- Telemetry -----

  /** If and only if every fprintf succeeded, the saved text reads back as the last
      min(n, N) of the samples written up to the first accident, oldest first; the
      last of them is the sample that was detected on, and the one latency is measured
      from is among them. */
  ghost predicate SavesTelemetry(m: D.Trig, cap: nat, s: System) {
    var samples, window := s.t1.samples, R.LastN(s.t1.samples, cap);
    && TelemetryWritten(s.t3, window)
    && Task1.FirstAccident(m, samples)
    && var back := Task1.Back(Task1.EventAt(m, samples, |samples| - 1));
       && back <= |window|
       && window[|window| - 1].timestampNs == s.detection == s.t3.detection
       && window[|window| - back].timestampNs == s.latencyStart
  }

  lemma WindowEnd(samples: seq<RawSample>, cap: nat, back: nat)
    requires 0 < back <= |samples| && back <= cap
    ensures var file := R.LastN(samples, cap);
      back <= |file| && file[|file| - back] == samples[|samples| - back]
  {}

  lemma TelemetryFrom(m: D.Trig, cap: nat, s: System)
    requires Inv(m, cap, s) && D.ROLLOVER_REQUIRED_SAMPLES <= cap && s.t3.pc == Finished(true)
    ensures SavesTelemetry(m, cap, s)
  {
    hide ClientOk, RingOk, SavedImageOk, TelemetryWritten, Task1.FirstAccident;
    hide Task1.Track, Task1.EventAt, Task1.Quiet, Task1.LatencyStart, R.LastN;
    var samples := s.t1.samples;
    Task1.DetectsIsFirstAccident(m, samples);
    Task1.DetectionPublishes(m, samples);
    var back := Task1.Back(Task1.EventAt(m, samples, |samples| - 1));
    WindowEnd(samples, cap, 1);
    WindowEnd(samples, cap, back);
  }

  /** End to end: if task 3 reports success, the telemetry is right. */
  lemma EndToEndTelemetry(m: D.Trig, cap: nat, s: System, actions: seq<Action>)
    requires Starts(s, cap) && Legal(m, s, actions) && D.ROLLOVER_REQUIRED_SAMPLES <= cap
    requires Run(m, s, actions).t3.pc == Finished(true)
    ensures SavesTelemetry(m, cap, Run(m, s, actions))
  {
    hide Inv, SavesTelemetry;
    StartOk(m, cap, s);
    RunKeepsInv(m, cap, s, actions);
    TelemetryFrom(m, cap, Run(m, s, actions));
  }

  // ----- Image -----

  /** The image file is, whole, the dequeued frame that task 2's call was handed. */
  ghost predicate SavesFrame(s: System) {
    && |s.cam.callers| == 1 && s.cam.callers[0].Holding?
    && s.cam.callers[0].delivery.frame < |s.cam.frames|
    && s.t3.imageFile == s.cam.frames[s.cam.callers[0].delivery.frame]
    && s.cam.callers[0].image == s.t2.image == s.t3.image
  }

  /** End to end: if task 3 reports success and task 2 had an image, the image file
      is one frame that the driver delivered, whole. */
  lemma EndToEndImage(m: D.Trig, cap: nat, s: System, actions: seq<Action>)
    requires Starts(s, cap) && Legal(m, s, actions)
    requires Run(m, s, actions).t3.pc == Finished(true)
    ensures var s' := Run(m, s, actions);
      s'.t2.pc.Posted? && (if s'.t2.captured then SavesFrame(s') else !HasImage(s'.t3))
  {
    hide SensorOk, ClockOk, RingOk, TelemetryOk, CI.Inv;
    StartOk(m, cap, s);
    RunKeepsInv(m, cap, s, actions);
  }

  ghost predicate ShowsFrame(s: System, picture: ColorPpm.Picture, x: nat, y: nat) {
    && ColorPpm.Acceptable(picture) && ColorPpm.LongEnough(picture)
    && ColorPpm.Decode(s.t3.previewFile)
       == Common.Some(ColorPpm.Decoded(picture.width, picture.height, ColorPpm.Pixels(picture)))
    && (x < picture.width && y < picture.height ==>
          ColorPpm.PixelIs(ColorPpm.Pixels(picture), picture.width, x, y,
                           Demosaic.ColorAt(ColorPpm.Raw8(picture), picture.width, picture.height, x, y)))
  }

  /** End to end: a saved preview reads back as a picture of exactly that frame, in
      the geometry that the camera had been initialised with, whatever the capture
      thread, the driver and main did while it was unpacked. */
  lemma EndToEndPreview(m: D.Trig, cap: nat, s: System, actions: seq<Action>, x: nat, y: nat)
    requires Starts(s, cap) && Legal(m, s, actions)
    requires Run(m, s, actions).t3.pc == Finished(true) && Run(m, s, actions).t3.previewFile != []
    ensures SavesFrame(Run(m, s, actions))
    ensures var s' := Run(m, s, actions);
      && s'.t3.image.geometry == s.cam.geometry
      && ShowsFrame(s', Storage.PictureOf(s'.t3.image, s'.t3.imageFile), x, y)
  {
    hide Inv, Starts, SavesFrame, ShowsFrame, Live;
    StartOk(m, cap, s);
    RunKeepsInv(m, cap, s, actions);
    PipelineGeometry.ImageIsAsConfigured(m, cap, s, actions);
    PreviewFrom(m, cap, Run(m, s, actions), x, y);
  }

  lemma PreviewFrom(m: D.Trig, cap: nat, s: System, x: nat, y: nat)
    requires Inv(m, cap, s) && s.t3.pc == Finished(true) && s.t3.previewFile != []
    ensures s.t3.captured && SavesFrame(s) && ShowsFrame(s, Storage.PictureOf(s.t3.image, s.t3.imageFile), x, y)
  {
    hide SensorOk, ClockOk, RingOk, TelemetryOk, CI.Inv;
    hide ColorPpm.Decode, ColorPpm.Preview, ColorPpm.Pixels, ColorPpm.Raw8, ColorPpm.PixelIs, Demosaic.ColorAt;
    var picture := Storage.PictureOf(s.t3.image, s.t3.imageFile);
    assert PreviewOf(s.t3.previewFile, picture);
    PictureReadsBack(s, picture, x, y);
  }

  lemma PictureReadsBack(s: System, picture: ColorPpm.Picture, x: nat, y: nat)
    requires PreviewOf(s.t3.previewFile, picture)
    ensures ShowsFrame(s, picture, x, y)
  {
    hide ColorPpm.Decode, ColorPpm.Preview, ColorPpm.Pixels, ColorPpm.Raw8, ColorPpm.PixelIs, Demosaic.ColorAt;
    ColorPpm.PreviewDecodes(picture, if x < picture.width then x else 0, if y < picture.height then y else 0);
  }

  /** While task 3 may read the image, the secure memory is mapped, no copy into it
      is in flight, and it starts with the frame that was handed over; so the next
      byte can always be read. */
  ghost predicate ReadsFrame(s: System) {
    && |s.cam.callers| == 1 && s.cam.callers[0].Holding?
    && CI.Contains(s.cam, s.t3.image.size, s.cam.callers[0].delivery.frame)
    && !Cam.InFlight(s.cam.thread)
    && (s.t3.pc.SavingImage? && |s.t3.imageFile| < s.t3.image.size ==> Enabled3(s, SaveByte))
    && (s.t3.pc.SavingPreview? && |s.t3.seen| < s.t3.image.size ==> Enabled3(s, UnpackByte))
  }

  lemma Task3ReadsLiveMemory(m: D.Trig, cap: nat, s: System, actions: seq<Action>)
    requires Starts(s, cap) && Legal(m, s, actions)
    requires var t := Run(m, s, actions).t3;
      t.captured && !t.pc.AwaitingData? && !t.pc.Finished?
    ensures ReadsFrame(Run(m, s, actions))
  {
    hide SensorOk, ClockOk, RingOk, ClientOk, TelemetryOk;
    StartOk(m, cap, s);
    RunKeepsInv(m, cap, s, actions);
    MemoryIsFrame(Run(m, s, actions));
  }

  // ----- Latency -----

  /** The accident began, was detected, the frame was requested, and its first byte
      was copied, in this order. */
  ghost predicate LatencyOrdered(s: System) {
    && |s.cam.callers| == 1 && s.cam.callers[0].Holding? && s.cam.callers[0].image == s.t2.image
    && s.t2.latencyStart <= s.t2.detection <= s.cam.callers[0].time <= s.t2.image.firstByteNs
  }

  /** An image's latency is reported exactly if its first byte does not precede the
      accident's start. */
  lemma LatencyIsReported(m: D.Trig, cap: nat, s: System, actions: seq<Action>)
    requires Starts(s, cap) && Legal(m, s, actions)
    requires var t2 := Run(m, s, actions).t2; (t2.pc.Posting? || t2.pc.Posted?) && t2.captured
    ensures var s' := Run(m, s, actions);
      s'.t2.latencyValid <==> s'.latencyStart <= s'.t2.image.firstByteNs
  {
    hide SensorOk, ClockOk, RingOk, TelemetryOk, SavedImageOk, CI.Inv;
    StartOk(m, cap, s);
    RunKeepsInv(m, cap, s, actions);
  }

  /** With a working clock, the branch "invalid camera latency" is never taken. */
  lemma LatencyIsValid(m: D.Trig, cap: nat, s: System, actions: seq<Action>)
    requires Starts(s, cap) && Legal(m, s, actions)
    requires var s' := Run(m, s, actions);
      (s'.t2.pc.Posting? || s'.t2.pc.Posted?) && s'.t2.captured && !s'.cam.clockFailed
    ensures Run(m, s, actions).t2.latencyValid && LatencyOrdered(Run(m, s, actions))
  {
    hide Inv;
    StartOk(m, cap, s);
    RunKeepsInv(m, cap, s, actions);
    LatencyFrom(m, cap, Run(m, s, actions));
  }

  lemma LatencyFrom(m: D.Trig, cap: nat, s: System)
    requires Inv(m, cap, s) && (s.t2.pc.Posting? || s.t2.pc.Posted?) && s.t2.captured && !s.cam.clockFailed
    ensures s.t2.latencyValid && LatencyOrdered(s)
  {
    hide RingOk, TelemetryOk, SavedImageOk, CI.Inv, ClockOk, Task1.Reported;
    StampsOrdered(m, s.t1.samples, s.latencyStart, s.detection, s.cam.now);
    CT.FreshIffNotPending(s.cam, 0);
  }

  // ----- The window task 3 reads is the one task 1 left -----

  /** Nothing is read before the detection, and from the moment task 2 wakes no
      sample is written any more, whether or not the freeze succeeded. */
  lemma ReadsFollowDetection(m: D.Trig, cap: nat, s: System, actions: seq<Action>)
    requires Starts(s, cap) && Legal(m, s, actions)
    ensures var s' := Run(m, s, actions);
      && R.WellFormed(s'.ring) && |s'.ring.slots| == cap
      && (s'.t1.pc.Analysing? ==> s'.t1.samples != [])
      && (!s'.t2.pc.AwaitingSignal? && !s'.t2.pc.GaveUp? ==>
          Task1.Detects(m, s'.t1.samples)
          && forall raw :: !Enabled1(s', WriteSample(raw)))
  {
    hide ClockOk, ClientOk, TelemetryOk, SavedImageOk, R.Represents, Task1.Detects;
    StartOk(m, cap, s);
    RunKeepsInv(m, cap, s, actions);
  }
}
