/** While the camera runs, a save with everything stays possible: telemetry, the
    whole frame and a preview. */
module PipelineCapture {
  import opened Bytes
  import opened CaptureControl
  import opened Sensor
  import opened Pipeline
  import opened PipelineInvariant
  import opened PipelineProgress
  import D = Detection
  import R = RingModel
  import CC = CameraContinuations
  import CI = CameraInvariant
  import CT = CameraTheorems
  import Cam = Camera
  import ColorPpm
  import Stdio
  import Storage
  import Telemetry

  /** An image of `size` bytes of this geometry passes the preview's guards. */
  predicate Shows(g: Geometry, size: nat) {
    var picture := ColorPpm.Picture(true, [], g.width, g.height, g.bytesPerLine, g.pixelFormat);
    && 0 < size && ColorPpm.Acceptable(picture)
    && ColorPpm.MinimumRow(picture) <= ColorPpm.Stride(picture)
    && ColorPpm.Stride(picture) * g.height <= size
  }

  /** The camera runs and buffer `k` can bring an image of `size` bytes. */
  predicate CanBring(c: Cam.State, k: nat, size: nat) {
    && c.started && !c.flags.stop && Shows(c.geometry, size) && size <= |c.memory|
    && k < |c.buffers| && !c.buffers[k].owner.Lost? && size <= |c.buffers[k].bytes|
  }

  // ----- The thread can take a good frame into its hands -----

  ghost predicate Hidden(actions: seq<Cam.Action>) {
    forall a :: a in actions ==> a.ByThread? || a.ByDriver?
  }

  lemma HiddenPrepend(a: Cam.Action, rest: seq<Cam.Action>)
    requires (a.ByThread? || a.ByDriver?) && Hidden(rest)
    ensures Hidden([a] + rest)
  {}

  predicate Idle(c: Cam.State) { !c.flags.requested && !Cam.InFlight(c.thread) }

  function Distance(t: Cam.Thread): nat {
    match t
    case Dequeuing => 0
    case Polling => 1
    case Head => 2
    case Requeuing(_) => 3
    case Reporting(_) => 3
    case ReportingHeld(_, _) => 4
    case _ => 5
  }

  function Turn(o: Cam.Owner): nat { if o.Filled? then 2 else if o.Held? then 1 else 0 }

  /** What the idle thread does next; if buffer `k` is filled it is dequeued, to be
      given back. */
  function IdleMove(c: Cam.State, k: nat): Cam.ThreadAction {
    match c.thread
    case Head => Cam.CheckStop
    case Polling => Cam.PollReady
    case Dequeuing => Cam.Dequeue(k)
    case Deciding(_, _, _) => Cam.Decide
    case Requeuing(_) => Cam.Requeue
    case _ => Cam.Report
  }

  ghost predicate Progresses(c': Cam.State, c: Cam.State, k: nat, size: nat) {
    && Idle(c') && CanBring(c', k, size)
    && k < |c.buffers|
    && var turn', turn := Turn(c'.buffers[k].owner), Turn(c.buffers[k].owner);
       turn' < turn || (turn' == turn && Distance(c'.thread) < Distance(c.thread))
  }

  lemma IdleStep(c: Cam.State, k: nat, size: nat)
    requires CI.Inv(c) && Idle(c) && CanBring(c, k, size)
    requires !c.thread.Dequeuing? || c.buffers[k].owner.Filled?
    ensures Cam.ThreadEnabled(c, IdleMove(c, k))
    ensures Progresses(Cam.ThreadNext(c, IdleMove(c, k)), c, k, size)
  {
    hide Shows;
    assert CI.FlagsOk(c) && CI.ThreadOk(c) && CI.OwnersOk(c) && CI.DatesOk(c);
    hide CI.Inv;
    if c.thread.Dequeuing? {
      DequeueStep(c, k, size);
    } else if c.thread.Requeuing? {
      RequeueStep(c, k, size);
    } else {
      QuietStep(c, k, size);
    }
  }

  lemma DequeueStep(c: Cam.State, k: nat, size: nat)
    requires CI.DatesOk(c) && Idle(c) && CanBring(c, k, size)
    requires c.thread.Dequeuing? && c.buffers[k].owner.Filled?
    ensures Cam.ThreadEnabled(c, Cam.Dequeue(k))
    ensures Progresses(Cam.ThreadNext(c, Cam.Dequeue(k)), c, k, size)
  {
    hide Shows;
  }

  lemma RequeueStep(c: Cam.State, k: nat, size: nat)
    requires CI.ThreadOk(c) && Idle(c) && CanBring(c, k, size) && c.thread.Requeuing?
    ensures Cam.ThreadEnabled(c, Cam.Requeue)
    ensures Progresses(Cam.ThreadNext(c, Cam.Requeue), c, k, size)
  {
    hide Shows;
  }

  lemma QuietStep(c: Cam.State, k: nat, size: nat)
    requires CI.FlagsOk(c) && Idle(c) && CanBring(c, k, size)
    requires !c.thread.Dequeuing? && !c.thread.Requeuing?
    ensures Cam.ThreadEnabled(c, IdleMove(c, k))
    ensures Progresses(Cam.ThreadNext(c, IdleMove(c, k)), c, k, size)
  {
    hide Shows;
  }

  /** The thread asks for a frame while buffer `k` is with the driver. */
  lemma ReachDequeuing(c: Cam.State, k: nat, size: nat) returns (rest: seq<Cam.Action>)
    requires CI.Inv(c) && Idle(c) && CanBring(c, k, size)
    ensures Hidden(rest) && Cam.Legal(c, rest)
    ensures var c' := Cam.Run(c, rest);
      && CI.Inv(c') && Idle(c') && CanBring(c', k, size)
      && c'.thread.Dequeuing? && c'.buffers[k].owner.Queued?
    decreases Turn(c.buffers[k].owner), Distance(c.thread)
  {
    if c.thread.Dequeuing? && !c.buffers[k].owner.Filled? {
      assert CI.OwnersOk(c);
      rest := [];
    } else {
      IdleStep(c, k, size);
      var a := Cam.ByThread(IdleMove(c, k));
      CI.StepKeepsInv(c, a);
      hide CI.Inv, Idle, CanBring, Turn, Distance, Cam.ThreadNext, Cam.ThreadEnabled, IdleMove;
      var more := ReachDequeuing(Cam.Next(c, a), k, size);
      CC.Prepend(c, a, more);
      HiddenPrepend(a, more);
      rest := [a] + more;
    }
  }

  /** A frame of that size is in the thread's hands, and not yet decided on. */
  ghost predicate GoodFrameInHand(c: Cam.State, size: nat) {
    && CI.Inv(c) && c.started && !c.flags.stop && !c.flags.requested
    && c.thread.Deciding? && c.thread.used == size <= |c.memory| && Shows(c.geometry, size)
  }

  lemma TakeGoodFrame(c: Cam.State, k: nat, size: nat) returns (rest: seq<Cam.Action>)
    requires CI.Inv(c) && Idle(c) && CanBring(c, k, size)
    ensures Hidden(rest) && Cam.Legal(c, rest) && GoodFrameInHand(Cam.Run(c, rest), size)
  {
    var first := ReachDequeuing(c, k, size);
    var c1 := Cam.Run(c, first);
    var fill, dequeue := Cam.ByDriver(Cam.Fills(k, size)), Cam.ByThread(Cam.Dequeue(k));
    hide CI.Inv, Shows;
    CI.StepKeepsInv(c1, fill);
    var c2 := Cam.Next(c1, fill);
    CI.StepKeepsInv(c2, dequeue);
    CC.Prepend(c2, dequeue, []);
    CC.Prepend(c1, fill, [dequeue] + []);
    CC.Concat(c, first, [fill] + ([dequeue] + []));
    rest := first + ([fill] + ([dequeue] + []));
  }

  // ----- A wanted frame is published -----

  /** Ready for the caller to return with an image of that size. */
  ghost predicate Deliverable(c: Cam.State, size: nat) {
    && c.flags.ready && c.flags.error == 0
    && c.flags.captured.size == size && Shows(c.flags.captured.geometry, size)
  }

  lemma PublishGoodFrame(c: Cam.State, size: nat) returns (rest: seq<Cam.Action>)
    requires CI.Inv(c) && c.flags.requested && Shows(c.geometry, size) && CC.HasUsableFrame(c)
    requires c.thread.used == size
    ensures Hidden(rest) && Cam.Legal(c, rest) && Deliverable(Cam.Run(c, rest), size)
    decreases CT.Stage(c.thread), CT.Remaining(c.thread)
  {
    var a := Cam.ByThread(
      if c.thread.Deciding? then Cam.Decide
      else if c.thread.Stamping? then Cam.Stamp(true)
      else if c.thread.done < c.thread.used then Cam.CopyByte
      else Cam.PublishCopy(0));
    hide Shows;
    CI.StepKeepsInv(c, a);
    var more := [];
    if !(c.thread.Copying? && c.thread.done == c.thread.used) {
      more := PublishGoodFrame(Cam.Next(c, a), size);
    }
    CC.Prepend(c, a, more);
    HiddenPrepend(a, more);
    rest := [a] + more;
  }

  // ----- Lifting camera steps to the pipeline -----

  function Lift(a: Cam.Action): Action
    requires a.ByThread? || a.ByDriver?
  {
    if a.ByThread? then ByCameraThread(a.thread) else ByDriver(a.driver)
  }

  ghost function LiftAll(actions: seq<Cam.Action>): seq<Action>
    requires Hidden(actions)
  {
    seq(|actions|, i requires 0 <= i < |actions| => Lift(actions[i]))
  }

  lemma {:induction false} Lifts(m: D.Trig, s: System, actions: seq<Cam.Action>)
    requires Hidden(actions) && Cam.Legal(s.cam, actions)
    ensures Legal(m, s, LiftAll(actions))
    ensures Run(m, s, LiftAll(actions)) == s.(cam := Cam.Run(s.cam, actions))
    decreases |actions|
  {
    if actions != [] {
      var a, rest := actions[0], actions[1..];
      assert a in actions;
      assert Hidden(rest) by { forall b | b in rest ensures b in actions {} }
      hide Cam.ThreadNext, Cam.DriverNext, Cam.ThreadEnabled, Cam.DriverEnabled;
      assert Next(m, s, Lift(a)) == s.(cam := Cam.Next(s.cam, a));
      Lifts(m, s.(cam := Cam.Next(s.cam, a)), rest);
      assert LiftAll(actions)[1..] == LiftAll(rest);
    }
  }

  // ----- Task 3 saves everything -----

  /** Task 3 is done, successfully, with every text written and a preview. */
  ghost predicate SavedAll(s: System) {
    s.t3.pc == Finished(true) && s.t3.captured && s.t3.complete && s.t3.previewFile != []
  }

  /** Nothing has gone wrong so far, and the image will show. */
  predicate AllWell(s: System) {
    && s.t2.pc.Posted? && s.t2.captured && Shows(s.t2.image.geometry, s.t2.image.size)
    && (s.t3.pc.SavingImage? || s.t3.pc.SavingPreview? ==> s.t3.complete)
    && (s.t3.pc.Unlocking? || s.t3.pc.Finished? ==>
          Saved(s.t3) && s.t3.complete && s.t3.previewFile != [])
  }

  function BytesUnseen(t3: Storing): nat {
    if |t3.seen| < t3.image.size then t3.image.size - |t3.seen| else 0
  }

  function FullMove(t3: Storing): Action3 {
    if t3.pc.SavingPreview? then
      if |t3.seen| < t3.image.size then UnpackByte else PreviewDone(true)
    else Move3(t3)
  }

  lemma Shown(t3: Storing)
    requires t3.captured && Shows(t3.image.geometry, t3.image.size) && |t3.seen| == t3.image.size
    ensures CanPreview(t3)
  {}

  lemma NothingIsLost(texts: seq<seq<byte>>, n: nat)
    requires n <= |texts|
    ensures Stdio.PrintAll(texts, FREE_DISK.writes, n).lost == 0
  {
    if n > 0 { NothingIsLost(texts, n - 1); }
  }

  /** The image file and what the preview has read are no longer than the frame. */
  predicate WithinFrame(t3: Storing) {
    && |t3.imageFile| <= t3.image.size && |t3.seen| <= t3.image.size
    && t3.captured == HasImage(t3)
  }

  /** What the invariant says to the next move. */
  ghost predicate Ready(s: System) {
    && R.WellFormed(s.ring) && s.mailbox.ready && s.mailbox.captured && s.mailbox.image == s.t2.image
    && s.t2.image.size <= |s.cam.memory|
    && (!s.t3.pc.AwaitingData? ==> WithinFrame(s.t3) && s.t3.captured && s.t3.image == s.t2.image)
    && (s.t3.pc.SavingPreview? ==> |s.t3.imageFile| == s.t3.image.size)
  }

  lemma InvReady(m: D.Trig, cap: nat, s: System)
    requires Inv(m, cap, s) && AllWell(s) && !s.t3.pc.Finished?
    ensures Ready(s)
  {
    assert GatesOk(s) && RingOk(cap, s.ring, s.t1, s.t3) && SavedImageOk(s.t3, s.cam);
    assert ClientOk(s.t2, s.cam, true);
    MemoryIsFrame(s);
    hide Inv, SensorOk, ClientOk, TelemetryOk, RingOk, R.Represents, PreviewOf;
    assert R.WellFormed(s.ring) by { RingIsWellFormed(cap, s.ring, s.t1, s.t3); }
    assert Shows(s.t2.image.geometry, s.t2.image.size);
  }

  lemma RingIsWellFormed(cap: nat, ring: R.Ring<RawSample>, t1: Sensing, t3: Storing)
    requires RingOk(cap, ring, t1, t3)
    ensures R.WellFormed(ring)
  {}

  lemma FullEnabled(s: System)
    requires Ready(s) && AllWell(s) && !s.t3.pc.Finished?
    ensures Enabled3(s, FullMove(s.t3))
  {
    if s.t3.pc.SavingPreview? && |s.t3.seen| == s.t3.image.size { Shown(s.t3); }
    hide CanPreview, Shows;
    match s.t3.pc
    case AwaitingData =>
    case Locking =>
    case Snapshotting =>
    case CopyingOut =>
    case SavingTelemetry =>
    case SavingImage =>
    case SavingPreview =>
    case Unlocking(_) =>
  }

  lemma FullKeeps(s: System)
    requires AllWell(s) && !s.t3.pc.Finished? && Enabled3(s, FullMove(s.t3))
    requires !s.t3.pc.AwaitingData? ==> WithinFrame(s.t3) && s.t3.captured
    ensures AllWell(Next3(s, FullMove(s.t3)))
  {
    var texts := Telemetry.Texts(s.t3.telemetry, Telemetry.NO_FLOATS);
    NothingIsLost(texts, |texts|);
    hide R.Entries, R.Step, Shows, Telemetry.Texts, Stdio.PrintAll, Stdio.Written, CanPreview;
    if s.t3.pc.SavingPreview? && |s.t3.seen| == s.t3.image.size {
      HeaderIsSomething(Storage.PictureOf(s.t3.image, s.t3.seen));
    }
    hide ColorPpm.Preview;
    match s.t3.pc
    case AwaitingData =>
    case Locking =>
    case Snapshotting =>
    case CopyingOut =>
    case SavingTelemetry =>
    case SavingImage =>
    case SavingPreview =>
    case Unlocking(_) =>
  }

  lemma HeaderIsSomething(picture: ColorPpm.Picture)
    ensures ColorPpm.Acceptable(picture) && ColorPpm.LongEnough(picture) ==> ColorPpm.Preview(picture) != []
  {
    hide ColorPpm.Pixels;
  }

  ghost predicate FullCloser(t3': Storing, t3: Storing) {
    Stage3(t3'.pc) < Stage3(t3.pc)
    || (Stage3(t3'.pc) == Stage3(t3.pc)
        && BytesLeft(t3') + BytesUnseen(t3') < BytesLeft(t3) + BytesUnseen(t3))
  }

  lemma FullAdvances(s: System)
    requires !s.t3.pc.Finished? && Enabled3(s, FullMove(s.t3))
    ensures FullCloser(Next3(s, FullMove(s.t3)).t3, s.t3)
  {
    if s.t3.pc.SavingImage? || s.t3.pc.SavingPreview? {
      ReadingAdvances(s);
    } else {
      StageAdvances(s);
    }
  }

  lemma ReadingAdvances(s: System)
    requires (s.t3.pc.SavingImage? || s.t3.pc.SavingPreview?) && Enabled3(s, FullMove(s.t3))
    ensures FullCloser(Next3(s, FullMove(s.t3)).t3, s.t3)
  {
    hide R.Entries, R.Step, CanPreview, ColorPpm.Preview;
  }

  lemma StageAdvances(s: System)
    requires !s.t3.pc.SavingImage? && !s.t3.pc.SavingPreview? && !s.t3.pc.Finished? && Enabled3(s, FullMove(s.t3))
    ensures FullCloser(Next3(s, FullMove(s.t3)).t3, s.t3)
  {
    hide R.Entries, R.Step, Telemetry.Texts, Stdio.Complete, Stdio.Written, CanPreview, BytesLeft, BytesUnseen;
    match s.t3.pc
    case AwaitingData =>
    case Locking =>
    case Snapshotting =>
    case CopyingOut =>
    case SavingTelemetry =>
    case Unlocking(_) =>
  }

  lemma SaveAll(m: D.Trig, cap: nat, s: System) returns (rest: seq<Action>)
    requires Inv(m, cap, s) && AllWell(s) && (s.t3.pc.AwaitingData? || s.t3.captured)
    ensures Legal(m, s, rest) && SavedAll(Run(m, s, rest))
    decreases Stage3(s.t3.pc), BytesLeft(s.t3) + BytesUnseen(s.t3)
  {
    if s.t3.pc.Finished? {
      rest := [];
    } else {
      var a := FullMove(s.t3);
      InvReady(m, cap, s);
      FullEnabled(s);
      FullKeeps(s);
      FullAdvances(s);
      Task3Keeps(m, cap, s, a);
      KeepsCapture(s, a);
      hide Inv, AllWell, FullMove, Next3, Enabled3;
      var more := SaveAll(m, cap, Next3(s, a));
      Prepend(m, s, By3(a), more);
      rest := [By3(a)] + more;
    }
  }

  lemma KeepsCapture(s: System, a: Action3)
    requires Enabled3(s, a) && (if s.t3.pc.AwaitingData? then s.mailbox.captured else s.t3.captured)
    ensures Next3(s, a).t3.captured
  {
    hide R.Entries, R.Step, Telemetry.Texts, Stdio.Complete, Stdio.Written, CanPreview, ColorPpm.Preview;
    match a
    case TakeMail =>
    case LockRing(_) =>
    case SnapshotRing =>
    case CopyRing =>
    case SaveTelemetry(_, _) =>
    case SaveByte =>
    case ImageDone =>
    case UnpackByte =>
    case PreviewDone(_) =>
    case GiveUp =>
    case UnlockRing(_) =>
  }

  // ----- From the signal to the mail -----

  /** The return from the wait, with the image. */
  lemma Leaves(s: System, size: nat)
    requires ClientOk(s.t2, s.cam, true) && s.t2.pc.InCall? && Deliverable(s.cam, size)
    ensures Enabled2(s, LeaveWait(Woken))
    ensures var t2 := Next2(s, LeaveWait(Woken)).t2;
      t2.pc.Posting? && t2.captured && Shows(t2.image.geometry, t2.image.size)
  {
    hide CI.Inv, Shows;
  }

  lemma PostFrom(m: D.Trig, cap: nat, s: System) returns (rest: seq<Action>)
    requires Inv(m, cap, s) && s.t2.pc.Posting? && s.t2.captured && s.t3.pc.AwaitingData?
    requires Shows(s.t2.image.geometry, s.t2.image.size)
    ensures Legal(m, s, rest) && SavedAll(Run(m, s, rest))
  {
    hide Inv, Shows;
    StepKeepsInv(m, cap, s, By2(Post));
    var more := SaveAll(m, cap, Next(m, s, By2(Post)));
    Prepend(m, s, By2(Post), more);
    rest := [By2(Post)] + more;
  }

  /** Task 2 waits in its call, and its image is ready. */
  lemma Deliver(m: D.Trig, cap: nat, s: System, size: nat) returns (rest: seq<Action>)
    requires Inv(m, cap, s) && s.t2.pc.InCall? && Deliverable(s.cam, size) && s.t3.pc.AwaitingData?
    ensures Legal(m, s, rest) && SavedAll(Run(m, s, rest))
  {
    assert ClientOk(s.t2, s.cam, true) && GatesOk(s);
    hide Inv, ClientOk, GatesOk, Deliverable, Shows, Next2, Enabled2;
    var leave := By2(LeaveWait(Woken));
    Leaves(s, size);
    StepKeepsInv(m, cap, s, leave);
    GatesStep2(s, LeaveWait(Woken));
    var more := PostFrom(m, cap, Next(m, s, leave));
    Prepend(m, s, leave, more);
    rest := [leave] + more;
  }

  /** The call's entry, while the thread has a good frame in its hands. */
  lemma Enters(s: System, size: nat)
    requires ClientOk(s.t2, s.cam, true) && s.t2.pc.Calling? && GoodFrameInHand(s.cam, size)
    ensures Enabled2(s, EnterSnapshot(true))
    ensures var s' := Next2(s, EnterSnapshot(true));
      && s'.t2.pc.InCall? && s'.cam.flags.requested && s'.cam.thread == s.cam.thread
      && s'.cam.geometry == s.cam.geometry && s'.cam.memory == s.cam.memory
  {
    hide CI.Inv, Shows;
    CT.CallFrame(s.cam, Cam.Enter(0, true));
  }

  lemma CallAndDeliver(m: D.Trig, cap: nat, s: System, size: nat) returns (rest: seq<Action>)
    requires Inv(m, cap, s) && s.t2.pc.Calling? && GoodFrameInHand(s.cam, size) && s.t3.pc.AwaitingData?
    ensures Legal(m, s, rest) && SavedAll(Run(m, s, rest))
  {
    assert ClientOk(s.t2, s.cam, true) && GatesOk(s);
    Enters(s, size);
    hide CI.Inv, Shows, GatesOk, Next2, Enabled2;
    var enter := By2(EnterSnapshot(true));
    StepKeepsInv(m, cap, s, enter);
    GatesStep2(s, EnterSnapshot(true));
    var s1 := Next(m, s, enter);
    assert ClientOk(s1.t2, s1.cam, true);
    assert Shows(s.cam.geometry, size) && 0 < size by { ShowsSomething(s.cam.geometry, size); }
    hide Inv, ClientOk;
    var hidden := PublishGoodFrame(s1.cam, size);
    var more := HiddenThenDeliver(m, cap, s1, hidden, size);
    Prepend(m, s, enter, more);
    rest := [enter] + more;
  }

  lemma ShowsSomething(g: Geometry, size: nat)
    requires Shows(g, size)
    ensures 0 < size
  {}

  lemma HiddenThenDeliver(m: D.Trig, cap: nat, s: System, hidden: seq<Cam.Action>, size: nat)
    returns (rest: seq<Action>)
    requires Inv(m, cap, s) && s.t2.pc.InCall? && s.t3.pc.AwaitingData?
    requires Hidden(hidden) && Cam.Legal(s.cam, hidden) && Deliverable(Cam.Run(s.cam, hidden), size)
    ensures Legal(m, s, rest) && SavedAll(Run(m, s, rest))
  {
    hide Inv, Deliverable;
    Lifts(m, s, hidden);
    RunKeepsInv(m, cap, s, LiftAll(hidden));
    var more := Deliver(m, cap, Run(m, s, LiftAll(hidden)), size);
    Concat(m, s, LiftAll(hidden), more);
    rest := LiftAll(hidden) + more;
  }

  /** The save has succeeded with everything, on what task 1 reported. */
  ghost predicate SavedAllReported(m: D.Trig, s: System) { SavedAll(s) && SavedReport(m, s) }

  /** From every reachable state in which the signal can still come or task 2 has not
      yet entered its call, while the camera runs and some buffer can bring an image
      that shows: some continuation saves the telemetry with every row, the whole
      frame and a preview, for the accident that task 1 reported. */
  lemma FullSaveStaysPossible(m: D.Trig, cap: nat, s: System, actions: seq<Action>, raw: RawSample,
                              k: nat, size: nat)
    requires Starts(s, cap) && Legal(m, s, actions) && SignalCanCome(m, s, actions, raw)
    requires var s' := Run(m, s, actions);
      (s'.t2.pc.AwaitingSignal? || s'.t2.pc.Calling?) && CanBring(s'.cam, k, size)
    ensures exists rest :: Legal(m, Run(m, s, actions), rest)
                           && SavedAllReported(m, Run(m, Run(m, s, actions), rest))
  {
    hide Inv, CanBring, SavedReport, SavedAll;
    var s' := Run(m, s, actions);
    var first := Approach(m, cap, s, actions, raw);
    var s1 := Run(m, s', first);
    var more := FullSaveFrom(m, cap, s1, k, size);
    RunKeepsInv(m, cap, s1, more);
    assert Run(m, s1, more).t3.pc == Finished(true) by { AllIsSaved(Run(m, s1, more)); }
    FinishedReport(m, cap, Run(m, s1, more));
    Concat(m, s', first, more);
  }

  lemma AllIsSaved(s: System)
    requires SavedAll(s)
    ensures s.t3.pc == Finished(true)
  {}

  lemma FullSaveFrom(m: D.Trig, cap: nat, s: System, k: nat, size: nat) returns (rest: seq<Action>)
    requires Inv(m, cap, s) && CanBring(s.cam, k, size)
    requires if s.t2.pc.AwaitingSignal? then s.signal else s.t2.pc.Calling?
    ensures Legal(m, s, rest) && SavedAll(Run(m, s, rest))
    decreases s.t2.pc.AwaitingSignal?
  {
    assert GatesOk(s) && ClientOk(s.t2, s.cam, true);
    if s.t2.pc.AwaitingSignal? {
      StepKeepsInv(m, cap, s, By2(TakeSignal));
      var more := FullSaveFrom(m, cap, Next(m, s, By2(TakeSignal)), k, size);
      Prepend(m, s, By2(TakeSignal), more);
      rest := [By2(TakeSignal)] + more;
    } else {
      assert Idle(s.cam) by { assert CI.CopyOk(s.cam); }
      hide CanBring, Inv, GoodFrameInHand;
      var hidden := TakeGoodFrame(s.cam, k, size);
      Lifts(m, s, hidden);
      RunKeepsInv(m, cap, s, LiftAll(hidden));
      var more := CallAndDeliver(m, cap, Run(m, s, LiftAll(hidden)), size);
      Concat(m, s, LiftAll(hidden), more);
      rest := LiftAll(hidden) + more;
    }
  }
}
