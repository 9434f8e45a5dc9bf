/** The mutex-protected capture flags and every critical section that touches them.
    Each section is a function on the flags, from which the transition system is
    built, and a method on the shared object. */
module CaptureControl {
  import opened Bytes

  const EIO: nat := 5
  const EMSGSIZE: nat := 90
  const ECANCELED: nat := 125
  const ETIMEDOUT: nat := 110

  datatype Geometry = Geometry(width: nat, height: nat, bytesPerLine: nat, pixelFormat: nat)

  /** `data` is always the secure memory, which the transition system carries. */
  datatype Image = Image(size: nat, firstByteNs: nat, frameNs: nat, geometry: Geometry)

  const NO_GEOMETRY := Geometry(0, 0, 0, 0)
  const NO_IMAGE := Image(0, 0, 0, NO_GEOMETRY)

  /** `error` is 0 while there is none. */
  datatype Flags = Flags(requested: bool, ready: bool, error: nat, stop: bool, captured: Image)

  const CLEARED := Flags(false, false, 0, false, NO_IMAGE)

  /** How a call enters: refused, ended within its first critical section, or waiting. */
  datatype BeginResult = NoDevice | Busy | ClockFailed | Canceled | Waits

  datatype Wait = Woken | TimedOut | WaitError(errno: nat)

  datatype CallResult = KeepsWaiting | Failed(errno: nat) | Captured(image: Image)

  // ----- Critical sections as functions -----

  function SignalFailure(f: Flags, errno: nat): Flags {
    if f.requested then f.(requested := false, ready := false, error := if errno != 0 then errno else EIO)
    else f
  }

  predicate ShouldCapture(f: Flags) { f.requested && !f.ready }

  function Publish(f: Flags, image: Image): Flags {
    if f.requested then Flags(false, true, 0, f.stop, image) else f
  }

  /** Entering a snapshot, up to its first wait. */
  function BeginOutcome(f: Flags, available: bool, clockWorks: bool): BeginResult {
    if !available then NoDevice
    else if f.requested then Busy
    else if !clockWorks then ClockFailed
    else if f.stop then Canceled
    else Waits
  }

  function Begin(f: Flags, available: bool, clockWorks: bool): Flags {
    var outcome := BeginOutcome(f, available, clockWorks);
    if outcome.NoDevice? || outcome.Busy? then f
    else f.(requested := outcome.Waits?, ready := false, error := 0)
  }

  /** Returning from a wait with the mutex held, up to the next wait or the return. */
  function ResumeOutcome(f: Flags, w: Wait): CallResult {
    if w.TimedOut? then Failed(ETIMEDOUT)
    else if w.WaitError? then Failed(w.errno)
    else if f.error != 0 then Failed(f.error)
    else if f.ready then Captured(f.captured)
    else if f.stop then Failed(ECANCELED)
    else KeepsWaiting
  }

  function Resume(f: Flags, w: Wait): Flags {
    if !w.Woken? then f.(requested := false)
    else if f.error != 0 then f.(requested := false, ready := false, error := 0)
    else if f.ready then f.(ready := false)
    else if f.stop then f.(requested := false)
    else f
  }

  /** First critical section of deinit. */
  function RequestStop(f: Flags): Flags {
    f.(stop := true, requested := false, ready := false, error := ECANCELED)
  }

  /** At most one of requested, ready and error is up. */
  predicate Exclusive(f: Flags) {
    && !(f.requested && f.ready)
    && !(f.requested && f.error != 0)
    && !(f.ready && f.error != 0)
  }

  // ----- The shared object -----

  /** Each critical section keeps the flags exclusive; its contract gives the new
      flags, and what they mean to the calls that are waiting or will enter. */
  class CaptureState {
    var requested: bool
    var ready: bool
    var error: nat
    var stop: bool
    var captured: Image

    ghost function View(): Flags
      reads this
    {
      Flags(requested, ready, error, stop, captured)
    }

    ghost predicate Valid()
      reads this
    {
      Exclusive(View())
    }

    constructor ()
      ensures Valid() && View() == CLEARED
    {
      requested, ready, error, stop, captured := false, false, 0, false, NO_IMAGE;
    }

    /** A pending request ends: its call, once woken, fails with a nonzero error. */
    method SignalCaptureFailure(errno: nat)
      requires Valid()
      modifies this
      ensures Valid() && View() == SignalFailure(old(View()), errno)
      ensures old(requested) ==>
        !requested && ResumeOutcome(View(), Woken) == Failed(if errno != 0 then errno else 5)
      ensures !old(requested) ==> View() == old(View())
    {
      if requested {
        requested := false;
        ready := false;
        error := if errno != 0 then errno else EIO;
      }
    }

    /** Asks whether a publication, made now, would reach a waiting call. */
    method CheckShouldCapture() returns (shouldCapture: bool)
      requires Valid()
      ensures shouldCapture == ShouldCapture(View())
      ensures shouldCapture <==>
        forall image :: ResumeOutcome(Publish(View(), image), Woken) == Captured(image)
    {
      shouldCapture := requested && !ready;
      ghost var other := Image(captured.size + 1, 0, 0, captured.geometry);
      assert !requested ==> ResumeOutcome(Publish(View(), other), Woken) != Captured(other);
    }

    /** A pending request ends: its call, once woken, returns this image. */
    method PublishImage(image: Image)
      requires Valid()
      modifies this
      ensures Valid() && View() == Publish(old(View()), image)
      ensures old(requested) ==> !requested && ResumeOutcome(View(), Woken) == Captured(image)
      ensures !old(requested) ==> View() == old(View())
      ensures !ShouldCapture(View())
    {
      if requested {
        captured := image;
        requested := false;
        ready := true;
        error := 0;
      }
    }

    /** The checks in their order; a call that waits finds no stale flag that would end
        its wait. */
    method BeginSnapshot(available: bool, clockWorks: bool) returns (result: BeginResult)
      requires Valid()
      modifies this
      ensures Valid() && View() == Begin(old(View()), available, clockWorks)
      ensures result == BeginOutcome(old(View()), available, clockWorks)
      ensures result.Waits? ==> ShouldCapture(View()) && ResumeOutcome(View(), Woken).KeepsWaiting?
      ensures result.NoDevice? <==> !available
      ensures result.Busy? <==> available && old(requested)
      ensures result.ClockFailed? <==> available && !old(requested) && !clockWorks
      ensures result.Canceled? <==> available && !old(requested) && clockWorks && old(stop)
      ensures if result.NoDevice? || result.Busy? then View() == old(View())
              else View() == old(View()).(requested := result.Waits?, ready := false, error := 0)
    {
      if !available {
        return NoDevice;
      }
      if requested {
        return Busy;
      }
      ready := false;
      error := 0;
      requested := true;
      if !clockWorks {
        requested := false;
        return ClockFailed;
      }
      if !ready && error == 0 && !stop {
        return Waits;
      }
      var canceled := Finish();
      return Canceled;
    }

    /** A call that returns leaves no request, and what it reported is consumed; one
        that timed out leaves what it did not report. */
    method ResumeSnapshot(w: Wait) returns (result: CallResult)
      requires Valid()
      modifies this
      ensures Valid() && View() == Resume(old(View()), w) && result == ResumeOutcome(old(View()), w)
      ensures !result.KeepsWaiting? ==> !requested
      ensures !w.Woken? ==>
        result == Failed(if w.TimedOut? then 110 else w.errno) && View() == old(View()).(requested := false)
      ensures w.Woken? ==> !ready && error == 0 && stop == old(stop) && captured == old(captured)
      ensures w.Woken? && old(error) != 0 ==> result == Failed(old(error))
      ensures w.Woken? && old(error) == 0 && old(ready) ==> result == Captured(old(captured))
      ensures w.Woken? && old(error) == 0 && !old(ready) ==>
        result == (if old(stop) then Failed(125) else KeepsWaiting)
    {
      if !w.Woken? {
        requested := false;
        return Failed(if w.TimedOut? then ETIMEDOUT else w.errno);
      }
      if !ready && error == 0 && !stop {
        return KeepsWaiting;
      }
      result := Finish();
    }

    /** What follows the wait loop. */
    method Finish() returns (result: CallResult)
      requires Valid() && (ready || error != 0 || stop)
      modifies this
      ensures Valid() && View() == Resume(old(View()), Woken)
      ensures result == ResumeOutcome(old(View()), Woken)
      ensures !requested && !ready && error == 0
    {
      if error != 0 {
        result := Failed(error);
        requested := false;
        ready := false;
        error := 0;
        return;
      }
      if !ready {
        requested := false;
        return Failed(ECANCELED);
      }
      result := Captured(captured);
      ready := false;
    }

    /** From here on every call that wakes, however many there are, and every call
        that enters is cancelled. */
    method StopCapture()
      requires Valid()
      modifies this
      ensures Valid() && View() == RequestStop(old(View()))
      ensures ResumeOutcome(View(), Woken) == Failed(125)
      ensures ResumeOutcome(Resume(View(), Woken), Woken) == Failed(125)
      ensures BeginOutcome(View(), true, true).Canceled? && !ShouldCapture(View())
    {
      stop := true;
      requested := false;
      ready := false;
      error := ECANCELED;
    }

    /** A call that was waiting goes on waiting, and one that enters a working camera
        waits. */
    method Clear()
      modifies this
      ensures Valid() && View() == CLEARED
      ensures ResumeOutcome(View(), Woken).KeepsWaiting? && !ShouldCapture(View())
      ensures BeginOutcome(View(), true, true).Waits?
    {
      stop, requested, ready, error, captured := false, false, false, 0, NO_IMAGE;
    }
  }

  /** The copy into the secure memory; what lies behind the frame is kept. */
  method CopyFrame(memory: array<byte>, frame: seq<byte>)
    requires |frame| <= memory.Length
    modifies memory
    ensures memory[..] == frame + old(memory[..])[|frame|..]
  {
    var done := 0;
    while done < |frame|
      invariant done <= |frame|
      invariant forall k :: 0 <= k < done ==> memory[k] == frame[k]
      invariant forall k :: done <= k < memory.Length ==> memory[k] == old(memory[k])
    {
      memory[done] := frame[done];
      done := done + 1;
    }
  }

  /** The capture thread between DQBUF and QBUF, undisturbed: a frame that is wanted
      and fits is copied byte by byte and published, one that does not fit is
      reported, and any other leaves flags and memory alone. */
  method HandleFrame(control: CaptureState, memory: array<byte>, buffers: nat, idx: nat,
                     frame: seq<byte>, firstByteNs: nat, frameNs: nat, geometry: Geometry)
    requires control.Valid()
    modifies control, memory
    ensures control.Valid()
    ensures var image := Image(|frame|, firstByteNs, frameNs, geometry);
      if !old(ShouldCapture(control.View())) then
        control.View() == old(control.View()) && memory[..] == old(memory[..])
      else if idx >= buffers || frame == [] || |frame| > memory.Length then
        ResumeOutcome(control.View(), Woken) == Failed(90) && memory[..] == old(memory[..])
      else
        ResumeOutcome(control.View(), Woken) == Captured(image)
        && memory[..] == frame + old(memory[..])[|frame|..]
  {
    hide Publish, SignalFailure, ResumeOutcome, Exclusive;
    var shouldCapture := control.CheckShouldCapture();
    if shouldCapture {
      if idx >= buffers || |frame| == 0 || |frame| > memory.Length {
        control.SignalCaptureFailure(EMSGSIZE);
      } else {
        CopyFrame(memory, frame);
        control.PublishImage(Image(|frame|, firstByteNs, frameNs, geometry));
      }
    }
  }
}
