/** Acquiring and releasing what the camera needs: descriptors, mappings, the
    secure allocation, the stream and the capture thread. */
module CameraResources {
  import opened Common
  import opened CaptureControl

  const CAMERA_BUFFER_COUNT: nat := 4
  const CAMERA_MAX_IMAGE_BYTES: nat := 8 * 1024 * 1024

  datatype Kind = Descriptor | Mapping | Allocation | Stream | Thread

  /** Identifiers are never reused, so a handle is acquired once. */
  datatype Handle = Handle(kind: Kind, id: nat)

  function AsSet<T>(o: Option<T>): set<T> { if o.Some? then {o.value} else {} }

  /** The operating system's account of who holds what. */
  class Os {
    var live: set<Handle>
    var released: set<Handle>
    var nextId: nat
    /** Everything ever handed out. */
    ghost var issued: set<Handle>

    /** Every handle ever handed out is either live or was released, not both. */
    ghost predicate Valid()
      reads this
    {
      && live !! released && live + released == issued
      && forall h :: h in issued ==> h.id < nextId
    }

    constructor ()
      ensures Valid() && live == {} && issued == {}
    {
      live, released, nextId, issued := {}, {}, 0, {};
    }

    method Acquire(kind: Kind) returns (h: Handle)
      requires Valid()
      modifies this
      ensures Valid() && h.kind == kind && h !in old(issued)
      ensures live == old(live) + {h} && released == old(released) && issued == old(issued) + {h}
    {
      h := Handle(kind, nextId);
      nextId := nextId + 1;
      live, issued := live + {h}, issued + {h};
    }

    /** Only a live handle can be released, so none is released twice. */
    method Release(h: Handle)
      requires Valid() && h in live
      modifies this
      ensures Valid() && h !in old(released)
      ensures live == old(live) - {h} && released == old(released) + {h} && issued == old(issued)
    {
      live := live - {h};
      released := released + {h};
    }
  }

  datatype BufferIo = BufferIo(queryOk: bool, mapOk: bool, queueOk: bool)

  /** Every result init can get from outside. */
  datatype Io = Io(
    argsOk: bool, subdevOpens: bool, subdevAccepts: bool, subdevMatches: bool,
    opens: bool, queryCapOk: bool, capable: bool, setFormatOk: bool, formatMatches: bool,
    sizeImage: nat, requestOk: bool, granted: nat, buffers: nat -> BufferIo,
    allocates: bool, locks: bool, streamsOn: bool, createsThread: bool, streamsOff: bool)

  datatype Stage =
    | BadArguments | Subdevice | Open | QueryCap | Capabilities | SetFormat | FormatMismatch
    | SizeImage | RequestBuffers | TooFewBuffers | QueryBuffer | MapBuffer | QueueBuffer
    | Allocate | StreamOn | CreateThread

  datatype Outcome = Ready | FailedAt(stage: Stage)

  predicate BufferOk(io: Io, i: nat) {
    io.buffers(i).queryOk && io.buffers(i).mapOk && io.buffers(i).queueOk
  }

  /** Init succeeds exactly when all of this does; mlock may fail. */
  ghost predicate Succeeds(io: Io) {
    io.argsOk && io.subdevOpens && io.subdevAccepts && io.subdevMatches && DeviceWorks(io)
  }

  ghost predicate DeviceWorks(io: Io) {
    && io.opens && io.queryCapOk && io.capable && io.setFormatOk && io.formatMatches
    && 0 < io.sizeImage <= 8388608
    && io.requestOk && 2 <= io.granted
    && AllBuffersOk(io)
    && io.allocates && io.streamsOn && io.createsThread
  }

  predicate OfBuffers(stage: Stage) { stage.QueryBuffer? || stage.MapBuffer? || stage.QueueBuffer? }

  /** Some buffer fails this way, the ones before it being fine. */
  ghost predicate BufferFails(io: Io, stage: Stage) {
    exists i :: 0 <= i < Min(io.granted, 4) && (forall j :: 0 <= j < i ==> BufferOk(io, j))
      && match stage
         case QueryBuffer => !io.buffers(i).queryOk
         case MapBuffer => io.buffers(i).queryOk && !io.buffers(i).mapOk
         case _ => io.buffers(i).queryOk && io.buffers(i).mapOk && !io.buffers(i).queueOk
  }

  lemma BufferFailsHere(io: Io, i: nat)
    requires i < Min(io.granted, 4) && !BufferOk(io, i) && forall j :: 0 <= j < i ==> BufferOk(io, j)
    ensures BufferFails(io, if !io.buffers(i).queryOk then QueryBuffer
                            else if !io.buffers(i).mapOk then MapBuffer else QueueBuffer)
  {}

  /** The rung that fails, all those of the device before it having worked. */
  ghost predicate FailsFirst(io: Io, stage: Stage) {
    var sensor := io.argsOk && io.subdevOpens && io.subdevAccepts && io.subdevMatches;
    var device := io.opens && io.queryCapOk && io.capable;
    var format := io.setFormatOk && io.formatMatches;
    match stage
    case BadArguments => !io.argsOk
    case Subdevice => io.argsOk && !sensor
    case Open => sensor && !io.opens
    case QueryCap => sensor && io.opens && !io.queryCapOk
    case Capabilities => sensor && io.opens && io.queryCapOk && !io.capable
    case SetFormat => sensor && device && !io.setFormatOk
    case FormatMismatch => sensor && device && io.setFormatOk && !io.formatMatches
    case SizeImage => sensor && device && format && !(0 < io.sizeImage <= 8388608)
    case RequestBuffers => sensor && device && format && 0 < io.sizeImage <= 8388608 && !io.requestOk
    case TooFewBuffers => io.requestOk && io.granted < 2
    case Allocate => Granted(io) && !io.allocates
    case StreamOn => Granted(io) && io.allocates && !io.streamsOn
    case CreateThread => Granted(io) && io.allocates && io.streamsOn && !io.createsThread
    case _ => io.requestOk && 2 <= io.granted && BufferFails(io, stage)
  }

  ghost predicate Granted(io: Io) { io.requestOk && 2 <= io.granted && AllBuffersOk(io) }

  ghost predicate AllBuffersOk(io: Io) { forall i :: 0 <= i < Min(io.granted, 4) ==> BufferOk(io, i) }

  /** The first check from the descriptor to the buffers' number that fails. */
  function Negotiated(io: Io): Outcome {
    if !io.opens then FailedAt(Open)
    else if !io.queryCapOk then FailedAt(QueryCap)
    else if !io.capable then FailedAt(Capabilities)
    else if !io.setFormatOk then FailedAt(SetFormat)
    else if !io.formatMatches then FailedAt(FormatMismatch)
    else if io.sizeImage == 0 || io.sizeImage > CAMERA_MAX_IMAGE_BYTES then FailedAt(SizeImage)
    else if !io.requestOk then FailedAt(RequestBuffers)
    else if io.granted < 2 then FailedAt(TooFewBuffers)
    else Ready
  }

  function Started(io: Io): Outcome {
    if !io.allocates then FailedAt(Allocate)
    else if !io.streamsOn then FailedAt(StreamOn)
    else if !io.createsThread then FailedAt(CreateThread)
    else Ready
  }

  lemma RungsInOrder(io: Io)
    requires io.argsOk && io.subdevOpens && io.subdevAccepts && io.subdevMatches
    ensures Negotiated(io).FailedAt? ==> FailsFirst(io, Negotiated(io).stage)
    ensures Negotiated(io).Ready? && AllBuffersOk(io) && Started(io).FailedAt? ==> FailsFirst(io, Started(io).stage)
    ensures forall stage: Stage :: OfBuffers(stage) && Negotiated(io).Ready? && BufferFails(io, stage) ==>
      FailsFirst(io, stage)
    ensures DeviceWorks(io) <==> Negotiated(io).Ready? && AllBuffersOk(io) && Started(io).Ready?
    ensures Started(io).FailedAt? ==>
      Started(io).stage.Allocate? || Started(io).stage.StreamOn? || Started(io).stage.CreateThread?
    ensures Negotiated(io).FailedAt? ==> !Negotiated(io).stage.Allocate?
  {
    hide BufferFails, BufferOk;
  }

  /** Failures between S_FMT and STREAMON leave the announced capacity behind. */
  predicate LeavesCapacity(stage: Stage) {
    stage.SizeImage? || stage.RequestBuffers? || stage.TooFewBuffers? || stage.QueryBuffer?
    || stage.MapBuffer? || stage.QueueBuffer? || stage.Allocate?
  }

  class CameraDevice {
    const os: Os
    const control: CaptureState
    var fd: Option<Handle>
    var mappings: seq<Handle>
    var secure: Option<Handle>
    var secureCapacity: nat
    var stream: Option<Handle>
    var thread: Option<Handle>
    var configured: bool

    ghost function Owned(): set<Handle>
      reads this
    {
      AsSet(fd) + (set h | h in mappings) + AsSet(secure) + AsSet(stream) + AsSet(thread)
    }

    /** The device's fields name exactly the live handles, each once; a stream needs
        an open device. */
    ghost predicate Valid()
      reads this, os, control
    {
      && os.Valid() && os.live == Owned() && control.Valid()
      && (fd.Some? ==> fd.value.kind.Descriptor?)
      && (secure.Some? ==> secure.value.kind.Allocation?)
      && (stream.Some? ==> stream.value.kind.Stream? && fd.Some?)
      && (thread.Some? ==> thread.value.kind.Thread?)
      && (forall i :: 0 <= i < |mappings| ==> mappings[i].kind.Mapping?)
      && (forall i, j :: 0 <= i < j < |mappings| ==> mappings[i] != mappings[j])
    }

    /** Nothing is held: everything ever handed out has been released. */
    ghost predicate Clean()
      reads this, os
    {
      && os.live == {} && os.released == os.issued
      && fd.None? && mappings == [] && secure.None? && stream.None? && thread.None? && !configured
    }

    constructor (os: Os, control: CaptureState)
      requires os.Valid() && os.live == {} && control.Valid()
      ensures Valid() && Clean() && this.os == os && this.control == control && secureCapacity == 0
    {
      this.os, this.control := os, control;
      fd, mappings, secure, secureCapacity := None, [], None, 0;
      stream, thread, configured := None, None, false;
    }

    /** The sensor's descriptor is closed on every path. */
    method ConfigureSubdevice(io: Io) returns (ok: bool)
      requires os.Valid()
      modifies os
      ensures os.Valid() && os.live == old(os.live) && old(os.issued) <= os.issued
      ensures ok == (io.subdevOpens && io.subdevAccepts && io.subdevMatches)
    {
      if !io.subdevOpens {
        return false;
      }
      var sub := os.Acquire(Descriptor);
      assert sub !in old(os.live);
      if !io.subdevAccepts {
        os.Release(sub);
        return false;
      }
      if !io.subdevMatches {
        os.Release(sub);
        return false;
      }
      os.Release(sub);
      return true;
    }

    /** STREAMOFF; when it fails the stream lives on until the device is closed. */
    method StopStream(works: bool)
      requires Valid()
      modifies this, os
      ensures Valid() && fd == old(fd) && mappings == old(mappings) && secure == old(secure)
      ensures secureCapacity == old(secureCapacity) && thread == old(thread) && configured == old(configured)
      ensures stream.Some? ==> !works
      ensures os.issued == old(os.issued)
    {
      if stream.Some? && works {
        os.Release(stream.value);
        stream := None;
      }
    }

    method UnmapAll()
      requires Valid()
      modifies this, os
      ensures Valid() && mappings == [] && fd == old(fd) && secure == old(secure) && stream == old(stream)
      ensures secureCapacity == old(secureCapacity) && thread == old(thread) && configured == old(configured)
      ensures os.issued == old(os.issued)
    {
      while mappings != []
        invariant Valid() && fd == old(fd) && secure == old(secure) && stream == old(stream)
        invariant secureCapacity == old(secureCapacity) && thread == old(thread)
        invariant configured == old(configured)
        invariant os.issued == old(os.issued)
        decreases |mappings|
      {
        assert mappings[0] in Owned();
        UnmapFirst();
      }
    }

    method UnmapFirst()
      requires Valid() && mappings != []
      modifies this`mappings, os
      ensures Valid() && mappings == old(mappings)[1..] && os.issued == old(os.issued)
    {
      var h := mappings[0];
      assert h in Owned();
      os.Release(h);
      mappings := mappings[1..];
      assert Owned() == old(Owned()) - {h};
    }

    method FreeSecure()
      requires Valid()
      modifies this, os
      ensures Valid() && secure.None? && secureCapacity == 0 && fd == old(fd) && stream == old(stream)
      ensures mappings == old(mappings) && thread == old(thread) && configured == old(configured)
      ensures os.issued == old(os.issued)
    {
      if secure.Some? {
        os.Release(secure.value);
        secure := None;
      }
      secureCapacity := 0;
    }

    /** Closing the device also ends a stream that STREAMOFF could not stop. */
    method CloseDevice()
      requires Valid() && secure.None? && thread.None? && mappings == []
      modifies this, os
      ensures Valid() && Clean() && secureCapacity == old(secureCapacity)
      ensures os.issued == old(os.issued)
    {
      if fd.Some? {
        if stream.Some? {
          os.Release(stream.value);
          stream := None;
        }
        os.Release(fd.value);
        fd := None;
      }
      configured := false;
    }

    // The failure labels of init, each falling through to the next.

    method FailUnmap()
      requires Valid() && secure.None? && thread.None?
      modifies this, os
      ensures Valid() && Clean() && secureCapacity == old(secureCapacity)
      ensures os.issued == old(os.issued)
    {
      UnmapAll();
      CloseDevice();
    }

    method FailFreeSecure()
      requires Valid() && thread.None?
      modifies this, os
      ensures Valid() && Clean() && secureCapacity == 0
      ensures os.issued == old(os.issued)
    {
      FreeSecure();
      FailUnmap();
    }

    method FailStreamOff(io: Io)
      requires Valid() && thread.None?
      modifies this, os
      ensures Valid() && Clean() && secureCapacity == 0
      ensures os.issued == old(os.issued)
    {
      StopStream(io.streamsOff);
      FailFreeSecure();
    }

    /** What snapshot checks before anything else. */
    predicate Available()
      reads this
    {
      fd.Some? && stream.Some? && thread.Some? && secure.Some?
    }

    /** The first critical section of a snapshot. */
    method EnterSnapshot(clockWorks: bool) returns (result: BeginResult)
      requires Valid()
      modifies control
      ensures Valid() && result == BeginOutcome(old(control.View()), Available(), clockWorks)
      ensures control.View() == Begin(old(control.View()), Available(), clockWorks)
    {
      result := control.BeginSnapshot(Available(), clockWorks);
    }

    /** Stops and joins the thread if one was started, then releases everything and
        clears the flags. */
    method Deinit(streamsOff: bool)
      requires Valid()
      modifies this, os, control
      ensures Valid() && Clean() && secureCapacity == 0
      ensures os.issued == old(os.issued)
      ensures control.View() == CLEARED && BeginOutcome(control.View(), Available(), true).NoDevice?
    {
      if thread.Some? {
        control.StopCapture();
        os.Release(thread.value);
        thread := None;
      }
      StopStream(streamsOff);
      UnmapAll();
      FreeSecure();
      CloseDevice();
      control.Clear();
    }

    /** The loop over the driver's buffers. */
    method MapBuffers(io: Io) returns (outcome: Outcome)
      requires Valid() && fd.Some? && mappings == [] && secure.None? && thread.None? && stream.None?
      modifies this, os
      ensures Valid() && secure.None? && thread.None? && stream.None? && fd == old(fd)
      ensures old(os.issued) <= os.issued
      ensures secureCapacity == old(secureCapacity) && configured == old(configured)
      ensures outcome.Ready? <==> AllBuffersOk(io)
      ensures outcome.FailedAt? ==>
        OfBuffers(outcome.stage) && BufferFails(io, outcome.stage)
      ensures outcome.Ready? ==> |mappings| == Min(io.granted, CAMERA_BUFFER_COUNT)
    {
      hide BufferFails;
      var i := 0;
      while i < io.granted && i < CAMERA_BUFFER_COUNT
        invariant Valid() && fd == old(fd) && secure.None? && thread.None? && stream.None?
        invariant secureCapacity == old(secureCapacity) && configured == old(configured)
        invariant old(os.issued) <= os.issued
        invariant |mappings| == i <= Min(io.granted, CAMERA_BUFFER_COUNT)
        invariant forall j :: 0 <= j < i ==> BufferOk(io, j)
      {
        var ok := BufferOk(io, i);
        if !ok { BufferFailsHere(io, i); }
        if !io.buffers(i).queryOk {
          return FailedAt(QueryBuffer);
        }
        if !io.buffers(i).mapOk {
          return FailedAt(MapBuffer);
        }
        var h := os.Acquire(Mapping);
        assert forall j :: 0 <= j < i ==> mappings[j] in Owned();
        mappings := mappings + [h];
        if !io.buffers(i).queueOk {
          return FailedAt(QueueBuffer);
        }
        i := i + 1;
      }
      return Ready;
    }

    /** From the descriptor to the size check: nothing but the descriptor is held. */
    method Negotiate(io: Io) returns (outcome: Outcome)
      requires Valid() && Clean() && secureCapacity == 0
      modifies this, os
      ensures Valid() && secure.None? && thread.None? && stream.None? && mappings == []
      ensures old(os.issued) <= os.issued
      ensures outcome == Negotiated(io)
      ensures outcome.Ready? ==> fd.Some? && configured
      ensures outcome.FailedAt? && !outcome.stage.Open? ==> fd.Some?
      ensures outcome.FailedAt? && outcome.stage.Open? ==> Clean()
      ensures secureCapacity ==
        if outcome.Ready? || LeavesCapacity(outcome.stage) then io.sizeImage else 0
    {
      if !io.opens {
        return FailedAt(Open);
      }
      var h := os.Acquire(Descriptor);
      fd := Some(h);
      if !io.queryCapOk {
        return FailedAt(QueryCap);
      }
      if !io.capable {
        return FailedAt(Capabilities);
      }
      if !io.setFormatOk {
        return FailedAt(SetFormat);
      }
      if !io.formatMatches {
        return FailedAt(FormatMismatch);
      }
      configured := true;
      secureCapacity := io.sizeImage;
      if secureCapacity == 0 || secureCapacity > CAMERA_MAX_IMAGE_BYTES {
        return FailedAt(SizeImage);
      }
      if !io.requestOk {
        return FailedAt(RequestBuffers);
      }
      if io.granted < 2 {
        return FailedAt(TooFewBuffers);
      }
      return Ready;
    }

    /** From any state: on success all five kinds of resource are held; on every
        failing exit nothing is, whatever stage and buffer index it failed at. */
    method Init(io: Io) returns (outcome: Outcome)
      requires Valid()
      modifies this, os, control
      ensures control.View() == CLEARED
      ensures BeginOutcome(control.View(), Available(), true) == if outcome.Ready? then Waits else NoDevice
      ensures Valid() && old(os.issued) <= os.issued
      ensures outcome.Ready? <==> Succeeds(io)
      ensures outcome.Ready? ==> fd.Some? && secure.Some? && stream.Some? && thread.Some? && configured
      ensures outcome.Ready? ==> |mappings| == Min(io.granted, 4)
      ensures outcome.Ready? ==> secureCapacity == io.sizeImage
      ensures outcome.FailedAt? ==> Clean() && FailsFirst(io, outcome.stage)
      ensures outcome.FailedAt? ==>
        secureCapacity == if LeavesCapacity(outcome.stage) then io.sizeImage else 0
    {
      hide Granted, DeviceWorks;
      Deinit(io.streamsOff);
      if !io.argsOk {
        return FailedAt(BadArguments);
      }
      var sensor := ConfigureSubdevice(io);
      if !sensor {
        return FailedAt(Subdevice);
      }
      outcome := SetUp(io);
    }

    /** The rungs from the camera's descriptor on. */
    method SetUp(io: Io) returns (outcome: Outcome)
      requires Valid() && Clean() && secureCapacity == 0 && control.View() == CLEARED
      requires io.argsOk && io.subdevOpens && io.subdevAccepts && io.subdevMatches
      modifies this, os, control
      ensures Valid() && old(os.issued) <= os.issued && control.View() == CLEARED
      ensures outcome.Ready? <==> DeviceWorks(io)
      ensures outcome.Ready? ==> fd.Some? && secure.Some? && stream.Some? && thread.Some? && configured
      ensures outcome.Ready? ==> |mappings| == Min(io.granted, 4) && secureCapacity == io.sizeImage
      ensures outcome.FailedAt? ==> Clean() && FailsFirst(io, outcome.stage)
      ensures outcome.FailedAt? ==>
        secureCapacity == if LeavesCapacity(outcome.stage) then io.sizeImage else 0
    {
      hide FailsFirst, Granted, DeviceWorks, BufferFails, Negotiated, Started;
      RungsInOrder(io);
      outcome := Negotiate(io);
      if outcome.FailedAt? {
        CloseDevice();
        return;
      }
      outcome := MapBuffers(io);
      if outcome.FailedAt? {
        FailUnmap();
        return;
      }
      outcome := AllocateAndStart(io);
    }

    /** Allocation, stream and thread. */
    method AllocateAndStart(io: Io) returns (outcome: Outcome)
      requires Valid() && fd.Some? && secure.None? && thread.None? && stream.None? && configured
      requires control.View() == CLEARED
      modifies this, os, control
      ensures control.View() == CLEARED
      ensures Valid() && old(os.issued) <= os.issued
      ensures outcome == Started(io)
      ensures outcome.Ready? ==> fd.Some? && secure.Some? && stream.Some? && thread.Some? && configured
      ensures outcome.Ready? ==> mappings == old(mappings) && secureCapacity == old(secureCapacity)
      ensures outcome.FailedAt? ==> Clean()
      ensures outcome.FailedAt? ==>
        secureCapacity == if outcome.stage.Allocate? then old(secureCapacity) else 0
    {
      if !io.allocates {
        FailUnmap();
        return FailedAt(Allocate);
      }
      var memory := os.Acquire(Allocation);
      secure := Some(memory);
      if !io.streamsOn {
        FailFreeSecure();
        return FailedAt(StreamOn);
      }
      var s := os.Acquire(Stream);
      stream := Some(s);
      outcome := StartThread(io);
    }

    /** The last rung: flags cleared, thread created. */
    method StartThread(io: Io) returns (outcome: Outcome)
      requires Valid() && thread.None?
      modifies this, os, control
      ensures Valid() && control.View() == CLEARED && old(os.issued) <= os.issued
      ensures outcome == if io.createsThread then Ready else FailedAt(CreateThread)
      ensures outcome.Ready? ==>
        && thread.Some? && fd == old(fd) && secure == old(secure) && stream == old(stream)
        && mappings == old(mappings) && secureCapacity == old(secureCapacity) && configured == old(configured)
      ensures outcome.FailedAt? ==> Clean() && secureCapacity == 0
    {
      control.Clear();
      if !io.createsThread {
        FailStreamOff(io);
        return FailedAt(CreateThread);
      }
      var t := os.Acquire(Thread);
      thread := Some(t);
      return Ready;
    }
  }
}
