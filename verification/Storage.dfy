/** One save: lock the ring, read it, write the files, unlock; with every call that
    can fail.  Interference from the other tasks is the subject of module Pipeline. */
module Storage {
  import opened Bytes
  import opened Sensor
  import opened RingModel
  import opened CaptureControl
  import CrashBufferDriver
  import ColorPpm
  import FileWriter
  import Handoff
  import Stdio
  import Telemetry

  /** Which calls work; `telemetry` is what becomes of the telemetry's stream and
      `rawWrites` what each write() of the raw image does. */
  datatype Calls = Calls(directories: bool, opens: bool, locks: bool, malloc: bool,
                         kernelAlloc: bool, copies: bool, telemetry: Stdio.Io,
                         rawOpens: bool, rawWrites: seq<FileWriter.Attempt>, rawSyncs: bool,
                         preview: ColorPpm.Io, unlocks: bool)

  datatype Files = Files(telemetry: seq<byte>, raw: seq<byte>, preview: seq<byte>)

  const NO_FILES := Files([], [], [])

  predicate HasImage(i: ColorPpm.Picture) { i.present && i.data != [] }

  predicate ReadWorks(c: Calls, count: nat) { count == 0 || (c.kernelAlloc && c.copies) }

  predicate RawSaved(c: Calls, i: ColorPpm.Picture) {
    c.rawOpens && c.rawSyncs && FileWriter.Drain(|i.data|, c.rawWrites) == (0, false)
  }

  /** Everything on which the return value depends; LOCK, UNLOCK, the preview and the
      writes behind the telemetry's fprintf calls are not among it. */
  predicate Saves(c: Calls, i: ColorPpm.Picture, count: nat) {
    && c.directories && c.opens && c.malloc && ReadWorks(c, count) && Stdio.Succeeds(c.telemetry)
    && (HasImage(i) ==> RawSaved(c, i))
  }

  /** What the save does to the ring, whether or not it succeeds. */
  function After(c: Calls, r: Ring<RawSample>): Ring<RawSample>
    requires WellFormed(r)
  {
    if !c.directories || !c.opens || !c.locks then r
    else if c.unlocks then Step(r, Unlock)
    else Step(r, Lock)
  }

  /** The image's size is a size_t, and the preview's behaviour is defined. */
  predicate PreviewDefined(c: Calls, i: ColorPpm.Picture) {
    |i.data| <= c.preview.sizeMax && ColorPpm.Defined(i, c.preview.sizeMax)
  }

  ghost predicate PreviewSaved(c: Calls, i: ColorPpm.Picture) {
    HasImage(i) && ColorPpm.Acceptable(i) && ColorPpm.LongEnough(i) && ColorPpm.AllWritten(c.preview, i)
  }

  /** From LOCK's success on, the ring is always unlocked again, on every path. */
  method SaveCrashData(crash: CrashBufferDriver.CrashBuffer<RawSample>, image: ColorPpm.Picture,
                       details: Telemetry.Details, c: Calls)
    returns (saved: bool, files: Files)
    requires crash.Valid() && PreviewDefined(c, image)
    modifies crash
    ensures crash.Valid() && crash.slots == old(crash.slots)
    ensures crash.View() == After(c, old(crash.View()))
    ensures c.directories && c.opens && c.locks && c.unlocks ==>
      !crash.locked && crash.count == 0 && crash.head == 0 && crash.tail == 0 && crash.log == []
    ensures !(c.directories && c.opens && c.locks && c.unlocks) ==>
      crash.log == old(crash.log)
      && crash.View() == old(crash.View()).(locked := old(crash.locked) || (c.directories && c.opens && c.locks))
    ensures saved <==> Saves(c, image, old(crash.count))
    ensures saved <==>
      && c.directories && c.opens && c.malloc
      && (old(crash.count) == 0 || (c.kernelAlloc && c.copies))
      && c.telemetry.opens && c.telemetry.flushes && c.telemetry.syncs
      && (image.present && image.data != [] ==>
            c.rawOpens && c.rawSyncs && FileWriter.Drain(|image.data|, c.rawWrites) == (0, false))
    ensures saved ==>
      Telemetry.SavedIfComplete(files.telemetry, LastN(old(crash.log), crash.slots.Length), details, c.telemetry)
    ensures saved && HasImage(image) ==> files.raw == image.data
    ensures saved && PreviewSaved(c, image) ==> files.preview == ColorPpm.Preview(image)
  {
    hide Represents, LastN, ColorPpm.Preview, Telemetry.SavedIfComplete, Telemetry.PrintRows;
    hide ColorPpm.Acceptable, ColorPpm.LongEnough, PreviewDefined, FileWriter.Drain;
    if !c.directories || !c.opens {
      return false, NO_FILES;
    }
    if c.locks {
      var locked := crash.DevIoctl(CrashBufferDriver.LockCommand);
    }
    saved, files := Collect(crash, image, details, c);
    if c.locks && c.unlocks {
      var unlocked := crash.DevIoctl(CrashBufferDriver.UnlockCommand);
    }
  }

  /** Between LOCK and the cleanup. */
  method Collect(crash: CrashBufferDriver.CrashBuffer<RawSample>, image: ColorPpm.Picture,
                 details: Telemetry.Details, c: Calls)
    returns (saved: bool, files: Files)
    requires crash.Valid() && PreviewDefined(c, image) && c.directories && c.opens
    ensures saved <==> Saves(c, image, crash.count)
    ensures saved ==>
      Telemetry.SavedIfComplete(files.telemetry, LastN(crash.log, crash.slots.Length), details, c.telemetry)
    ensures saved && HasImage(image) ==> files.raw == image.data
    ensures saved && PreviewSaved(c, image) ==> files.preview == ColorPpm.Preview(image)
  {
    hide LastN, ColorPpm.Preview, Telemetry.SavedIfComplete, Telemetry.PrintRows;
    hide ColorPpm.Defined, FileWriter.Drain;
    files := NO_FILES;
    if !c.malloc {
      return false, files;
    }
    var ok, samples := ReadAll(crash, c);
    if !ok {
      return false, files;
    }
    var written, text := Telemetry.WriteTelemetryToFile(samples, details, c.telemetry);
    files := files.(telemetry := text);
    if !written {
      return false, files;
    }
    if !HasImage(image) {
      return true, files;
    }
    var outcome, raw := FileWriter.WriteBinaryFile(image.data, c.rawOpens, c.rawWrites, c.rawSyncs);
    if !outcome.Saved? {
      return false, files;
    }
    files := files.(raw := raw);
    if image.pixelFormat == ColorPpm.SRGGB10P {
      var result, preview := ColorPpm.WritePraaColorPpm(image, c.preview);
      files := files.(preview := preview);
    }
    return true, files;
  }

  /** A buffer for N samples always takes the whole window. */
  method ReadAll(crash: CrashBufferDriver.CrashBuffer<RawSample>, c: Calls)
    returns (ok: bool, samples: seq<RawSample>)
    requires crash.Valid()
    ensures ok <==> ReadWorks(c, crash.count)
    ensures ok ==> samples == LastN(crash.log, crash.slots.Length)
  {
    var n, size := crash.slots.Length, crash.sampleSize;
    ModUnique(n * size, size, n, 0);
    var result;
    result, samples := crash.DevRead(n * size, !c.kernelAlloc, !c.copies);
    ok := result.Bytes?;
    assert |LastN(crash.log, n)| == crash.count;
  }

  /** An image handed over, with the bytes of the secure memory it stands for. */
  function PictureOf(image: Image, bytes: seq<byte>): ColorPpm.Picture {
    var g := image.geometry;
    ColorPpm.Picture(true, bytes, g.width, g.height, g.bytesPerLine, g.pixelFormat)
  }

  const NO_PICTURE := ColorPpm.Picture(false, [], 0, 0, 0, 0)

  /** What the storage task is given to save. */
  function MailedPicture(mail: Handoff.Mailbox, memory: seq<byte>): ColorPpm.Picture
    requires mail.captured ==> mail.image.size <= |memory|
  {
    if mail.captured then PictureOf(mail.image, memory[..mail.image.size]) else NO_PICTURE
  }

  /** The storage task from one return of its condition wait on: without mail it
      waits again, having changed nothing; otherwise it saves what was posted. */
  method StorageTask(args: Handoff.StorageArgs, crash: CrashBufferDriver.CrashBuffer<RawSample>,
                     memory: seq<byte>, details: Telemetry.Details, c: Calls)
    returns (waits: bool, saved: bool, files: Files)
    requires crash.Valid()
    requires args.captured ==> args.image.size <= |memory|
    requires PreviewDefined(c, MailedPicture(args.View(), memory))
    modifies crash
    ensures crash.Valid() && crash.slots == old(crash.slots)
    ensures waits == !args.View().ready
    ensures waits ==> !saved && crash.View() == old(crash.View())
    ensures !waits ==>
      saved == Saves(c, MailedPicture(args.View(), memory), old(crash.count))
      && crash.View() == After(c, old(crash.View()))
    ensures !waits && c.directories && c.opens && c.locks && c.unlocks ==>
      !crash.locked && crash.count == 0 && crash.head == 0 && crash.tail == 0 && crash.log == []
    ensures !waits && !(c.directories && c.opens && c.locks && c.unlocks) ==>
      crash.log == old(crash.log)
      && crash.View() == old(crash.View()).(locked := old(crash.locked) || (c.directories && c.opens && c.locks))
    ensures saved ==>
      Telemetry.SavedIfComplete(files.telemetry, LastN(old(crash.log), crash.slots.Length), details, c.telemetry)
    ensures saved && args.View().captured && args.View().image.size > 0 ==>
      files.raw == memory[..args.View().image.size]
    ensures saved && PreviewSaved(c, MailedPicture(args.View(), memory)) ==>
      files.preview == ColorPpm.Preview(MailedPicture(args.View(), memory))
  {
    hide Represents, LastN, Telemetry.SavedIfComplete, PreviewDefined, ColorPpm.Preview, Saves, PreviewSaved;
    var leaves, detection, captured, image := args.Wake();
    if !leaves {
      return true, false, NO_FILES;
    }
    var picture := if captured then PictureOf(image, memory[..image.size]) else NO_PICTURE;
    saved, files := SaveCrashData(crash, picture, details, c);
    waits := false;
  }
}
