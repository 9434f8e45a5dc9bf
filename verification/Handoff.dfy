/** The mailbox between the camera task and the storage task, filled and emptied
    under its mutex. */
module Handoff {
  import opened CaptureControl

  datatype Mailbox = Mailbox(ready: bool, detection: nat, captured: bool, image: Image)

  const EMPTY := Mailbox(false, 0, false, NO_IMAGE)

  /** Without a capture the image is zeroed, whatever the caller's variable holds. */
  function Filled(detection: nat, captured: bool, image: Image): Mailbox {
    Mailbox(true, detection, captured, if captured then image else NO_IMAGE)
  }

  class StorageArgs {
    var dataReady: bool
    var detectionTimestampNs: nat
    var captured: bool
    var image: Image

    ghost function View(): Mailbox
      reads this
    {
      Mailbox(dataReady, detectionTimestampNs, captured, image)
    }

    constructor ()
      ensures View() == EMPTY
    {
      dataReady, detectionTimestampNs, captured, image := false, 0, false, NO_IMAGE;
    }

    /** The camera task's critical section: what it posts is what any later wake-up
        of the storage task delivers. */
    method Post(detection: nat, captured: bool, image: Image)
      modifies this
      ensures View() == Filled(detection, captured, image)
      ensures !captured ==> View().image == NO_IMAGE
    {
      detectionTimestampNs := detection;
      this.captured := captured;
      if captured {
        this.image := image;
      } else {
        this.image := NO_IMAGE;
      }
      dataReady := true;
    }

    /** One return from the condition wait with the mutex held: it leaves the wait
        loop exactly if data was posted, and then with exactly what was posted. */
    method Wake() returns (leaves: bool, detection: nat, captured: bool, image: Image)
      ensures leaves == View().ready
      ensures leaves ==> View() == Mailbox(true, detection, captured, image)
      ensures forall d, c, i :: View() == Filled(d, c, i) ==>
        leaves && detection == d && captured == c && (c ==> image == i)
    {
      leaves := dataReady;
      detection, captured, image := detectionTimestampNs, this.captured, this.image;
    }
  }

  datatype Latency = NotCaptured | Measured(ns: nat) | Invalid

  /** The camera task once its snapshot has returned: a latency is reported exactly
      for an image whose first byte does not precede the accident's start, and the
      mail says what was captured. */
  method ReportCapture(args: StorageArgs, latencyStart: nat, detection: nat, result: CallResult)
    returns (latency: Latency)
    requires !result.KeepsWaiting?
    modifies args
    ensures args.View() == Filled(detection, result.Captured?,
                                  if result.Captured? then result.image else NO_IMAGE)
    ensures match latency
      case NotCaptured => result.Failed?
      case Measured(ns) => result.Captured? && latencyStart + ns == result.image.firstByteNs
      case Invalid => result.Captured? && result.image.firstByteNs < latencyStart
  {
    if result.Captured? {
      var image := result.image;
      latency := if image.firstByteNs >= latencyStart
        then Measured(image.firstByteNs - latencyStart) else Invalid;
      args.Post(detection, true, image);
    } else {
      latency := NotCaptured;
      args.Post(detection, false, NO_IMAGE);
    }
  }
}
