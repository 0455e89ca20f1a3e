/**
 * The FFmpeg camera: an `ffmpeg` child process writes raw `rgb24` frames to a pipe; a
 * background reader publishes each complete frame into a single-slot mailbox from
 * which `async_read` takes it.
 *
 * The child process, its pipe and the reader thread are replaced by their observable
 * states; what a pipe read returns is an input of the read.
 */
module CameraFfmpeg {
  import opened Wrappers
  import opened FrameMailbox

  type byte = bv8

  /** A frame as `read` returns it: the raw bytes viewed as `height x width x 3`. */
  datatype Frame = Frame(height: int, width: int, channels: int, pixels: seq<byte>)

  datatype CameraError =
    | AlreadyConnected           // DeviceAlreadyConnectedError
    | NotConnected               // DeviceNotConnectedError
    | StartFailed                // ConnectionError: the process could not be started
    | UnsupportedPixelFormat     // ValueError from connect
    | ReadFailed                 // RuntimeError: the pipe read raised
    | IncompleteFrame(got: int, expected: int) // RuntimeError: short read
    | ReshapeFailed              // ValueError from the reshape
    | Timeout(threadAlive: bool) // TimeoutError, naming whether the reader is alive
    | NoFrameAvailable           // RuntimeError: flag set without a frame

  /** What one `stdout.read(frame_size)` on the pipe gives back. */
  datatype PipeRead = Bytes(data: seq<byte>) | PipeError

  datatype ProcessState = NoProcess | Running | Exited

  /** `width * height * 3` bytes per `rgb24` frame. */
  function FrameSize(width: int, height: int): int {
    width * height * 3
  }

  /** The part of `read` after the connection check: length check, then reshape. */
  function DecodeFrame(frameSize: int, height: int, width: int, r: PipeRead): (res: Result<Frame, CameraError>)
    ensures res.Ok? <==> r.Bytes? && |r.data| == frameSize && |r.data| == height * width * 3
    ensures res.Ok? ==> res.value == Frame(height, width, 3, r.data)
    ensures r.PipeError? ==> res == Err(ReadFailed)
    ensures r.Bytes? && |r.data| != frameSize ==> res == Err(IncompleteFrame(|r.data|, frameSize))
  {
    match r
    case PipeError => Err(ReadFailed)
    case Bytes(data) =>
      if |data| != frameSize then Err(IncompleteFrame(|data|, frameSize))
      else if |data| != height * width * 3 then Err(ReshapeFailed)
      else Ok(Frame(height, width, 3, data))
  }

  /** Once the frame size is set from this width and height, a full read always reshapes. */
  lemma FullReadReshapes(width: int, height: int, data: seq<byte>)
    requires |data| == FrameSize(width, height)
    ensures DecodeFrame(FrameSize(width, height), height, width, Bytes(data)) == Ok(Frame(height, width, 3, data))
  {
  }

  class FFmpegCamera {
    const width: int
    const height: int
    const fps: int
    const pixelFormat: string

    var process: ProcessState
    var frameSize: int
    /** Whether a reader thread object is held, and whether it is running. */
    var hasThread: bool
    var threadAlive: bool
    /** `stop_event`: None, or an event that is set or not. */
    var stopEvent: Option<bool>
    var latestFrame: Option<Frame>
    var newFrame: bool

    ghost predicate Valid()
      reads this
    {
      (frameSize == 0 || frameSize == FrameSize(width, height))
      && (threadAlive ==> hasThread)
      && (hasThread <==> stopEvent.Some?)
      && (newFrame ==> latestFrame.Some?)
    }

    function Mailbox(): Slot<Frame>
      reads this
    {
      Slot(latestFrame, newFrame)
    }

    /** `is_connected`: a process exists and has not exited. */
    predicate IsConnected()
      reads this
    {
      process == Running
    }

    constructor (width: int := 640, height: int := 480, fps: int := 30, pixelFormat: string := "rgb24")
      ensures Valid() && !IsConnected() && process == NoProcess && frameSize == 0
      ensures this.width == width && this.height == height && this.fps == fps
      ensures this.pixelFormat == pixelFormat
      ensures !hasThread && stopEvent == None && Mailbox() == Slot(None, false)
    {
      this.width := width;
      this.height := height;
      this.fps := fps;
      this.pixelFormat := pixelFormat;
      process := NoProcess;
      frameSize := 0;
      hasThread := false;
      threadAlive := false;
      stopEvent := None;
      latestFrame := None;
      newFrame := false;
    }

    /** The child process exits on its own (end of stream, device error). */
    method ProcessExits()
      modifies this`process
      ensures process == if old(process) == Running then Exited else old(process)
    {
      if process == Running {
        process := Exited;
      }
    }

    /** The reader thread ends on its own. */
    method ThreadEnds()
      modifies this`threadAlive
      ensures !threadAlive
    {
      threadAlive := false;
    }

    /**
     * `connect`: refuse when connected; start the process (`spawnOk` says whether that
     * works); then fix the frame size, which only `rgb24` supports. The pixel-format
     * check comes after the start, so an unsupported format leaves a running process.
     */
    method Connect(spawnOk: bool) returns (r: Result<(), CameraError>)
      requires Valid()
      modifies this`process, this`frameSize
      ensures Valid()
      ensures old(IsConnected()) ==> r == Err(AlreadyConnected) && process == old(process) && frameSize == old(frameSize)
      ensures !old(IsConnected()) && !spawnOk ==>
        r == Err(StartFailed) && process == old(process) && frameSize == old(frameSize)
      ensures !old(IsConnected()) && spawnOk ==> IsConnected()
      ensures !old(IsConnected()) && spawnOk && pixelFormat == "rgb24" ==>
        r == Ok(()) && frameSize == FrameSize(width, height)
      ensures !old(IsConnected()) && spawnOk && pixelFormat != "rgb24" ==>
        r == Err(UnsupportedPixelFormat) && frameSize == old(frameSize)
    {
      if IsConnected() {
        return Err(AlreadyConnected);
      }
      if !spawnOk {
        return Err(StartFailed);
      }
      process := Running;
      if pixelFormat == "rgb24" {
        frameSize := FrameSize(width, height);
      } else {
        return Err(UnsupportedPixelFormat);
      }
      return Ok(());
    }

    /** `read`: one blocking frame read from the pipe. */
    function Read(r: PipeRead): (res: Result<Frame, CameraError>)
      reads this
      requires Valid()
      ensures !IsConnected() ==> res == Err(NotConnected)
      ensures IsConnected() && frameSize == FrameSize(width, height) ==>
        (res.Ok? <==> r.Bytes? && |r.data| == frameSize)
      ensures res.Ok? ==>
        IsConnected() && r.Bytes? && res.value.pixels == r.data && |r.data| == frameSize
        && res.value.height == height && res.value.width == width && res.value.channels == 3
    {
      if !IsConnected() then Err(NotConnected)
      else DecodeFrame(frameSize, height, width, r)
    }

    /**
     * `_read_loop`, run to the end of the given pipe reads: stop when the stop event is
     * set or the camera is not connected; publish every frame read; carry on after
     * any other read error.
     */
    method ReadLoop(chunks: seq<PipeRead>)
      requires Valid()
      modifies this`latestFrame, this`newFrame
      ensures Valid()
      ensures !IsConnected() || stopEvent != Some(false) ==> Mailbox() == old(Mailbox())
      ensures IsConnected() && stopEvent == Some(false) ==>
        Mailbox() == After(old(Mailbox()), Published(frameSize, height, width, chunks), true)
    {
      var i := 0;
      ghost var events: seq<Event<Frame>> := [];
      while i < |chunks| && stopEvent == Some(false)
        invariant 0 <= i <= |chunks| && Valid()
        invariant IsConnected() ==> events == Published(frameSize, height, width, chunks[..i])
        invariant IsConnected() ==> Mailbox() == After(old(Mailbox()), events, true)
        invariant !IsConnected() ==> Mailbox() == old(Mailbox())
        invariant stopEvent != Some(false) ==> i == 0
      {
        var res := Read(chunks[i]);
        if res == Err(NotConnected) {
          break;
        }
        assert chunks[..i + 1][..i] == chunks[..i];
        if res.Ok? {
          latestFrame := Some(res.value);
          newFrame := true;
          events := events + [Put(res.value)];
        }
        i := i + 1;
      }
      if IsConnected() && stopEvent == Some(false) {
        assert i == |chunks|;
        assert chunks[..i] == chunks;
      } else if IsConnected() {
        assert chunks[..0] == [];
      }
    }

    /** `_start_read_thread`: set any old stop event, then a fresh event and a running reader. */
    method StartReadThread()
      modifies this`hasThread, this`threadAlive, this`stopEvent
      ensures hasThread && threadAlive && stopEvent == Some(false)
    {
      hasThread := true;
      threadAlive := true;
      stopEvent := Some(false);
    }

    /** `_stop_read_thread`: signal and join the reader, then drop thread and event. */
    method StopReadThread()
      modifies this`hasThread, this`threadAlive, this`stopEvent
      ensures !hasThread && !threadAlive && stopEvent == None
    {
      if stopEvent.Some? {
        stopEvent := Some(true);
      }
      hasThread := false;
      threadAlive := false;
      stopEvent := None;
    }

    /**
     * `async_read`: refuse when not connected; make sure a reader runs; then take the
     * frame from the mailbox, clearing the flag, or time out when no new frame is there.
     * `aliveAfterWait` is whether the reader still runs once the wait is over: it ends
     * during the wait when the process goes away. The timeout reports that liveness.
     */
    method AsyncRead(aliveAfterWait: bool) returns (r: Result<Frame, CameraError>)
      requires Valid()
      modifies this`hasThread, this`threadAlive, this`stopEvent, this`newFrame
      ensures Valid() && latestFrame == old(latestFrame)
      ensures !old(IsConnected()) ==>
        r == Err(NotConnected) && Mailbox() == old(Mailbox())
        && hasThread == old(hasThread) && threadAlive == old(threadAlive) && stopEvent == old(stopEvent)
      ensures old(IsConnected()) ==>
        hasThread
        && (old(threadAlive) ==> stopEvent == old(stopEvent))
        && Mailbox() == Consume(old(Mailbox()), true).1
      ensures old(IsConnected()) && !old(newFrame) ==>
        r == Err(Timeout(aliveAfterWait)) && threadAlive == aliveAfterWait
      ensures old(IsConnected()) && old(newFrame) ==> r == Ok(old(latestFrame).value) && threadAlive
    {
      if !IsConnected() {
        return Err(NotConnected);
      }
      if !hasThread || !threadAlive {
        StartReadThread();
      }
      var (outcome, after) := Consume(Mailbox(), true);
      if outcome == NoNewFrame {
        threadAlive := aliveAfterWait;
        return Err(Timeout(threadAlive));
      }
      newFrame := after.raised;
      match outcome
      case Got(frame) =>
        r := Ok(frame);
      case _ =>
        r := Err(NoFrameAvailable);
    }

    /**
     * `disconnect`: refuse when there is neither a running process nor a thread; stop
     * the reader if there is one; end and drop the process if there is one.
     */
    method Disconnect() returns (r: Result<(), CameraError>)
      requires Valid()
      modifies this`process, this`hasThread, this`threadAlive, this`stopEvent
      ensures Valid()
      ensures !old(IsConnected()) && !old(hasThread) ==>
        r == Err(NotConnected) && process == old(process) && stopEvent == old(stopEvent)
      ensures old(IsConnected()) || old(hasThread) ==>
        r == Ok(()) && process == NoProcess && !hasThread && !threadAlive && stopEvent == None
    {
      if !IsConnected() && !hasThread {
        return Err(NotConnected);
      }
      if hasThread {
        StopReadThread();
      }
      if process != NoProcess {
        process := NoProcess;
      }
      return Ok(());
    }
  }

  /** The publications a run of the reader makes: one `Put` per frame it reads in full. */
  function Published(frameSize: int, height: int, width: int, chunks: seq<PipeRead>): (events: seq<Event<Frame>>)
    ensures forall k :: 0 <= k < |events| ==> events[k].Put?
    ensures |events| <= |chunks|
  {
    if chunks == [] then []
    else
      var rest := Published(frameSize, height, width, chunks[..|chunks| - 1]);
      match DecodeFrame(frameSize, height, width, chunks[|chunks| - 1])
      case Ok(f) => rest + [Put(f)]
      case Err(_) => rest
  }
}
