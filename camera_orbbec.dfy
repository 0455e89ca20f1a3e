/**
 * The Orbbec camera driver: choose a colour stream profile, start the vendor pipeline,
 * turn colour frames into 3-channel images (with optional BGR order and rotation), and
 * keep the latest image in a mailbox whose new-frame flag is never cleared.
 *
 * The vendor SDK is replaced by its answers: whether it is installed, how many devices
 * it sees, the colour profiles it offers, whether the pipeline starts, and the frame
 * sets it delivers. OpenCV colour conversions and rotations are recorded symbolically.
 */
module CameraOrbbec {
  import opened Wrappers
  import opened FrameMailbox

  type byte = bv8

  /** The configured rotation; the quarter turns are 90 degrees either way. */
  datatype Rotation = NoRotation | Rotate90 | Rotate180 | Rotate270

  predicate QuarterTurn(r: Rotation) {
    r == Rotate90 || r == Rotate270
  }

  datatype ColorMode = RGB | BGR

  datatype PixelFormat = FormatRGB | FormatYUYV | FormatOther(code: int)

  /** A colour stream profile the device offers. */
  datatype Profile = Profile(width: int, height: int, fps: int)

  /** The pixels of an image, with the conversions applied to them in order. */
  datatype Pixels =
    | Raw(data: seq<byte>)
    | FromYuyv(source: Pixels)
    | RgbToBgr(source: Pixels)
    | Rotated(source: Pixels, rotation: Rotation)

  /** An image of `rows x cols x channels`. */
  datatype Image = Image(rows: int, cols: int, channels: int, pixels: Pixels)

  /** What `wait_for_frames` delivered. */
  datatype FrameSet =
    | NoFrameset
    | NoColorFrame
    | ColorFrame(width: int, height: int, format: PixelFormat, data: seq<byte>)

  datatype OrbbecError =
    | AlreadyConnected  // DeviceAlreadyConnectedError
    | SdkMissing        // ImportError
    | ConnectFailed     // ConnectionError wrapping any failure inside connect
    | NotConnected      // DeviceNotConnectedError
    | NoFrames          // RuntimeError: no frame set
    | NoColor           // RuntimeError: no colour frame
    | ReshapeFailed     // ValueError from the reshape

  /** What the SDK answers during `connect`. */
  datatype Sdk = Sdk(installed: bool, deviceCount: int, profiles: seq<Profile>, startOk: bool, warmupOk: bool)

  /**
   * The capture size `__init__` derives: the configured size, swapped for a quarter
   * turn. Python sets it only when width and height are both non-zero.
   */
  function CaptureSize(width: int, height: int, rotation: Rotation): (size: Option<(int, int)>)
    ensures size.Some? <==> width != 0 && height != 0
    ensures size.Some? ==> (size.value == (height, width) <==> QuarterTurn(rotation) || width == height)
  {
    if width != 0 && height != 0 then
      if QuarterTurn(rotation) then Some((height, width)) else Some((width, height))
    else None
  }

  predicate Matches(p: Profile, width: int, height: int, fps: int) {
    p.width == width && p.height == height && p.fps == fps
  }

  /** The profile search loop of `connect`: the first profile that matches exactly. */
  method FindProfile(profiles: seq<Profile>, width: int, height: int, fps: int) returns (found: Option<nat>)
    ensures found.Some? ==> found.value < |profiles| && Matches(profiles[found.value], width, height, fps)
    ensures found.Some? ==> forall j :: 0 <= j < found.value ==> !Matches(profiles[j], width, height, fps)
    ensures found.None? ==> forall j :: 0 <= j < |profiles| ==> !Matches(profiles[j], width, height, fps)
  {
    for i := 0 to |profiles|
      invariant forall j :: 0 <= j < i ==> !Matches(profiles[j], width, height, fps)
    {
      if Matches(profiles[i], width, height, fps) {
        return Some(i);
      }
    }
    return None;
  }

  /** The image a colour frame gives before colour order and rotation. */
  function DecodeColor(width: int, height: int, format: PixelFormat, data: seq<byte>): (r: Result<Image, OrbbecError>)
    ensures r.Ok? ==> r.value.rows == height && r.value.cols == width && r.value.channels == 3
    ensures r.Ok? <==> |data| == height * width * (if format.FormatYUYV? then 2 else 3)
    ensures r.Ok? && !format.FormatYUYV? ==> r.value.pixels == Raw(data)
    ensures r.Ok? && format.FormatYUYV? ==> r.value.pixels == FromYuyv(Raw(data))
  {
    match format
    case FormatYUYV =>
      if |data| == height * width * 2 then Ok(Image(height, width, 3, FromYuyv(Raw(data)))) else Err(ReshapeFailed)
    case _ =>
      if |data| == height * width * 3 then Ok(Image(height, width, 3, Raw(data))) else Err(ReshapeFailed)
  }

  /** `cv2.rotate`: a quarter turn exchanges rows and columns. */
  function Rotate(img: Image, rotation: Rotation): (r: Image)
    ensures QuarterTurn(rotation) ==> r.rows == img.cols && r.cols == img.rows
    ensures !QuarterTurn(rotation) ==> r.rows == img.rows && r.cols == img.cols
    ensures r.channels == img.channels
  {
    var (rows, cols) := if QuarterTurn(rotation) then (img.cols, img.rows) else (img.rows, img.cols);
    Image(rows, cols, img.channels, Rotated(img.pixels, rotation))
  }

  /**
   * What `read` does with a frame set: check it, decode by format, swap to BGR when
   * the effective colour mode asks for it, then rotate unless there is no rotation.
   */
  function ConvertFrame(fs: FrameSet, mode: ColorMode, rotation: Rotation): (r: Result<Image, OrbbecError>)
    ensures fs.NoFrameset? ==> r == Err(NoFrames)
    ensures fs.NoColorFrame? ==> r == Err(NoColor)
    ensures fs.ColorFrame? ==> (r.Ok? <==> DecodeColor(fs.width, fs.height, fs.format, fs.data).Ok?)
    ensures r.Ok? ==> r.value.channels == 3
  {
    match fs
    case NoFrameset => Err(NoFrames)
    case NoColorFrame => Err(NoColor)
    case ColorFrame(w, h, format, data) =>
      match DecodeColor(w, h, format, data)
      case Err(e) => Err(e)
      case Ok(img) =>
        var ordered := if mode == BGR then Image(img.rows, img.cols, 3, RgbToBgr(img.pixels)) else img;
        Ok(if rotation == NoRotation then ordered else Rotate(ordered, rotation))
  }

  /**
   * A frame delivered at the configured size comes out of `read` with the capture size
   * `__init__` computed: `rows x cols == capture_height x capture_width`.
   */
  lemma ReadShapeIsCaptureSize(width: int, height: int, rotation: Rotation, mode: ColorMode,
                               format: PixelFormat, data: seq<byte>)
    requires width != 0 && height != 0
    requires |data| == height * width * (if format.FormatYUYV? then 2 else 3)
    ensures var r := ConvertFrame(ColorFrame(width, height, format, data), mode, rotation);
      r.Ok? && (r.value.cols, r.value.rows) == CaptureSize(width, height, rotation).value
  {
  }

  class OrbbecCamera {
    var width: int
    var height: int
    var fps: int
    const deviceIndex: int
    const colorMode: ColorMode
    const rotation: Rotation
    const useDepth: bool
    const captureSize: Option<(int, int)>

    var hasContext: bool
    var hasPipeline: bool
    var hasConfig: bool
    /** The colour profile enabled on the pipeline configuration. */
    var stream: Option<Profile>
    var hasThread: bool
    var threadAlive: bool
    var stopEvent: Option<bool>
    var latestFrame: Option<Image>
    var newFrame: bool

    ghost predicate Valid()
      reads this
    {
      (hasPipeline ==> hasContext && hasConfig && stream.Some?)
      && (threadAlive ==> hasThread)
      && (hasThread ==> stopEvent.Some?)
      && (newFrame ==> latestFrame.Some?)
    }

    function Mailbox(): Slot<Image>
      reads this
    {
      Slot(latestFrame, newFrame)
    }

    /** `is_connected`: the pipeline exists. */
    predicate IsConnected()
      reads this
    {
      hasPipeline
    }

    constructor (width: int := 640, height: int := 480, fps: int := 30, deviceIndex: int := 0,
                 colorMode: ColorMode := RGB, rotation: Rotation := NoRotation, useDepth: bool := false)
      ensures Valid() && !IsConnected() && !hasContext && !hasConfig && stream == None
      ensures this.width == width && this.height == height && this.fps == fps
      ensures this.deviceIndex == deviceIndex && this.colorMode == colorMode
      ensures this.rotation == rotation && this.useDepth == useDepth
      ensures captureSize == CaptureSize(width, height, rotation)
      ensures !hasThread && stopEvent == None && Mailbox() == Slot(None, false)
    {
      this.width := width;
      this.height := height;
      this.fps := fps;
      this.deviceIndex := deviceIndex;
      this.colorMode := colorMode;
      this.rotation := rotation;
      this.useDepth := useDepth;
      captureSize := CaptureSize(width, height, rotation);
      hasContext := false;
      hasPipeline := false;
      hasConfig := false;
      stream := None;
      hasThread := false;
      threadAlive := false;
      stopEvent := None;
      latestFrame := None;
      newFrame := false;
    }

    /**
     * `connect`: refuse when connected or when the SDK is missing; otherwise find the
     * device, pick the first exactly matching colour profile or fall back to profile 0
     * (adopting its size and rate), start the pipeline and warm up. Any failure past
     * the SDK check drops pipeline and context and becomes `ConnectionError`; the
     * configuration object and an adopted size stay.
     */
    method Connect(sdk: Sdk, warmup: bool) returns (r: Result<(), OrbbecError>)
      requires Valid()
      modifies this`width, this`height, this`fps, this`hasContext, this`hasPipeline, this`hasConfig, this`stream
      ensures Valid()
      ensures old(IsConnected()) ==> r == Err(AlreadyConnected) && hasPipeline && width == old(width)
      ensures !old(IsConnected()) && !sdk.installed ==> r == Err(SdkMissing) && !hasPipeline && hasContext == old(hasContext)
      ensures r.Ok? <==>
        (!old(IsConnected()) && sdk.installed && sdk.deviceCount != 0 && deviceIndex < sdk.deviceCount
         && sdk.profiles != [] && sdk.startOk && (warmup ==> sdk.warmupOk))
      ensures r.Ok? ==> IsConnected() && hasContext && stream.Some?
      ensures r.Ok? ==> (width, height, fps) == (stream.value.width, stream.value.height, stream.value.fps)
      ensures r.Ok? && (exists j :: 0 <= j < |sdk.profiles| && Matches(sdk.profiles[j], old(width), old(height), old(fps))) ==>
        (width, height, fps) == (old(width), old(height), old(fps))
      ensures r.Ok? && (forall j :: 0 <= j < |sdk.profiles| ==> !Matches(sdk.profiles[j], old(width), old(height), old(fps))) ==>
        stream == Some(sdk.profiles[0])
      ensures r.Err? && r != Err(AlreadyConnected) ==> !hasPipeline
      ensures r == Err(ConnectFailed) ==> !hasContext
    {
      if IsConnected() {
        return Err(AlreadyConnected);
      }
      if !sdk.installed {
        return Err(SdkMissing);
      }
      hasContext := true;
      if sdk.deviceCount == 0 || deviceIndex >= sdk.deviceCount {
        hasPipeline := false;
        hasContext := false;
        return Err(ConnectFailed);
      }
      hasConfig := true;
      if sdk.profiles == [] {
        hasPipeline := false;
        hasContext := false;
        return Err(ConnectFailed);
      }
      var found := FindProfile(sdk.profiles, width, height, fps);
      var chosen: Profile;
      if found.Some? {
        chosen := sdk.profiles[found.value];
      } else {
        chosen := sdk.profiles[0];
        width := chosen.width;
        height := chosen.height;
        fps := chosen.fps;
      }
      stream := Some(chosen);
      if !sdk.startOk || (warmup && !sdk.warmupOk) {
        hasPipeline := false;
        hasContext := false;
        return Err(ConnectFailed);
      }
      hasPipeline := true;
      return Ok(());
    }

    /** `read`: the effective colour mode is the temporary one when given. */
    function Read(temporaryMode: Option<ColorMode>, fs: FrameSet): (r: Result<Image, OrbbecError>)
      reads this
      ensures !IsConnected() ==> r == Err(NotConnected)
      ensures IsConnected() ==> r == ConvertFrame(fs, temporaryMode.GetOr(colorMode), rotation)
      ensures r.Ok? ==> IsConnected() && r.value.channels == 3
    {
      if !IsConnected() then Err(NotConnected)
      else ConvertFrame(fs, temporaryMode.GetOr(colorMode), rotation)
    }

    /** `read_depth`: depth capture is not implemented, with or without `use_depth`. */
    function ReadDepth(): (depth: Option<Image>)
      reads this
      ensures depth.None?
    {
      None
    }

    /** `_start_async_thread`: nothing when a reader runs; else a new event and reader. */
    method StartAsyncThread()
      requires Valid()
      modifies this`hasThread, this`threadAlive, this`stopEvent
      ensures Valid() && hasThread && threadAlive
      ensures old(hasThread && threadAlive) ==> stopEvent == old(stopEvent)
      ensures !old(hasThread && threadAlive) ==> stopEvent == Some(false)
    {
      if hasThread && threadAlive {
        return;
      }
      stopEvent := Some(false);
      hasThread := true;
      threadAlive := true;
    }

    /** The reader thread ends on its own. */
    method ThreadEnds()
      modifies this`threadAlive
      ensures !threadAlive
    {
      threadAlive := false;
    }

    /**
     * `async_read`: there is no connection check. Make sure a reader runs, wait for the
     * flag, and return the latest image; the flag stays raised. `NoNewFrame` stands for
     * the wait that never returns because nothing was ever published.
     */
    method AsyncRead() returns (r: Outcome<Image>)
      requires Valid()
      modifies this`hasThread, this`threadAlive, this`stopEvent
      ensures Valid() && hasThread && threadAlive && Mailbox() == old(Mailbox())
      ensures r == Consume(Mailbox(), false).0
      ensures newFrame ==> r == Got(latestFrame.value)
      ensures !newFrame ==> r == NoNewFrame
    {
      if !hasThread || !threadAlive {
        StartAsyncThread();
      }
      r := Consume(Mailbox(), false).0;
    }

    /**
     * `_async_loop` over the given frame sets: every read is attempted until the stop
     * event is set, whatever error the previous one raised (a disconnected camera
     * included); every image read is published.
     */
    method AsyncLoop(frames: seq<FrameSet>) returns (attempts: nat)
      requires Valid()
      modifies this`latestFrame, this`newFrame
      ensures Valid()
      ensures stopEvent == Some(false) ==> attempts == |frames|
      ensures stopEvent != Some(false) ==> attempts == 0 && Mailbox() == old(Mailbox())
      ensures stopEvent == Some(false) ==>
        Mailbox() == After(old(Mailbox()), PublishedImages(this, frames), false)
      ensures !IsConnected() ==> Mailbox() == old(Mailbox())
    {
      attempts := 0;
      while attempts < |frames| && stopEvent == Some(false)
        invariant 0 <= attempts <= |frames| && Valid()
        invariant stopEvent != Some(false) ==> attempts == 0
        invariant Mailbox() == After(old(Mailbox()), PublishedImages(this, frames[..attempts]), false)
        invariant !IsConnected() ==> Mailbox() == old(Mailbox())
      {
        assert frames[..attempts + 1][..attempts] == frames[..attempts];
        var res := Read(None, frames[attempts]);
        if res.Ok? {
          latestFrame := Some(res.value);
          newFrame := true;
        }
        attempts := attempts + 1;
      }
      assert stopEvent == Some(false) ==> frames[..attempts] == frames;
      assert frames[..0] == [];
    }

    /**
     * `disconnect`: nothing at all when not connected; otherwise signal and drop the
     * reader, then drop pipeline, context and configuration. The stop event stays set.
     */
    method Disconnect()
      requires Valid()
      modifies this`hasThread, this`threadAlive, this`stopEvent, this`hasPipeline, this`hasContext,
        this`hasConfig, this`stream
      ensures Valid()
      ensures !old(IsConnected()) ==>
        hasThread == old(hasThread) && threadAlive == old(threadAlive) && stopEvent == old(stopEvent)
        && !hasPipeline && hasContext == old(hasContext) && hasConfig == old(hasConfig) && stream == old(stream)
      ensures old(IsConnected()) ==>
        !hasThread && !threadAlive && !hasPipeline && !hasContext && !hasConfig && stream == None
        && stopEvent == (if old(hasThread) then Some(true) else old(stopEvent))
    {
      if !IsConnected() {
        return;
      }
      if hasThread {
        stopEvent := Some(true);
        hasThread := false;
        threadAlive := false;
      }
      hasPipeline := false;
      hasContext := false;
      hasConfig := false;
      stream := None;
    }
  }

  /** The publications of a run of the async loop: one `Put` per frame set read in full. */
  function PublishedImages(cam: OrbbecCamera, frames: seq<FrameSet>): (events: seq<Event<Image>>)
    reads cam
    ensures forall k :: 0 <= k < |events| ==> events[k].Put?
    ensures !cam.IsConnected() ==> events == []
  {
    if frames == [] then []
    else
      var rest := PublishedImages(cam, frames[..|frames| - 1]);
      match cam.Read(None, frames[|frames| - 1])
      case Ok(img) => rest + [Put(img)]
      case Err(_) => rest
  }
}
