/** Writing one captured video frame to an image file through the platform's imaging
    codecs. The codec calls are foreign: each step's HRESULT is given by the oracle `hr`,
    and the model records the calls made and the handles released. */
module ImageWriter {
  import opened Wrappers
  import CaptureStills

  // HRESULT values, read as signed 32-bit integers.
  const S_OK := 0
  const E_FAIL := -2147467259        // 0x80004005
  const E_OUTOFMEMORY := -2147024882 // 0x8007000E

  predicate Failed(hr: int) { hr < 0 }

  // ---------------------------------------------------------------------------
  // Output path

  /** A timestamp as the "%Y%m%d%H%M%S" format renders it: fourteen decimal digits. */
  predicate IsTimestamp(ts: string) {
    |ts| == 14 && forall i :: 0 <= i < |ts| ==> '0' <= ts[i] <= '9'
  }

  /** The file path of a snapshot taken at `timestamp`. */
  function GetFilepath(path: string, prefix: string, extension: string, timestamp: string): string {
    path + "\\" + prefix + timestamp + "." + extension
  }

  /** The timestamp part of a file path built for `path`, `prefix` and `extension`. */
  function TimestampOf(filepath: string, path: string, prefix: string, extension: string): string
    requires |path| + 1 + |prefix| + 1 + |extension| <= |filepath|
  {
    filepath[|path| + 1 + |prefix| .. |filepath| - |extension| - 1]
  }

  /** The file path starts with the directory and a backslash, continues with the prefix,
      and ends with a dot and the extension; the timestamp can be read back from it, so
      snapshots taken at different timestamps never share a path. With a rendered
      timestamp the path is 16 characters longer than its three other parts. */
  lemma GetFilepathParts(path: string, prefix: string, extension: string, timestamp: string)
    ensures var r := GetFilepath(path, prefix, extension, timestamp);
      && r[..|path| + 1] == path + "\\"
      && r[|path| + 1 .. |path| + 1 + |prefix|] == prefix
      && r[|r| - |extension| - 1 ..] == "." + extension
      && TimestampOf(r, path, prefix, extension) == timestamp
      && (IsTimestamp(timestamp) ==> |r| == |path| + |prefix| + |extension| + 16)
  {
    var r := GetFilepath(path, prefix, extension, timestamp);
    assert r == (path + "\\") + prefix + timestamp + ("." + extension);
  }

  lemma GetFilepathInjective(path: string, prefix: string, extension: string, t1: string, t2: string)
    requires GetFilepath(path, prefix, extension, t1) == GetFilepath(path, prefix, extension, t2)
    ensures t1 == t2
  {
    GetFilepathParts(path, prefix, extension, t1);
    GetFilepathParts(path, prefix, extension, t2);
  }

  // ---------------------------------------------------------------------------
  // Encoders

  datatype Container = Bmp | Png | Tiff | Jpeg
  datatype WicPixelFormat = Bgr32 | Bgra32 | Bgr24

  /** The container and the bitmap pixel format used for each image format. */
  function EncoderFor(imageFormat: string): (r: Option<(Container, WicPixelFormat)>)
    ensures r.Some? <==> imageFormat in CaptureStills.SupportedImageFormats
  {
    if imageFormat == "bmp" then Some((Bmp, Bgr32))
    else if imageFormat == "png" then Some((Png, Bgra32))
    else if imageFormat == "tiff" then Some((Tiff, Bgra32))
    else if imageFormat == "jpeg" then Some((Jpeg, Bgr24))
    else None
  }

  /** The four supported formats map to four distinct containers; only bmp drops the
      alpha channel of the 32-bit layout and only jpeg uses a 24-bit layout. */
  lemma EncoderTable()
    ensures EncoderFor("bmp") == Some((Bmp, Bgr32))
    ensures EncoderFor("png") == Some((Png, Bgra32))
    ensures EncoderFor("tiff") == Some((Tiff, Bgra32))
    ensures EncoderFor("jpeg") == Some((Jpeg, Bgr24))
    ensures forall f, g ::
              f in CaptureStills.SupportedImageFormats && g in CaptureStills.SupportedImageFormats
              && EncoderFor(f).value.0 == EncoderFor(g).value.0
              ==> f == g
  {
  }

  // ---------------------------------------------------------------------------
  // Encoding a frame

  /** The parts of a captured frame the writer reads; `hasBytes` says whether the frame
      gave a buffer pointer. */
  datatype VideoFrame = VideoFrame(pixelFormat: CaptureStills.PixelFormat, hasBytes: bool,
                                   width: int, height: int, rowBytes: int)

  datatype Handle = FileStream | BitmapEncoder | BitmapFrame

  /** The codec calls of an encode, with the arguments the model tracks. */
  datatype Step =
    | CreateStream
    | InitializeFromFilename(filename: string)
    | CreateEncoder(container: Container)
    | InitializeEncoder
    | CreateNewFrame
    | InitializeFrame
    | SetSize(width: int, height: int)
    | SetPixelFormat(format: WicPixelFormat)
    | WritePixels(lineCount: int, stride: int, bufferSize: int)
    | CommitFrame
    | CommitEncoder

  /** The handle a successful step hands out. */
  function Acquires(step: Step): Option<Handle> {
    match step
    case CreateStream => Some(FileStream)
    case CreateEncoder(_) => Some(BitmapEncoder)
    case CreateNewFrame => Some(BitmapFrame)
    case _ => None
  }

  /** The fixed order of the encode steps. */
  function EncodeSteps(frame: VideoFrame, filename: string, container: Container, format: WicPixelFormat): seq<Step> {
    [ CreateStream, InitializeFromFilename(filename), CreateEncoder(container), InitializeEncoder,
      CreateNewFrame, InitializeFrame, SetSize(frame.width, frame.height), SetPixelFormat(format),
      WritePixels(frame.height, frame.rowBytes, frame.height * frame.rowBytes), CommitFrame, CommitEncoder ]
  }

  /** The writer's three handle variables, each either null or holding an object. */
  datatype Handles = Handles(frame: bool, encoder: bool, stream: bool)

  predicate IsHeld(held: Handles, h: Handle) {
    match h
    case BitmapFrame => held.frame
    case BitmapEncoder => held.encoder
    case FileStream => held.stream
  }

  /** A creating step sets its handle variable, to an object exactly when it succeeds. */
  function Acquire(held: Handles, step: Step, ok: bool): Handles {
    match step
    case CreateStream => held.(stream := ok)
    case CreateEncoder(_) => held.(encoder := ok)
    case CreateNewFrame => held.(frame := ok)
    case _ => held
  }

  /** Where an encode stands: the last HRESULT, the steps invoked and the handles held. */
  datatype Progress = Progress(result: int, invoked: seq<Step>, held: Handles)

  /** The state after invoking `step`. */
  function Next(p: Progress, step: Step, hr: Step -> int): Progress {
    Progress(hr(step), p.invoked + [step], Acquire(p.held, step, !Failed(hr(step))))
  }

  /** Running the steps from position `j` on: each step's HRESULT becomes the result, and
      the first failing one ends the run. */
  function RunFrom(steps: seq<Step>, j: nat, hr: Step -> int, p: Progress): Progress
    decreases |steps| - j
  {
    if j >= |steps| then p
    else
      var q := Next(p, steps[j], hr);
      if Failed(q.result) then q else RunFrom(steps, j + 1, hr, q)
  }

  /** One step of the run, unfolded. */
  lemma Advance(steps: seq<Step>, j: nat, step: Step, hr: Step -> int, p: Progress)
    requires j < |steps| && steps[j] == step
    ensures RunFrom(steps, j, hr, p)
            == if Failed(hr(step)) then Next(p, step, hr) else RunFrom(steps, j + 1, hr, Next(p, step, hr))
  {
  }

  /** The cleanup: release the frame, the encoder and the stream, each only if held. */
  function Cleanup(held: Handles): seq<Handle> {
    (if held.frame then [BitmapFrame] else [])
    + (if held.encoder then [BitmapEncoder] else [])
    + (if held.stream then [FileStream] else [])
  }

  /** What an encode did: the HRESULT it returns, the codec calls it made in order, and
      the handles it released afterwards, in order. */
  datatype WriteOutcome = WriteOutcome(result: int, invoked: seq<Step>, released: seq<Handle>)

  /** The specification of an encode: reject a frame that is not 8-bit BGRA before
      anything is created; fail with E_OUTOFMEMORY, holding nothing, on a frame without a
      buffer; otherwise run the steps until the first failure, return the last HRESULT,
      and release what is held. */
  function WriteSpec(frame: VideoFrame, filename: string, imageFormat: string, hr: Step -> int): WriteOutcome
    requires imageFormat in CaptureStills.SupportedImageFormats
  {
    if frame.pixelFormat != CaptureStills.Format8BitBGRA then WriteOutcome(E_FAIL, [], [])
    else if !frame.hasBytes then WriteOutcome(E_OUTOFMEMORY, [], [])
    else
      var enc := EncoderFor(imageFormat).value;
      var p := RunFrom(EncodeSteps(frame, filename, enc.0, enc.1), 0, hr, Progress(S_OK, [], Handles(false, false, false)));
      WriteOutcome(p.result, p.invoked, Cleanup(p.held))
  }

  // ---------------------------------------------------------------------------
  // What a run does

  /** A run from position `j` invokes the steps from `j` on in order, up to and including
      the first that fails (or to the end); every step before the last one invoked
      succeeded, and the result is the HRESULT of the last one invoked. */
  lemma {:induction false} RunFromResult(steps: seq<Step>, j: nat, hr: Step -> int, p: Progress)
    requires j < |steps|
    ensures var r := RunFrom(steps, j, hr, p);
            var n := |r.invoked| - |p.invoked|;
            && 0 < n <= |steps| - j
            && r.invoked == p.invoked + steps[j..j + n]
            && r.result == hr(steps[j + n - 1])
            && (forall i :: j <= i < j + n - 1 ==> !Failed(hr(steps[i])))
            && (j + n < |steps| ==> Failed(r.result))
    decreases |steps| - j
  {
    var q := Next(p, steps[j], hr);
    if !Failed(q.result) && j + 1 < |steps| {
      RunFromResult(steps, j + 1, hr, q);
      var r := RunFrom(steps, j + 1, hr, q);
      var n := |r.invoked| - |q.invoked|;
      assert steps[j..j + 1 + n] == [steps[j]] + steps[j + 1..j + 1 + n];
    }
  }

  /** The handles held are exactly those that a successful creating step among the
      invoked ones handed out. */
  ghost predicate TracksHandles(p: Progress, hr: Step -> int) {
    forall h :: IsHeld(p.held, h) <==>
      exists i :: 0 <= i < |p.invoked| && Acquires(p.invoked[i]) == Some(h) && !Failed(hr(p.invoked[i]))
  }

  /** No two steps create the same handle. */
  ghost predicate CreatesOnce(steps: seq<Step>) {
    forall i, k :: 0 <= i < k < |steps| && Acquires(steps[i]).Some? ==> Acquires(steps[i]) != Acquires(steps[k])
  }

  lemma NextTracksHandles(steps: seq<Step>, j: nat, hr: Step -> int, p: Progress)
    requires j < |steps| && CreatesOnce(steps) && p.invoked == steps[..j] && TracksHandles(p, hr)
    ensures TracksHandles(Next(p, steps[j], hr), hr)
  {
    var q := Next(p, steps[j], hr);
    assert q.invoked == steps[..j + 1];
    forall h
      ensures IsHeld(q.held, h) <==>
        exists i :: 0 <= i < |q.invoked| && Acquires(q.invoked[i]) == Some(h) && !Failed(hr(q.invoked[i]))
    {
      if Acquires(steps[j]) == Some(h) {
        forall i | 0 <= i < j ensures Acquires(q.invoked[i]) != Some(h) {
          assert q.invoked[i] == steps[i];
        }
      } else {
        assert IsHeld(q.held, h) == IsHeld(p.held, h);
        if exists i :: 0 <= i < |q.invoked| && Acquires(q.invoked[i]) == Some(h) && !Failed(hr(q.invoked[i])) {
          var i :| 0 <= i < |q.invoked| && Acquires(q.invoked[i]) == Some(h) && !Failed(hr(q.invoked[i]));
          assert i < j && p.invoked[i] == q.invoked[i];
        }
      }
    }
  }

  /** A run that starts from a state tracking its handles ends in one. */
  lemma {:induction false} RunFromTracksHandles(steps: seq<Step>, j: nat, hr: Step -> int, p: Progress)
    requires j <= |steps| && CreatesOnce(steps) && p.invoked == steps[..j] && TracksHandles(p, hr)
    ensures TracksHandles(RunFrom(steps, j, hr, p), hr)
    decreases |steps| - j
  {
    if j < |steps| {
      NextTracksHandles(steps, j, hr, p);
      var q := Next(p, steps[j], hr);
      if !Failed(q.result) {
        assert q.invoked == steps[..j + 1];
        RunFromTracksHandles(steps, j + 1, hr, q);
      }
    }
  }

  /** The cleanup releases each held handle once and nothing else. */
  lemma CleanupReleasesEachOnce(held: Handles)
    ensures forall h :: multiset(Cleanup(held))[h] == if IsHeld(held, h) then 1 else 0
  {
    var a := if held.frame then [BitmapFrame] else [];
    var b := if held.encoder then [BitmapEncoder] else [];
    var c := if held.stream then [FileStream] else [];
    assert Cleanup(held) == a + b + c;
    assert multiset(Cleanup(held)) == multiset(a) + multiset(b) + multiset(c);
    forall h ensures multiset(Cleanup(held))[h] == if IsHeld(held, h) then 1 else 0 {
      assert multiset(a)[h] == if held.frame && h == BitmapFrame then 1 else 0;
      assert multiset(b)[h] == if held.encoder && h == BitmapEncoder then 1 else 0;
      assert multiset(c)[h] == if held.stream && h == FileStream then 1 else 0;
    }
  }

  /** Every handle a writer call creates is released exactly once, whichever step failed,
      and no handle it did not create is released. */
  lemma WriteReleasesWhatItCreates(frame: VideoFrame, filename: string, imageFormat: string, hr: Step -> int)
    requires imageFormat in CaptureStills.SupportedImageFormats
    ensures var o := WriteSpec(frame, filename, imageFormat, hr);
            forall h :: multiset(o.released)[h] ==
              if exists i :: 0 <= i < |o.invoked| && Acquires(o.invoked[i]) == Some(h) && !Failed(hr(o.invoked[i]))
              then 1 else 0
  {
    var o := WriteSpec(frame, filename, imageFormat, hr);
    if frame.pixelFormat == CaptureStills.Format8BitBGRA && frame.hasBytes {
      var enc := EncoderFor(imageFormat).value;
      var steps := EncodeSteps(frame, filename, enc.0, enc.1);
      var p0 := Progress(S_OK, [], Handles(false, false, false));
      assert p0.invoked == steps[..0];
      RunFromTracksHandles(steps, 0, hr, p0);
      CleanupReleasesEachOnce(RunFrom(steps, 0, hr, p0).held);
    } else {
      CleanupReleasesEachOnce(Handles(false, false, false));
    }
  }

  /** Once the frame and its buffer are accepted, the encode steps run in their fixed
      order up to the first failure: no later step runs and the failing step's HRESULT
      is returned. Before that, a frame that is not 8-bit BGRA gives E_FAIL and a frame
      without a buffer E_OUTOFMEMORY, with no call made and nothing released. */
  lemma WriteStopsAtFirstFailure(frame: VideoFrame, filename: string, imageFormat: string, hr: Step -> int)
    requires imageFormat in CaptureStills.SupportedImageFormats
    ensures var o := WriteSpec(frame, filename, imageFormat, hr);
            var enc := EncoderFor(imageFormat).value;
            var steps := EncodeSteps(frame, filename, enc.0, enc.1);
            if frame.pixelFormat != CaptureStills.Format8BitBGRA then o == WriteOutcome(E_FAIL, [], [])
            else if !frame.hasBytes then o == WriteOutcome(E_OUTOFMEMORY, [], [])
            else
              && 0 < |o.invoked| <= |steps|
              && o.invoked == steps[..|o.invoked|]
              && o.result == hr(o.invoked[|o.invoked| - 1])
              && (forall i :: 0 <= i < |o.invoked| - 1 ==> !Failed(hr(o.invoked[i])))
              && (|o.invoked| < |steps| ==> Failed(o.result))
  {
    if frame.pixelFormat == CaptureStills.Format8BitBGRA && frame.hasBytes {
      var enc := EncoderFor(imageFormat).value;
      RunFromResult(EncodeSteps(frame, filename, enc.0, enc.1), 0, hr, Progress(S_OK, [], Handles(false, false, false)));
    }
  }

  lemma HeldByWitness(p: Progress, hr: Step -> int, i: nat, h: Handle)
    requires TracksHandles(p, hr) && i < |p.invoked|
    requires Acquires(p.invoked[i]) == Some(h) && !Failed(hr(p.invoked[i]))
    ensures IsHeld(p.held, h)
  {
  }

  /** A run from the start that ends in success invoked every step, and each succeeded. */
  lemma RunSucceededInvokesAll(steps: seq<Step>, hr: Step -> int, p0: Progress)
    requires 0 < |steps| && p0.invoked == [] && !Failed(RunFrom(steps, 0, hr, p0).result)
    ensures RunFrom(steps, 0, hr, p0).invoked == steps
    ensures forall i :: 0 <= i < |steps| ==> !Failed(hr(steps[i]))
  {
    RunFromResult(steps, 0, hr, p0);
    var r := RunFrom(steps, 0, hr, p0);
    var n := |r.invoked|;
    assert n == |steps|;
    assert r.invoked == steps[0..n];
  }

  /** So if the steps create the three handles, all three are held at the end. */
  lemma RunSucceeded(steps: seq<Step>, hr: Step -> int, iStream: nat, iEncoder: nat, iFrame: nat)
    requires iStream < |steps| && iEncoder < |steps| && iFrame < |steps| && CreatesOnce(steps)
    requires Acquires(steps[iStream]) == Some(FileStream)
    requires Acquires(steps[iEncoder]) == Some(BitmapEncoder)
    requires Acquires(steps[iFrame]) == Some(BitmapFrame)
    requires !Failed(RunFrom(steps, 0, hr, Progress(S_OK, [], Handles(false, false, false))).result)
    ensures var r := RunFrom(steps, 0, hr, Progress(S_OK, [], Handles(false, false, false)));
            r.invoked == steps && r.held == Handles(true, true, true)
  {
    var p0 := Progress(S_OK, [], Handles(false, false, false));
    RunSucceededInvokesAll(steps, hr, p0);
    var r := RunFrom(steps, 0, hr, p0);
    assert p0.invoked == steps[..0];
    RunFromTracksHandles(steps, 0, hr, p0);
    HeldByWitness(r, hr, iStream, FileStream);
    HeldByWitness(r, hr, iEncoder, BitmapEncoder);
    HeldByWitness(r, hr, iFrame, BitmapFrame);
  }

  /** A writer call that returns success has invoked all eleven steps and releases the
      frame, the encoder and the stream, in that order. */
  lemma WriteSuccessReleasesAll(frame: VideoFrame, filename: string, imageFormat: string, hr: Step -> int)
    requires imageFormat in CaptureStills.SupportedImageFormats
    requires !Failed(WriteSpec(frame, filename, imageFormat, hr).result)
    ensures var o := WriteSpec(frame, filename, imageFormat, hr);
            var enc := EncoderFor(imageFormat).value;
            && o.invoked == EncodeSteps(frame, filename, enc.0, enc.1)
            && o.released == [BitmapFrame, BitmapEncoder, FileStream]
  {
    var enc := EncoderFor(imageFormat).value;
    var steps := EncodeSteps(frame, filename, enc.0, enc.1);
    assert CreatesOnce(steps) by {
      forall i, k | 0 <= i < k < |steps| && Acquires(steps[i]).Some?
        ensures Acquires(steps[i]) != Acquires(steps[k])
      {
        assert i == 0 || i == 2 || i == 4;
      }
    }
    RunSucceeded(steps, hr, 0, 2, 4);
  }

  /** The pixels are written with the frame's height as the line count, its row length as
      the stride, and their product as the buffer size. */
  lemma WritePixelsBufferSize(frame: VideoFrame, filename: string, imageFormat: string, hr: Step -> int)
    requires imageFormat in CaptureStills.SupportedImageFormats
    ensures var o := WriteSpec(frame, filename, imageFormat, hr);
            forall i :: 0 <= i < |o.invoked| && o.invoked[i].WritePixels? ==>
              o.invoked[i] == WritePixels(frame.height, frame.rowBytes, frame.height * frame.rowBytes)
  {
    WriteStopsAtFirstFailure(frame, filename, imageFormat, hr);
  }

  /** The writer itself: reject a frame that is not 8-bit BGRA before anything is
      created, then with every failure jumping to the cleanup: check the frame's buffer,
      open the encoder, prepare a bitmap frame and write it; finally release whatever is
      held. The source leaves the encoder unset for a format outside the supported list
      and then calls through it, so such a format is excluded; callers validate it first. */
  method WriteVideoFrameToImage(videoFrame: VideoFrame, imgFilename: string, imageFormat: string, hr: Step -> int)
    returns (result: int, invoked: seq<Step>, released: seq<Handle>)
    requires imageFormat in CaptureStills.SupportedImageFormats
    ensures WriteOutcome(result, invoked, released) == WriteSpec(videoFrame, imgFilename, imageFormat, hr)
  {
    if videoFrame.pixelFormat != CaptureStills.Format8BitBGRA {
      return E_FAIL, [], [];
    }
    var (container, pixelFormat) := EncoderFor(imageFormat).value;
    var fileStream, bitmapEncoder, bitmapFrame := false, false, false;
    invoked := [];
    label bail: {
      if !videoFrame.hasBytes {
        result := E_OUTOFMEMORY;
        break bail;
      }
      result, invoked, fileStream, bitmapEncoder := OpenEncoder(videoFrame, imgFilename, container, pixelFormat, hr);
      if Failed(result) { break bail; }
      result, invoked, bitmapFrame := PrepareFrame(videoFrame, imgFilename, container, pixelFormat, hr, result, invoked);
      if Failed(result) { break bail; }
      result, invoked := WriteFrame(videoFrame, imgFilename, container, pixelFormat, hr, result, invoked);
    }
    released := ReleaseHandles(bitmapFrame, bitmapEncoder, fileStream);
  }

  /** Steps 0 to 3: create the file stream, open it for writing, create the encoder for
      the container and attach it to the stream. On success both the stream and the
      encoder are held and the run goes on from step 4. */
  method OpenEncoder(videoFrame: VideoFrame, imgFilename: string, container: Container, pixelFormat: WicPixelFormat, hr: Step -> int)
    returns (result: int, invoked: seq<Step>, fileStream: bool, bitmapEncoder: bool)
    ensures var steps := EncodeSteps(videoFrame, imgFilename, container, pixelFormat);
            var p := Progress(result, invoked, Handles(false, bitmapEncoder, fileStream));
            RunFrom(steps, 0, hr, Progress(S_OK, [], Handles(false, false, false)))
            == if Failed(result) then p else RunFrom(steps, 4, hr, p)
    ensures !Failed(result) ==> fileStream && bitmapEncoder
  {
    ghost var steps := EncodeSteps(videoFrame, imgFilename, container, pixelFormat);
    ghost var goal := RunFrom(steps, 0, hr, Progress(S_OK, [], Handles(false, false, false)));
    fileStream, bitmapEncoder := false, false;
    invoked := [];
    result := S_OK;
    label bail: {
      Advance(steps, 0, CreateStream, hr, Progress(result, invoked, Handles(false, bitmapEncoder, fileStream)));
      result := hr(CreateStream);
      invoked := invoked + [CreateStream];
      fileStream := !Failed(result);
      if Failed(result) {
        assert goal == Progress(result, invoked, Handles(false, bitmapEncoder, fileStream));
        break bail;
      }
      Advance(steps, 1, InitializeFromFilename(imgFilename), hr, Progress(result, invoked, Handles(false, bitmapEncoder, fileStream)));
      result := hr(InitializeFromFilename(imgFilename));
      invoked := invoked + [InitializeFromFilename(imgFilename)];
      if Failed(result) {
        assert goal == Progress(result, invoked, Handles(false, bitmapEncoder, fileStream));
        break bail;
      }
      Advance(steps, 2, CreateEncoder(container), hr, Progress(result, invoked, Handles(false, bitmapEncoder, fileStream)));
      result := hr(CreateEncoder(container));
      invoked := invoked + [CreateEncoder(container)];
      bitmapEncoder := !Failed(result);
      if Failed(result) {
        assert goal == Progress(result, invoked, Handles(false, bitmapEncoder, fileStream));
        break bail;
      }
      Advance(steps, 3, InitializeEncoder, hr, Progress(result, invoked, Handles(false, bitmapEncoder, fileStream)));
      result := hr(InitializeEncoder);
      invoked := invoked + [InitializeEncoder];
    }
  }

  /** Steps 4 to 7, with the stream and the encoder held: create a bitmap frame,
      initialise it, and set its size and pixel format. On success the frame is held too
      and the run goes on from step 8. */
  method PrepareFrame(videoFrame: VideoFrame, imgFilename: string, container: Container, pixelFormat: WicPixelFormat, hr: Step -> int, result0: int, invoked0: seq<Step>)
    returns (result: int, invoked: seq<Step>, bitmapFrame: bool)
    ensures var steps := EncodeSteps(videoFrame, imgFilename, container, pixelFormat);
            var p := Progress(result, invoked, Handles(bitmapFrame, true, true));
            RunFrom(steps, 4, hr, Progress(result0, invoked0, Handles(false, true, true)))
            == if Failed(result) then p else RunFrom(steps, 8, hr, p)
    ensures !Failed(result) ==> bitmapFrame
  {
    ghost var steps := EncodeSteps(videoFrame, imgFilename, container, pixelFormat);
    ghost var goal := RunFrom(steps, 4, hr, Progress(result0, invoked0, Handles(false, true, true)));
    bitmapFrame := false;
    result, invoked := result0, invoked0;
    label bail: {
      Advance(steps, 4, CreateNewFrame, hr, Progress(result, invoked, Handles(bitmapFrame, true, true)));
      result := hr(CreateNewFrame);
      invoked := invoked + [CreateNewFrame];
      bitmapFrame := !Failed(result);
      if Failed(result) {
        assert goal == Progress(result, invoked, Handles(bitmapFrame, true, true));
        break bail;
      }
      Advance(steps, 5, InitializeFrame, hr, Progress(result, invoked, Handles(bitmapFrame, true, true)));
      result := hr(InitializeFrame);
      invoked := invoked + [InitializeFrame];
      if Failed(result) {
        assert goal == Progress(result, invoked, Handles(bitmapFrame, true, true));
        break bail;
      }
      Advance(steps, 6, SetSize(videoFrame.width, videoFrame.height), hr, Progress(result, invoked, Handles(bitmapFrame, true, true)));
      result := hr(SetSize(videoFrame.width, videoFrame.height));
      invoked := invoked + [SetSize(videoFrame.width, videoFrame.height)];
      if Failed(result) {
        assert goal == Progress(result, invoked, Handles(bitmapFrame, true, true));
        break bail;
      }
      Advance(steps, 7, SetPixelFormat(pixelFormat), hr, Progress(result, invoked, Handles(bitmapFrame, true, true)));
      result := hr(SetPixelFormat(pixelFormat));
      invoked := invoked + [SetPixelFormat(pixelFormat)];
    }
  }

  /** Steps 8 to 10, with all three handles held: copy the frame's pixels, whose buffer
      is its height times its row length, then commit the frame and the encoder. */
  method WriteFrame(videoFrame: VideoFrame, imgFilename: string, container: Container, pixelFormat: WicPixelFormat, hr: Step -> int, result0: int, invoked0: seq<Step>)
    returns (result: int, invoked: seq<Step>)
    ensures var steps := EncodeSteps(videoFrame, imgFilename, container, pixelFormat);
            RunFrom(steps, 8, hr, Progress(result0, invoked0, Handles(true, true, true)))
            == Progress(result, invoked, Handles(true, true, true))
  {
    ghost var steps := EncodeSteps(videoFrame, imgFilename, container, pixelFormat);
    ghost var goal := RunFrom(steps, 8, hr, Progress(result0, invoked0, Handles(true, true, true)));
    result, invoked := result0, invoked0;
    label bail: {
      var pixels := WritePixels(videoFrame.height, videoFrame.rowBytes, videoFrame.height * videoFrame.rowBytes);
      Advance(steps, 8, pixels, hr, Progress(result, invoked, Handles(true, true, true)));
      result := hr(pixels);
      invoked := invoked + [pixels];
      if Failed(result) {
        assert goal == Progress(result, invoked, Handles(true, true, true));
        break bail;
      }
      Advance(steps, 9, CommitFrame, hr, Progress(result, invoked, Handles(true, true, true)));
      result := hr(CommitFrame);
      invoked := invoked + [CommitFrame];
      if Failed(result) {
        assert goal == Progress(result, invoked, Handles(true, true, true));
        break bail;
      }
      Advance(steps, 10, CommitEncoder, hr, Progress(result, invoked, Handles(true, true, true)));
      result := hr(CommitEncoder);
      invoked := invoked + [CommitEncoder];
      assert goal == Progress(result, invoked, Handles(true, true, true));
    }
  }

  /** The cleanup at the end of the writer: release each handle that is not null, the
      frame first, then the encoder, then the stream. */
  method ReleaseHandles(bitmapFrame: bool, bitmapEncoder: bool, fileStream: bool) returns (released: seq<Handle>)
    ensures released == Cleanup(Handles(bitmapFrame, bitmapEncoder, fileStream))
  {
    released := [];
    if bitmapFrame { released := released + [BitmapFrame]; }
    if bitmapEncoder { released := released + [BitmapEncoder]; }
    if fileStream { released := released + [FileStream]; }
  }

  // ---------------------------------------------------------------------------
  // The imaging factory

  /** The process-wide imaging factory pointer: null, or holding a factory object.
      The ghost counters record factories created, released, and dropped without a
      release when a new one replaces them. */
  class Factory {
    var live: bool
    ghost var created: nat
    ghost var released: nat
    ghost var leaked: nat

    /** Every factory created is live, released or leaked, and only one is live. */
    ghost predicate Valid()
      reads this
    {
      created == released + leaked + (if live then 1 else 0)
    }

    constructor ()
      ensures Valid() && !live && created == 0 && released == 0 && leaked == 0
    {
      live, created, released, leaked := false, 0, 0, 0;
    }

    /** Create the factory; the pointer holds an object exactly when creation succeeded,
        and a factory it held before is overwritten without being released. */
    method Initialize(createHr: int) returns (result: int)
      requires Valid()
      modifies this
      ensures Valid()
      ensures result == createHr && live == !Failed(createHr)
      ensures created == old(created) + (if Failed(createHr) then 0 else 1)
      ensures released == old(released)
      ensures leaked == old(leaked) + (if old(live) then 1 else 0)
    {
      if live {
        leaked := leaked + 1;
      }
      result := createHr;
      live := !Failed(result);
      if live {
        created := created + 1;
      }
    }

    /** Release the factory if there is one and null the pointer; always S_OK. */
    method UnInitialize() returns (result: int)
      requires Valid()
      modifies this
      ensures Valid()
      ensures result == S_OK && !live
      ensures released == old(released) + (if old(live) then 1 else 0)
      ensures created == old(created) && leaked == old(leaked)
    {
      if live {
        released := released + 1;
        live := false;
      }
      result := S_OK;
    }

    /** Shutting down twice, as the server does when a failed start-up has released the
        factory and a SHUTDOWN request releases it again: the second call releases
        nothing and still returns S_OK. */
    method UnInitializeTwice() returns (first: int, second: int)
      requires Valid()
      modifies this
      ensures Valid()
      ensures first == S_OK && second == S_OK && !live
      ensures released == old(released) + (if old(live) then 1 else 0)
    {
      first := UnInitialize();
      ghost var afterFirst := released;
      second := UnInitialize();
      assert released == afterFirst;
    }
  }
}
