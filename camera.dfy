/**
 * The capture service of camera_service.py: the `CameraStatus` record, the
 * lifecycle of `CameraService` (start/stop scanning, start/stop streaming,
 * take_photo, get_status), one iteration of the background capture loop
 * (`CaptureTick`) and one iteration of the stream generator (`StreamStep`).
 *
 * The background thread is not modelled as a thread: a caller interleaves
 * capture ticks and stream steps with the facade calls. The camera device,
 * the JPEG encoder and the file system are opaque: what they do (succeed,
 * fail or raise) is an argument of the operation that uses them, and wall
 * clock readings are passed in as timestamps.
 */
module Camera {
  import opened Wrappers
  import opened Json
  import opened Multipart
  import Detection

  /** The three status strings the service ever stores. */
  datatype Phase = Stopped | Running | Error {
    function Name(): string
    {
      match this
      case Stopped => "stopped"
      case Running => "running"
      case Error => "error"
    }
  }

  /** Reads a status string back; None for any other text. */
  function PhaseFromName(s: string): (r: Option<Phase>)
    ensures r.Some? ==> r.value.Name() == s
  {
    if s == "stopped" then Some(Stopped)
    else if s == "running" then Some(Running)
    else if s == "error" then Some(Error)
    else None
  }

  /** Distinct phases have distinct names, so the name identifies the phase. */
  lemma PhaseNameRoundTrip(p: Phase)
    ensures PhaseFromName(p.Name()) == Some(p)
  {
  }

  /** The status record (camera_service.py:18-23). */
  datatype CameraStatus = CameraStatus(status: Phase, message: string, timestamp: string, streaming: bool) {
    /** `CameraStatus.to_dict` (camera_service.py:25-31). */
    function ToDict(): (d: Object)
      ensures d.Keys == StatusKeys
      ensures StatusFromDict(d) == Some(this)
    {
      map["status" := JString(status.Name()),
          "message" := JString(message),
          "timestamp" := JString(timestamp),
          "streaming" := JBool(streaming)]
    }
  }

  const StatusKeys: set<string> := {"status", "message", "timestamp", "streaming"}

  /** Reads a status record back from its dictionary; None unless it has the four keys with their types. */
  function StatusFromDict(d: Object): (r: Option<CameraStatus>)
    ensures r.Some? ==> d.Keys == StatusKeys
  {
    if d.Keys == StatusKeys && d["status"].JString? && d["message"].JString?
       && d["timestamp"].JString? && d["streaming"].JBool?
       && PhaseFromName(d["status"].str).Some?
    then Some(CameraStatus(PhaseFromName(d["status"].str).value, d["message"].str,
                           d["timestamp"].str, d["streaming"].flag))
    else None
  }

  /** Two records with the same dictionary are the same record: `to_dict` drops no field. */
  lemma StatusDictInjective(a: CameraStatus, b: CameraStatus)
    requires a.ToDict() == b.ToDict()
    ensures a == b
  {
  }

  /** An opaque decoded camera image. */
  datatype Frame = Frame(pixels: Bytes)

  /** What a device call or a file write does: finish, or raise with a message (`str(e)`). */
  datatype Outcome = Completed | Raised(reason: string)

  /**
   * What one `capture_image` call does (camera_controller.py:21-33): return
   * a frame, or raise. The controller's first result is a non-empty file
   * name, so the `if success` test at camera_service.py:121 always holds and
   * a failed read always arrives as an exception.
   */
  datatype Capture = Captured(frame: Frame) | CaptureRaised(reason: string)

  /** What `cv2.imencode('.jpg', frame)` does: encode, report failure, or raise. */
  datatype Encoding = Encoded(jpeg: Bytes) | NotEncoded | EncodeRaised

  /** One iteration of the `get_frame` generator: yield a part, yield nothing this time, or end. */
  datatype StreamEvent = Yield(part: Bytes) | Skip | End

  /** The snapshot path `inputs/img_<timestamp>.jpg` (camera_service.py:177-178). */
  function PhotoPath(stamp: string): string
  {
    "inputs/img_" + stamp + ".jpg"
  }

  /** Distinct timestamps name distinct snapshot files. */
  lemma PhotoPathInjective(a: string, b: string)
    requires PhotoPath(a) == PhotoPath(b)
    ensures a == b
  {
    assert a == PhotoPath(a)[11..|PhotoPath(a)| - 4];
    assert b == PhotoPath(b)[11..|PhotoPath(b)| - 4];
  }

  /**
   * The detector reports a snapshot under its file name `img_<timestamp>.jpg`
   * (the `strftime('%Y%m%d_%H%M%S')` stamp holds no '/').
   */
  lemma {:induction false} PhotoNameSeenByDetector(stamp: string)
    requires '/' !in stamp
    ensures Detection.BaseName(PhotoPath(stamp)) == "img_" + stamp + ".jpg"
  {
    var file := "img_" + stamp + ".jpg";
    var n := Detection.BaseName(PhotoPath(stamp));
    Detection.BaseNameIsLastComponent(PhotoPath(stamp));
    assert PhotoPath(stamp) == "inputs/" + file;
    assert '/' !in file by {
      forall i | 0 <= i < |file| ensures file[i] != '/' {
        if 4 <= i < 4 + |stamp| {
          assert file[i] == stamp[i - 4];
        }
      }
    }
    // the base name is the longest '/'-free suffix, and the one before `file` is '/'
    assert n == PhotoPath(stamp)[|PhotoPath(stamp)| - |file|..] == file;
  }

  /** The path the service hands to the detector right after scanning starts (camera_service.py:87). */
  const TestImage: string := "test_img.jpg"

  /** The `CameraService` object (camera_service.py:34-197). */
  class CameraService {
    var isScanning: bool
    var isStreaming: bool
    var currentStatus: CameraStatus
    /** The single-slot frame buffer: only the newest captured frame. */
    var latestFrame: Option<Frame>
    /** Whether the scan thread is running `_capture_loop`. */
    var captureLoopActive: bool
    /** The photos the service has written, by path. */
    var files: map<string, Bytes>
    /** The paths handed to `give_img`, in order. */
    var dispatched: seq<string>

    /**
     * The service invariant: streaming only while scanning, the status
     * record's streaming flag agrees with the service's, and the capture loop
     * only runs while scanning.
     */
    ghost predicate Valid()
      reads this
    {
      && (isStreaming ==> isScanning)
      && currentStatus.streaming == isStreaming
      && (captureLoopActive ==> isScanning)
    }

    /** `__init__` (camera_service.py:35-61), at the given clock reading. */
    constructor (now: string)
      ensures Valid()
      ensures !isScanning && !isStreaming && !captureLoopActive
      ensures currentStatus == CameraStatus(Stopped, "", now, false)
      ensures latestFrame == None && files == map[] && dispatched == []
    {
      isScanning, isStreaming, captureLoopActive := false, false, false;
      currentStatus := CameraStatus(Stopped, "", now, false);
      latestFrame := None;
      files, dispatched := map[], [];
    }

    /** `update_status` (camera_service.py:63-70): a new record that copies the streaming flag. */
    method UpdateStatus(status: Phase, message: string, now: string)
      modifies this`currentStatus
      ensures currentStatus == CameraStatus(status, message, now, isStreaming)
    {
      currentStatus := CameraStatus(status, message, now, isStreaming);
    }

    /**
     * `start_scanning` (camera_service.py:73-93), with `init` the outcome of
     * `initialize_camera`. The `give_img` call cannot fail the start, as it
     * swallows every exception (model.py:75-79).
     */
    method StartScanning(init: Outcome, now: string) returns (ok: bool)
      requires Valid()
      modifies this
      ensures Valid()
      ensures ok <==> !old(isScanning) && init.Completed?
      ensures old(isScanning) ==> unchanged(this)
      ensures !old(isScanning) && init.Raised? ==>
        && !isScanning && !isStreaming && !captureLoopActive
        && currentStatus == CameraStatus(Error, init.reason, now, false)
        && latestFrame == old(latestFrame) && files == old(files) && dispatched == old(dispatched)
      ensures ok ==>
        && isScanning && !isStreaming && captureLoopActive
        && currentStatus == CameraStatus(Running, "Scanning started", now, false)
        && latestFrame == old(latestFrame) && files == old(files)
        && dispatched == old(dispatched) + [TestImage]
    {
      if isScanning {
        return false;
      }
      isScanning := true;
      if init.Raised? {
        isScanning := false;
        UpdateStatus(Error, init.reason, now);
        return false;
      }
      captureLoopActive := true;
      UpdateStatus(Running, "Scanning started", now);
      dispatched := dispatched + [TestImage];
      return true;
    }

    /**
     * `stop_scanning` (camera_service.py:95-114), with `release` the outcome
     * of `release_camera`. The join is taken to see the loop leave (it
     * re-reads `is_scanning` before its next read); if releasing raises,
     * scanning is switched back on with the loop already gone.
     */
    method StopScanning(release: Outcome, now: string) returns (ok: bool)
      requires Valid()
      modifies this
      ensures Valid()
      ensures ok <==> old(isScanning) && release.Completed?
      ensures !old(isScanning) ==> unchanged(this)
      ensures old(isScanning) ==>
        && !isStreaming && !captureLoopActive
        && isScanning == release.Raised?
        && currentStatus == (if release.Raised? then CameraStatus(Error, release.reason, now, false)
                             else CameraStatus(Stopped, "Scanning stopped", now, false))
        && latestFrame == old(latestFrame) && files == old(files) && dispatched == old(dispatched)
    {
      if !isScanning {
        return false;
      }
      isScanning := false;
      var _ := StopStreaming();
      captureLoopActive := false;
      if release.Raised? {
        isScanning := true;
        UpdateStatus(Error, release.reason, now);
        return false;
      }
      UpdateStatus(Stopped, "Scanning stopped", now);
      return true;
    }

    /**
     * One iteration of `_capture_loop` (camera_service.py:116-129). A frame
     * replaces the buffered one; an exception sets the status to error and
     * ends the loop, but leaves `isScanning` set.
     */
    method CaptureTick(capture: Capture, now: string)
      requires Valid()
      modifies this
      ensures Valid()
      ensures !old(captureLoopActive) ==> unchanged(this)
      ensures old(captureLoopActive) && capture.Captured? ==>
        && latestFrame == Some(capture.frame) && captureLoopActive
        && currentStatus == old(currentStatus)
      ensures old(captureLoopActive) && capture.CaptureRaised? ==>
        && !captureLoopActive && latestFrame == old(latestFrame)
        && currentStatus == CameraStatus(Error, capture.reason, now, isStreaming)
      ensures isScanning == old(isScanning) && isStreaming == old(isStreaming)
      ensures files == old(files) && dispatched == old(dispatched)
    {
      if !captureLoopActive {
        return;
      }
      match capture {
        case Captured(frame) =>
          latestFrame := Some(frame);
        case CaptureRaised(reason) =>
          UpdateStatus(Error, reason, now);
          captureLoopActive := false;
      }
    }

    /**
     * `start_streaming` (camera_service.py:131-139): refused unless scanning;
     * otherwise only the two streaming flags change.
     */
    method StartStreaming() returns (ok: bool)
      requires Valid()
      modifies this`isStreaming, this`currentStatus
      ensures Valid()
      ensures ok == old(isScanning)
      ensures !ok ==> unchanged(this)
      ensures ok ==> isStreaming && currentStatus == old(currentStatus).(streaming := true)
    {
      if !isScanning {
        return false;
      }
      isStreaming := true;
      currentStatus := currentStatus.(streaming := true);
      return true;
    }

    /**
     * `stop_streaming` (camera_service.py:141-146): always succeeds, clears
     * both streaming flags, and changes nothing when already stopped.
     */
    method StopStreaming() returns (ok: bool)
      modifies this`isStreaming, this`currentStatus
      ensures ok && !isStreaming
      ensures currentStatus == old(currentStatus).(streaming := false)
      ensures (captureLoopActive ==> isScanning) ==> Valid()
      ensures !old(isStreaming) && !old(currentStatus.streaming) ==> unchanged(this)
    {
      isStreaming := false;
      currentStatus := currentStatus.(streaming := false);
      return true;
    }

    /**
     * `take_photo` (camera_service.py:165-193), with `stamp` the clock
     * reading, `encode` the encoder and `write` the outcome of writing the
     * file. Only a written photo changes anything: it is stored under
     * `inputs/img_<stamp>.jpg` and its path handed to the detector.
     */
    method TakePhoto(stamp: string, encode: Frame -> Encoding, write: Outcome) returns (ok: bool)
      requires Valid()
      modifies this`files, this`dispatched
      ensures Valid()
      ensures ok <==> old(isScanning) && latestFrame.Some? && encode(latestFrame.value).Encoded?
                      && write.Completed?
      ensures !ok ==> unchanged(this)
      ensures ok ==> files == old(files)[PhotoPath(stamp) := encode(latestFrame.value).jpeg]
                     && dispatched == old(dispatched) + [PhotoPath(stamp)]
    {
      if !isScanning {
        return false;
      }
      if latestFrame.None? {
        return false;
      }
      var path := PhotoPath(stamp);
      match encode(latestFrame.value) {
        case Encoded(jpeg) =>
          if write.Raised? {
            return false;
          }
          files := files[path := jpeg];
          dispatched := dispatched + [path];
          return true;
        case NotEncoded =>
          return false;
        case EncodeRaised =>
          return false;
      }
    }

    /** `get_status` (camera_service.py:195-197): the status record as a dictionary. */
    function GetStatus(): (d: Object)
      reads this
      requires Valid()
      ensures StatusFromDict(d) == Some(currentStatus)
      ensures d["streaming"] == JBool(isStreaming)
    {
      currentStatus.ToDict()
    }

    /**
     * One iteration of the `get_frame` generator (camera_service.py:148-163):
     * it ends once scanning or streaming is off or the encoder raises; it
     * yields the framed JPEG of the buffered frame when that encodes; and it
     * yields nothing when the buffer is empty or the encoder reports failure.
     */
    function StreamStep(encode: Frame -> Encoding): (r: StreamEvent)
      reads this
      ensures r.End? <==> !(isScanning && isStreaming)
                          || (latestFrame.Some? && encode(latestFrame.value).EncodeRaised?)
      ensures r.Yield? <==> isScanning && isStreaming && latestFrame.Some?
                            && encode(latestFrame.value).Encoded?
      ensures r.Yield? ==> ParseChunk(r.part) == Some(encode(latestFrame.value).jpeg)
    {
      if !(isScanning && isStreaming) then End
      else if latestFrame.None? then Skip
      else match encode(latestFrame.value)
        case Encoded(jpeg) => ParseChunkOfChunk(jpeg); Yield(Chunk(jpeg))
        case NotEncoded => Skip
        case EncodeRaised => End
    }
  }
}
