/**
 * Runs of the capture service: facade calls interleaved with capture ticks
 * and stream steps, as a request handler and the scan thread would produce
 * them. Each method proves what the service does along that run: the
 * methods are used through their contracts, and the functions `GetStatus`
 * and `StreamStep` through their definitions.
 */
module Scenarios {
  import opened Multipart
  import opened Camera

  /** A second `start_scanning` while a session is active fails and changes nothing. */
  method StartTwice() returns (first: bool, second: bool, status: CameraStatus)
    ensures first && !second
    ensures status == CameraStatus(Running, "Scanning started", "t1", false)
  {
    var s := new CameraService("t0");
    first := s.StartScanning(Completed, "t1");
    second := s.StartScanning(Completed, "t2");
    status := s.currentStatus;
  }

  /** `stop_scanning` and `start_streaming` before any start fail, and the state stays stopped. */
  method BeforeStart() returns (stopped: bool, streamed: bool, status: CameraStatus)
    ensures !stopped && !streamed
    ensures status == CameraStatus(Stopped, "", "t0", false)
  {
    var s := new CameraService("t0");
    stopped := s.StopScanning(Completed, "t1");
    streamed := s.StartStreaming();
    status := s.currentStatus;
  }

  /** A camera that does not open: the start fails with the error text, and nothing depends on a session. */
  method StartFails(reason: string, encode: Frame -> Encoding)
    returns (started: bool, streamed: bool, photo: bool, status: CameraStatus)
    ensures !started && !streamed && !photo
    ensures status == CameraStatus(Error, reason, "t1", false)
  {
    var s := new CameraService("t0");
    started := s.StartScanning(Raised(reason), "t1");
    streamed := s.StartStreaming();
    photo := s.TakePhoto("20240101_000000", encode, Completed);
    status := s.currentStatus;
  }

  /**
   * A snapshot: before any frame is captured `take_photo` fails and writes
   * nothing; after one, the encoded frame is written to
   * `inputs/img_<stamp>.jpg` and that path is the second one given to the
   * detector (after the start-up test image).
   */
  method Snapshot(f: Frame, stamp: string, encode: Frame -> Encoding)
    returns (early: bool, photo: bool, files: map<string, Bytes>, dispatched: seq<string>)
    requires encode(f).Encoded?
    ensures !early && photo
    ensures files == map[PhotoPath(stamp) := encode(f).jpeg]
    ensures dispatched == [TestImage, PhotoPath(stamp)]
  {
    var s := new CameraService("t0");
    var _ := s.StartScanning(Completed, "t1");
    early := s.TakePhoto(stamp, encode, Completed);
    s.CaptureTick(Captured(f), "t2");
    photo := s.TakePhoto(stamp, encode, Completed);
    files, dispatched := s.files, s.dispatched;
  }

  /**
   * Streaming: once scanning and streaming, each stream step yields the
   * framed JPEG of the newest frame; after `stop_streaming` the next step
   * ends the stream and the status reports streaming off.
   */
  method StreamThenStop(f: Frame, g: Frame, encode: Frame -> Encoding)
    returns (first: StreamEvent, second: StreamEvent, last: StreamEvent, status: CameraStatus)
    requires encode(f).Encoded? && encode(g).Encoded?
    ensures first == Yield(Chunk(encode(f).jpeg))
    ensures second == Yield(Chunk(encode(g).jpeg))
    ensures last == End
    ensures status == CameraStatus(Running, "Scanning started", "t1", false)
  {
    var s := new CameraService("t0");
    var _ := s.StartScanning(Completed, "t1");
    var _ := s.StartStreaming();
    s.CaptureTick(Captured(f), "t2");
    first := s.StreamStep(encode);
    s.CaptureTick(Captured(g), "t3");
    second := s.StreamStep(encode);
    var _ := s.StopStreaming();
    last := s.StreamStep(encode);
    status := s.currentStatus;
  }

  /**
   * A failed read, as the source behaves: the status becomes error and the
   * loop ends, but scanning stays on. So a new start is refused, while
   * streaming and a snapshot of the last frame still succeed, and the stream
   * keeps yielding that last frame. A stop then a start recovers.
   */
  method CaptureFailure(f: Frame, reason: string, stamp: string, encode: Frame -> Encoding)
    returns (restart: bool, streamed: bool, part: StreamEvent, photo: bool,
             stopped: bool, started: bool, failed: CameraStatus, status: CameraStatus)
    requires encode(f).Encoded?
    ensures !restart && streamed && photo && stopped && started
    ensures part == Yield(Chunk(encode(f).jpeg))
    ensures failed == CameraStatus(Error, reason, "t3", false)
    ensures status == CameraStatus(Running, "Scanning started", "t6", false)
  {
    var s := new CameraService("t0");
    var _ := s.StartScanning(Completed, "t1");
    s.CaptureTick(Captured(f), "t2");
    s.CaptureTick(CaptureRaised(reason), "t3");
    failed := s.currentStatus;
    s.CaptureTick(Captured(Frame([])), "t4");   // the loop has ended: nothing is captured
    restart := s.StartScanning(Completed, "t4");
    streamed := s.StartStreaming();
    part := s.StreamStep(encode);
    photo := s.TakePhoto(stamp, encode, Completed);
    stopped := s.StopScanning(Completed, "t5");
    started := s.StartScanning(Completed, "t6");
    status := s.currentStatus;
  }

  /** Two stops of one session: the first stops it, the second finds nothing to stop. */
  method StopTwice() returns (first: bool, second: bool, status: CameraStatus)
    ensures first && !second
    ensures status == CameraStatus(Stopped, "Scanning stopped", "t2", false)
  {
    var s := new CameraService("t0");
    var _ := s.StartScanning(Completed, "t1");
    var _ := s.StartStreaming();
    first := s.StopScanning(Completed, "t2");
    second := s.StopScanning(Completed, "t3");
    status := s.currentStatus;
  }

  /** `stop_streaming` is idempotent: a second call leaves the state exactly as the first left it. */
  method StopStreamingTwice() returns (once: CameraStatus, twice: CameraStatus, streaming: bool)
    ensures once == twice && !streaming
    ensures once == CameraStatus(Running, "Scanning started", "t1", false)
  {
    var s := new CameraService("t0");
    var _ := s.StartScanning(Completed, "t1");
    var _ := s.StartStreaming();
    var _ := s.StopStreaming();
    once := s.currentStatus;
    var _ := s.StopStreaming();
    twice, streaming := s.currentStatus, s.isStreaming;
  }
}
