# Inspection station capture service and defect detector, in Dafny

This project models the two pieces of logic in the metal-surface inspection
station.

- **The capture service** (`camera_service.py`). One `CameraService` object
  owns the camera. It holds `is_scanning` and `is_streaming`, a `CameraStatus`
  record, a one-slot buffer with the newest frame, and the background capture
  loop. Its facade is `start_scanning`, `stop_scanning`, `start_streaming`,
  `stop_streaming`, `take_photo` and `get_status`. The live stream `get_frame`
  wraps each JPEG as one multipart part.
- **The defect detector** (`model.py`). `process_image` crops the snapshot and
  runs the model on it. For each inference result it accumulates a `defective`
  flag and an ordered list of defect dictionaries (`Defect.to_dict`), saves the
  annotated image, and posts a report with the running totals. `give_img`
  wraps it and swallows every exception.

Modules:

- `wrappers.dfy` (`Wrappers`): `Option`.
- `json.dfy` (`Json`): the dictionary values the two components return.
- `multipart.dfy` (`Multipart`): bytes, and the framing of one stream part.
- `camera.dfy` (`Camera`): the status record, and the `CameraService` class.
  In the class, every facade method states the whole new state and keeps the
  invariant `Valid()`. `Valid()` says three things: streaming implies
  scanning, the record's `streaming` equals the service's flag, and the
  capture loop runs only while scanning. `CaptureTick` is one iteration of
  `_capture_loop`. `StreamStep` is one iteration of the `get_frame` generator.
- `detection.dfy` (`Detection`): `process_image` as the method
  `ProcessImage`. Its loop over the results is the method `ReportResults`,
  which calls the method `CollectDefects` for the loop over one result's
  boxes. `ProcessImage` is proved equal to `ProcessImageSpec`, and the
  accumulation rule is proved about that function.
- `scenarios.dfy` (`Scenarios`): runs of the service. Each run interleaves
  facade calls with capture ticks and stream steps. What a run establishes
  follows from the methods' contracts; the functions `GetStatus` and
  `StreamStep` are read through their definitions.

Thread interleaving is made explicit. The scan thread's iterations become
`CaptureTick` calls, and the stream's iterations become `StreamStep` calls.
The caller places these between the facade calls.

The collaborators are parameters. Each returns an outcome that may succeed,
fail or raise:

- the camera (`initialize_camera`, `capture_image`, `release_camera`);
- `cv2.imencode`;
- file writes;
- reading and base64-encoding files;
- the cropper;
- the YOLO model.

Clock readings are passed in as timestamps.

Quirks of the code that the model keeps:

- `capture_image` returns a non-empty file name first (camera_controller.py:33).
  So the `if success` test at camera_service.py:121 always holds, and its
  `else` branch can never run. A failed read is raised instead, and takes the
  exception path. The status becomes `error` and the loop ends, but
  `is_scanning` stays true.
- After a read failure, `_capture_loop` (camera_service.py:126-129) sets
  status `error` and ends the loop, but leaves `is_scanning` set. So a new
  `start_scanning` is refused, while `start_streaming` and `take_photo` still
  succeed on the last buffered frame, and the stream keeps yielding that
  frame (`Scenarios.CaptureFailure`).
- `get_frame` ends only when the scanning or streaming flag is off
  (camera_service.py:150) or the encoder raises (camera_service.py:161-163).
  An encoder that returns failure yields nothing that time
  (camera_service.py:159-160), and the loop goes on.
- If `release_camera` raises in `stop_scanning` (camera_service.py:106,
  110-114), `is_scanning` is switched back on, while the streaming flag stays
  off and no capture loop is left running.
- A box whose class id is missing from `result.names` raises a KeyError in
  the middle of the box loop (model.py:53). That result is never saved or
  posted, and `give_img` swallows the exception. In the specification
  functions, `ClassName` gives such a class the empty name so that they stay
  total; `FirstUnresolved` stops the reports before any such result, so that
  name never reaches a report.

## Model

| member | source | states |
|---|---|---|
| `Camera.CameraStatus.ToDict` | camera_service.py:18-31 | the dictionary has exactly the keys status, message, timestamp, streaming, and reading it back gives the same record |
| `Camera.StatusDictInjective` | camera_service.py:25-31 | two records with the same dictionary are equal: `to_dict` drops no field |
| `Camera.PhaseNameRoundTrip` | camera_service.py:20 | each of the three status strings is read back as its own phase |
| `Camera.CameraService.Valid` | camera_service.py:53-146 | the service invariant every facade method keeps: streaming only while scanning, the record's `streaming` equal to `is_streaming`, and the capture loop running only while scanning |
| `Camera.CameraService.constructor` | camera_service.py:35-61 | a new service is not scanning, not streaming and has no loop; its status is `stopped` with an empty message and `streaming` false; the frame buffer is empty |
| `Camera.CameraService.UpdateStatus` | camera_service.py:63-70 | the new record has the given status, message and time, and copies the service's current streaming flag |
| `Camera.CameraService.StartScanning` | camera_service.py:73-93 | when already scanning: returns false and changes nothing. When the camera raises: returns false, not scanning, status `error` with the exception text. Otherwise: returns true, scanning, loop running, status `running`/`Scanning started` with streaming false, and `test_img.jpg` handed to the detector. The invariant is kept |
| `Camera.CameraService.StopScanning` | camera_service.py:95-114 | when not scanning: returns false and changes nothing. Otherwise: streaming is off in both flags and the loop has ended; the status is `stopped`/`Scanning stopped` and the result true; or, if release raises, scanning is back on, the status is `error` with the text, and the result false. The invariant is kept |
| `Camera.CameraService.CaptureTick` | camera_service.py:116-129 | with no loop running: nothing changes. A captured frame replaces the buffered one. A capture exception sets status `error` with the text and ends the loop, but leaves scanning and streaming as they were. The invariant is kept |
| `Camera.CameraService.StartStreaming` | camera_service.py:131-139 | returns true exactly when scanning. If not scanning, nothing changes. Otherwise both streaming flags are true, and the status, message and time are kept |
| `Camera.CameraService.StopStreaming` | camera_service.py:141-146 | always returns true and clears both streaming flags, leaving the rest of the record. It changes nothing when streaming is already off (idempotent). From any state it clears both flags, so the two streaming parts of `Valid()` hold; whenever the loop runs only while scanning, in particular from a valid state, `Valid()` holds after it. Inside `stop_scanning` the loop part is broken at that point, and `Valid()` comes back when the stop marks the loop ended |
| `Camera.CameraService.TakePhoto` | camera_service.py:165-193 | succeeds exactly when scanning, a frame is buffered, it encodes and the write completes. Then the JPEG is stored under `inputs/img_<stamp>.jpg` and that path is appended to the detector hand-offs. Otherwise nothing changes. The invariant is kept |
| `Camera.CameraService.GetStatus` | camera_service.py:195-197 | the dictionary reads back as the current record, and its `streaming` entry is the service's streaming flag |
| `Camera.CameraService.StreamStep` | camera_service.py:148-163 | ends exactly when scanning or streaming is off or the encoder raises. Yields exactly when both are on, a frame is buffered and it encodes, and the part then parses back to that JPEG. Otherwise it yields nothing |
| `Camera.PhotoPath` | camera_service.py:177-178 | the snapshot path `inputs/img_<stamp>.jpg` for a clock reading |
| `Camera.PhotoPathInjective` | camera_service.py:177-178 | distinct timestamps name distinct snapshot files |
| `Camera.PhotoNameSeenByDetector` | camera_service.py:177-185 | the detector sees a snapshot under the name `img_<stamp>.jpg` |
| `Multipart.Chunk` | camera_service.py:157-158 | a part is the 37-byte header `--frame\r\nContent-Type: image/jpeg\r\n\r\n`, then the JPEG, then `\r\n` |
| `Multipart.ParseChunkOfChunk` | camera_service.py:157-158 | parsing a framed part gives back the JPEG |
| `Multipart.ChunkOfParseChunk` | camera_service.py:157-158 | anything that parses is exactly the framing of what it parsed to |
| `Multipart.ChunkInjective` | camera_service.py:157-158 | different JPEGs give different parts |
| `Detection.Defect.ToDict` | model.py:18-23 | exactly the keys defectType, coordinates, confidenceRate, holding the defect's three fields |
| `Detection.DefectDictRoundTrip` | model.py:18-23 | reading the dictionary back gives the defect |
| `Detection.DefectDictOnlyFromToDict` | model.py:18-23 | a dictionary that reads back as a defect is that defect's `to_dict` |
| `Detection.BaseName` | model.py:36 | `Path(p).name`, the text after the last '/', which is the name used in the log at line 43, the result file at line 59 and the post at line 65 |
| `Detection.BaseNameIsLastComponent` | model.py:36 | `Path(p).name` is a suffix of the path with no '/', preceded by '/' when shorter than the path |
| `Detection.ResultPath` | model.py:59 | the result image path `results/result_<name>` |
| `Detection.ResultPathInjective` | model.py:59 | result images of differently named inputs go to different files |
| `Detection.BoxDefect` | model.py:52-56 | the defect built from one box: its class name, its coordinates text and its confidence |
| `Detection.BoxDicts` | model.py:51-57 | one dictionary per box |
| `Detection.BoxDictsAt` | model.py:51-57 | entry j is the `to_dict` of the defect built from box j: box order is kept |
| `Detection.CollectDefects` | model.py:51-57 | the box loop of one result succeeds exactly when every box's class has a name, and then yields the `to_dict` of each box's defect in box order |
| `Detection.FirstUnresolved` | model.py:51-56 | the index of the first result with a box whose class has no name: every earlier result resolves and that one does not |
| `Detection.ReportFor` | model.py:59-70 | what one result saves and posts: the result path, the file name, the original image, the result's annotated image, and the flag and list accumulated up to and including that result |
| `Detection.ProcessImageSpec` | model.py:35-70 | the reference definition of `process_image` over its collaborators' outcomes: a failed read raises first, a None crop returns quietly, a crop or model exception raises, and otherwise one report per result until a box whose class has no name raises |
| `Detection.ProcessImage` | model.py:35-70 | the method's effects are those of `ProcessImageSpec`: a failed read raises before cropping; a None crop returns with no model run and no post; a crop exception raises; a model exception raises after the model call; otherwise one report per result until an unnamed class raises |
| `Detection.ReportResults` | model.py:47-70 | the nested loop posts the reports of the results before the first unnamed class, each with the totals so far, and raises exactly when such a class exists |
| `Detection.GiveImg` | model.py:75-79 | the same effects as `process_image`, with no exception escaping |
| `Detection.DefectiveIffSomeBox` | model.py:38-50 | `defective` is true exactly when some result processed so far has a box |
| `Detection.DefectiveMonotone` | model.py:38-50 | once `defective` is true it stays true for every later result |
| `Detection.DefectsGrow` | model.py:39-57 | the `defects` list after i results is a prefix of the list after any j >= i |
| `Detection.DefectsCount` | model.py:47-57 | the list has one entry per box |
| `Detection.DefectsOrder` | model.py:47-57 | box j of result i, when its class has a name, is entry `TotalBoxes(results before i) + j`, and that entry is the `to_dict` of the defect with that name, coordinates and confidence: result order, then box order |
| `Detection.EmptyResultAddsNothing` | model.py:47-50 | a result with no boxes adds nothing and leaves the flag |
| `Detection.NoObjectNoPost` | model.py:41-44 | a None crop means no model run, no post, no exception |
| `Detection.OnePostPerResult` | model.py:47-70 | with every class named: one save and one post per result, in order; post i carries the file name, the original image, result i's image, and the flag and list up to and including result i |
| `Detection.ConsecutivePosts` | model.py:47-70 | post i+1 extends post i's list by exactly result i+1's boxes, and its flag is post i's flag or "result i+1 has a box" |
| `Detection.UnknownClassStopsPosting` | model.py:51-57 | a box with an unnamed class aborts before its result is saved or posted, and the exception escapes |
| `Scenarios.StartTwice` | camera_service.py:73-93 | a second start fails and leaves the first start's status |
| `Scenarios.BeforeStart` | camera_service.py:95-99 | stop and start-streaming before any start return false, and the status stays `stopped` |
| `Scenarios.StartFails` | camera_service.py:79-93 | after a failed start the status is `error` with the text; streaming and `take_photo` then fail |
| `Scenarios.Snapshot` | camera_service.py:165-189 | `take_photo` with no frame fails and writes nothing. After one capture it writes the encoded frame under `inputs/img_<stamp>.jpg`, and that path is handed to the detector after the test image |
| `Scenarios.StreamThenStop` | camera_service.py:141-163 | while streaming, each step yields the framed newest frame; after `stop_streaming` the next step ends the stream, and the status says streaming is off |
| `Scenarios.CaptureFailure` | camera_service.py:118-129 | after a failed read: status `error`, the loop ended, and a restart refused. Streaming, the stream and a photo of the last frame still succeed. Then stop and start recover |
| `Scenarios.StopTwice` | camera_service.py:95-109 | of two stops, the first succeeds and the second fails; the status is `stopped` |
| `Scenarios.StopStreamingTwice` | camera_service.py:141-146 | a second `stop_streaming` leaves the state as the first left it |

## Left out

- Threads, the frame lock, the daemon flag and the bounded join (camera_service.py:43, 82-84, 104-105, 122, 151, 171). These are concurrency. They are replaced by explicit interleaving of facade calls, `CaptureTick` and `StreamStep`, and each facade call is one atomic step. So the model cannot interleave a capture inside a facade call: in the source, `start_scanning` starts the thread before `update_status('running', …)` (camera_service.py:84-85), so a first capture that raises at once sets `error`, `running` then overwrites it, and the loop is dead under status `running`. The model never reaches that state.
- `Camera.CameraService.StopScanning`: does not model a join that times out. The model treats the join as always ending the loop. A capture still in flight when the join returns could, in the source, still store a frame or set status `error` after the stop.
- `get_frame` re-reads `is_scanning` and `is_streaming` each time it is resumed (camera_service.py:150). The model represents that generator as a run of `StreamStep` calls, stopping at the first `End`. The encoder is a parameter, and `.copy()` is not modelled. The source yields while still holding `frame_lock` (camera_service.py:151-158), so a stream paused between parts blocks the capture loop and `take_photo` until it is resumed; the model's atomic steps do not show this.
- camera_controller.py is not part of this model. Its calls are outcomes passed in: `initialize_camera` completes or raises, `capture_image` returns a frame or raises, and `release_camera` completes or raises. The exception texts are parameters.
- `cv2.imencode` and `write_bytes` are outcomes passed in. A partial write is not modelled.
- `mkdir` (camera_service.py:49, model.py:29) is taken to succeed; a constructor that raises is not modelled.
- `update_status` takes any string. The model restricts it to the three values the service passes: `stopped`, `running` and `error`.
- What `give_img` does inside the service: the service model only records the path it hands over (`dispatched`). What the detector then does is `Detection.GiveImg`.
- `image_to_base64` (model.py:31-33) and the base64 in send_request.py are file reads and library encoding. Base64 texts are opaque inputs.
- crop_object.py is not part of this model. The cropper is an outcome: a path, None, or an exception.
- The YOLO model, its loading and the module-level `detector` singleton (model.py:5, 27, 46, 73). The results are given as data: a class-name table, boxes, and the annotated image.
- `result.plot()`, `result.save()` and reading the saved image back are treated as never raising.
- `float(box.conf)` is a real, and `str(box.xyxy.tolist()[0])` is an opaque string. Floating point is not modelled.
- send_request.py is not part of this model: the HTTP POST, its `datetime.now()` timestamp and its logging. `post_request` catches its own exceptions, so each call is a recorded `Post` that cannot raise.
- `Detection.BaseName`: does not model Python's path normalisation. Trailing separators and `.` components are treated as plain text.
- app.py (the HTTP routes) and all logging.
