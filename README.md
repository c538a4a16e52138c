# protorec recording core, in Dafny

protorec records video from a fleet of cameras on one machine. A `CameraManager`
reads a configuration file listing the cameras, builds one GStreamer pipeline per
camera, and opens and closes recording sessions. A session gives every pipeline the
same timestamped directory, runs them all and waits until all play. Closing it
stops them all, waits until all are stopped, and clears the session. The manager
also serves a live preview frame from one color camera.

This project models that core:

- `common.dfy` (module `Common`): optional values, the three exceptions the core
  raises (`ValueError`, `RuntimeError`, `AttributeError`), `os.path.join`, `str.join` and the `repr`
  of a list of names.
- `frames.dfy` (module `Frames`): frames as values with a shape; the black
  placeholder; decoding a sample; resizing.
- `pipeline.dfy` (module `Pipeline`): the base `CameraPipeline` class. Its engine
  is abstracted to a state NULL, READY or PLAYING. A ghost event log records what
  the engine is told. The module also holds the element-creation check that every
  subclass runs while building its pipeline.
- `rgb_pipeline.dfy` (module `RgbPipeline`): `RGBPipeline`, whose appsink callback
  fills a single latest-frame slot, and its construction.
- `thermal_pipeline.dfy` (module `ThermalPipeline`): construction of a thermal
  pipeline.
- `manager.dfy` (module `Manager`): validation of the configuration, the
  `CameraManager` class and its start/stop state machine, `get_state` and
  `get_frame`.

Element availability on the machine is a parameter: `Factory(unavailable)` names
the element factories that cannot be made. Every construction error is stated as a
function of the configuration and that parameter. The clock reading and the
session folder name are parameters of `StartRecording` and `GetState`.

The pipelines are taken to reach a requested state before `run` and `stop` return.
The manager's busy-wait after starting and after stopping then becomes one test of
its condition (`AllPlaying`, `AllStopped`), and the model proves that test true.
The manager keeps a ghost log of every `set_dir`, `run` and `stop` call it makes on a pipeline; the barrier's `is_playing` and `is_stopped` polls are not logged. The log shows
that a session gives every camera its directory before running any camera.

`self.cameras` is a dictionary. The manager holds it as the map `cameras`, plus the
key list `order` and value list `pipelines`, both in insertion order. `Wiring`
states that the three agree and that no pipeline sits under two names. The session
contracts therefore speak of `pipelines[j]` for every `j`, which is every camera of
the dictionary.

## Model

| member | source | states |
|---|---|---|
| Common.PathJoinParts | protorec/pipelines/pipeline.py:104-106 | `os.path.join(a, b)` ends with `b`. An absolute `b` is the whole result. Otherwise the result starts with `a`, and exactly one `/` is added when `a` is non-empty and does not end in one. |
| Frames.Placeholder | protorec/__init__.py:228-229 | the fallback frame is all zeros, of shape (720, 1280, 3) |
| Pipeline.CreateElements | protorec/pipelines/rgb_pipeline.py:50-96 | the `elements` dictionary has one entry per spec, in order, with the spec's key. An entry is None exactly when its factory is unavailable. |
| Pipeline.FailedElementsMembership | protorec/pipelines/rgb_pipeline.py:122-124 | a key is reported as failed if and only if some entry with that key holds None |
| Pipeline.FailedElementsEmpty | protorec/pipelines/rgb_pipeline.py:122-125 | the failure list is empty if and only if every element was made |
| Pipeline.FailedElementsAppend | protorec/pipelines/rgb_pipeline.py:122-124 | the failure list keeps creation order: failures of earlier entries come first |
| Pipeline.CheckElements | protorec/pipelines/rgb_pipeline.py:122-128 | the check passes if and only if every element was made. Otherwise it raises RuntimeError "Failed to create elements: " followed by the failed keys, in creation order, joined by ", ". |
| Pipeline.ConstructionErrorIff | protorec/pipelines/rgb_pipeline.py:101-128 | building fails exactly when the source element, `filesink` or one of the dictionary's factories is unavailable |
| Pipeline.CameraPipeline.constructor | protorec/pipelines/pipeline.py:29-50 | a new pipeline keeps its config and framerate, with `dir == "."`, `format` from the config, `terminate` false, engine NULL, no location set, and nothing sent to the engine yet |
| Pipeline.CameraPipeline.SetDir | protorec/pipelines/pipeline.py:137-145 | `set_dir` replaces `dir` and may change nothing else |
| Pipeline.CameraPipeline.Run | protorec/pipelines/pipeline.py:99-108 | without a sink, `run` raises "Pipeline sink not initialized" and changes no state. Otherwise it sets the location to `join(dir, name + format)` of the current `dir`, and tells the engine READY, then PLAYING. It then plays. |
| Pipeline.CameraPipeline.Stop | protorec/pipelines/pipeline.py:110-113 | `stop` sends end-of-stream and then NULL, in that order; the pipeline is then stopped |
| Pipeline.CameraPipeline.IsStopped | protorec/pipelines/pipeline.py:115-135 | a stopped pipeline is never playing (PLAYING differs from NULL) |
| RgbPipeline.RGBPipeline.constructor | protorec/pipelines/rgb_pipeline.py:34-48 | the frame slot starts empty. The `tee`, `queue_recording` and `appsink` handles are None after construction. |
| RgbPipeline.RGBPipeline.Callback | protorec/pipelines/rgb_pipeline.py:199-223 | without a sample, or with a sample lacking a buffer, the callback returns ERROR and keeps the slot. Otherwise it stores the decoded (height, width, 3) frame and returns OK. |
| RgbPipeline.RGBPipeline.GetFrame | protorec/pipelines/rgb_pipeline.py:225-233 | `get_frame` returns exactly the frame in the slot (or None) without changing anything; a stored frame has 3 channels |
| RgbPipeline.RGBPipeline.Stop | protorec/pipelines/rgb_pipeline.py:264-270 | the base stop (end-of-stream, then NULL), after which the slot is empty |
| RgbPipeline.NewRGBPipeline | protorec/pipelines/rgb_pipeline.py:98-197 | building an RGB pipeline raises exactly the error `RgbConstructionError` gives: source first, then `filesink`, then the failed list of its ten elements, then the AttributeError of linking the appsink branch from a missing `tee`. On success the base pipeline is new and stopped, and the slot is empty. |
| RgbPipeline.RgbConstructionErrorIff | protorec/pipelines/rgb_pipeline.py:98-197 | building an RGB pipeline succeeds exactly when the source, `filesink` and all ten element factories are available, and `tee` is available or `appsink` is not |
| RgbPipeline.MissingTeeRaisesAttributeError | protorec/pipelines/rgb_pipeline.py:180-192 | with only `tee` missing, every creation check passes. The appsink branch's guard does not test `tee`, so `link` is called on None and construction raises AttributeError. |
| RgbPipeline.NvvidconvEntries | protorec/pipelines/rgb_pipeline.py:50-96 | when only the `nvvidconv` factory is missing, exactly the `videoconvert` and `nvidconv_appsink` entries are None |
| RgbPipeline.MissingNvvidconvNamesBothConverters | protorec/pipelines/rgb_pipeline.py:122-128 | with only `nvvidconv` missing, construction raises RuntimeError naming `videoconvert, nvidconv_appsink`, in that order |
| ThermalPipeline.NewThermalPipeline | protorec/pipelines/thermal_pipeline.py:18-51 | building a thermal pipeline raises exactly the error `ConstructionError` gives for its four elements. On success it is a new, stopped pipeline with a sink. |
| Manager.ConfigByNameLast | protorec/__init__.py:134-138 | every configured name becomes a key. A name with several entries keeps the configuration of its last entry. |
| Manager.KeyOrderSpec | protorec/__init__.py:134-144 | the dictionary's key order lists each key once, and exactly the configured names |
| Manager.FirstEntryErrorPrefix | protorec/__init__.py:134-143 | once an entry raises, later entries cannot change the error |
| Manager.FirstEntryErrorIsFirst | protorec/__init__.py:134-143 | initialisation raises nothing exactly when no entry raises. Otherwise it raises the error of an entry all of whose predecessors pass. |
| Manager.ValidateStreamingCamera | protorec/__init__.py:108-119 | None is accepted; an unknown name raises ValueError "Unknown camera name: …" with the list of names; a camera whose type is not `color` raises ValueError "Camera … is not a color camera…"; otherwise the name comes back unchanged. Success holds if and only if the name is absent, or known and of a color camera. |
| Manager.BuildCamera | protorec/__init__.py:135-143 | a `color` entry gives an RGB pipeline and a `thermal` entry a thermal pipeline, each freshly built for that entry. Any other type raises ValueError "Unknown camera type: …, should be either 'color' or 'thermal'". |
| Manager.InitializeCameras | protorec/__init__.py:121-144 | fails exactly when some entry raises, with the first such error. Otherwise there is one new pipeline per configured name, built from that name's last entry, in first-appearance order, no two names sharing a pipeline. |
| Manager.StopCamera | protorec/__init__.py:187-188 | stopping a camera dispatches to the RGB override (which also empties the slot) or to the base stop; either way end-of-stream precedes NULL |
| Manager.StartCallsOrdered | protorec/__init__.py:163-167 | in a session start, every `set_dir` precedes every `run`, and each camera gets both calls |
| Manager.InjectiveSeparate | protorec/__init__.py:134-144 | the pipelines of the dictionary, listed once per key, are pairwise distinct when no two keys share one |
| Manager.InitWiring | protorec/__init__.py:80-85 | the cameras `_initialize_cameras` builds, with a validated streaming camera, are held as the manager invariant requires |
| Manager.CameraManager.constructor | protorec/__init__.py:73-86 | a new manager is idle (`is_recording` false, no start time), its `camera_names` lists every configured name, and it satisfies the manager invariant |
| Manager.CameraManager.AllPlaying | protorec/__init__.py:169-172 | the start barrier's test is true if and only if every pipeline is playing |
| Manager.CameraManager.AllStopped | protorec/__init__.py:190-193 | the stop barrier's test is true if and only if every pipeline is stopped |
| Manager.CameraManager.SetDirAll | protorec/__init__.py:163-164 | every pipeline gets the same directory, and one `set_dir` call per camera is logged in dictionary order |
| Manager.CameraManager.RunAll | protorec/__init__.py:166-167 | every pipeline has its location set from the new directory, is told READY then PLAYING, and plays. One `run` call per camera is logged in dictionary order. |
| Manager.CameraManager.StopAll | protorec/__init__.py:187-188 | every pipeline receives end-of-stream then NULL and is stopped, and every color camera's slot is empty |
| Manager.CameraManager.StartRecording | protorec/__init__.py:146-174 | while recording it returns "already recording" and changes nothing. Otherwise it sets the flag and start time, gives every pipeline `join(recdir, folder)`, logs all `set_dir` calls before all `run` calls, and returns "recording started" with every pipeline playing. Each pipeline's engine is told READY then PLAYING. Only `dir`, `location`, the engine state and the engine events of a pipeline may change. The invariant (flag if and only if start time, every pipeline playing while recording) is kept. |
| Manager.CameraManager.StopRecording | protorec/__init__.py:176-197 | when idle it returns "already stopped" and changes nothing. Otherwise it stops every pipeline (end-of-stream, then NULL) and empties the color slots, then clears the flag and the start time, and returns "recording stopped" with every pipeline stopped. Only the engine state, the engine events and the color slots change; `dir`, `location`, `terminate` and the RGB element handles stay. The invariant is kept. |
| Manager.CameraManager.GetState | protorec/__init__.py:209-218 | `is_recording` echoes the flag. A duration is reported if and only if the flag is set and a start time is present, and it is the seconds elapsed since that start. |
| Manager.CameraManager.GetFrame | protorec/__init__.py:220-236 | the preview is always of shape (720, 1280, 3). It is the zero placeholder when no streaming camera is configured or that camera has no frame. Otherwise it is that camera's frame resized to 1280×720. |
| Manager.BuildAndValidate | protorec/__init__.py:80-85 | the steps of `__init__` that may raise fail exactly as `SetupError` says. On success they give one freshly built pipeline per configured name, in first-appearance order, none shared, and a streaming camera that is a color camera. |
| Manager.NewCameraManager | protorec/__init__.py:59-86 | construction raises exactly what `SetupError` gives: the first failing camera entry, then the streaming-camera validation. On success the manager is idle and valid, with one pipeline per configured name. The streaming camera is the configuration's entry; the `streaming_camera` argument is never read. |
| Manager.StartTwiceStopTwice | protorec/__init__.py:146-197 | on a valid configuration, start, start, stop, stop answer "recording started", "already recording", "recording stopped", "already stopped": each operation is idempotent |

## Left out

- Reading the JSON configuration file, and the KeyError a missing entry would raise: the configuration is taken already loaded as `ManagerConfig`.
- The camera "properties" entry, element properties, caps strings, adding elements to the pipeline and linking them: these are calls into GStreamer. The `tee`, `queue_recording` and `appsink` elements are not in the failed-elements check. A missing `queue_recording` or `appsink` only skips a link branch. A missing `tee` with `appsink` present raises AttributeError, which `RgbPipeline.RgbConstructionError` models. Other link failures, which GStreamer reports by return value and the source ignores, are not modelled.
- `Gst.ElementFactory.make` is modelled only as succeeding or failing per factory name (`Factory`).
- `gst_to_numpy` and its buffer-size errors, `cv2.resize` pixel content and its error on a frame with a zero dimension, and `cv2.imencode`: frames are values with a shape. Pixel data is a byte sequence whose resize is recorded, not computed.
- `get_disk_usage`: file-system statistics and floating-point arithmetic.
- `datetime.now`, `time.strftime` and `os.makedirs`: the clock reading (microseconds) and the folder name are parameters; directory creation is I/O.
- The threads the appsink callback runs on and the spin-wait loops: the engine is taken to reach a requested state at once, so each wait is one test that the model proves true.
- Concurrent requests: the web server can call `start_recording` and `stop_recording` from several threads, and no lock guards the `is_recording` test (protorec/__init__.py:154-157, 184-196). Two concurrent starts could both run every pipeline. The model, its invariant `Valid()` and the idempotence of `StartTwiceStopTwice` hold for calls made one at a time only.
- `os.makedirs` raising: `start_recording` sets `is_recording` and the start time (protorec/__init__.py:157-158) before `os.makedirs` (:161). If that call raises OSError, the manager is left recording with every pipeline NULL. Later starts then answer "already recording", and `get_state` reports a growing duration. Directory creation is I/O and is taken to succeed, so `Valid()` excludes that state.
- `create_app`, the Flask routes, `dev.py`, `app.py` and the systemd installer: HTTP and installation plumbing.
- `protorec/pipelines/__init__.py` and `pipeline_abc.py`: import fallbacks and an abstract interface; the two pipeline kinds are the `Camera` datatype.
- Common.ListRepr: matches Python's `repr` of a list only for names without quotes, backslashes or non-printable characters, which `repr` escapes.
- Manager.CameraManager.GetState: the duration is a real number; floating-point rounding of `total_seconds` is not modelled.
- Manager.NewCameraManager: states each camera's configuration and kind but not its full freshly-built state. `Manager.InitializeCameras` states that state.
