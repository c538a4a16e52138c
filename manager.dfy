/** The camera manager (`CameraManager`): builds one pipeline per configured camera,
    starts and stops them all together as one recording session, reports the session
    state and serves the preview frame of the streaming camera.

    The clock, the timestamped folder name and the creation of the session
    directory are inputs or left out; the wait for every pipeline to reach its
    target state finds them there at once, because the pipelines reach a requested
    state before `run` and `stop` return. */
module Manager {
  import opened Common
  import opened Frames
  import opened Pipeline
  import opened RgbPipeline
  import opened ThermalPipeline

  /** A reading of the naive local clock, in microseconds. */
  type Timestamp = int

  /** A pipeline of the manager: an `RGBPipeline`, or a `ThermalPipeline`, which is
      a base pipeline with nothing added. `base` is the base pipeline in both cases. */
  datatype Camera = Color(base: CameraPipeline, rgb: RGBPipeline) | Thermal(base: CameraPipeline) {
    /** A color camera's `base` is the base pipeline of its `RGBPipeline`. */
    predicate WellFormed() {
      Color? ==> rgb.base == base
    }
  }

  /** The configuration file: the camera list and the "streaming_camera" entry. */
  datatype ManagerConfig = ManagerConfig(cameras: seq<CameraConfig>, streamingCamera: Option<string>)

  /** What `get_state` returns. */
  datatype RecordingState = RecordingState(isRecording: bool, recordingDuration: Option<real>)

  /** A call the manager makes on one of its pipelines. */
  datatype Op = SetDirCall(dir: string) | RunCall | StopCall
  datatype Call = Call(camera: string, op: Op)

  predicate Distinct(s: seq<string>) {
    forall i, j :: 0 <= i < j < |s| ==> s[i] != s[j]
  }

  /** No two names share a pipeline. */
  predicate Injective(cameras: map<string, Camera>) {
    forall k1, k2 :: k1 in cameras && k2 in cameras && k1 != k2 ==> cameras[k1].base != cameras[k2].base
  }

  /** No two positions hold the same pipeline: `Injective` for a list of pipelines,
      which `InjectiveSeparate` connects to the map. */
  predicate Separate(cameras: seq<Camera>) {
    forall i, j :: 0 <= i < |cameras| && 0 <= j < |cameras| && i != j ==> cameras[i].base != cameras[j].base
  }

  // ---------------------------------------------------------------------------
  // Reading the configuration
  // ---------------------------------------------------------------------------

  /** `camera_names`: the name of every entry, duplicates included. */
  function CameraNames(cs: seq<CameraConfig>): seq<string> {
    seq(|cs|, i requires 0 <= i < |cs| => cs[i].name)
  }

  /** The order of `self.cameras`: names in order of first appearance. */
  function KeyOrder(cs: seq<CameraConfig>): seq<string> {
    if cs == [] then []
    else
      var prefix := KeyOrder(cs[..|cs| - 1]);
      var name := cs[|cs| - 1].name;
      if name in prefix then prefix else prefix + [name]
  }

  /** The configuration each name of `self.cameras` ends up with: a later entry with
      the same name replaces an earlier one. */
  function ConfigByName(cs: seq<CameraConfig>): map<string, CameraConfig> {
    if cs == [] then map[]
    else ConfigByName(cs[..|cs| - 1])[cs[|cs| - 1].name := cs[|cs| - 1]]
  }

  /** Every configured name is a key, and the entry a name keeps is the last one
      carrying it. */
  lemma {:induction false} ConfigByNameLast(cs: seq<CameraConfig>, k: string)
    ensures k in ConfigByName(cs) <==> k in CameraNames(cs)
    ensures k in ConfigByName(cs) ==>
      exists i :: 0 <= i < |cs| && cs[i] == ConfigByName(cs)[k] && cs[i].name == k &&
        forall j :: i < j < |cs| ==> cs[j].name != k
  {
    if cs != [] {
      var n := |cs| - 1;
      ConfigByNameLast(cs[..n], k);
      assert forall i :: 0 <= i < n ==> cs[..n][i] == cs[i];
      if cs[n].name == k {
        assert CameraNames(cs)[n] == k;
      } else if k in ConfigByName(cs[..n]) {
        var i :| 0 <= i < n && cs[..n][i] == ConfigByName(cs[..n])[k] && cs[..n][i].name == k &&
          forall j :: i < j < n ==> cs[..n][j].name != k;
        assert CameraNames(cs)[i] == k;
      } else {
        assert forall i :: 0 <= i < n ==> CameraNames(cs)[i] == CameraNames(cs[..n])[i];
      }
    }
  }

  /** The key order lists every name once, and exactly the names of the map. */
  lemma {:induction false} KeyOrderSpec(cs: seq<CameraConfig>)
    ensures Distinct(KeyOrder(cs))
    ensures forall k :: k in KeyOrder(cs) <==> k in ConfigByName(cs)
  {
    if cs != [] {
      KeyOrderSpec(cs[..|cs| - 1]);
    }
  }

  /** What `_initialize_cameras` raises for one entry, if anything: an unknown type,
      or the error of building its pipeline. */
  function EntryError(c: CameraConfig, f: Factory): Option<Error> {
    if c.kind == "color" then RgbConstructionError(c, f)
    else if c.kind == "thermal" then ConstructionError(c, ThermalElementSpecs, f)
    else Some(ValueError("Unknown camera type: " + c.kind + ", should be either 'color' or 'thermal'"))
  }

  /** The error of the first entry that raises, if any. */
  function FirstEntryError(cs: seq<CameraConfig>, f: Factory): Option<Error> {
    if cs == [] then None
    else
      var earlier := FirstEntryError(cs[..|cs| - 1], f);
      if earlier.Some? then earlier else EntryError(cs[|cs| - 1], f)
  }

  /** Once an entry raises, later entries do not change the error. */
  lemma {:induction false} FirstEntryErrorPrefix(cs: seq<CameraConfig>, f: Factory, n: nat)
    requires n <= |cs|
    requires FirstEntryError(cs[..n], f).Some?
    ensures FirstEntryError(cs, f) == FirstEntryError(cs[..n], f)
  {
    if n < |cs| {
      var m := |cs| - 1;
      assert cs[..m][..n] == cs[..n];
      FirstEntryErrorPrefix(cs[..m], f, n);
    } else {
      assert cs[..n] == cs;
    }
  }

  /** `FirstEntryError` is None exactly when no entry raises, and otherwise the error
      of an entry all of whose predecessors pass. */
  lemma {:induction false} FirstEntryErrorIsFirst(cs: seq<CameraConfig>, f: Factory)
    ensures FirstEntryError(cs, f).None? <==> forall i :: 0 <= i < |cs| ==> EntryError(cs[i], f).None?
    ensures FirstEntryError(cs, f).Some? ==>
      exists i :: 0 <= i < |cs| && FirstEntryError(cs, f) == EntryError(cs[i], f) &&
        forall j :: 0 <= j < i ==> EntryError(cs[j], f).None?
  {
    if cs != [] {
      var m := |cs| - 1;
      FirstEntryErrorIsFirst(cs[..m], f);
      assert forall i :: 0 <= i < m ==> cs[..m][i] == cs[i];
      if FirstEntryError(cs[..m], f).None? {
        assert forall j :: 0 <= j < m ==> EntryError(cs[j], f).None?;
      }
    }
  }

  /** `_validate_streaming_camera`: None is accepted; a name must be configured and
      its pipeline must be a color camera; an accepted name comes back unchanged.
      `configs` maps each name to the configuration of its pipeline. */
  function ValidateStreamingCamera(streaming: Option<string>, names: seq<string>, configs: map<string, CameraConfig>)
    : (r: Result<Option<string>>)
    requires forall n :: n in names ==> n in configs
    ensures r.Success? ==> r.value == streaming
    ensures r.Success? <==> streaming.None? || (streaming.value in names && configs[streaming.value].kind == "color")
    ensures streaming.Some? && streaming.value !in names ==>
      r == Failure(ValueError("Unknown camera name: " + streaming.value + ", should be one of " + ListRepr(names)))
    ensures streaming.Some? && streaming.value in names && configs[streaming.value].kind != "color" ==>
      r == Failure(ValueError("Camera " + streaming.value + " is not a color camera, streaming is only supported for color cameras"))
  {
    if streaming.None? then Success(None)
    else if streaming.value !in names then
      Failure(ValueError("Unknown camera name: " + streaming.value + ", should be one of " + ListRepr(names)))
    else if configs[streaming.value].kind != "color" then
      Failure(ValueError("Camera " + streaming.value + " is not a color camera, streaming is only supported for color cameras"))
    else Success(streaming)
  }

  /** What `CameraManager.__init__` raises for a configuration, if anything: first
      the camera entries in order, then the streaming camera. */
  function SetupError(config: ManagerConfig, f: Factory): Option<Error> {
    var cs := config.cameras;
    if FirstEntryError(cs, f).Some? then FirstEntryError(cs, f)
    else
      assert forall n :: n in CameraNames(cs) ==> n in ConfigByName(cs) by {
        forall n | n in CameraNames(cs) { ConfigByNameLast(cs, n); }
      }
      match ValidateStreamingCamera(config.streamingCamera, CameraNames(cs), ConfigByName(cs))
      case Failure(e) => Some(e)
      case Success(_) => None
  }

  /** A freshly built pipeline for configuration `config`. */
  ghost predicate Built(c: Camera, config: CameraConfig)
    reads c.base, (if c.Color? then {c.rgb} else {})`frame
  {
    && c.WellFormed()
    && c.base.Initial(config, DefaultFramerate)
    && c.base.sink.Some?
    && (c.Color? <==> config.kind == "color")
    && (c.Thermal? ==> config.kind == "thermal")
    && (c.Color? ==> c.rgb.frame.None?)
  }

  /** One step of `_initialize_cameras`: the pipeline for one entry, of the kind its
      type names, or what building it raises. */
  method BuildCamera(c: CameraConfig, f: Factory) returns (r: Result<Camera>)
    ensures r.Failure? <==> EntryError(c, f).Some?
    ensures r.Failure? ==> EntryError(c, f) == Some(r.error)
    ensures r.Success? ==> Built(r.value, c) && fresh(r.value.base)
    ensures r.Success? && r.value.Color? ==> fresh(r.value.rgb)
  {
    if c.kind == "color" {
      var p := NewRGBPipeline(c, DefaultFramerate, f);
      if p.Failure? {
        return Failure(p.error);
      }
      r := Success(Color(p.value.base, p.value));
    } else if c.kind == "thermal" {
      var p := NewThermalPipeline(c, DefaultFramerate, f);
      if p.Failure? {
        return Failure(p.error);
      }
      r := Success(Thermal(p.value));
    } else {
      r := Failure(ValueError("Unknown camera type: " + c.kind + ", should be either 'color' or 'thermal'"));
    }
  }

  /** `_initialize_cameras`: one pipeline per configured name, of the kind its type
      names, or the error of the first entry that raises. */
  method InitializeCameras(cs: seq<CameraConfig>, f: Factory) returns (r: Result<(seq<string>, map<string, Camera>)>)
    ensures r.Failure? <==> FirstEntryError(cs, f).Some?
    ensures r.Failure? ==> FirstEntryError(cs, f) == Some(r.error)
    ensures r.Success? ==> r.value.0 == KeyOrder(cs)
    ensures r.Success? ==> forall k :: k in r.value.1 <==> k in ConfigByName(cs)
    ensures r.Success? ==> forall k :: k in r.value.1 ==> Built(r.value.1[k], ConfigByName(cs)[k])
    ensures r.Success? ==> forall k :: k in r.value.1 ==>
      fresh(r.value.1[k].base) && (r.value.1[k].Color? ==> fresh(r.value.1[k].rgb))
    ensures r.Success? ==> Injective(r.value.1)
  {
    var order: seq<string> := [];
    var cameras: map<string, Camera> := map[];
    for i := 0 to |cs|
      invariant FirstEntryError(cs[..i], f).None?
      invariant order == KeyOrder(cs[..i])
      invariant forall k :: k in cameras <==> k in ConfigByName(cs[..i])
      invariant forall k :: k in cameras ==> Built(cameras[k], ConfigByName(cs[..i])[k])
      invariant forall k :: k in cameras ==>
        fresh(cameras[k].base) && (cameras[k].Color? ==> fresh(cameras[k].rgb))
      invariant Injective(cameras)
    {
      assert cs[..i + 1][..i] == cs[..i];
      var camera := BuildCamera(cs[i], f);
      if camera.Failure? {
        FirstEntryErrorPrefix(cs, f, i + 1);
        return Failure(camera.error);
      }
      assert FirstEntryError(cs[..i + 1], f).None?;
      if cs[i].name !in order {
        order := order + [cs[i].name];
      }
      cameras := cameras[cs[i].name := camera.value];
    }
    assert cs[..|cs|] == cs;
    r := Success((order, cameras));
  }

  /** `camera.stop()`: the `RGBPipeline` override for a color camera, which also
      empties the frame slot, and the base `stop` otherwise. */
  method StopCamera(c: Camera)
    requires c.WellFormed()
    modifies c.base`state, c.base`events, (if c.Color? then {c.rgb} else {})`frame
    ensures c.base.IsStopped()
    ensures c.base.events == old(c.base.events) + [Eos, SetState(Null)]
    ensures c.Color? ==> c.rgb.frame.None?
  {
    match c {
      case Color(_, rgb) => rgb.Stop();
      case Thermal(base) => base.Stop();
    }
  }

  /** What the manager requires of the pipeline it holds under `name`. */
  predicate CameraValid(name: string, c: Camera) {
    && c.base.config.name == name
    && (c.Color? <==> c.base.config.kind == "color")
    && (c.Thermal? ==> c.base.config.kind == "thermal")
    && c.base.sink.Some?
  }

  /** The calls `op` on every camera of `cameras`, in order. */
  function Calls(cameras: seq<string>, op: Op): seq<Call> {
    if cameras == [] then []
    else Calls(cameras[..|cameras| - 1], op) + [Call(cameras[|cameras| - 1], op)]
  }

  lemma {:induction false} CallsAt(cameras: seq<string>, op: Op)
    ensures |Calls(cameras, op)| == |cameras|
    ensures forall i :: 0 <= i < |cameras| ==> Calls(cameras, op)[i] == Call(cameras[i], op)
  {
    if cameras != [] {
      CallsAt(cameras[..|cameras| - 1], op);
    }
  }

  /** In `trace`, every `set_dir` comes before every `run`. */
  ghost predicate SetDirsBeforeRuns(trace: seq<Call>) {
    forall i, j :: 0 <= i < |trace| && 0 <= j < |trace| && trace[i].op.RunCall? && trace[j].op.SetDirCall? ==> j < i
  }

  /** The calls of a successful `start_recording` give every camera the same
      directory, then run every camera, and no `run` precedes a `set_dir`. */
  lemma StartCallsOrdered(cameras: seq<string>, dir: string)
    ensures var trace := Calls(cameras, SetDirCall(dir)) + Calls(cameras, RunCall);
      && SetDirsBeforeRuns(trace)
      && forall k :: k in cameras ==> Call(k, SetDirCall(dir)) in trace && Call(k, RunCall) in trace
  {
    CallsAt(cameras, SetDirCall(dir));
    CallsAt(cameras, RunCall);
    var trace := Calls(cameras, SetDirCall(dir)) + Calls(cameras, RunCall);
    forall k | k in cameras
      ensures Call(k, SetDirCall(dir)) in trace && Call(k, RunCall) in trace
    {
      var i :| 0 <= i < |cameras| && cameras[i] == k;
      assert trace[i] == Call(k, SetDirCall(dir));
      assert trace[|cameras| + i] == Call(k, RunCall);
    }
  }

  /** How a manager holds its pipelines: every name once, in step with its pipeline
      in `pipelines`, no pipeline under two names, and the streaming camera, if any,
      a color camera. */
  ghost predicate Wiring(order: seq<string>, cameras: map<string, Camera>, pipelines: seq<Camera>,
                   streaming: Option<string>)
  {
    && Distinct(order)
    && |pipelines| == |order|
    && (forall k :: k in cameras <==> k in order)
    && (forall j :: 0 <= j < |order| ==> cameras[order[j]] == pipelines[j])
    && Separate(pipelines)
    && (forall j :: 0 <= j < |pipelines| ==> pipelines[j].WellFormed())
    && (streaming.Some? ==> streaming.value in cameras && cameras[streaming.value].Color?)
  }

  /** `self.cameras.values()`, in insertion order. */
  function Values(order: seq<string>, cameras: map<string, Camera>): (values: seq<Camera>)
    requires forall k :: k in order ==> k in cameras
    ensures |values| == |order| && forall j :: 0 <= j < |order| ==> values[j] == cameras[order[j]]
  {
    seq(|order|, j requires 0 <= j < |order| => cameras[order[j]])
  }

  /** The pipelines of an injective map, listed once per distinct key, are pairwise
      distinct. */
  lemma InjectiveSeparate(order: seq<string>, cameras: map<string, Camera>)
    requires Distinct(order) && forall k :: k in order ==> k in cameras
    requires Injective(cameras)
    ensures Separate(Values(order, cameras))
  {
    var values := Values(order, cameras);
    forall i, j | 0 <= i < |values| && 0 <= j < |values| && i != j
      ensures values[i].base != values[j].base
    {
      assert order[i] != order[j];
    }
  }

  /** What `_initialize_cameras` builds is held as `Wiring` requires. */
  lemma InitWiring(cs: seq<CameraConfig>, cameras: map<string, Camera>, streaming: Option<string>)
    requires forall k :: k in cameras <==> k in ConfigByName(cs)
    requires Injective(cameras)
    requires forall k :: k in cameras ==> cameras[k].WellFormed()
    requires streaming.Some? ==> streaming.value in cameras && cameras[streaming.value].Color?
    ensures forall k :: k in KeyOrder(cs) ==> k in cameras
    ensures Wiring(KeyOrder(cs), cameras, Values(KeyOrder(cs), cameras), streaming)
  {
    KeyOrderSpec(cs);
    InjectiveSeparate(KeyOrder(cs), cameras);
  }

  /** `(now - start).total_seconds()`. */
  function ElapsedSeconds(start: Timestamp, now: Timestamp): real {
    (now - start) as real / 1000000.0
  }

  class CameraManager {
    var isRecording: bool
    const recdir: string
    const camerasConfig: ManagerConfig
    const cameraNames: seq<string>
    /** `self.cameras`: the pipeline of each name. */
    const cameras: map<string, Camera>
    /** The names of `self.cameras` in insertion order, and `self.cameras.values()`
        in the same order. */
    const order: seq<string>
    const pipelines: seq<Camera>
    const streamingCamera: Option<string>
    var recordingStartTime: Option<Timestamp>
    /** Every `set_dir`, `run` and `stop` call made on a pipeline, in order. */
    ghost var log: seq<Call>
    /** Every base pipeline of the manager, and every `RGBPipeline`. */
    ghost const bases: set<CameraPipeline>
    ghost const rgbs: set<RGBPipeline>

    /** How the pipelines are held: every name once, in step with its pipeline, no
        pipeline under two names, and the streaming camera a color camera. */
    ghost predicate Wired() {
      && Wiring(order, cameras, pipelines, streamingCamera)
      && (forall j :: 0 <= j < |pipelines| ==> pipelines[j].base in bases)
      && (forall j :: 0 <= j < |pipelines| && pipelines[j].Color? ==> pipelines[j].rgb in rgbs)
    }

    /** The manager invariant: a session is open exactly when a start time is set,
        and then every pipeline is playing; otherwise every pipeline is stopped. */
    ghost predicate Valid()
      reads this, bases, rgbs
    {
      && Wired()
      && (forall j :: 0 <= j < |pipelines| ==> CameraValid(order[j], pipelines[j]))
      && (forall j :: 0 <= j < |pipelines| && pipelines[j].Color? ==> pipelines[j].rgb.Valid())
      && (isRecording <==> recordingStartTime.Some?)
      && (forall j :: 0 <= j < |pipelines| ==> pipelines[j].base.state == if isRecording then Playing else Null)
    }

    /** The field assignments of `__init__`, given the pipelines and streaming
        camera it computed: an idle manager over stopped pipelines. */
    constructor (recdir: string, config: ManagerConfig, order: seq<string>, cameras: map<string, Camera>,
                 pipelines: seq<Camera>, streamingCamera: Option<string>)
      requires Wiring(order, cameras, pipelines, streamingCamera)
      requires forall j :: 0 <= j < |pipelines| ==> CameraValid(order[j], pipelines[j])
      requires forall j :: 0 <= j < |pipelines| && pipelines[j].Color? ==> pipelines[j].rgb.Valid()
      requires forall j :: 0 <= j < |pipelines| ==> pipelines[j].base.state == Null
      ensures Valid()
      ensures !isRecording && recordingStartTime.None? && log == []
      ensures this.recdir == recdir && camerasConfig == config && cameraNames == CameraNames(config.cameras)
      ensures this.order == order && this.cameras == cameras && this.pipelines == pipelines
      ensures this.streamingCamera == streamingCamera
      ensures bases == set j | 0 <= j < |pipelines| :: pipelines[j].base
      ensures rgbs == set j | 0 <= j < |pipelines| && pipelines[j].Color? :: pipelines[j].rgb
    {
      isRecording := false;
      this.recdir := recdir;
      camerasConfig := config;
      cameraNames := CameraNames(config.cameras);
      this.order := order;
      this.cameras := cameras;
      this.pipelines := pipelines;
      this.streamingCamera := streamingCamera;
      bases := set j | 0 <= j < |pipelines| :: pipelines[j].base;
      rgbs := set j | 0 <= j < |pipelines| && pipelines[j].Color? :: pipelines[j].rgb;
      recordingStartTime := None;
      log := [];
    }

    /** The directory of a session whose timestamped folder is `folder`. */
    function SessionDir(folder: string): string {
      PathJoin(recdir, folder)
    }

    /** The `all(... is_playing() ...)` test the start barrier polls. */
    method AllPlaying() returns (ready: bool)
      requires Wired()
      ensures ready <==> forall j :: 0 <= j < |pipelines| ==> pipelines[j].base.IsPlaying()
    {
      ready := true;
      for i := 0 to |pipelines|
        invariant ready <==> forall j :: 0 <= j < i ==> pipelines[j].base.IsPlaying()
      {
        if !pipelines[i].base.IsPlaying() {
          ready := false;
        }
      }
    }

    /** The `all(... is_stopped() ...)` test the stop barrier polls. */
    method AllStopped() returns (done: bool)
      requires Wired()
      ensures done <==> forall j :: 0 <= j < |pipelines| ==> pipelines[j].base.IsStopped()
    {
      done := true;
      for i := 0 to |pipelines|
        invariant done <==> forall j :: 0 <= j < i ==> pipelines[j].base.IsStopped()
      {
        if !pipelines[i].base.IsStopped() {
          done := false;
        }
      }
    }

    /** The loop of `start_recording` that calls `set_dir` on every pipeline. */
    method SetDirAll(directory: string)
      requires Wired()
      modifies this`log, bases`dir
      ensures log == old(log) + Calls(order, SetDirCall(directory))
      ensures forall j :: 0 <= j < |pipelines| ==> pipelines[j].base.dir == directory
    {
      for i := 0 to |pipelines|
        invariant log == old(log) + Calls(order[..i], SetDirCall(directory))
        invariant forall j :: 0 <= j < i ==> pipelines[j].base.dir == directory
      {
        assert order[..i + 1][..i] == order[..i];
        pipelines[i].base.SetDir(directory);
        log := log + [Call(order[i], SetDirCall(directory))];
      }
      assert order[..|order|] == order;
    }

    /** The loop of `start_recording` that calls `run` on every pipeline; none
        raises, since every pipeline has its sink. */
    method RunAll()
      requires Wired()
      requires forall j :: 0 <= j < |pipelines| ==> pipelines[j].base.sink.Some?
      modifies this`log, bases`location, bases`state, bases`events
      ensures log == old(log) + Calls(order, RunCall)
      ensures forall j :: 0 <= j < |pipelines| ==>
        var p := pipelines[j].base;
        && p.location == Some(p.OutputPath()) && p.IsPlaying()
        && p.events == old(p.events) + [SetState(Ready), SetState(Playing)]
    {
      for i := 0 to |pipelines|
        invariant log == old(log) + Calls(order[..i], RunCall)
        invariant forall j :: 0 <= j < i ==>
          var p := pipelines[j].base;
          && p.location == Some(p.OutputPath()) && p.IsPlaying()
          && p.events == old(p.events) + [SetState(Ready), SetState(Playing)]
        invariant forall j :: i <= j < |pipelines| ==> pipelines[j].base.events == old(pipelines[j].base.events)
      {
        assert order[..i + 1][..i] == order[..i];
        var outcome := pipelines[i].base.Run();
        log := log + [Call(order[i], RunCall)];
      }
      assert order[..|order|] == order;
    }

    /** The loop of `stop_recording` that calls `stop` on every pipeline. */
    method StopAll()
      requires |order| == |pipelines| && Separate(pipelines)
      requires forall j :: 0 <= j < |pipelines| ==> pipelines[j].WellFormed() && pipelines[j].base in bases
      requires forall j :: 0 <= j < |pipelines| && pipelines[j].Color? ==> pipelines[j].rgb in rgbs
      modifies this`log, bases`state, bases`events, rgbs`frame
      ensures log == old(log) + Calls(order, StopCall)
      ensures forall j :: 0 <= j < |pipelines| && pipelines[j].Color? ==> pipelines[j].rgb.frame.None?
      ensures forall j :: 0 <= j < |pipelines| ==>
        pipelines[j].base.IsStopped() && pipelines[j].base.events == old(pipelines[j].base.events) + [Eos, SetState(Null)]
    {
      for i := 0 to |pipelines|
        invariant log == old(log) + Calls(order[..i], StopCall)
        invariant forall j :: 0 <= j < i ==>
          pipelines[j].base.IsStopped() && (pipelines[j].Color? ==> pipelines[j].rgb.frame.None?)
        invariant forall j :: 0 <= j < |pipelines| ==>
          pipelines[j].base.events == old(pipelines[j].base.events) + if j < i then [Eos, SetState(Null)] else []
      {
        assert order[..i + 1][..i] == order[..i];
        StopCamera(pipelines[i]);
        log := log + [Call(order[i], StopCall)];
      }
      assert order[..|order|] == order;
    }

    /** `start_recording`. While a session is open it reports so and touches
        nothing. Otherwise it opens a session at `now`, gives every pipeline the
        directory `recdir/folder`, then runs every pipeline, and reports the start
        once all of them play. */
    method StartRecording(now: Timestamp, folder: string) returns (status: map<string, string>)
      requires Valid()
      modifies this`isRecording, this`recordingStartTime, this`log, bases`dir, bases`location, bases`state, bases`events
      ensures Valid()
      ensures old(isRecording) ==> status == map["status" := "already recording"]
      ensures old(isRecording) ==> unchanged(this) && unchanged(bases)
      ensures !old(isRecording) ==> status == map["status" := "recording started"]
      ensures !old(isRecording) ==> isRecording && recordingStartTime == Some(now)
      ensures !old(isRecording) ==>
        log == old(log) + Calls(order, SetDirCall(SessionDir(folder))) + Calls(order, RunCall)
      ensures !old(isRecording) ==> forall j :: 0 <= j < |pipelines| ==>
        var p := pipelines[j].base;
        && p.dir == SessionDir(folder) && p.location == Some(p.OutputPath()) && p.IsPlaying()
        && p.events == old(p.events) + [SetState(Ready), SetState(Playing)]
    {
      if isRecording {
        return map["status" := "already recording"];
      }
      isRecording := true;
      recordingStartTime := Some(now);
      var directory := SessionDir(folder);
      SetDirAll(directory);
      RunAll();
      var ready := AllPlaying();
      assert ready;
      status := map["status" := "recording started"];
    }

    /** `stop_recording`. Without an open session it reports so and touches
        nothing. Otherwise it stops every pipeline, and once all of them are stopped
        it closes the session and reports the stop. */
    method StopRecording() returns (status: map<string, string>)
      requires Valid()
      modifies this`isRecording, this`recordingStartTime, this`log, bases`state, bases`events, rgbs`frame
      ensures Valid()
      ensures !old(isRecording) ==> status == map["status" := "already stopped"]
      ensures !old(isRecording) ==> unchanged(this) && unchanged(bases) && unchanged(rgbs)
      ensures old(isRecording) ==> status == map["status" := "recording stopped"]
      ensures old(isRecording) ==> !isRecording && recordingStartTime.None?
      ensures old(isRecording) ==> log == old(log) + Calls(order, StopCall)
      ensures old(isRecording) ==> forall j :: 0 <= j < |pipelines| ==>
        var p := pipelines[j].base;
        && p.IsStopped()
        && p.dir == old(p.dir) && p.location == old(p.location)
        && p.events == old(p.events) + [Eos, SetState(Null)]
        && (pipelines[j].Color? ==> pipelines[j].rgb.frame.None?)
    {
      if !isRecording {
        return map["status" := "already stopped"];
      }
      StopAll();
      var done := AllStopped();
      assert done;
      isRecording := false;
      recordingStartTime := None;
      status := map["status" := "recording stopped"];
    }

    /** `get_state`: the recording flag, and the seconds since the session started
        when a session is open. */
    function GetState(now: Timestamp): (s: RecordingState)
      reads this
      ensures s.isRecording == isRecording
      ensures s.recordingDuration.Some? <==> isRecording && recordingStartTime.Some?
      ensures isRecording && recordingStartTime.Some? ==>
        s.recordingDuration == Some(ElapsedSeconds(recordingStartTime.value, now))
    {
      var elapsed := if isRecording && recordingStartTime.Some? then
        Some(ElapsedSeconds(recordingStartTime.value, now)) else None;
      RecordingState(isRecording, elapsed)
    }

    /** `get_frame`: the placeholder when there is no streaming camera or it has no
        frame yet, otherwise its frame resized to the preview size; either way a
        frame of shape (720, 1280, 3). */
    function GetFrame(): (f: Frame)
      reads this, bases, rgbs
      requires Valid()
      ensures f.shape == Shape(PreviewHeight, PreviewWidth, PreviewChannels)
      ensures streamingCamera.None? ==> f == Placeholder()
      ensures streamingCamera.Some? && cameras[streamingCamera.value].rgb.frame.None? ==> f == Placeholder()
      ensures streamingCamera.Some? && cameras[streamingCamera.value].rgb.frame.Some? ==>
        f == Resize(cameras[streamingCamera.value].rgb.frame.value, PreviewWidth, PreviewHeight) && !f.pixels.Zeros?
    {
      if streamingCamera.None? then Placeholder()
      else
        var frame := cameras[streamingCamera.value].rgb.GetFrame();
        if frame.None? then Placeholder() else Resize(frame.value, PreviewWidth, PreviewHeight)
    }
  }

  /** The steps of `CameraManager.__init__` that may raise: building every camera,
      then validating the streaming camera against the built cameras. */
  method BuildAndValidate(config: ManagerConfig, f: Factory)
    returns (r: Result<(seq<string>, map<string, Camera>, Option<string>)>)
    ensures r.Failure? <==> SetupError(config, f).Some?
    ensures r.Failure? ==> SetupError(config, f) == Some(r.error)
    ensures r.Success? ==> r.value.0 == KeyOrder(config.cameras) && r.value.2 == config.streamingCamera
    ensures r.Success? ==> forall k :: k in r.value.1 <==> k in ConfigByName(config.cameras)
    ensures r.Success? ==> forall k :: k in r.value.1 ==> Built(r.value.1[k], ConfigByName(config.cameras)[k])
    ensures r.Success? ==> forall k :: k in r.value.1 ==>
      fresh(r.value.1[k].base) && (r.value.1[k].Color? ==> fresh(r.value.1[k].rgb))
    ensures r.Success? ==> Injective(r.value.1)
    ensures r.Success? && r.value.2.Some? ==>
      r.value.2.value in r.value.1 && r.value.1[r.value.2.value].Color?
  {
    var cs := config.cameras;
    var names := CameraNames(cs);
    var init := InitializeCameras(cs, f);
    if init.Failure? {
      return Failure(init.error);
    }
    var (order, cameras) := init.value;
    var configs := map k | k in cameras :: cameras[k].base.config;
    forall n | n in names
      ensures n in configs
    {
      ConfigByNameLast(cs, n);
    }
    assert configs == ConfigByName(cs);
    var streaming := ValidateStreamingCamera(config.streamingCamera, names, configs);
    if streaming.Failure? {
      return Failure(streaming.error);
    }
    r := Success((order, cameras, streaming.value));
  }

  /** `CameraManager.__init__` on an already loaded configuration file: it raises
      what the configuration calls for, or yields an idle manager with one
      pipeline per configured name. The `streamingCamera` argument is never read:
      the streaming camera comes from the configuration. */
  method NewCameraManager(config: ManagerConfig, recdir: string, streamingCamera: string, f: Factory)
    returns (r: Result<CameraManager>)
    ensures r.Failure? <==> SetupError(config, f).Some?
    ensures r.Failure? ==> SetupError(config, f) == Some(r.error)
    ensures r.Success? ==> fresh(r.value) && fresh(r.value.bases) && fresh(r.value.rgbs) && r.value.Valid()
    ensures r.Success? ==> !r.value.isRecording && r.value.recordingStartTime.None?
    ensures r.Success? ==> r.value.streamingCamera == config.streamingCamera && r.value.recdir == recdir
    ensures r.Success? ==> r.value.order == KeyOrder(config.cameras)
    ensures r.Success? ==> forall k :: k in r.value.cameras <==> k in ConfigByName(config.cameras)
    ensures r.Success? ==> forall k :: k in r.value.cameras ==>
      r.value.cameras[k].base.config == ConfigByName(config.cameras)[k] &&
      (r.value.cameras[k].Color? <==> ConfigByName(config.cameras)[k].kind == "color")
  {
    var cs := config.cameras;
    var built := BuildAndValidate(config, f);
    if built.Failure? {
      return Failure(built.error);
    }
    var (order, cameras, streaming) := built.value;
    InitWiring(cs, cameras, streaming);
    var pipelines := Values(order, cameras);
    forall j | 0 <= j < |pipelines|
      ensures CameraValid(order[j], pipelines[j]) && pipelines[j].base.state == Null
      ensures pipelines[j].Color? ==> pipelines[j].rgb.Valid()
    {
      ConfigByNameLast(cs, order[j]);
    }
    var m := new CameraManager(recdir, config, order, cameras, pipelines, streaming);
    r := Success(m);
  }

  /** A session driven through the manager's public calls: the second start and
      the second stop are refused, so a start and a stop each take effect once. */
  method StartTwiceStopTwice(config: ManagerConfig, recdir: string, f: Factory, t0: Timestamp, t1: Timestamp,
                             folder: string)
    returns (statuses: seq<string>)
    ensures SetupError(config, f).Some? ==> statuses == []
    ensures SetupError(config, f).None? ==>
      statuses == ["recording started", "already recording", "recording stopped", "already stopped"]
  {
    var r := NewCameraManager(config, recdir, "", f);
    if r.Failure? {
      return [];
    }
    var m := r.value;
    var s1 := m.StartRecording(t0, folder);
    var s2 := m.StartRecording(t1, folder);
    var s3 := m.StopRecording();
    var s4 := m.StopRecording();
    statuses := [s1["status"], s2["status"], s3["status"], s4["status"]];
  }
}
