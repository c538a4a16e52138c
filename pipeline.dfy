/** The base camera pipeline (`CameraPipeline`): one GStreamer pipeline that writes
    a single camera to a file, and the element-creation check its subclasses run
    while they build it.

    The GStreamer pipeline is abstracted to the state it is in; `set_state` is taken
    to reach the requested state before it returns, so the polling done by the
    manager sees it at once. */
module Pipeline {
  import opened Common

  /** The GStreamer states this code requests. */
  datatype GstState = Null | Ready | Playing

  /** What the pipeline is told, in order: state changes and the end-of-stream event. */
  datatype EngineEvent = SetState(target: GstState) | Eos

  /** One entry of the "cameras" list of the configuration file. The "properties"
      entry is handed to GStreamer and is not part of this model. */
  datatype CameraConfig = CameraConfig(name: string, kind: string, element: string, format: string)

  const DefaultFramerate: int := 30

  /** A GStreamer element, known by its factory and its name. */
  datatype Element = Element(factory: string, name: string)

  /** Which element factories are missing on this machine; `Gst.ElementFactory.make`
      returns None exactly for those. */
  datatype Factory = Factory(unavailable: set<string>)

  function Make(f: Factory, factory: string, name: string): Option<Element> {
    if factory in f.unavailable then None else Some(Element(factory, name))
  }

  /** One entry of the `elements` dictionary a subclass builds: its key, and the
      factory and name it is made with. */
  datatype ElementSpec = ElementSpec(key: string, factory: string, name: string)

  /** An entry of that dictionary once made: its key and the element or None. */
  datatype Slot = Slot(key: string, element: Option<Element>)

  /** Making every element of `specs`, in order. */
  function CreateElements(specs: seq<ElementSpec>, f: Factory): (slots: seq<Slot>)
    ensures |slots| == |specs|
    ensures forall i :: 0 <= i < |specs| ==>
      slots[i].key == specs[i].key && (slots[i].element.None? <==> specs[i].factory in f.unavailable)
  {
    seq(|specs|, i requires 0 <= i < |specs| => Slot(specs[i].key, Make(f, specs[i].factory, specs[i].name)))
  }

  /** `[name for name, element in elements.items() if element is None]`. */
  function FailedElements(slots: seq<Slot>): seq<string> {
    if slots == [] then []
    else
      var last := slots[|slots| - 1];
      FailedElements(slots[..|slots| - 1]) + (if last.element.None? then [last.key] else [])
  }

  /** A name is reported exactly when an element with that key was not made. */
  lemma {:induction false} FailedElementsMembership(slots: seq<Slot>, key: string)
    ensures key in FailedElements(slots) <==>
      exists i :: 0 <= i < |slots| && slots[i].key == key && slots[i].element.None?
  {
    if slots != [] {
      var n := |slots| - 1;
      FailedElementsMembership(slots[..n], key);
      assert forall i :: 0 <= i < n ==> slots[..n][i] == slots[i];
      if slots[n].key == key && slots[n].element.None? {
        assert key in FailedElements(slots);
      }
    }
  }

  /** Nothing is reported exactly when every element was made. */
  lemma {:induction false} FailedElementsEmpty(slots: seq<Slot>)
    ensures FailedElements(slots) == [] <==> forall i :: 0 <= i < |slots| ==> slots[i].element.Some?
  {
    if slots != [] {
      var n := |slots| - 1;
      FailedElementsEmpty(slots[..n]);
      assert forall i :: 0 <= i < n ==> slots[..n][i] == slots[i];
    }
  }

  /** The report keeps creation order: the failures of earlier elements come first. */
  lemma {:induction false} FailedElementsAppend(a: seq<Slot>, b: seq<Slot>)
    ensures FailedElements(a + b) == FailedElements(a) + FailedElements(b)
  {
    if b == [] {
      assert a + b == a;
    } else {
      var n := |b| - 1;
      FailedElementsAppend(a, b[..n]);
      assert (a + b)[..|a + b| - 1] == a + b[..n];
    }
  }

  function FailedMessage(failed: seq<string>): string {
    "Failed to create elements: " + Join(failed, ", ")
  }

  /** The check at the end of `construct_pipeline`: raise a RuntimeError naming every
      element that was not made, in creation order, or pass when all were made. */
  method CheckElements(slots: seq<Slot>) returns (outcome: Outcome)
    ensures outcome.Pass? <==> forall i :: 0 <= i < |slots| ==> slots[i].element.Some?
    ensures outcome.Fail? ==> outcome.error == RuntimeError(FailedMessage(FailedElements(slots)))
  {
    var failed: seq<string> := [];
    for i := 0 to |slots|
      invariant failed == FailedElements(slots[..i])
    {
      assert slots[..i + 1][..i] == slots[..i];
      if slots[i].element.None? {
        failed := failed + [slots[i].key];
      }
    }
    assert slots[..|slots|] == slots;
    FailedElementsEmpty(slots);
    if failed != [] {
      outcome := Fail(RuntimeError(FailedMessage(failed)));
    } else {
      outcome := Pass;
    }
  }

  /** What building a pipeline raises, if anything: `get_src` fails first, then
      `get_sink`, then the check over the subclass's `elements`. */
  function ConstructionError(config: CameraConfig, specs: seq<ElementSpec>, f: Factory): Option<Error> {
    if Make(f, config.element, "src").None? then
      Some(RuntimeError("Could not create " + config.element + " element"))
    else if Make(f, "filesink", "filesink").None? then
      Some(RuntimeError("Could not create filesink element"))
    else
      var failed := FailedElements(CreateElements(specs, f));
      if failed == [] then None else Some(RuntimeError(FailedMessage(failed)))
  }

  /** Building a pipeline fails exactly when its source, its file sink or one of its
      elements cannot be made. */
  lemma ConstructionErrorIff(config: CameraConfig, specs: seq<ElementSpec>, f: Factory)
    ensures ConstructionError(config, specs, f).None? <==>
      config.element !in f.unavailable && "filesink" !in f.unavailable &&
      forall i :: 0 <= i < |specs| ==> specs[i].factory !in f.unavailable
  {
    FailedElementsEmpty(CreateElements(specs, f));
  }

  class CameraPipeline {
    const config: CameraConfig
    const framerate: int
    const format: string
    /** The source and file sink `construct_pipeline` made; never reassigned after. */
    const src: Option<Element>
    const sink: Option<Element>
    /** The "location" property of the file sink; None until `run` sets it. */
    var location: Option<string>
    /** The state of the GStreamer pipeline. */
    var state: GstState
    var terminate: bool
    var dir: string
    /** Everything sent to the GStreamer pipeline so far. */
    ghost var events: seq<EngineEvent>

    /** `CameraPipeline.__init__`, given the source and sink the subclass's
        `construct_pipeline` made. */
    constructor (config: CameraConfig, framerate: int, src: Option<Element>, sink: Option<Element>)
      ensures Initial(config, framerate)
      ensures this.src == src && this.sink == sink
    {
      this.config := config;
      this.framerate := framerate;
      this.src := src;
      this.sink := sink;
      location := None;
      state := Null;
      terminate := false;
      dir := ".";
      format := config.format;
      events := [];
    }

    /** The state right after construction. */
    ghost predicate Initial(config: CameraConfig, framerate: int)
      reads this
    {
      && this.config == config && this.framerate == framerate
      && dir == "." && format == config.format && !terminate
      && state == Null && location.None? && events == []
    }

    /** The file `run` writes to: `os.path.join(dir, name + format)`. */
    function OutputPath(): string
      reads this`dir
    {
      PathJoin(dir, config.name + format)
    }

    /** `set_dir`: only the directory changes. */
    method SetDir(path: string)
      modifies this`dir
      ensures dir == path
    {
      dir := path;
    }

    /** `run`: without a sink it raises and changes nothing; otherwise it points the
        sink at `OutputPath()` and takes the pipeline through READY to PLAYING. */
    method Run() returns (outcome: Outcome)
      modifies this`location, this`state, this`events
      ensures sink.None? ==> outcome == Fail(RuntimeError("Pipeline sink not initialized"))
      ensures sink.None? ==> location == old(location) && state == old(state) && events == old(events)
      ensures sink.Some? ==> outcome.Pass? && location == Some(OutputPath()) && IsPlaying()
      ensures sink.Some? ==> events == old(events) + [SetState(Ready), SetState(Playing)]
    {
      if sink.None? {
        return Fail(RuntimeError("Pipeline sink not initialized"));
      }
      location := Some(OutputPath());
      state := Ready;
      events := events + [SetState(Ready)];
      state := Playing;
      events := events + [SetState(Playing)];
      outcome := Pass;
    }

    /** `stop`: end-of-stream first, then the NULL state. */
    method Stop()
      modifies this`state, this`events
      ensures IsStopped()
      ensures events == old(events) + [Eos, SetState(Null)]
    {
      events := events + [Eos];
      state := Null;
      events := events + [SetState(Null)];
    }

    predicate IsPlaying()
      reads this
    {
      state == Playing
    }

    /** `is_stopped`; a stopped pipeline is never also playing. */
    predicate IsStopped(): (stopped: bool)
      reads this
      ensures stopped ==> !IsPlaying()
    {
      state == Null
    }
  }
}
