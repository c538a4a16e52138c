/** The color camera pipeline (`RGBPipeline`): a base pipeline whose stream is also
    teed to an appsink, whose callback keeps the latest decoded frame in a single
    slot that the manager reads for the live preview. */
module RgbPipeline {
  import opened Common
  import opened Frames
  import opened Pipeline

  /** The `elements` dictionary of `_create_elements` and `_create_appsink_elements`,
      in insertion order. */
  const RgbElementSpecs: seq<ElementSpec> := [
    ElementSpec("videorate", "videorate", "videorate"),
    ElementSpec("capsfilter", "capsfilter", "capsfilter"),
    ElementSpec("videoconvert", "nvvidconv", "nvvidconv"),
    ElementSpec("jpegenc", "nvjpegenc", "nvjpegenc"),
    ElementSpec("avimux", "avimux", "avimux"),
    ElementSpec("queue_appsink", "queue", "queue_appsink"),
    ElementSpec("nvidconv_appsink", "nvvidconv", "nvvidconv_appsink"),
    ElementSpec("videoconvert_appsink", "videoconvert", "videoconvert_appsink"),
    ElementSpec("videorate_appsink", "videorate", "videorate_appsink"),
    ElementSpec("capsfilter_appsink", "capsfilter", "capsfilter_appsink")
  ]

  /** What Python raises when `link` is called on None. */
  const NoneLinkMessage: string := "'NoneType' object has no attribute 'link'"

  /** What building an `RGBPipeline` raises, if anything: the source, file sink and
      `elements` checks every pipeline runs, then `_link_pipeline_elements`. The
      guard of its appsink branch tests the appsink and the four appsink-branch
      elements but not `tee`, so with `tee` missing and `appsink` made, that branch
      calls `link` on None. The other two branches test `tee` and are skipped. */
  function RgbConstructionError(config: CameraConfig, f: Factory): Option<Error> {
    var checked := ConstructionError(config, RgbElementSpecs, f);
    if checked.Some? then checked
    else if Make(f, "tee", "tee").None? && Make(f, "appsink", "appsink").Some? then
      Some(AttributeError(NoneLinkMessage))
    else None
  }

  /** Building an RGB pipeline succeeds exactly when the source, the file sink and
      all ten elements can be made, and `tee` can be made or `appsink` cannot. */
  lemma RgbConstructionErrorIff(config: CameraConfig, f: Factory)
    ensures RgbConstructionError(config, f).None? <==>
      && config.element !in f.unavailable && "filesink" !in f.unavailable
      && (forall i :: 0 <= i < |RgbElementSpecs| ==> RgbElementSpecs[i].factory !in f.unavailable)
      && ("tee" in f.unavailable ==> "appsink" in f.unavailable)
  {
    ConstructionErrorIff(config, RgbElementSpecs, f);
  }

  /** The value a GStreamer signal handler returns. */
  datatype FlowReturn = FlowOk | FlowError

  class RGBPipeline {
    const base: CameraPipeline
    /** The latest frame handed over by the appsink callback. */
    var frame: Option<Frame>
    var tee: Option<Element>
    var queueRecording: Option<Element>
    var appsink: Option<Element>

    /** `RGBPipeline.__init__` after the base constructor: the slot starts empty, and
        the three element handles `construct_pipeline` stored are set back to None. */
    constructor (base: CameraPipeline)
      ensures this.base == base
      ensures frame.None? && tee.None? && queueRecording.None? && appsink.None?
    {
      this.base := base;
      frame := None;
      tee := None;
      queueRecording := None;
      appsink := None;
    }

    /** Every frame in the slot is a (height, width, 3) array. */
    ghost predicate Valid()
      reads this`frame
    {
      frame.Some? ==> frame.value.shape.channels == 3
    }

    /** The "new-sample" handler: without a sample, or a sample without a buffer, it
        reports an error and keeps the slot; otherwise it replaces the slot. */
    method Callback(sample: Option<Sample>) returns (flow: FlowReturn)
      requires Valid()
      modifies this`frame
      ensures Valid()
      ensures sample.None? ==> flow == FlowError && frame == old(frame)
      ensures sample.Some? && sample.value.buffer.None? ==> flow == FlowError && frame == old(frame)
      ensures sample.Some? && sample.value.buffer.Some? ==> flow == FlowOk && frame == Some(FromSample(sample.value))
    {
      if sample.None? {
        return FlowError;
      }
      if sample.value.buffer.None? {
        return FlowError;
      }
      var newFrame := FromSample(sample.value);
      frame := Some(newFrame);
      flow := FlowOk;
    }

    /** `get_frame`: the frame in the slot, a (height, width, 3) array when present. */
    function GetFrame(): (f: Option<Frame>)
      reads this
      requires Valid()
      ensures f == frame
      ensures f.Some? ==> f.value.shape.channels == 3
    {
      frame
    }

    /** `stop`: the base stop (end-of-stream, then NULL), then the slot is emptied. */
    method Stop()
      modifies this`frame, base`state, base`events
      ensures Valid()
      ensures base.IsStopped() && frame.None?
      ensures base.events == old(base.events) + [Eos, SetState(Null)]
    {
      base.Stop();
      frame := None;
    }
  }

  /** Building an `RGBPipeline`: the base constructor runs `construct_pipeline`, which
      may raise, and then the RGB fields are initialised. */
  method NewRGBPipeline(config: CameraConfig, framerate: int, f: Factory) returns (r: Result<RGBPipeline>)
    ensures r.Failure? <==> RgbConstructionError(config, f).Some?
    ensures r.Failure? ==> RgbConstructionError(config, f) == Some(r.error)
    ensures r.Success? ==> fresh(r.value) && fresh(r.value.base)
    ensures r.Success? ==> r.value.base.Initial(config, framerate) && r.value.base.sink.Some?
    ensures r.Success? ==> r.value.frame.None? && r.value.Valid()
  {
    var src := Make(f, config.element, "src");
    if src.None? {
      return Failure(RuntimeError("Could not create " + config.element + " element"));
    }
    var sink := Make(f, "filesink", "filesink");
    if sink.None? {
      return Failure(RuntimeError("Could not create filesink element"));
    }
    var elements := CreateElements(RgbElementSpecs, f);
    var tee := Make(f, "tee", "tee");
    var appsink := Make(f, "appsink", "appsink");
    var check := CheckElements(elements);
    if check.Fail? {
      FailedElementsEmpty(elements);
      return Failure(check.error);
    }
    FailedElementsEmpty(elements);
    if tee.None? && appsink.Some? {
      return Failure(AttributeError(NoneLinkMessage));
    }
    var pipeline := new CameraPipeline(config, framerate, src, sink);
    var p := new RGBPipeline(pipeline);
    r := Success(p);
  }

  /** Which entries of the RGB `elements` dictionary cannot be made when the
      `nvvidconv` factory is the only one missing: the two converters. */
  lemma {:induction false} NvvidconvEntries()
    ensures var slots := CreateElements(RgbElementSpecs, Factory({"nvvidconv"}));
      && |slots| == 10
      && slots[2] == Slot("videoconvert", None) && slots[6] == Slot("nvidconv_appsink", None)
      && forall i :: 0 <= i < 10 && i != 2 && i != 6 ==> slots[i].element.Some?
  {
    var slots := CreateElements(RgbElementSpecs, Factory({"nvvidconv"}));
    assert "videorate"[0] != "nvvidconv"[0];
    assert "capsfilter"[0] != "nvvidconv"[0];
    assert "nvjpegenc"[2] != "nvvidconv"[2];
    assert "avimux"[0] != "nvvidconv"[0];
    assert "queue"[0] != "nvvidconv"[0];
    assert "videoconvert"[0] != "nvvidconv"[0];
  }

  /** When the `nvvidconv` factory is the only one missing, construction names both
      dictionary entries made from it, in creation order. */
  lemma {:induction false} MissingNvvidconvNamesBothConverters(config: CameraConfig)
    requires config.element != "nvvidconv"
    ensures RgbConstructionError(config, Factory({"nvvidconv"}))
      == Some(RuntimeError(FailedMessage(["videoconvert", "nvidconv_appsink"])))
  {
    var slots := CreateElements(RgbElementSpecs, Factory({"nvvidconv"}));
    NvvidconvEntries();
    assert "filesink"[0] != "nvvidconv"[0];
    assert slots == slots[..2] + [slots[2]] + slots[3..6] + [slots[6]] + slots[7..];
    FailedElementsAppend(slots[..2] + [slots[2]] + slots[3..6] + [slots[6]], slots[7..]);
    FailedElementsAppend(slots[..2] + [slots[2]] + slots[3..6], [slots[6]]);
    FailedElementsAppend(slots[..2] + [slots[2]], slots[3..6]);
    FailedElementsAppend(slots[..2], [slots[2]]);
    FailedElementsEmpty(slots[..2]);
    FailedElementsEmpty(slots[3..6]);
    FailedElementsEmpty(slots[7..]);
    assert FailedElements([slots[2]]) == ["videoconvert"];
    assert FailedElements([slots[6]]) == ["nvidconv_appsink"];
    assert FailedElements(slots) == ["videoconvert", "nvidconv_appsink"];
    assert ConstructionError(config, RgbElementSpecs, Factory({"nvvidconv"})) == Some(RuntimeError(FailedMessage(FailedElements(slots))));
  }

  /** When the `tee` factory is the only one missing, every check passes and the
      appsink branch links from None: construction raises AttributeError. */
  lemma {:induction false} MissingTeeRaisesAttributeError(config: CameraConfig)
    requires config.element != "tee"
    ensures RgbConstructionError(config, Factory({"tee"})) == Some(AttributeError(NoneLinkMessage))
  {
    ConstructionErrorIff(config, RgbElementSpecs, Factory({"tee"}));
    assert "filesink"[0] != "tee"[0];
    assert "appsink"[0] != "tee"[0];
    assert "videorate"[0] != "tee"[0];
    assert "capsfilter"[0] != "tee"[0];
    assert "nvvidconv"[0] != "tee"[0];
    assert "nvjpegenc"[0] != "tee"[0];
    assert "avimux"[0] != "tee"[0];
    assert "queue"[0] != "tee"[0];
    assert "videoconvert"[0] != "tee"[0];
  }
}
