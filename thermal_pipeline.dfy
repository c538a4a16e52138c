/** The thermal camera pipeline (`ThermalPipeline`): a base pipeline with its own
    element list and no frame slot. Only its construction differs from the base. */
module ThermalPipeline {
  import opened Common
  import opened Pipeline

  /** The `elements` dictionary of `ThermalPipeline.construct_pipeline`, in insertion order. */
  const ThermalElementSpecs: seq<ElementSpec> := [
    ElementSpec("videorate", "videorate", "videorate"),
    ElementSpec("capsfilter_16_le", "capsfilter", "capsfilter16_le"),
    ElementSpec("videoconvert", "videoconvert", "videoconvert"),
    ElementSpec("capsfilter16_be", "capsfilter", "capsfilter16_be")
  ]

  /** Building a `ThermalPipeline`: `construct_pipeline` may raise; otherwise the
      base fields are initialised. */
  method NewThermalPipeline(config: CameraConfig, framerate: int, f: Factory) returns (r: Result<CameraPipeline>)
    ensures r.Failure? <==> ConstructionError(config, ThermalElementSpecs, f).Some?
    ensures r.Failure? ==> ConstructionError(config, ThermalElementSpecs, f) == Some(r.error)
    ensures r.Success? ==> fresh(r.value) && r.value.Initial(config, framerate) && r.value.sink.Some?
  {
    var src := Make(f, config.element, "src");
    if src.None? {
      return Failure(RuntimeError("Could not create " + config.element + " element"));
    }
    var sink := Make(f, "filesink", "filesink");
    if sink.None? {
      return Failure(RuntimeError("Could not create filesink element"));
    }
    var elements := CreateElements(ThermalElementSpecs, f);
    var check := CheckElements(elements);
    FailedElementsEmpty(elements);
    if check.Fail? {
      return Failure(check.error);
    }
    var pipeline := new CameraPipeline(config, framerate, src, sink);
    r := Success(pipeline);
  }
}
