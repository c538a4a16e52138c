/** Video frames as the core sees them: a numpy array of shape
    (height, width, channels) whose pixel content comes from code outside the core
    (the GStreamer buffer, `cv2.resize`). The content is kept symbolic: a frame
    records where its pixels came from, never the pixel values themselves. */
module Frames {
  import opened Common

  datatype Shape = Shape(height: nat, width: nat, channels: nat)

  datatype Pixels =
    | Zeros                                   // `np.zeros(..., dtype=np.uint8)`
    | Decoded(data: seq<bv8>)                 // the bytes of an appsink buffer
    | ResizedFrom(source: Pixels, from: Shape) // the output of `cv2.resize`

  datatype Frame = Frame(shape: Shape, pixels: Pixels)

  /** What the appsink hands to the callback: an optional sample, which carries an
      optional buffer and the width and height of its caps. */
  datatype Sample = Sample(buffer: Option<seq<bv8>>, height: nat, width: nat)

  /** Every preview frame served to the web page has this shape. */
  const PreviewHeight: nat := 720
  const PreviewWidth: nat := 1280
  const PreviewChannels: nat := 3

  /** The black frame served when no camera frame is available. */
  function Placeholder(): (f: Frame)
    ensures f.shape == Shape(PreviewHeight, PreviewWidth, PreviewChannels)
    ensures f.pixels.Zeros?
  {
    Frame(Shape(PreviewHeight, PreviewWidth, PreviewChannels), Zeros)
  }

  /** `RGBPipeline.gst_to_numpy`: the buffer viewed as a (height, width, 3) array. */
  function FromSample(s: Sample): Frame
    requires s.buffer.Some?
  {
    Frame(Shape(s.height, s.width, 3), Decoded(s.buffer.value))
  }

  /** `cv2.resize(frame, (width, height))`: the target size is given width first and
      the result has `height` rows, `width` columns and the source's channels. */
  function Resize(f: Frame, width: nat, height: nat): Frame {
    Frame(Shape(height, width, f.shape.channels), ResizedFrom(f.pixels, f.shape))
  }
}
