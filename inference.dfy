/**
 * What the core sees of the object-detection model: for each frame, the ordered sequence of
 * boxes it returned, each reduced to its class name (the label the model gives the class id) and
 * its confidence. Box coordinates are used only for drawing and are not modelled.
 */
module Inference {

  /** One detected box. The confidence is carried along but never reasoned about. */
  datatype Box = Box(name: string, confidence: real)

  /** The labels of `boxes`, in box order. */
  function Labels(boxes: seq<Box>): seq<string>
  {
    seq(|boxes|, i requires 0 <= i < |boxes| => boxes[i].name)
  }

  /** The number of boxes over a sequence of frames. */
  function TotalBoxes(frames: seq<seq<Box>>): nat
  {
    if frames == [] then 0 else TotalBoxes(frames[..|frames| - 1]) + |frames[|frames| - 1]|
  }
}
