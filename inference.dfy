/**
 * The boundary with the opaque inference backend (OrtModel): the model is an
 * arbitrary function from the ordered list of input tensors to a block of
 * output samples, and `Run` is `model.run(inputs, output)`: it fills the
 * caller's output buffer in place with that block.
 */
module Inference {

  /** One entry of the `inputs` pointer array: a float buffer, or a pointer to one scalar. */
  datatype Tensor = Frames(data: seq<real>) | Scalar(value: real)

  /** What a loaded model computes. */
  type Net = seq<Tensor> -> seq<real>

  /** `segment_size` of the LatentTimbreSynthesis variants. */
  const SegmentSize := 1024

  /** A loaded model of those variants: every run writes exactly `segment_size` samples. */
  type SegmentModel = f: Net | forall x :: |f(x)| == SegmentSize
    witness (x: seq<Tensor>) => seq(SegmentSize, _ => 0.0)

  /** `model.run(inputs, output)`: writes exactly `output.Length` samples, the model's block. */
  method Run(model: Net, inputs: seq<Tensor>, output: array<real>)
    requires |model(inputs)| == output.Length
    modifies output
    ensures output[..] == model(inputs)
  {
    var block := model(inputs);
    forall i | 0 <= i < output.Length {
      output[i] := block[i];
    }
  }
}

/** The host's view of one output frame: the samples written to channels 0 and 1. */
module Host {
  datatype Frame = Frame(ch0: real, ch1: real)
}
