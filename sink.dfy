/** The encoder context the Robot encoder writes into: an append-only sample
    sink. Audio rendering is not modelled; the sink only records, in order,
    every call the encoder makes on it. */
module Sink {
  import opened Wrappers

  /** One call made on the sink. A sample with duration `None` is the
      source's `sample(freq, null)`, used for every scan-line sample. */
  datatype SinkCall =
    | HeaderCall(vis: int)
    | SampleCall(freq: real, ms: Option<real>)

  class Encoder {
    /** Output sample rate in Hz; fixed for the whole encode. */
    const sampleRate: real
    /** Every call received so far, oldest first. */
    var log: seq<SinkCall>

    constructor (sampleRate: real)
      ensures this.sampleRate == sampleRate && log == []
    {
      this.sampleRate := sampleRate;
      log := [];
    }

    /** Emits one tone of `freq` Hz lasting `ms` milliseconds. */
    method Sample(freq: real, ms: Option<real>)
      modifies this
      ensures log == old(log) + [SampleCall(freq, ms)]
    {
      log := log + [SampleCall(freq, ms)];
    }

    /** Emits the calibration header that announces the mode's VIS code. */
    method SampleCalibrationHeader(vis: int)
      modifies this
      ensures log == old(log) + [HeaderCall(vis)]
    {
      log := log + [HeaderCall(vis)];
    }
  }
}
