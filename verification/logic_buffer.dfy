/**
 The logic buffer device: one input, one output, a fixed switching threshold
 and no hysteresis. The device is a value; applying a voltage returns the
 device after the call, and reading the output is a pure function of it.
 */
module LogicBuffer {

  import opened Noise

  /** The threshold a buffer gets when the caller names none. */
  const DefaultThreshold: real := 1.8

  datatype Buffer = Buffer(onThreshold: real, outputState: bool, noise: NoiseStream)

  /** One call of the driver: an input voltage and the noise sigma it is applied with. */
  datatype Stimulus = Stimulus(value: real, noiseSigma: real)

  /**
   A new buffer: it keeps the given threshold, its output starts off, and its
   noise comes from the stream its seed selects, from the first value on.
   */
  function Init(normals: nat -> real, onThreshold: real := DefaultThreshold): (b: Buffer)
    ensures b.onThreshold == onThreshold
    ensures !IsOn(b)
    ensures b.noise.drawn == 0
    ensures forall k :: b.noise.normals(k) == normals(k)
  {
    Buffer(onThreshold, false, NoiseStream(normals, 0))
  }

  /**
   Applies `value` with noise of deviation `noiseSigma`: the output becomes
   whether the noisy input lies strictly above the threshold. The threshold is
   kept and exactly one noise value is consumed. Without a sigma the call is
   noise-free, but it still draws.
   */
  function ApplyInputVoltage(b: Buffer, value: real, noiseSigma: real := 0.0): (b': Buffer)
    ensures b'.onThreshold == b.onThreshold
    ensures b'.noise.normals == b.noise.normals
    ensures b'.noise.drawn == b.noise.drawn + 1
  {
    var (n, rest) := Gauss(b.noise, noiseSigma);
    b.(outputState := value + n > b.onThreshold, noise := rest)
  }

  /** The output state last computed by `ApplyInputVoltage` (off before any call). */
  function IsOn(b: Buffer): (on: bool)
    ensures on == b.outputState
  {
    b.outputState
  }

  /**
   The output a stimulus must produce when it is applied as the `k`-th call
   after the state `b`: noise is the `k`-th value after those already drawn.
   */
  ghost predicate Expected(b: Buffer, s: Stimulus, k: nat)
  {
    s.value + b.noise.normals(b.noise.drawn + k) * s.noiseSigma > b.onThreshold
  }

  /** The buffer after applying every stimulus of `calls` in order. */
  function Run(b: Buffer, calls: seq<Stimulus>): (r: Buffer)
    ensures r.onThreshold == b.onThreshold
    ensures r.noise.normals == b.noise.normals
    ensures r.noise.drawn == b.noise.drawn + |calls|
    ensures |calls| == 0 ==> r == b
    decreases |calls|
  {
    if |calls| == 0 then b
    else Run(ApplyInputVoltage(b, calls[0].value, calls[0].noiseSigma), calls[1..])
  }

  /** The outputs read with `IsOn` after each stimulus of `calls`. */
  function Trace(b: Buffer, calls: seq<Stimulus>): (outs: seq<bool>)
    ensures |outs| == |calls|
    decreases |calls|
  {
    if |calls| == 0 then []
    else
      var next := ApplyInputVoltage(b, calls[0].value, calls[0].noiseSigma);
      [IsOn(next)] + Trace(next, calls[1..])
  }

  /**
   Reading after one call reports whether the input plus the noise value that
   call drew exceeded the threshold.
   */
  lemma ReadAfterApply(b: Buffer, value: real, noiseSigma: real)
    ensures IsOn(ApplyInputVoltage(b, value, noiseSigma))
            <==> Expected(b, Stimulus(value, noiseSigma), 0)
  {
  }

  /**
   With zero sigma the buffer is a plain strict comparison: on exactly when
   the input is above the threshold, whatever noise the stream would give.
   A zero-sigma call still consumes one noise value.
   */
  lemma ZeroSigmaIsPlainThreshold(b: Buffer, value: real)
    ensures IsOn(ApplyInputVoltage(b, value, 0.0)) <==> value > b.onThreshold
    ensures ApplyInputVoltage(b, value, 0.0).noise.drawn == b.noise.drawn + 1
  {
  }

  /** The comparison is strict: an input equal to the threshold leaves the output off. */
  lemma AtThresholdIsOff(b: Buffer)
    ensures !IsOn(ApplyInputVoltage(b, b.onThreshold, 0.0))
  {
  }

  /**
   No hysteresis: the state after a call does not depend on the output before
   it, so two buffers that differ only in their output agree after it.
   */
  lemma NoHysteresis(b: Buffer, prior: bool, value: real, noiseSigma: real)
    ensures ApplyInputVoltage(b.(outputState := prior), value, noiseSigma)
            == ApplyInputVoltage(b, value, noiseSigma)
  {
  }

  /**
   After a non-empty sequence of calls the output equals the last input plus
   the last noise sample compared with the threshold; the noise sample of the
   last call is the stream value at position `drawn + |calls| - 1`.
   */
  lemma {:induction false} OutputFollowsLastStimulus(b: Buffer, calls: seq<Stimulus>)
    requires |calls| > 0
    ensures IsOn(Run(b, calls)) <==> Expected(b, calls[|calls| - 1], |calls| - 1)
    decreases |calls|
  {
    var next := ApplyInputVoltage(b, calls[0].value, calls[0].noiseSigma);
    if |calls| > 1 {
      OutputFollowsLastStimulus(next, calls[1..]);
      assert calls[1..][|calls[1..]| - 1] == calls[|calls| - 1];
    }
  }

  /** The `k`-th read of the trace reflects exactly the `k`-th stimulus and the noise value it drew. */
  lemma {:induction false} TraceFollowsEachStimulus(b: Buffer, calls: seq<Stimulus>, k: nat)
    requires k < |calls|
    ensures Trace(b, calls)[k] <==> Expected(b, calls[k], k)
    decreases k
  {
    var next := ApplyInputVoltage(b, calls[0].value, calls[0].noiseSigma);
    if k > 0 {
      TraceFollowsEachStimulus(next, calls[1..], k - 1);
      assert Trace(b, calls)[k] == Trace(next, calls[1..])[k - 1];
      assert calls[1..][k - 1] == calls[k];
    }
  }

  /**
   Reproducibility: two buffers with the same threshold, positioned at the
   same draw of streams that agree on the values the calls will consume, read
   the same outputs for the same calls, whatever their outputs were before.
   In particular two buffers built with the same threshold and seed do.
   */
  lemma {:induction false} Reproducible(b1: Buffer, b2: Buffer, calls: seq<Stimulus>)
    requires b1.onThreshold == b2.onThreshold
    requires b1.noise.drawn == b2.noise.drawn
    requires forall k :: b1.noise.drawn <= k < b1.noise.drawn + |calls| ==>
               b1.noise.normals(k) == b2.noise.normals(k)
    ensures Trace(b1, calls) == Trace(b2, calls)
    decreases |calls|
  {
    if |calls| > 0 {
      var next1 := ApplyInputVoltage(b1, calls[0].value, calls[0].noiseSigma);
      var next2 := ApplyInputVoltage(b2, calls[0].value, calls[0].noiseSigma);
      assert b1.noise.normals(b1.noise.drawn) == b2.noise.normals(b2.noise.drawn);
      SameNoiseSameExpectation(b1, b2, calls[0], 0);
      ReadAfterApply(b1, calls[0].value, calls[0].noiseSigma);
      ReadAfterApply(b2, calls[0].value, calls[0].noiseSigma);
      Reproducible(next1, next2, calls[1..]);
    }
  }

  /** The expected output depends on the state only through the threshold and the noise value drawn. */
  lemma SameNoiseSameExpectation(b1: Buffer, b2: Buffer, s: Stimulus, k: nat)
    requires b1.onThreshold == b2.onThreshold
    requires b1.noise.normals(b1.noise.drawn + k) == b2.noise.normals(b2.noise.drawn + k)
    ensures Expected(b1, s, k) == Expected(b2, s, k)
  {
  }
}
