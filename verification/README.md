# SimpleLogicBuffer in Dafny

A model of `SimpleLogicBuffer`, a one-input, one-output threshold device, and
of the driver that exercises it. The buffer holds a switching threshold
(`on_threshold`, 1.8 V by default) and an output flag that starts off. Applying
an input voltage sets the output to whether the input plus a Gaussian noise
sample lies strictly above the threshold. Reading the output returns the flag.
The device has no hysteresis. The driver applies two fixed voltages. It then
sweeps the input upward from 0 V in 9 mV steps and stops at the first step
where the output turns on.

Layout:

- `noise.dfy`, module `Noise`: the noise source of one buffer. `random.gauss(mu, sigma)`
  returns `mu + z * sigma`, where `z` is the next standard-normal value of the
  seeded generator. The model takes that sequence of `z` values as a
  caller-given function `normals: nat -> real`. A counter `drawn` records how
  many values have been used. So a zero sigma gives exactly zero noise and
  still uses one value.
- `logic_buffer.dfy`, module `LogicBuffer`: the device as an immutable value
  `Buffer(onThreshold, outputState, noise)`. `Init` is the constructor.
  `ApplyInputVoltage` returns the buffer after the call. `IsOn` is a pure read,
  so a read cannot change anything, and two reads with no apply between them
  agree by construction. `Run` and `Trace` apply a sequence of calls. The
  reference predicate `Expected` is the state invariant: the output equals
  the last input plus the noise value that call drew, compared with the
  threshold.
- `driver.dfy`, module `Driver`: the two fixed checks and the sweep. `Sweep`
  is the loop. `FirstCrossingFrom` and `FirstCrossing` are its reference
  definition. Voltages are whole millivolts `i`, applied as the exact real
  `i / 1000`. The maximum voltage is a parameter.
- `optional.dfy`, module `Optional`: the `Option` result of the sweep.

The code reseeds the process-wide generator in the constructor, so all
instances share one stream. The model gives each `Buffer` its own stream, so
that buffers do not interfere. With a single instance, as in the driver, the
two agree. `random.gauss` is called unconditionally, so a zero-sigma call uses
one noise value.

## Model

| member | source | states |
|---|---|---|
| `LogicBuffer.Init` | simplelogicbuffer_updated.py:17-28 | A new buffer keeps the given threshold, reads off, and starts at the first value of the stream its seed selects |
| `LogicBuffer.ApplyInputVoltage` | simplelogicbuffer_updated.py:30-39 | An apply keeps the threshold and the stream and consumes exactly one noise value |
| `LogicBuffer.ReadAfterApply` | simplelogicbuffer_updated.py:39-48 | Reading after an apply reports whether the input plus the noise value that call drew lies strictly above the threshold |
| `LogicBuffer.ZeroSigmaIsPlainThreshold` | simplelogicbuffer_updated.py:35-39 | With zero sigma the output is on exactly when the input is above the threshold, whatever the stream holds, and one noise value is still consumed |
| `LogicBuffer.AtThresholdIsOff` | simplelogicbuffer_updated.py:7-9 | An input equal to the threshold leaves the output off, because the comparison is strict |
| `LogicBuffer.NoHysteresis` | simplelogicbuffer_updated.py:11-39 | The buffer after an apply does not depend on its output before it |
| `LogicBuffer.Run` | simplelogicbuffer_updated.py:30-39 | A sequence of applies keeps the threshold and the stream and consumes one noise value per call; an empty sequence changes nothing |
| `LogicBuffer.IsOn` | simplelogicbuffer_updated.py:42-48 | Returns the output flag and changes nothing; as a function of the buffer, two reads with no apply between them agree |
| `LogicBuffer.Trace` | simplelogicbuffer_updated.py:30-48 | The reads taken after each apply of a sequence form one output per call |
| `LogicBuffer.OutputFollowsLastStimulus` | simplelogicbuffer_updated.py:39-48 | After a non-empty sequence of applies, the output is the last input plus the noise value at position `drawn + n - 1`, compared with the threshold |
| `LogicBuffer.TraceFollowsEachStimulus` | simplelogicbuffer_updated.py:39-48 | The k-th read of a sequence reflects only the k-th input and the k-th noise value drawn |
| `LogicBuffer.Reproducible` | simplelogicbuffer_updated.py:17-39 | Two buffers with the same threshold, at the same draw of streams that agree on the values used, read the same outputs for the same calls, whatever they read before |
| `Noise.Gauss` | simplelogicbuffer_updated.py:39 | A draw returns the current standard-normal value scaled by sigma, keeps the sequence and advances the counter by one |
| `Noise.ZeroSigmaStillDraws` | simplelogicbuffer_updated.py:39 | A zero-sigma draw is exactly zero but still advances the stream, so the next draw sees the following value |
| `Driver.FirstCrossingFrom` | simplelogicbuffer_updated.py:88-92 | The result is the least step at or after `i` whose voltage is strictly above the threshold, or None when no later step is |
| `Driver.FirstCrossing` | simplelogicbuffer_updated.py:88-92 | The result is a multiple of 9 below `MaxVolt * 1000` that crosses the threshold with no earlier step crossing, or None when no step crosses |
| `Driver.Sweep` | simplelogicbuffer_updated.py:88-92 | The loop reports the first crossing step, leaves the buffer on after it, and consumes one noise value per visited step; when nothing crosses in a non-empty range it visits every step and leaves the buffer off; when the range is empty (`MaxVolt <= 0`) the buffer is returned unchanged |
| `Driver.ScriptedChecks` | simplelogicbuffer_updated.py:54-76 | On a default buffer 1.2 V reads off, then 2.5 V reads on, using two noise values |
| `Driver.DefaultSweepCrossesAt1809` | simplelogicbuffer_updated.py:88-92 | With the default threshold 1.8 V and a 3 V maximum the sweep reports step 1809, because step 1800 is exactly 1.8 V and not above it |

## Left out

- The Gaussian distribution and the Mersenne Twister state behind `random.gauss`. They are floating point and a foreign library. The standard-normal values are a caller-given sequence, and only the scaling `0.0 + z * sigma` is modelled.
- `random.seed` reseeds the process-wide generator, so devices built one after another share and reset one stream. The model gives each buffer its own stream, so that buffers do not interfere. The seed is represented only by the sequence it selects.
- IEEE-754 rounding of `i / 1000` and of `value + noise`. Voltages are exact reals. For the default scenario the results agree: `1800 / 1000` rounds to the same double as the literal `1.8`, and `1809 / 1000` is above it.
- NaN and infinite inputs do not exist among exact reals, so their behaviour is not modelled.
- Console I/O: the `input()` prompt and the `print` calls of the driver. `MaxVolt` is a parameter and the sweep returns its result. The `ValueError` that `int()` raises on input that is not a number is not modelled.
- The module-level instance `obj` is not modelled as a global. The driver lemmas and `Sweep` take the buffer as an argument instead. A sweep run after the two fixed checks starts from a buffer that has used two noise values. Its result is the same, since the sweep applies no noise.
