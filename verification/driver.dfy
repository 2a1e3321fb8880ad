/**
 The driver that exercises one buffer: two fixed checks at 1.2 V and 2.5 V,
 then a sweep of the input upward from 0 V in 9 mV steps that stops at the
 first step where the output turns on. Voltages are whole millivolts `i`,
 applied as the exact real `i / 1000`; the maximum voltage, read from the
 console by the Python script, is a parameter.
 */
module Driver {

  import opened Optional
  import opened LogicBuffer

  /** The sweep's step, in millivolts. */
  const StepMillivolts: nat := 9

  /** `i` millivolts as volts. */
  function Volts(i: nat): real
  {
    (i as real) / 1000.0
  }

  /** `i` is one of the values `range(0, maxVolt * 1000, 9)` visits. */
  predicate IsStep(i: nat, maxVolt: int)
  {
    i < maxVolt * 1000 && i % StepMillivolts == 0
  }

  /** Applying step `i` without noise turns a buffer with this threshold on. */
  predicate Crosses(onThreshold: real, i: nat)
  {
    Volts(i) > onThreshold
  }

  /** How many steps the sweep visits when no step crosses. */
  function StepCount(maxVolt: int): nat
  {
    if maxVolt <= 0 then 0 else (maxVolt * 1000 + StepMillivolts - 1) / StepMillivolts
  }

  /**
   The first step at or after `i` that crosses the threshold, if any: a
   reference definition of the sweep, one step per recursive call.
   */
  function FirstCrossingFrom(onThreshold: real, maxVolt: int, i: nat): (r: Option<nat>)
    requires i % StepMillivolts == 0
    ensures r.Some? ==> i <= r.value && IsStep(r.value, maxVolt) && Crosses(onThreshold, r.value)
    ensures r.Some? ==> forall j: nat :: i <= j < r.value && IsStep(j, maxVolt) ==> !Crosses(onThreshold, j)
    ensures r.None? ==> forall j: nat :: i <= j && IsStep(j, maxVolt) ==> !Crosses(onThreshold, j)
    decreases maxVolt * 1000 - i
  {
    if i >= maxVolt * 1000 then None
    else if Crosses(onThreshold, i) then Some(i)
    else FirstCrossingFrom(onThreshold, maxVolt, i + StepMillivolts)
  }

  /**
   The first step of the whole sweep that crosses the threshold: it is a
   step, it crosses, and no earlier step does. None when no step crosses.
   */
  function FirstCrossing(onThreshold: real, maxVolt: int): (r: Option<nat>)
    ensures r.Some? ==> IsStep(r.value, maxVolt) && Crosses(onThreshold, r.value)
    ensures r.Some? ==> forall j: nat :: j < r.value && IsStep(j, maxVolt) ==> !Crosses(onThreshold, j)
    ensures r.None? ==> forall j: nat :: IsStep(j, maxVolt) ==> !Crosses(onThreshold, j)
  {
    FirstCrossingFrom(onThreshold, maxVolt, 0)
  }

  /**
   The sweep: applies every step `i / 1000` V in order, without noise, to the
   buffer and stops at the first one after which the buffer reads on. It
   reports that step, or None when the range is exhausted. Every applied step
   consumes one noise value; the threshold never changes.
   */
  method Sweep(b: Buffer, maxVolt: int) returns (crossing: Option<nat>, after: Buffer)
    ensures crossing == FirstCrossing(b.onThreshold, maxVolt)
    ensures crossing.Some? ==> IsStep(crossing.value, maxVolt) && Crosses(b.onThreshold, crossing.value)
    ensures crossing.Some? ==>
              forall j: nat :: j < crossing.value && IsStep(j, maxVolt) ==> !Crosses(b.onThreshold, j)
    ensures crossing.None? ==> forall j: nat :: IsStep(j, maxVolt) ==> !Crosses(b.onThreshold, j)
    ensures after.onThreshold == b.onThreshold
    ensures after.noise.normals == b.noise.normals
    ensures crossing.Some? ==>
              IsOn(after) && after.noise.drawn == b.noise.drawn + crossing.value / StepMillivolts + 1
    ensures crossing.None? ==> after.noise.drawn == b.noise.drawn + StepCount(maxVolt)
    ensures crossing.None? && StepCount(maxVolt) > 0 ==> !IsOn(after)
    ensures StepCount(maxVolt) == 0 ==> after == b
  {
    var i: nat := 0;
    after := b;
    while i < maxVolt * 1000
      invariant i % StepMillivolts == 0
      invariant i == 0 || i < maxVolt * 1000 + StepMillivolts
      invariant FirstCrossingFrom(b.onThreshold, maxVolt, i) == FirstCrossing(b.onThreshold, maxVolt)
      invariant after.onThreshold == b.onThreshold
      invariant after.noise.normals == b.noise.normals
      invariant after.noise.drawn == b.noise.drawn + i / StepMillivolts
      invariant i == 0 ==> after == b
      invariant i > 0 ==> !IsOn(after)
      decreases maxVolt * 1000 - i
    {
      ZeroSigmaIsPlainThreshold(after, Volts(i));
      after := ApplyInputVoltage(after, Volts(i));
      if IsOn(after) {
        return Some(i), after;
      }
      i := i + StepMillivolts;
    }
    crossing := None;
  }

  /**
   The two fixed checks of the driver on a default buffer: 1.2 V reads off,
   then 2.5 V reads on, and together they consume two noise values.
   */
  lemma ScriptedChecks(normals: nat -> real)
    ensures var b0 := Init(normals);
            var b1 := ApplyInputVoltage(b0, 1.2);
            var b2 := ApplyInputVoltage(b1, 2.5);
            !IsOn(b1) && IsOn(b2) && b2.noise.drawn == 2
  {
  }

  /**
   With the default threshold 1.8 V and a 3 V maximum the sweep reports
   1809 mV: step 1800 is exactly 1.8 V, which is not strictly above it.
   */
  lemma DefaultSweepCrossesAt1809()
    ensures !Crosses(DefaultThreshold, 1800)
    ensures FirstCrossing(DefaultThreshold, 3) == Some(1809)
  {
    var r := FirstCrossing(DefaultThreshold, 3);
    assert IsStep(1809, 3) && Crosses(DefaultThreshold, 1809);
    if r.Some? {
      assert 1800 < r.value <= 1809;
    }
  }
}
