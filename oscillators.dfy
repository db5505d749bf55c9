/** The oscillator bank of `Synthesizer`: each `*_generator` method computes
    `period = int(framerate / frequency)`, precomputes one period of samples
    in a lookup table and returns the stream `table[i % period]`.

    Sawtooth, pulse and triangle tables are exact arithmetic and are modelled
    over reals. The sine, FM and noise tables call `math.sin` or
    `random.uniform`; the model takes those as parameters and keeps the rest
    of each formula and the shared cycling structure. */
module Oscillators {
  import opened Base
  import opened Streams

  /** `Synthesizer(framerate, amplitude)`; neither field changes after
      construction. */
  datatype Synth = Synth(framerate: int, amplitude: real)

  const DefaultSynth := Synth(44100, 1.0)

  /** `int(self.framerate / frequency)`: how many samples one cycle spans. */
  function Period(framerate: int, frequency: real): (r: Result<int>)
    ensures r.Err? <==> frequency == 0.0
    ensures r.Err? ==> r.error == ZeroDivisionError
    ensures 0 <= framerate && 0.0 < frequency ==>
      r.Ok? && 0 <= r.value && r.value as real <= framerate as real / frequency < r.value as real + 1.0
    ensures 0 <= framerate && framerate as real < frequency ==> r == Ok(0)
  {
    if frequency == 0.0 then Err(ZeroDivisionError)
    else
      QuotientBounds(framerate as real, frequency);
      Ok(Trunc(framerate as real / frequency))
  }

  lemma QuotientBounds(a: real, b: real)
    requires b != 0.0
    ensures 0.0 <= a && 0.0 < b ==> 0.0 <= a / b
    ensures 0.0 <= a < b ==> a / b < 1.0
  {
    var q := a / b;
    assert q * b == a;
    if 0.0 <= a && 0.0 < b && q < 0.0 {
      ProductPositive(-q, b);
    }
    if 0.0 <= a < b && q >= 1.0 {
      ProductNonNegative(q - 1.0, b);
    }
  }

  lemma ProductPositive(x: real, y: real)
    requires 0.0 < x && 0.0 < y
    ensures 0.0 < x * y
  {
  }

  /** A table built from `range(period)` has `max(period, 0)` entries, and a
      non-empty one implies a non-zero framerate (so `i / framerate` is
      defined inside it). */
  lemma PeriodPositive(framerate: int, frequency: real)
    requires frequency != 0.0
    ensures Period(framerate, frequency).value > 0 ==> framerate != 0
  {
  }

  /** What a generator returns: its lookup-table stream, or the exception
      that `int(self.framerate / frequency)` raised. */
  predicate IsGenerated(r: Result<Source>, framerate: int, frequency: real)
  {
    (r.Err? <==> frequency == 0.0) &&
    (r.Err? ==> r.error == ZeroDivisionError) &&
    (r.Ok? ==> r.value.Cycle? && r.value.period == Period(framerate, frequency).value &&
               IsTable(r.value.table, r.value.period))
  }

  // ---------------------------------------------------------------- sawtooth

  /** How far through its cycle the sawtooth is at sample `i`:
      `frequency * (i / framerate)`. */
  function SawPhase(frequency: real, i: nat, framerate: int): real
    requires framerate != 0
  {
    frequency * (i as real / framerate as real)
  }

  /** The sawtooth sample at a given phase: `amplitude * (phase * 2 - 1)`. */
  function SawValue(amplitude: real, phase: real): real
  {
    amplitude * (phase * 2.0 - 1.0)
  }

  /** `sawtooth_generator` lookup table:
      `amplitude * (frequency * (i % period / framerate) * 2 - 1)`. */
  function SawtoothTable(s: Synth, frequency: real, period: int): (t: seq<real>)
    requires period > 0 ==> s.framerate != 0
    ensures IsTable(t, period)
  {
    seq(Count(period), i requires 0 <= i < Count(period) =>
      SawValue(s.amplitude, SawPhase(frequency, i % period, s.framerate)))
  }

  function SawtoothGenerator(s: Synth, frequency: real): (r: Result<Source>)
    ensures IsGenerated(r, s.framerate, frequency)
  {
    if frequency == 0.0 then Err(ZeroDivisionError)
    else
      var period := Period(s.framerate, frequency).value;
      PeriodPositive(s.framerate, frequency);
      Ok(Cycle(SawtoothTable(s, frequency, period), period))
  }

  /** Below the framerate the sawtooth table starts at `-amplitude`, rises
      strictly, and stays below `+amplitude`, because every index is below
      `period <= framerate / frequency`. */
  lemma SawtoothRamp(s: Synth, frequency: real)
    requires 0 < s.framerate && 0.0 < frequency && 0.0 < s.amplitude
    ensures var t := SawtoothGenerator(s, frequency).value.table;
      (|t| > 0 ==> t[0] == -s.amplitude) &&
      (forall i, j :: 0 <= i < j < |t| ==> t[i] < t[j]) &&
      (forall i :: 0 <= i < |t| ==> -s.amplitude <= t[i] < s.amplitude)
  {
    var t := SawtoothGenerator(s, frequency).value.table;
    forall i | 0 <= i < |t| ensures -s.amplitude <= t[i] < s.amplitude {
      SawtoothEntry(s, frequency, i);
      EntryBounded(SawPhase(frequency, i, s.framerate), s.amplitude);
    }
    forall i, j | 0 <= i < j < |t| ensures t[i] < t[j] {
      SawtoothIncreasing(s, frequency, i, j);
    }
    if |t| > 0 {
      SawtoothEntry(s, frequency, 0);
      assert SawPhase(frequency, 0, s.framerate) == 0.0;
      assert SawValue(s.amplitude, 0.0) == -s.amplitude;
    }
  }

  lemma SawtoothEntry(s: Synth, frequency: real, i: nat)
    requires 0 < s.framerate && 0.0 < frequency
    requires i < |SawtoothGenerator(s, frequency).value.table|
    ensures SawtoothGenerator(s, frequency).value.table[i] == SawValue(s.amplitude, SawPhase(frequency, i, s.framerate))
    ensures 0.0 <= SawPhase(frequency, i, s.framerate) < 1.0
  {
    var period := Period(s.framerate, frequency).value;
    assert SawtoothGenerator(s, frequency).value.table == SawtoothTable(s, frequency, period);
    SawtoothTableEntry(s, frequency, period, i);
    SawtoothPhaseBelowOne(s.framerate, frequency, i, period);
  }

  lemma SawtoothTableEntry(s: Synth, frequency: real, period: int, i: nat)
    requires 0 < s.framerate && i < period
    ensures SawtoothTable(s, frequency, period)[i] == SawValue(s.amplitude, SawPhase(frequency, i, s.framerate))
  {
    assert i % period == i;
  }

  lemma SawtoothIncreasing(s: Synth, frequency: real, i: nat, j: nat)
    requires 0 < s.framerate && 0.0 < frequency && 0.0 < s.amplitude
    requires i < j < |SawtoothGenerator(s, frequency).value.table|
    ensures SawtoothGenerator(s, frequency).value.table[i] < SawtoothGenerator(s, frequency).value.table[j]
  {
    var p, q := SawPhase(frequency, i, s.framerate), SawPhase(frequency, j, s.framerate);
    SawtoothEntry(s, frequency, i);
    SawtoothEntry(s, frequency, j);
    PhaseIncreases(frequency, i, j, s.framerate);
    EntryIncreases(p, q, s.amplitude);
  }

  lemma EntryBounded(phase: real, a: real)
    requires 0.0 <= phase < 1.0 && 0.0 < a
    ensures -a <= SawValue(a, phase) < a
  {
  }

  lemma EntryIncreases(p: real, q: real, a: real)
    requires p < q && 0.0 < a
    ensures SawValue(a, p) < SawValue(a, q)
  {
  }

  lemma SawtoothPhaseBelowOne(framerate: int, f: real, i: nat, period: int)
    requires 0 < framerate && 0.0 < f && i < period && period as real <= framerate as real / f
    ensures 0.0 <= SawPhase(f, i, framerate) < 1.0
  {
    var fr := framerate as real;
    assert SawPhase(f, i, framerate) == f * (i as real / fr);
    assert i as real + 1.0 <= fr / f;
    assert i as real * f < fr;
    assert f * (i as real / fr) == (i as real * f) / fr;
  }

  lemma PhaseIncreases(f: real, i: nat, j: nat, framerate: int)
    requires i < j && 0 < framerate && 0.0 < f
    ensures SawPhase(f, i, framerate) < SawPhase(f, j, framerate)
  {
    assert i as real / framerate as real < j as real / framerate as real;
  }

  // ------------------------------------------------------------------ pulse

  /** `int(duty_cycle * period / 100)`: the number of high samples. */
  function DutySamples(dutyCycle: real, period: int): int
  {
    Trunc(dutyCycle * period as real / 100.0)
  }

  /** `pulse_generator` lookup table: `amplitude * (int(i < duty) * 2 - 1)`. */
  function PulseTable(s: Synth, period: int, duty: int): (t: seq<real>)
    ensures IsTable(t, period)
  {
    seq(Count(period), i => s.amplitude * ((if i < duty then 1 else 0) * 2 - 1) as real)
  }

  function PulseGenerator(s: Synth, frequency: real, dutyCycle: real): (r: Result<Source>)
    ensures IsGenerated(r, s.framerate, frequency)
  {
    if frequency == 0.0 then Err(ZeroDivisionError)
    else
      var period := Period(s.framerate, frequency).value;
      Ok(Cycle(PulseTable(s, period, DutySamples(dutyCycle, period)), period))
  }

  function Constant(n: nat, v: real): (r: seq<real>)
    ensures |r| == n && forall i :: 0 <= i < n ==> r[i] == v
  {
    seq(n, _ => v)
  }

  /** One period of the pulse wave is a run of `+amplitude` of the duty
      length (clipped to the period) followed by `-amplitude` for the rest. */
  lemma PulseShape(s: Synth, frequency: real, dutyCycle: real)
    requires frequency != 0.0
    ensures var src := PulseGenerator(s, frequency, dutyCycle).value;
      var period := Count(src.period);
      var high := DutySamples(dutyCycle, src.period);
      var k := if high < 0 then 0 else if high > period then period else high;
      src.table == Constant(k, s.amplitude) + Constant(period - k, -s.amplitude)
  {
    var src := PulseGenerator(s, frequency, dutyCycle).value;
    var period := Count(src.period);
    var high := DutySamples(dutyCycle, src.period);
    var k := if high < 0 then 0 else if high > period then period else high;
    var shape := Constant(k, s.amplitude) + Constant(period - k, -s.amplitude);
    forall i | 0 <= i < period ensures src.table[i] == shape[i] {
      if i < k { assert i < high; } else { assert shape[i] == Constant(period - k, -s.amplitude)[i - k]; }
    }
  }

  /** For a duty cycle between 0 and 100 percent, exactly
      `int(duty_cycle * period / 100)` leading samples are `+amplitude`. */
  lemma PulseDutyWithinPeriod(dutyCycle: real, period: int)
    requires 0.0 <= dutyCycle <= 100.0 && 0 < period
    ensures 0 <= DutySamples(dutyCycle, period) <= period
  {
    var pr := period as real;
    var x := dutyCycle * pr / 100.0;
    assert 0.0 <= dutyCycle * pr by {
      ProductNonNegative(dutyCycle, pr);
    }
    assert dutyCycle * pr <= 100.0 * pr by {
      ProductNonNegative(100.0 - dutyCycle, pr);
    }
    TruncMonotone(x, pr);
  }

  lemma ProductNonNegative(x: real, y: real)
    requires 0.0 <= x && 0.0 <= y
    ensures 0.0 <= x * y
  {
  }

  // ------------------------------------------------------------- triangle

  function Abs(x: real): real { if x < 0.0 then -x else x }

  /** `triangle_generator` lookup table as written:
      `(amplitude / half_period) * (half_period - abs(i % period - half_period) * 2 - 1) + 0.02`. */
  function TriangleTableAsWritten(amplitude: real, period: int): (t: seq<real>)
    ensures IsTable(t, period)
  {
    var half := period as real / 2.0;
    seq(Count(period), i requires 0 <= i < Count(period) =>
      (amplitude / half) * (half - Abs((i % period) as real - half) * 2.0 - 1.0) + 0.02)
  }

  /** The first entry of the table as written is `-amplitude - amplitude / half_period + 0.02`:
      for amplitude 1 it lies below -1 whenever the period is below 100
      samples (above 441 Hz at 44100 Hz). */
  lemma TriangleAsWrittenUndershoots(period: int)
    requires 0 < period < 100
    ensures TriangleTableAsWritten(1.0, period)[0] < -1.0
  {
    var half := period as real / 2.0;
    assert TriangleTableAsWritten(1.0, period)[0] == (1.0 / half) * (half - half * 2.0 - 1.0) + 0.02;
    assert (1.0 / half) * (half - half * 2.0 - 1.0) == -1.0 - 1.0 / half;
    assert 1.0 / half > 0.02;
  }

  /** The evidently intended triangle: a linear ramp from `-amplitude` at
      the start of the period up to `+amplitude` at its middle and back.
      It drops both the `- 1` inside the bracket, which pushes every entry
      down by `amplitude / half_period`, and the `+ 0.02` that only partly
      offsets it. */
  function TriangleTable(amplitude: real, period: int): (t: seq<real>)
    ensures IsTable(t, period)
  {
    var half := period as real / 2.0;
    seq(Count(period), i requires 0 <= i < Count(period) =>
      TriangleValue(amplitude, half, Abs((i % period) as real - half)))
  }

  /** The triangle sample at distance `d` from the middle of the period. */
  function TriangleValue(amplitude: real, half: real, d: real): real
    requires half != 0.0
  {
    (amplitude / half) * (half - d * 2.0)
  }

  /** Every entry of the corrected table lies in `[-amplitude, amplitude]`,
      and the cycle starts at `-amplitude`. */
  lemma TriangleTableBounded(amplitude: real, period: int)
    requires 0.0 <= amplitude && 0 < period
    ensures var t := TriangleTable(amplitude, period);
      t[0] == -amplitude && forall i :: 0 <= i < |t| ==> -amplitude <= t[i] <= amplitude
  {
    var half := period as real / 2.0;
    var t := TriangleTable(amplitude, period);
    forall i | 0 <= i < |t| ensures -amplitude <= t[i] <= amplitude {
      TriangleEntry(amplitude, period, i);
      TriangleEntryBounded(amplitude, half, Abs(i as real - half));
    }
    TriangleEntry(amplitude, period, 0);
    assert Abs(0 as real - half) == half;
    assert TriangleValue(amplitude, half, half) == -amplitude;
  }

  lemma TriangleEntry(amplitude: real, period: int, i: nat)
    requires 0 < period && i < period
    ensures var half := period as real / 2.0;
      TriangleTable(amplitude, period)[i] == TriangleValue(amplitude, half, Abs(i as real - half)) &&
      0.0 <= Abs(i as real - half) <= half
  {
    assert i % period == i;
  }

  lemma TriangleEntryBounded(a: real, half: real, d: real)
    requires 0.0 <= a && 0.0 < half && 0.0 <= d <= half
    ensures -a <= TriangleValue(a, half, d) <= a
  {
    assert (a / half) * (half - d * 2.0) == a - (a / half) * (d * 2.0);
    assert 0.0 <= (a / half) * d <= (a / half) * half;
    assert (a / half) * half == a;
  }

  function TriangleGeneratorAsWritten(s: Synth, frequency: real): (r: Result<Source>)
    ensures IsGenerated(r, s.framerate, frequency)
  {
    if frequency == 0.0 then Err(ZeroDivisionError)
    else
      var period := Period(s.framerate, frequency).value;
      Ok(Cycle(TriangleTableAsWritten(s.amplitude, period), period))
  }

  function TriangleGenerator(s: Synth, frequency: real): (r: Result<Source>)
    ensures IsGenerated(r, s.framerate, frequency)
  {
    if frequency == 0.0 then Err(ZeroDivisionError)
    else
      var period := Period(s.framerate, frequency).value;
      Ok(Cycle(TriangleTable(s.amplitude, period), period))
  }

  // ---------------------------------------------------- sine, FM and noise

  /** `sine_generator`, with `math.sin` and `math.pi` given as `sin` and `pi`. */
  function SineGenerator(s: Synth, frequency: real, sin: real -> real, pi: real): (r: Result<Source>)
    ensures IsGenerated(r, s.framerate, frequency)
  {
    if frequency == 0.0 then Err(ZeroDivisionError)
    else
      var period := Period(s.framerate, frequency).value;
      PeriodPositive(s.framerate, frequency);
      Ok(Cycle(seq(Count(period), i requires 0 <= i < Count(period) =>
        s.amplitude * sin(2.0 * pi * frequency * ((i % period) as real / s.framerate as real))), period))
  }

  /** `fm_generator`: one carrier period of
      `sin(2 pi carrier t + mod_amplitude * sin(2 pi modulator t)) * amplitude`
      with `t = i / framerate`. */
  function FmGenerator(s: Synth, carrier: real, modulator: real, modAmplitude: real,
                       sin: real -> real, pi: real): (r: Result<Source>)
    ensures IsGenerated(r, s.framerate, carrier)
  {
    if carrier == 0.0 then Err(ZeroDivisionError)
    else
      var period := Period(s.framerate, carrier).value;
      PeriodPositive(s.framerate, carrier);
      Ok(Cycle(seq(Count(period), i requires 0 <= i < Count(period) =>
        var t := i as real / s.framerate as real;
        sin(2.0 * pi * carrier * t + modAmplitude * sin(2.0 * pi * modulator * t)) * s.amplitude), period))
  }

  /** `noise_generator`: `uniform(i)` is the i-th draw of
      `random.uniform(-1, 1)`. */
  function NoiseGenerator(s: Synth, frequency: real, uniform: nat -> real): (r: Result<Source>)
    ensures IsGenerated(r, s.framerate, frequency)
  {
    if frequency == 0.0 then Err(ZeroDivisionError)
    else
      var period := Period(s.framerate, frequency).value;
      Ok(Cycle(seq(Count(period), i requires 0 <= i < Count(period) => s.amplitude * uniform(i)), period))
  }

  /** Every generator's stream is periodic: its i-th pull is
      `table[i % period]` and positions `i` and `i + period` agree; a
      frequency above the framerate gives period 0, and then the first pull
      fails with a modulo by zero. */
  lemma GeneratedStreamPeriodic(r: Result<Source>, framerate: int, frequency: real, i: nat)
    requires IsGenerated(r, framerate, frequency) && r.Ok?
    ensures var src := r.value;
      src.period > 0 ==> At(src, i) == Value(src.table[i % src.period]) && At(src, i + src.period) == At(src, i)
    ensures 0 <= framerate && framerate as real < frequency ==> At(r.value, i) == Fails(ZeroDivisionError)
    ensures 0 <= framerate && framerate as real < frequency ==>
      var (p, c1) := Step(Cursor(r.value, i, false));
      p == Fails(ZeroDivisionError) && c1.closed && Step(c1) == (Exhausted, c1)
  {
    if r.value.period > 0 {
      CycleAt(r.value.table, r.value.period, i);
    } else {
      CycleWithoutPeriodFails(r.value.table, r.value.period, i);
    }
  }
}
