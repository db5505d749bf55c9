/** The sample packers of `Synthesizer`: `pack_pcm_data` and `wave_data`
    pull `int(framerate * length)` values from a stream, scale each by the
    16-bit amplitude scale 32767, truncate toward zero and store the result
    in a signed 16-bit `array('h')`, whose bytes they return. */
module Pcm {
  import opened Base
  import opened Bytes
  import opened Streams
  import opened Oscillators
  import Wave

  /** `self._amplitude_scale`. */
  const AmplitudeScale := 32767

  /** `int(amplitude_scale * v)`. */
  function Quantize(v: real): int
  {
    Trunc(AmplitudeScale as real * v)
  }

  /** `int(self.framerate * length)`. */
  function SampleCount(framerate: int, length: real): int
  {
    Trunc(framerate as real * length)
  }

  predicate AllShort(samples: seq<int>)
  {
    forall k :: 0 <= k < |samples| ==> IsShort(samples[k])
  }

  /** `array('h', samples).tobytes()`, two little-endian bytes per sample. */
  function PcmBytes(samples: seq<int>): (b: seq<byte>)
    requires AllShort(samples)
    ensures |b| == 2 * |samples|
  {
    if samples == [] then [] else ShortBytes(samples[0]) + PcmBytes(samples[1..])
  }

  /** Reads signed 16-bit little-endian samples back from bytes (a trailing
      odd byte is ignored). */
  function PcmSamples(b: seq<byte>): (q: seq<int>)
    ensures |q| == |b| / 2
  {
    if |b| < 2 then [] else [ShortOf(b[..2])] + PcmSamples(b[2..])
  }

  /** The packed bytes decode to exactly the samples that were packed. */
  lemma {:induction false} PcmRoundTrip(samples: seq<int>)
    requires AllShort(samples)
    ensures PcmSamples(PcmBytes(samples)) == samples
  {
    if samples != [] {
      var b := PcmBytes(samples);
      assert b[..2] == ShortBytes(samples[0]);
      assert b[2..] == PcmBytes(samples[1..]);
      ShortRoundTrip(samples[0]);
      PcmRoundTrip(samples[1..]);
    }
  }

  /** Values in `[-1, 1]` always fit: they quantize into `[-32767, 32767]`,
      truncated toward zero, so the result never exceeds `32767 * |v|`. */
  lemma QuantizeInRange(v: real)
    requires -1.0 <= v <= 1.0
    ensures IsShort(Quantize(v)) && -32767 <= Quantize(v)
    ensures 0.0 <= v ==> 0 <= Quantize(v) && Quantize(v) as real <= 32767.0 * v
    ensures v < 0.0 ==> Quantize(v) <= 0 && 32767.0 * v <= Quantize(v) as real
  {
  }

  // ------------------------------------------------------- pack_pcm_data

  /** Puts one more sample in front of a partial result. */
  function Cons(q: int, r: Result<seq<int>>): Result<seq<int>>
  {
    if r.Ok? then Ok([q] + r.value) else r
  }

  /** Puts samples already packed in front of the rest of the work. */
  function Extend(done: seq<int>, rest: (Result<seq<int>>, Cursor)): (Result<seq<int>>, Cursor)
  {
    (if rest.0.Ok? then Ok(done + rest.0.value) else rest.0, rest.1)
  }

  /** `array('h', (int(amplitude_scale * v) for v in islice(stream, n)))`:
      at most `n` pulls, stopping early when the stream is exhausted,
      raising what the stream raises and `OverflowError` at the first
      sample outside the signed 16-bit range; with the stream's state
      afterwards. */
  function Pack(c: Cursor, n: nat): (r: (Result<seq<int>>, Cursor))
    ensures r.0.Ok? ==> AllShort(r.0.value) && |r.0.value| <= n
    decreases n
  {
    if n == 0 then (Ok([]), c)
    else
      var (p, c1) := Step(c);
      match p
      case Exhausted => (Ok([]), c1)
      case Fails(e) => (Err(e), c1)
      case Value(v) =>
        if !IsShort(Quantize(v)) then (Err(OverflowError), c1)
        else var rest := Pack(c1, n - 1); (Cons(Quantize(v), rest.0), rest.1)
  }

  /** `pack_pcm_data(stream, length)`: a negative sample count is refused
      by `islice`; otherwise the packed bytes. */
  function PackedPcm(framerate: int, c: Cursor, length: real): (Result<seq<byte>>, Cursor)
  {
    var n := SampleCount(framerate, length);
    if n < 0 then (Err(ValueError), c)
    else
      var r := Pack(c, n);
      (if r.0.Ok? then Ok(PcmBytes(r.0.value)) else Err(r.0.error), r.1)
  }

  /** One pull of `Pack`. */
  lemma PackStep(c: Cursor, n: nat, p: Pull, c1: Cursor)
    requires n > 0 && Step(c) == (p, c1)
    ensures p.Exhausted? ==> Pack(c, n) == (Ok([]), c1)
    ensures p.Fails? ==> Pack(c, n) == (Err(p.error), c1)
    ensures p.Value? && !IsShort(Quantize(p.v)) ==> Pack(c, n) == (Err(OverflowError), c1)
    ensures p.Value? && IsShort(Quantize(p.v)) ==>
      Pack(c, n) == (Cons(Quantize(p.v), Pack(c1, n - 1).0), Pack(c1, n - 1).1)
  {
  }

  lemma ExtendCons(done: seq<int>, q: int, rest: (Result<seq<int>>, Cursor))
    ensures Extend(done + [q], rest) == Extend(done, (Cons(q, rest.0), rest.1))
  {
    if rest.0.Ok? {
      assert done + [q] + rest.0.value == done + ([q] + rest.0.value);
    }
  }

  /** `Synthesizer.pack_pcm_data`. */
  method PackPcmData(s: Synth, stream: WaveStream, length: real) returns (r: Result<seq<byte>>)
    modifies stream
    ensures (r, stream.State()) == PackedPcm(s.framerate, old(stream.State()), length)
  {
    var n := SampleCount(s.framerate, length);
    if n < 0 {
      return Err(ValueError);
    }
    var samples := PackSamples(stream, n);
    if samples.Err? {
      return Err(samples.error);
    }
    r := Ok(PcmBytes(samples.value));
  }

  /** The samples `array('h', ...)` collects from `islice(stream, n)`. */
  method PackSamples(stream: WaveStream, n: nat) returns (r: Result<seq<int>>)
    modifies stream
    ensures (r, stream.State()) == Pack(old(stream.State()), n)
  {
    ghost var c0 := stream.State();
    var samples: seq<int> := [];
    var k := 0;
    assert Pack(c0, n).0.Ok? ==> [] + Pack(c0, n).0.value == Pack(c0, n).0.value;
    while k < n
      invariant 0 <= k <= n && |samples| == k && AllShort(samples)
      invariant Pack(c0, n) == Extend(samples, Pack(stream.State(), n - k))
    {
      ghost var before := stream.State();
      var p := stream.Next();
      PackStep(before, n - k, p, stream.State());
      match p {
        case Exhausted =>
          break;
        case Fails(e) =>
          return Err(e);
        case Value(v) =>
          var q := Quantize(v);
          if !(-32768 <= q <= 32767) {
            return Err(OverflowError);
          }
          ExtendCons(samples, q, Pack(stream.State(), n - k - 1));
          samples := samples + [q];
          k := k + 1;
      }
    }
    assert Pack(stream.State(), n - k).0 == Ok([]);
    assert samples + [] == samples;
    r := Ok(samples);
  }

  // ------------------------------------------------------------ wave_data

  /** `[next(stream) for _ in range(n)]`: exactly `n` pulls, StopIteration
      when the stream runs dry first. */
  function Take(c: Cursor, n: nat): (r: (Result<seq<real>>, Cursor))
    ensures r.0.Ok? ==> |r.0.value| == n
    decreases n
  {
    if n == 0 then (Ok([]), c)
    else
      var (p, c1) := Step(c);
      match p
      case Exhausted => (Err(StopIteration), c1)
      case Fails(e) => (Err(e), c1)
      case Value(v) =>
        var rest := Take(c1, n - 1);
        (if rest.0.Ok? then Ok([v] + rest.0.value) else rest.0, rest.1)
  }

  /** One pull of `Take`. */
  lemma TakeStep(c: Cursor, n: nat, p: Pull, c1: Cursor)
    requires n > 0 && Step(c) == (p, c1)
    ensures p.Exhausted? ==> Take(c, n) == (Err(StopIteration), c1)
    ensures p.Fails? ==> Take(c, n) == (Err(p.error), c1)
    ensures p.Value? ==>
      Take(c, n) == (if Take(c1, n - 1).0.Ok? then Ok([p.v] + Take(c1, n - 1).0.value) else Take(c1, n - 1).0,
                     Take(c1, n - 1).1)
  {
  }

  function QuantizeAll(values: seq<real>): (q: seq<int>)
    ensures |q| == |values| && forall k :: 0 <= k < |values| ==> q[k] == Quantize(values[k])
  {
    seq(|values|, k requires 0 <= k < |values| => Quantize(values[k]))
  }

  /** `wave_data(stream, length, riff_header)`: the whole list of samples is
      drawn first (`range` of a negative count is empty), then the array
      range-checks them, then the header is added when asked for. */
  function WaveBytes(framerate: int, c: Cursor, length: real, riffHeader: bool): (Result<seq<byte>>, Cursor)
  {
    var t := Take(c, Count(SampleCount(framerate, length)));
    if t.0.Err? then (Err(t.0.error), t.1)
    else
      var samples := QuantizeAll(t.0.value);
      if !AllShort(samples) then (Err(OverflowError), t.1)
      else
        var data := PcmBytes(samples);
        (if riffHeader then Wave.AddWaveHeader(framerate, data) else Ok(data), t.1)
  }

  /** `Synthesizer.wave_data`. */
  method WaveData(s: Synth, stream: WaveStream, length: real, riffHeader: bool) returns (r: Result<seq<byte>>)
    modifies stream
    ensures (r, stream.State()) == WaveBytes(s.framerate, old(stream.State()), length, riffHeader)
  {
    var n := SampleCount(s.framerate, length);
    ghost var c0 := stream.State();
    var values: seq<real> := [];
    var k := 0;
    assert Take(c0, Count(n)).0.Ok? ==> [] + Take(c0, Count(n)).0.value == Take(c0, Count(n)).0.value;
    while k < n
      invariant 0 <= k <= Count(n) && |values| == k
      invariant Take(c0, Count(n)) == TakeExtend(values, Take(stream.State(), Count(n) - k))
    {
      ghost var before := stream.State();
      var p := stream.Next();
      TakeStep(before, Count(n) - k, p, stream.State());
      match p {
        case Exhausted =>
          assert Take(c0, Count(n)) == (Err(StopIteration), stream.State());
          return Err(StopIteration);
        case Fails(e) =>
          assert Take(c0, Count(n)) == (Err(e), stream.State());
          return Err(e);
        case Value(v) =>
          TakeExtendCons(values, v, Take(stream.State(), Count(n) - k - 1));
          values := values + [v];
          k := k + 1;
      }
    }
    assert values + [] == values;
    assert Take(c0, Count(n)) == (Ok(values), stream.State());
    var samples := ShortArray(values);
    if samples.Err? {
      return Err(samples.error);
    }
    var data := PcmBytes(samples.value);
    if riffHeader {
      r := Wave.AddWaveHeader(s.framerate, data);
    } else {
      r := Ok(data);
    }
  }

  /** `array('h', [int(amplitude_scale * v) for v in values])`: every value
      quantized, and OverflowError if any of them does not fit. */
  method ShortArray(values: seq<real>) returns (r: Result<seq<int>>)
    ensures AllShort(QuantizeAll(values)) ==> r == Ok(QuantizeAll(values))
    ensures !AllShort(QuantizeAll(values)) ==> r == Err(OverflowError)
  {
    var samples: seq<int> := [];
    var j := 0;
    while j < |values|
      invariant 0 <= j <= |values| && samples == QuantizeAll(values[..j]) && AllShort(samples)
    {
      var q := Quantize(values[j]);
      if !(-32768 <= q <= 32767) {
        assert !IsShort(QuantizeAll(values)[j]);
        return Err(OverflowError);
      }
      assert values[..j + 1] == values[..j] + [values[j]];
      samples := samples + [q];
      j := j + 1;
    }
    assert values[..j] == values;
    r := Ok(samples);
  }

  function TakeExtend(done: seq<real>, rest: (Result<seq<real>>, Cursor)): (Result<seq<real>>, Cursor)
  {
    (if rest.0.Ok? then Ok(done + rest.0.value) else rest.0, rest.1)
  }

  lemma TakeExtendCons(done: seq<real>, v: real, rest: (Result<seq<real>>, Cursor))
    ensures TakeExtend(done + [v], rest)
         == TakeExtend(done, (if rest.0.Ok? then Ok([v] + rest.0.value) else rest.0, rest.1))
  {
    if rest.0.Ok? {
      assert done + [v] + rest.0.value == done + ([v] + rest.0.value);
    }
  }

  // ------------------------------------------------------------ properties

  /** The values carried by pulls that all give values. */
  function ValuesOf(pulls: seq<Pull>): (vs: seq<real>)
    requires forall k :: 0 <= k < |pulls| ==> pulls[k].Value?
    ensures |vs| == |pulls| && forall k :: 0 <= k < |pulls| ==> pulls[k] == Value(vs[k])
  {
    if pulls == [] then [] else [pulls[0].v] + ValuesOf(pulls[1..])
  }

  /** `n` pulls that all give values: `wave_data` draws exactly those values. */
  lemma {:induction false} TakeOfValues(c: Cursor, n: nat)
    requires forall k :: 0 <= k < n ==> Pulls(c, n)[k].Value?
    ensures Take(c, n).0 == Ok(ValuesOf(Pulls(c, n)))
    decreases n
  {
    if n > 0 {
      var c1 := Step(c).1;
      assert Pulls(c, n)[1..] == Pulls(c1, n - 1);
      TakeOfValues(c1, n - 1);
      TakeStep(c, n, Pulls(c, n)[0], c1);
    }
  }

  /** `n` pulls that all give values that fit 16 bits: `pack_pcm_data`
      packs exactly the quantized values that `wave_data` draws, and leaves
      the stream where `wave_data` leaves it. */
  lemma {:induction false} PackOfValues(c: Cursor, n: nat)
    requires forall k :: 0 <= k < n ==> Pulls(c, n)[k].Value? && IsShort(Quantize(Pulls(c, n)[k].v))
    ensures Take(c, n).0 == Ok(ValuesOf(Pulls(c, n)))
    ensures Pack(c, n) == (Ok(QuantizeAll(ValuesOf(Pulls(c, n)))), Take(c, n).1)
    decreases n
  {
    TakeOfValues(c, n);
    if n > 0 {
      var p, c1 := Step(c).0, Step(c).1;
      var ps := Pulls(c, n);
      assert ps[0] == p && ps[1..] == Pulls(c1, n - 1);
      PackOfValues(c1, n - 1);
      PackStep(c, n, p, c1);
      TakeStep(c, n, p, c1);
      QuantizeAllCons(p.v, ValuesOf(Pulls(c1, n - 1)));
    }
  }

  lemma QuantizeAllCons(v: real, vs: seq<real>)
    ensures QuantizeAll([v] + vs) == [Quantize(v)] + QuantizeAll(vs)
  {
  }

  /** On a stream that supplies every requested sample, in range,
      `wave_data(..., False)` is `pack_pcm_data`, and `wave_data(..., True)`
      is `add_wave_header` applied to it. */
  lemma PackersAgree(framerate: int, c: Cursor, length: real)
    requires 0 <= SampleCount(framerate, length)
    requires var n := SampleCount(framerate, length);
      forall k :: 0 <= k < n ==> Pulls(c, n)[k].Value? && IsShort(Quantize(Pulls(c, n)[k].v))
    ensures PackedPcm(framerate, c, length).0.Ok?
    ensures WaveBytes(framerate, c, length, false) == PackedPcm(framerate, c, length)
    ensures WaveBytes(framerate, c, length, true)
         == (Wave.AddWaveHeader(framerate, PackedPcm(framerate, c, length).0.value), PackedPcm(framerate, c, length).1)
  {
    PackOfValues(c, SampleCount(framerate, length));
  }

  /** Packing a lookup-table stream whose entries lie in `[-1, 1]` never
      fails: it gives two bytes for each of the `int(framerate * length)`
      samples, and sample `k` is the quantized table entry at
      `(start + k) % period`. */
  lemma PackCycle(framerate: int, table: seq<real>, period: int, start: nat, length: real)
    requires IsTable(table, period) && period > 0 && 0 <= SampleCount(framerate, length)
    requires forall i :: 0 <= i < |table| ==> -1.0 <= table[i] <= 1.0
    ensures var r := PackedPcm(framerate, Cursor(Cycle(table, period), start, false), length).0;
      r.Ok? && |r.value| == 2 * SampleCount(framerate, length) &&
      forall k :: 0 <= k < SampleCount(framerate, length) ==>
        PcmSamples(r.value)[k] == Quantize(table[(start + k) % period])
  {
    var c := Cursor(Cycle(table, period), start, false);
    var n := SampleCount(framerate, length);
    CyclePulls(table, period, start, n);
    forall k | 0 <= k < n ensures IsShort(Quantize(Pulls(c, n)[k].v)) {
      QuantizeInRange(table[(start + k) % period]);
    }
    PackOfValues(c, n);
    var samples := Pack(c, n).0.value;
    PcmRoundTrip(samples);
  }

  lemma {:induction false} PackFinite(values: seq<real>, pos: nat, n: nat)
    requires pos <= |values| && |values| - pos <= n
    requires forall k :: pos <= k < |values| ==> IsShort(Quantize(values[k]))
    ensures Pack(Cursor(Finite(values), pos, false), n).0 == Ok(QuantizeAll(values[pos..]))
    decreases |values| - pos
  {
    if pos < |values| {
      PackFinite(values, pos + 1, n - 1);
      assert values[pos..] == [values[pos]] + values[pos + 1..];
      assert QuantizeAll(values[pos..]) == [Quantize(values[pos])] + QuantizeAll(values[pos + 1..]);
    } else {
      assert QuantizeAll(values[pos..]) == [];
    }
  }

  lemma {:induction false} TakeFinite(values: seq<real>, pos: nat, n: nat)
    requires pos <= |values| && |values| - pos < n
    ensures Take(Cursor(Finite(values), pos, false), n).0 == Err(StopIteration)
    decreases |values| - pos
  {
    if pos < |values| {
      TakeFinite(values, pos + 1, n - 1);
    }
  }

  /** A stream that runs dry before `int(framerate * length)` samples:
      `pack_pcm_data` quietly packs the samples there are, while
      `wave_data` raises StopIteration, header or not. */
  lemma ShortStream(framerate: int, values: seq<real>, length: real, riffHeader: bool)
    requires |values| < SampleCount(framerate, length)
    requires forall k :: 0 <= k < |values| ==> -1.0 <= values[k] <= 1.0
    ensures var r := PackedPcm(framerate, Cursor(Finite(values), 0, false), length).0;
      r.Ok? && |r.value| == 2 * |values| && PcmSamples(r.value) == QuantizeAll(values)
    ensures WaveBytes(framerate, Cursor(Finite(values), 0, false), length, riffHeader).0 == Err(StopIteration)
  {
    forall k | 0 <= k < |values| ensures IsShort(Quantize(values[k])) {
      QuantizeInRange(values[k]);
    }
    PackFinite(values, 0, SampleCount(framerate, length));
    assert values[0..] == values;
    PcmRoundTrip(QuantizeAll(values));
    TakeFinite(values, 0, SampleCount(framerate, length));
  }

  /** The triangle table as written overshoots the 16-bit range: at 44100
      frames per second and 882 Hz the period is 50 samples, the first
      entry is -1.02, which quantizes to -33422, and both packers raise
      OverflowError on the very first sample. */
  lemma TriangleAsWrittenOverflows()
    ensures TriangleGeneratorAsWritten(DefaultSynth, 882.0).Ok?
    ensures var c := Cursor(TriangleGeneratorAsWritten(DefaultSynth, 882.0).value, 0, false);
      PackedPcm(44100, c, 1.0).0 == Err(OverflowError) &&
      WaveBytes(44100, c, 1.0, false).0 == Err(OverflowError)
  {
    assert 44100.0 / 882.0 == 50.0;
    assert Period(44100, 882.0) == Ok(50);
    var src := TriangleGeneratorAsWritten(DefaultSynth, 882.0).value;
    var table := TriangleTableAsWritten(1.0, 50);
    assert src == Cycle(table, 50);
    assert table[0] == (1.0 / 25.0) * (25.0 - 25.0 * 2.0 - 1.0) + 0.02;
    assert table[0] == -1.02;
    assert Quantize(-1.02) == -33422;
    var c := Cursor(src, 0, false);
    assert SampleCount(44100, 1.0) == 44100;
    PackStep(c, 44100, Step(c).0, Step(c).1);
    CyclePulls(table, 50, 0, 44100);
    TakeOfValues(c, 44100);
    assert QuantizeAll(Take(c, 44100).0.value)[0] == -33422;
  }

  /** With the corrected triangle table and an amplitude in `[0, 1]`, every
      sample fits: packing gives the full `int(framerate * length)` samples,
      and the first one is `-int(32767 * amplitude)`. */
  lemma TrianglePcmFits(s: Synth, frequency: real, length: real)
    requires 0.0 <= s.amplitude <= 1.0 && 0.0 < frequency
    requires Period(s.framerate, frequency).value > 0 && 0 < SampleCount(s.framerate, length)
    ensures var r := PackedPcm(s.framerate, Cursor(TriangleGenerator(s, frequency).value, 0, false), length).0;
      r.Ok? && |r.value| == 2 * SampleCount(s.framerate, length) &&
      PcmSamples(r.value)[0] == Quantize(-s.amplitude)
  {
    var period := Period(s.framerate, frequency).value;
    var table := TriangleTable(s.amplitude, period);
    TriangleTableBounded(s.amplitude, period);
    PackCycle(s.framerate, table, period, 0, length);
  }
}
