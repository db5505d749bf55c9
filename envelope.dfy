/** `Synthesizer.adsr_envelope`: an attack-decay-sustain-release list of
    amplitude multipliers. The times are in milliseconds (the scale is
    `framerate / 1000` samples per unit), and each segment's sample count is
    truncated on its own. */
module Envelope {
  import opened Base
  import opened Oscillators

  /** `byte_scale = self.framerate / 1000`: samples per millisecond. */
  function ByteScale(framerate: int): real
  {
    framerate as real / 1000.0
  }

  /** The sample counts of the four segments. */
  datatype Counts = Counts(attack: int, decay: int, sustain: int, release: int)

  /** `int(byte_scale * t)` for each segment; the sustain time is what
      `length` leaves after the other three. */
  function SegmentCounts(framerate: int, attack: real, decay: real, release: real, length: real): Counts
  {
    var bs := ByteScale(framerate);
    Counts(Trunc(bs * attack), Trunc(bs * decay), Trunc(bs * (length - (attack + decay + release))), Trunc(bs * release))
  }

  /** The attack loop: `i / n` for `i` in `range(1, n + 1)`. */
  function Rise(n: int): (e: seq<real>)
    ensures |e| == Count(n)
  {
    seq(Count(n), k requires 0 <= k < Count(n) => (k + 1) as real / n as real)
  }

  /** The decay and release loops: `start - i * step` for `i` in `range(1, n + 1)`. */
  function Fall(n: int, start: real, step: real): (e: seq<real>)
    ensures |e| == Count(n)
  {
    seq(Count(n), k requires 0 <= k < Count(n) => start - (k + 1) as real * step)
  }

  /** The sustain loop: `n` copies of `level`. */
  function Hold(n: int, level: real): (e: seq<real>)
    ensures |e| == Count(n)
  {
    seq(Count(n), k requires 0 <= k < Count(n) => level)
  }

  /** The four segments, one after the other. */
  function Shape(c: Counts, sustainLevel: real): (e: seq<real>)
    requires c.decay != 0 && c.release != 0
    ensures |e| == Count(c.attack) + Count(c.decay) + Count(c.sustain) + Count(c.release)
  {
    Rise(c.attack) + Fall(c.decay, 1.0, (1.0 - sustainLevel) / c.decay as real)
    + Hold(c.sustain, sustainLevel) + Fall(c.release, sustainLevel, sustainLevel / c.release as real)
  }

  /** What `adsr_envelope` returns, or the ZeroDivisionError that computing
      `decay_step` or `release_step` raises when that segment has no
      samples. */
  function Adsr(framerate: int, attack: real, decay: real, release: real, length: real, sustainLevel: real)
    : Result<seq<real>>
  {
    var c := SegmentCounts(framerate, attack, decay, release, length);
    if c.decay == 0 || c.release == 0 then Err(ZeroDivisionError) else Ok(Shape(c, sustainLevel))
  }

  /** `Synthesizer.adsr_envelope`. */
  method AdsrEnvelope(s: Synth, attack: real, decay: real, release: real, length: real, sustainLevel: real)
    returns (r: Result<seq<real>>)
    ensures r == Adsr(s.framerate, attack, decay, release, length, sustainLevel)
  {
    var c := SegmentCounts(s.framerate, attack, decay, release, length);
    var attackBytes, decayBytes, sustainBytes, releaseBytes := c.attack, c.decay, c.sustain, c.release;
    if decayBytes == 0 {
      return Err(ZeroDivisionError);
    }
    var decayStep := (1.0 - sustainLevel) / decayBytes as real;
    if releaseBytes == 0 {
      return Err(ZeroDivisionError);
    }
    var releaseStep := sustainLevel / releaseBytes as real;

    var envelope := AppendRise([], attackBytes);
    assert envelope == Rise(attackBytes);
    envelope := AppendFall(envelope, decayBytes, 1.0, decayStep);
    envelope := AppendHold(envelope, sustainBytes, sustainLevel);
    envelope := AppendFall(envelope, releaseBytes, sustainLevel, releaseStep);
    assert envelope == Shape(c, sustainLevel);
    r := Ok(envelope);
  }

  /** The attack loop of `adsr_envelope`: appends `i / n` for `i` in
      `range(1, n + 1)`. */
  method AppendRise(envelope: seq<real>, n: int) returns (e: seq<real>)
    ensures e == envelope + Rise(n)
  {
    e := envelope;
    var i := 1;
    while i < n + 1
      invariant 1 <= i <= Count(n) + 1
      invariant e == envelope + Rise(n)[..i - 1]
    {
      RiseNext(n, i);
      e := e + [i as real / n as real];
      i := i + 1;
    }
    assert Rise(n)[..i - 1] == Rise(n);
  }

  /** The decay and release loops of `adsr_envelope`: append
      `start - i * step` for `i` in `range(1, n + 1)`. */
  method AppendFall(envelope: seq<real>, n: int, start: real, step: real) returns (e: seq<real>)
    ensures e == envelope + Fall(n, start, step)
  {
    e := envelope;
    var i := 1;
    while i < n + 1
      invariant 1 <= i <= Count(n) + 1
      invariant e == envelope + Fall(n, start, step)[..i - 1]
    {
      FallNext(n, start, step, i);
      e := e + [start - i as real * step];
      i := i + 1;
    }
    assert Fall(n, start, step)[..i - 1] == Fall(n, start, step);
  }

  /** The sustain loop of `adsr_envelope`: appends `level` `n` times. */
  method AppendHold(envelope: seq<real>, n: int, level: real) returns (e: seq<real>)
    ensures e == envelope + Hold(n, level)
  {
    e := envelope;
    var i := 1;
    while i < n + 1
      invariant 1 <= i <= Count(n) + 1
      invariant e == envelope + Hold(n, level)[..i - 1]
    {
      assert Hold(n, level)[..i] == Hold(n, level)[..i - 1] + [level];
      e := e + [level];
      i := i + 1;
    }
    assert Hold(n, level)[..i - 1] == Hold(n, level);
  }

  lemma RiseNext(n: int, i: int)
    requires 1 <= i <= Count(n)
    ensures Rise(n)[..i] == Rise(n)[..i - 1] + [i as real / n as real]
  {
    assert Rise(n)[i - 1] == i as real / n as real;
  }

  lemma FallNext(n: int, start: real, step: real, i: int)
    requires 1 <= i <= Count(n)
    ensures Fall(n, start, step)[..i] == Fall(n, start, step)[..i - 1] + [start - i as real * step]
  {
    assert Fall(n, start, step)[i - 1] == start - i as real * step;
  }

  // ------------------------------------------------------------ properties

  /** The envelope fails exactly when the decay or the release segment has
      no samples (whatever the attack count), and otherwise holds one entry
      per sample of the four segments. */
  lemma AdsrLength(framerate: int, attack: real, decay: real, release: real, length: real, sustainLevel: real)
    ensures var c := SegmentCounts(framerate, attack, decay, release, length);
      var r := Adsr(framerate, attack, decay, release, length, sustainLevel);
      (r.Err? <==> c.decay == 0 || c.release == 0) &&
      (r.Err? ==> r.error == ZeroDivisionError) &&
      (r.Ok? ==> |r.value| == Count(c.attack) + Count(c.decay) + Count(c.sustain) + Count(c.release))
  {
  }

  /** When `length` is shorter than the three timed segments, the sustain
      segment is empty and nothing is raised on its account. */
  lemma ShortLengthEmptySustain(framerate: int, attack: real, decay: real, release: real, length: real, sustainLevel: real)
    requires 0 <= framerate && length < attack + decay + release
    ensures var c := SegmentCounts(framerate, attack, decay, release, length);
      var r := Adsr(framerate, attack, decay, release, length, sustainLevel);
      Count(c.sustain) == 0 &&
      (r.Ok? ==> |r.value| == Count(c.attack) + Count(c.decay) + Count(c.release))
  {
    var bs := ByteScale(framerate);
    var t := length - (attack + decay + release);
    assert bs * t <= 0.0 by {
      assert 0.0 <= bs && t < 0.0;
    }
  }

  /** A falling segment of `n` steps of `drop / n` from `start`: every
      entry lies between `start - drop` and `start`, and the last one is
      exactly `start - drop`. */
  lemma FallBetween(n: int, start: real, drop: real)
    requires 0 < n && 0.0 <= drop
    ensures var e := Fall(n, start, drop / n as real);
      e[n - 1] == start - drop && forall k :: 0 <= k < n ==> start - drop <= e[k] <= start
  {
    var e := Fall(n, start, drop / n as real);
    forall k | 0 <= k < n ensures start - drop <= e[k] <= start {
      StepWithin(k + 1, n, drop);
    }
    StepsTotal(n, drop);
  }

  /** `j` steps of `drop / n` stay within `[0, drop]`. */
  lemma StepWithin(j: int, n: int, drop: real)
    requires 0 < j <= n && 0.0 <= drop
    ensures 0.0 <= j as real * (drop / n as real) <= drop
  {
    var step := drop / n as real;
    StepsTotal(n, drop);
    assert 0.0 <= step;
    assert j as real * step <= n as real * step;
  }

  /** `n` steps of `drop / n` make exactly `drop`. */
  lemma StepsTotal(n: int, drop: real)
    requires 0 < n
    ensures n as real * (drop / n as real) == drop
  {
  }

  /** The attack ramp rises in steps of `1 / n` and ends at exactly 1. */
  lemma RiseBetween(n: int)
    requires 0 < n
    ensures var e := Rise(n); e[n - 1] == 1.0 && forall k :: 0 <= k < n ==> 0.0 < e[k] <= 1.0
  {
    var e := Rise(n);
    forall k | 0 <= k < n ensures 0.0 < e[k] <= 1.0 {
      assert e[k] == (k + 1) as real / n as real;
      assert (k + 1) as real <= n as real;
    }
  }

  lemma Concat4(a: seq<real>, b: seq<real>, c: seq<real>, d: seq<real>, k: int)
    requires 0 <= k < |a| + |b| + |c| + |d|
    ensures var e := a + b + c + d;
      (k < |a| ==> e[k] == a[k]) &&
      (|a| <= k < |a| + |b| ==> e[k] == b[k - |a|]) &&
      (|a| + |b| <= k < |a| + |b| + |c| ==> e[k] == c[k - |a| - |b|]) &&
      (|a| + |b| + |c| <= k ==> e[k] == d[k - |a| - |b| - |c|])
  {
  }

  /** With a decay and a release of at least one frame each: a non-empty
      attack ends at exactly 1, the decay ends at exactly `sustain_level`,
      the sustain (possibly empty) holds `sustain_level` throughout, and the
      release ends at exactly 0. */
  lemma ShapeEndpoints(c: Counts, sustainLevel: real)
    requires 0 < c.decay && 0 < c.release
    ensures var e := Shape(c, sustainLevel); var ad := Count(c.attack) + c.decay;
      (0 < c.attack ==> e[c.attack - 1] == 1.0) &&
      e[ad - 1] == sustainLevel &&
      (forall k :: ad <= k < ad + Count(c.sustain) ==> e[k] == sustainLevel) &&
      e[|e| - 1] == 0.0
  {
    var a, d, h, z := Rise(c.attack), Fall(c.decay, 1.0, (1.0 - sustainLevel) / c.decay as real),
                      Hold(c.sustain, sustainLevel), Fall(c.release, sustainLevel, sustainLevel / c.release as real);
    var e := Shape(c, sustainLevel);
    assert e == a + d + h + z;
    if 0 < c.attack {
      RiseBetween(c.attack);
      Concat4(a, d, h, z, c.attack - 1);
    }
    StepsTotal(c.decay, 1.0 - sustainLevel);
    assert d[c.decay - 1] == sustainLevel;
    Concat4(a, d, h, z, |a| + c.decay - 1);
    forall k | |a| + c.decay <= k < |a| + c.decay + |h| ensures e[k] == sustainLevel {
      Concat4(a, d, h, z, k);
    }
    StepsTotal(c.release, sustainLevel);
    assert z[c.release - 1] == 0.0;
    Concat4(a, d, h, z, |e| - 1);
  }

  /** The endpoints of `adsr_envelope` (see `ShapeEndpoints`) for the
      counts it derives from its arguments, whenever the decay and release
      spans are at least one frame long. */
  lemma AdsrEndpoints(framerate: int, attack: real, decay: real, release: real, length: real, sustainLevel: real)
    requires var c := SegmentCounts(framerate, attack, decay, release, length);
      0 < c.decay && 0 < c.release
    ensures var c := SegmentCounts(framerate, attack, decay, release, length);
      var r := Adsr(framerate, attack, decay, release, length, sustainLevel);
      var ad := Count(c.attack) + c.decay;
      r.Ok? && r.value == Shape(c, sustainLevel) &&
      (0 < c.attack ==> r.value[c.attack - 1] == 1.0) &&
      r.value[ad - 1] == sustainLevel &&
      (forall k :: ad <= k < ad + Count(c.sustain) ==> r.value[k] == sustainLevel) &&
      r.value[|r.value| - 1] == 0.0
  {
    ShapeEndpoints(SegmentCounts(framerate, attack, decay, release, length), sustainLevel);
  }

  /** With `0 <= sustain_level <= 1`, every multiplier lies in `[0, 1]`. */
  lemma ShapeBounded(c: Counts, sustainLevel: real)
    requires 0.0 <= sustainLevel <= 1.0 && c.decay != 0 && c.release != 0
    ensures var e := Shape(c, sustainLevel); forall k :: 0 <= k < |e| ==> 0.0 <= e[k] <= 1.0
  {
    var a, d, h, z := Rise(c.attack), Fall(c.decay, 1.0, (1.0 - sustainLevel) / c.decay as real),
                      Hold(c.sustain, sustainLevel), Fall(c.release, sustainLevel, sustainLevel / c.release as real);
    var e := Shape(c, sustainLevel);
    assert e == a + d + h + z;
    if 0 < c.attack {
      RiseBetween(c.attack);
    }
    if 0 < c.decay {
      FallBetween(c.decay, 1.0, 1.0 - sustainLevel);
    }
    if 0 < c.release {
      FallBetween(c.release, sustainLevel, sustainLevel);
    }
    forall k | 0 <= k < |e| ensures 0.0 <= e[k] <= 1.0 {
      Concat4(a, d, h, z, k);
    }
  }

  lemma AdsrBounded(framerate: int, attack: real, decay: real, release: real, length: real, sustainLevel: real)
    requires 0.0 <= sustainLevel <= 1.0
    requires Adsr(framerate, attack, decay, release, length, sustainLevel).Ok?
    ensures var e := Adsr(framerate, attack, decay, release, length, sustainLevel).value;
      forall k :: 0 <= k < |e| ==> 0.0 <= e[k] <= 1.0
  {
    ShapeBounded(SegmentCounts(framerate, attack, decay, release, length), sustainLevel);
  }

  /** Scenario at 44100 frames per second with attack 50, decay 100 and
      release 300 milliseconds, length 1000 and sustain level 0.5: 44100
      multipliers, starting at `1/2205`, with the decay ending at 0.5 and
      the release ending at 0. */
  lemma AdsrExample()
    ensures var r := Adsr(44100, 50.0, 100.0, 300.0, 1000.0, 0.5);
      r.Ok? && |r.value| == 44100 && r.value[0] == 1.0 / 2205.0 &&
      r.value[2205 + 4410 - 1] == 0.5 && r.value[44099] == 0.0
  {
    assert ByteScale(44100) == 44.1;
    var c := SegmentCounts(44100, 50.0, 100.0, 300.0, 1000.0);
    assert 44.1 * 50.0 == 2205.0 && 44.1 * 100.0 == 4410.0 && 44.1 * 300.0 == 13230.0;
    assert 44.1 * (1000.0 - (50.0 + 100.0 + 300.0)) == 24255.0;
    assert c == Counts(2205, 4410, 24255, 13230);
    AdsrEndpoints(44100, 50.0, 100.0, 300.0, 1000.0, 0.5);
    var a, d, h, z := Rise(2205), Fall(4410, 1.0, 0.5 / 4410.0), Hold(24255, 0.5), Fall(13230, 0.5, 0.5 / 13230.0);
    Concat4(a, d, h, z, 0);
  }

  // ------------------------------------------ total length of the envelope

  /** As written, the total length is the sum of four separately truncated
      counts, which can fall up to 3 samples short of `int(byte_scale *
      length)` (for non-negative times that cover `length`). */
  lemma AdsrLengthBounds(framerate: int, attack: real, decay: real, release: real, length: real, sustainLevel: real)
    requires 0 <= framerate && 0.0 <= attack && 0.0 <= decay && 0.0 <= release && attack + decay + release <= length
    requires Adsr(framerate, attack, decay, release, length, sustainLevel).Ok?
    ensures var n := |Adsr(framerate, attack, decay, release, length, sustainLevel).value|;
      var total := Trunc(ByteScale(framerate) * length);
      total - 3 <= n <= total
  {
    ScaledParts(framerate, attack, decay, release, length);
    var bs := ByteScale(framerate);
    var sustain := length - (attack + decay + release);
    TruncOfFour(bs * attack, bs * decay, bs * sustain, bs * release);
  }

  /** The four scaled times are non-negative and add up to the scaled length. */
  lemma ScaledParts(framerate: int, attack: real, decay: real, release: real, length: real)
    requires 0 <= framerate && 0.0 <= attack && 0.0 <= decay && 0.0 <= release && attack + decay + release <= length
    ensures var bs, sustain := ByteScale(framerate), length - (attack + decay + release);
      bs * length == bs * attack + bs * decay + bs * sustain + bs * release &&
      0.0 <= bs * attack && 0.0 <= bs * decay && 0.0 <= bs * sustain && 0.0 <= bs * release
  {
  }

  /** Truncating four non-negative parts separately loses at most 3 against
      truncating their sum. */
  lemma TruncOfFour(x: real, y: real, z: real, w: real)
    requires 0.0 <= x && 0.0 <= y && 0.0 <= z && 0.0 <= w
    ensures var t := Trunc(x + y + z + w);
      t - 3 <= Count(Trunc(x)) + Count(Trunc(y)) + Count(Trunc(z)) + Count(Trunc(w)) <= t
  {
    TruncOfSum(x, y);
    TruncOfSum(x + y, z);
    TruncOfSum(x + y + z, w);
  }

  /** At 1500 frames per second (1.5 samples per millisecond) with 1 ms
      each of attack, decay and release and a 4 ms length, the envelope as
      written has 4 entries where `int(1.5 * 4) = 6` were meant. */
  lemma AdsrShortfall()
    ensures var r := Adsr(1500, 1.0, 1.0, 1.0, 4.0, 0.5);
      r.Ok? && |r.value| == 4 && Trunc(ByteScale(1500) * 4.0) == 6
  {
    assert ByteScale(1500) == 1.5;
    assert SegmentCounts(1500, 1.0, 1.0, 1.0, 4.0) == Counts(1, 1, 1, 1);
  }

  /** The evidently intended envelope: the sustain segment takes all the
      samples of `int(byte_scale * length)` that the other three leave. */
  function AdsrFilled(framerate: int, attack: real, decay: real, release: real, length: real, sustainLevel: real)
    : Result<seq<real>>
  {
    var c := SegmentCounts(framerate, attack, decay, release, length);
    var sustain := Trunc(ByteScale(framerate) * length) - Count(c.attack) - Count(c.decay) - Count(c.release);
    if c.decay == 0 || c.release == 0 then Err(ZeroDivisionError)
    else Ok(Shape(c.(sustain := sustain), sustainLevel))
  }

  /** The corrected envelope has exactly `int(byte_scale * length)` entries
      whenever the times are non-negative and cover `length`, and fails in
      exactly the cases the original does. */
  lemma AdsrFilledLength(framerate: int, attack: real, decay: real, release: real, length: real, sustainLevel: real)
    requires 0 <= framerate && 0.0 <= attack && 0.0 <= decay && 0.0 <= release && attack + decay + release <= length
    ensures AdsrFilled(framerate, attack, decay, release, length, sustainLevel).Ok?
        <==> Adsr(framerate, attack, decay, release, length, sustainLevel).Ok?
    ensures AdsrFilled(framerate, attack, decay, release, length, sustainLevel).Ok? ==>
      |AdsrFilled(framerate, attack, decay, release, length, sustainLevel).value| == Trunc(ByteScale(framerate) * length)
  {
    ScaledParts(framerate, attack, decay, release, length);
    var bs := ByteScale(framerate);
    var sustain := length - (attack + decay + release);
    TruncOfFour(bs * attack, bs * decay, bs * sustain, bs * release);
  }
}
