/** Sample streams: the Python generator objects that every `*_generator`
    method of the synthesizer returns, the composite of several of them, and
    any finite iterator a caller hands to the packers.

    Every stream in the synthesizer yields, at its i-th pull, a value that
    depends only on i (a lookup table indexed by `i % period`, or a mean of
    such streams), so a stream is described by the value `At(s, i)` of its
    i-th pull; the generator object itself (`WaveStream`) adds the position
    counter and the "closed after StopIteration or an exception" state of a
    Python generator. */
module Streams {
  import opened Base

  /** What one `next()` on a stream gives. */
  datatype Pull = Value(v: real) | Exhausted | Fails(error: Error)

  datatype Source =
      /** `(table[i % period] for i in itertools.count(0))`; the generators
          build `table` from `range(period)`, so it has `max(period, 0)` entries */
    | Cycle(table: seq<real>, period: int)
      /** a finite iterator over `values` */
    | Finite(values: seq<real>)
      /** `composite_generator(*inputs)`: `sum(samples) / len(samples)` over
          `zip(*inputs)` */
    | Mean(inputs: seq<Source>)

  /** What the generator's body computes for counter value `i`. While no
      pull has failed, this is the result of the i-th `next()`; after a
      failure the generator is finished, and `Step` makes every later pull
      StopIteration. */
  function At(s: Source, i: nat): Pull
    decreases s
  {
    match s
    case Cycle(table, period) =>
      if period == 0 then Fails(ZeroDivisionError)
      else if period < 0 || |table| <= i % period then Fails(IndexError)
      else Value(table[i % period])
    case Finite(values) =>
      if i < |values| then Value(values[i]) else Exhausted
    case Mean(inputs) =>
      if |inputs| == 0 then Exhausted
      else Zip(seq(|inputs|, k requires 0 <= k < |inputs| => At(inputs[k], i)), |inputs|)
  }

  /** `zip` pulls its inputs left to right and stops at the first one that is
      exhausted or raises; otherwise the composite yields the mean. */
  function Zip(pulls: seq<Pull>, n: nat): Pull
    requires n > 0
  {
    if forall k :: 0 <= k < |pulls| ==> pulls[k].Value? then Value(Sum(pulls) / n as real)
    else FirstStop(pulls)
  }

  /** The first pull that is not a value. */
  function FirstStop(pulls: seq<Pull>): Pull
  {
    if pulls == [] then Exhausted
    else if !pulls[0].Value? then pulls[0]
    else FirstStop(pulls[1..])
  }

  /** Python's `sum` over the values of some pulls (0 for a non-value). */
  function Sum(pulls: seq<Pull>): real
  {
    if pulls == [] then 0.0
    else (if pulls[0].Value? then pulls[0].v else 0.0) + Sum(pulls[1..])
  }

  function SumReals(xs: seq<real>): real
  {
    if xs == [] then 0.0 else xs[0] + SumReals(xs[1..])
  }

  /** A well-formed lookup-table stream, as the generators build them. */
  predicate IsTable(table: seq<real>, period: int)
  {
    |table| == Count(period)
  }

  /** A lookup-table stream yields `table[i % period]` at position `i`, and
      positions `i` and `i + period` agree. */
  lemma CycleAt(table: seq<real>, period: int, i: nat)
    requires IsTable(table, period) && period > 0
    ensures At(Cycle(table, period), i) == Value(table[i % period])
    ensures At(Cycle(table, period), i + period) == At(Cycle(table, period), i)
  {
    ModShift(i, period);
  }

  lemma ModShift(i: nat, p: int)
    requires p > 0
    ensures (i + p) % p == i % p
  {
    ModUnique(i + p, p, i / p + 1, i % p);
  }

  /** Division with remainder is unique. */
  lemma ModUnique(n: int, p: int, q: int, r: int)
    requires p > 0 && 0 <= r < p && n == q * p + r
    ensures n % p == r
  {
    var q0, r0 := n / p, n % p;
    assert (q - q0) * p == r0 - r;
    if q > q0 {
      MulAtLeast(q - q0, p);
    } else if q < q0 {
      MulAtLeast(q0 - q, p);
    }
  }

  lemma MulAtLeast(a: int, p: int)
    requires a >= 1 && p > 0
    ensures a * p >= p
  {
    assert a * p == (a - 1) * p + p;
    assert (a - 1) * p >= 0;
  }

  /** When `int(framerate / frequency)` is not positive, the very first pull
      already fails: a modulo by zero, or an index into the empty table; the
      failed generator is finished, so every later pull is StopIteration. */
  lemma CycleWithoutPeriodFails(table: seq<real>, period: int, i: nat)
    requires IsTable(table, period) && period <= 0
    ensures At(Cycle(table, period), i) == if period == 0 then Fails(ZeroDivisionError) else Fails(IndexError)
    ensures var (p, c1) := Step(Cursor(Cycle(table, period), i, false));
      p == (if period == 0 then Fails(ZeroDivisionError) else Fails(IndexError)) &&
      c1.closed && Step(c1) == (Exhausted, c1)
  {
  }

  lemma {:induction false} SumOfValues(pulls: seq<Pull>)
    requires forall k :: 0 <= k < |pulls| ==> pulls[k].Value?
    ensures Sum(pulls) == SumReals(seq(|pulls|, k requires 0 <= k < |pulls| => pulls[k].v))
  {
    if pulls != [] {
      SumOfValues(pulls[1..]);
      assert seq(|pulls|, k requires 0 <= k < |pulls| => pulls[k].v)[1..]
          == seq(|pulls[1..]|, k requires 0 <= k < |pulls[1..]| => pulls[1..][k].v);
    }
  }

  lemma {:induction false} FirstStopIsStop(pulls: seq<Pull>)
    requires exists k :: 0 <= k < |pulls| && !pulls[k].Value?
    ensures !FirstStop(pulls).Value?
    ensures FirstStop(pulls) in pulls
  {
    if pulls[0].Value? {
      var k :| 0 <= k < |pulls| && !pulls[k].Value?;
      assert !pulls[1..][k - 1].Value?;
      FirstStopIsStop(pulls[1..]);
    }
  }

  /** While every input still yields a value, the composite yields the
      arithmetic mean of the inputs' values at that position. */
  lemma CompositeMean(inputs: seq<Source>, i: nat, values: seq<real>)
    requires |inputs| > 0 && |values| == |inputs|
    requires forall k :: 0 <= k < |inputs| ==> At(inputs[k], i) == Value(values[k])
    ensures At(Mean(inputs), i) == Value(SumReals(values) / |inputs| as real)
  {
    var pulls := seq(|inputs|, k requires 0 <= k < |inputs| => At(inputs[k], i));
    SumOfValues(pulls);
    assert seq(|pulls|, k requires 0 <= k < |pulls| => pulls[k].v) == values;
  }

  /** As soon as one input is exhausted or raises, so does the composite;
      it never yields a value then. */
  lemma CompositeStops(inputs: seq<Source>, i: nat, j: nat)
    requires j < |inputs| && !At(inputs[j], i).Value?
    ensures !At(Mean(inputs), i).Value?
  {
    var pulls := seq(|inputs|, k requires 0 <= k < |inputs| => At(inputs[k], i));
    assert !pulls[j].Value?;
    FirstStopIsStop(pulls);
  }

  /** The length of the shortest of some finite inputs. */
  function Shortest(inputs: seq<seq<real>>): nat
    requires |inputs| > 0
  {
    if |inputs| == 1 then |inputs[0]|
    else var r := Shortest(inputs[1..]); if |inputs[0]| < r then |inputs[0]| else r
  }

  lemma {:induction false} ShortestIsLength(inputs: seq<seq<real>>)
    requires |inputs| > 0
    ensures exists k :: 0 <= k < |inputs| && |inputs[k]| == Shortest(inputs)
    ensures forall k :: 0 <= k < |inputs| ==> Shortest(inputs) <= |inputs[k]|
  {
    if |inputs| > 1 {
      ShortestIsLength(inputs[1..]);
      var k :| 0 <= k < |inputs[1..]| && |inputs[1..][k]| == Shortest(inputs[1..]);
      assert |inputs[k + 1]| == Shortest(inputs[1..]);
      forall j | 1 <= j < |inputs| ensures Shortest(inputs) <= |inputs[j]| {
        assert inputs[j] == inputs[1..][j - 1];
      }
      if |inputs[0]| >= Shortest(inputs[1..]) {
        assert |inputs[k + 1]| == Shortest(inputs);
      }
    } else {
      assert |inputs[0]| == Shortest(inputs);
    }
  }

  /** A composite of finite inputs yields exactly as many values as its
      shortest input: position `i` is a value if and only if `i` is below
      that length. */
  lemma CompositeLength(inputs: seq<seq<real>>, i: nat)
    requires |inputs| > 0
    ensures At(Mean(seq(|inputs|, k requires 0 <= k < |inputs| => Finite(inputs[k]))), i).Value?
        <==> i < Shortest(inputs)
  {
    var sources := seq(|inputs|, k requires 0 <= k < |inputs| => Finite(inputs[k]));
    ShortestIsLength(inputs);
    if i < Shortest(inputs) {
      var values := seq(|inputs|, k requires 0 <= k < |inputs| => inputs[k][i]);
      CompositeMean(sources, i, values);
    } else {
      var k :| 0 <= k < |inputs| && |inputs[k]| == Shortest(inputs);
      CompositeStops(sources, i, k);
    }
  }

  /** A composite of streams that all repeat with period `p` repeats with
      period `p` as well. */
  lemma CompositePeriodic(inputs: seq<Source>, p: nat, i: nat)
    requires forall k :: 0 <= k < |inputs| ==> At(inputs[k], i + p) == At(inputs[k], i)
    ensures At(Mean(inputs), i + p) == At(Mean(inputs), i)
  {
    if |inputs| > 0 {
      assert seq(|inputs|, k requires 0 <= k < |inputs| => At(inputs[k], i + p))
          == seq(|inputs|, k requires 0 <= k < |inputs| => At(inputs[k], i));
    }
  }

  /** The state of a Python generator object: what it draws from, how many
      values it has yielded, and whether it has finished (after
      StopIteration or an exception every further `next()` is
      StopIteration). */
  datatype Cursor = Cursor(source: Source, pos: nat, closed: bool)

  /** One `next()`: the pull and the generator's state afterwards. */
  function Step(c: Cursor): (Pull, Cursor)
  {
    if c.closed then (Exhausted, c)
    else
      var p := At(c.source, c.pos);
      if p.Value? then (p, c.(pos := c.pos + 1)) else (p, c.(closed := true))
  }

  /** The results of `n` successive `next()` calls. */
  function Pulls(c: Cursor, n: nat): (r: seq<Pull>)
    ensures |r| == n
    decreases n
  {
    if n == 0 then [] else [Step(c).0] + Pulls(Step(c).1, n - 1)
  }

  lemma PullsTail(c: Cursor, n: nat)
    requires n > 0
    ensures Pulls(c, n)[0] == Step(c).0
    ensures forall i :: 0 < i < n ==> Pulls(c, n)[i] == Pulls(Step(c).1, n - 1)[i - 1]
  {
  }

  /** A fresh lookup-table generator yields `table[i % period]` at its i-th
      `next()`, forever. */
  lemma {:induction false} CyclePulls(table: seq<real>, period: int, start: nat, n: nat)
    requires IsTable(table, period) && period > 0
    ensures |Pulls(Cursor(Cycle(table, period), start, false), n)| == n
    ensures forall i :: 0 <= i < n ==>
      Pulls(Cursor(Cycle(table, period), start, false), n)[i] == Value(table[(start + i) % period])
    decreases n
  {
    if n > 0 {
      var c := Cursor(Cycle(table, period), start, false);
      var c1 := Cursor(Cycle(table, period), start + 1, false);
      assert Step(c) == (Value(table[start % period]), c1) by {
        CycleAt(table, period, start);
      }
      PullsTail(c, n);
      CyclePulls(table, period, start + 1, n - 1);
      forall i | 0 < i < n ensures Pulls(c, n)[i] == Value(table[(start + i) % period]) {
        assert start + 1 + (i - 1) == start + i;
      }
    }
  }

  /** A Python generator object drawing from `source`. */
  class WaveStream {
    const source: Source
    var pos: nat
    var closed: bool

    function State(): Cursor
      reads this
    {
      Cursor(source, pos, closed)
    }

    constructor (s: Source)
      ensures State() == Cursor(s, 0, false)
    {
      source := s;
      pos := 0;
      closed := false;
    }

    /** `next(generator)`. */
    method Next() returns (p: Pull)
      modifies this
      ensures (p, State()) == Step(old(State()))
    {
      if closed {
        p := Exhausted;
      } else {
        p := At(source, pos);
        if p.Value? {
          pos := pos + 1;
        } else {
          closed := true;
        }
      }
    }
  }
}
