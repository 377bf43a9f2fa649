/** Time arithmetic of `trim` and `_update_length`. */
module Timing {
  import opened Samples

  /** A trim argument: Python `None`, a TimeValue in seconds, or any other object. */
  datatype TimeArg = Missing | Seconds(value: real) | NotTimeValue

  /** Sample indices `[begin, end)` that a trim keeps. */
  datatype Span = Span(begin: int, end: int)

  /** `audio_length`: a sample count divided by the sample rate, exactly. */
  function Duration(count: int, rate: int): real
    requires rate > 0
  {
    count as real / rate as real
  }

  /** Both arguments are None or TimeValue and at least one is a TimeValue. */
  predicate TrimMoves(begin: TimeArg, length: TimeArg)
  {
    !begin.NotTimeValue? && !length.NotTimeValue? && !(begin.Missing? && length.Missing?)
  }

  function MinReal(a: real, b: real): real { if a <= b then a else b }
  function MaxReal(a: real, b: real): real { if a >= b then a else b }

  /** `begin` defaults to 0 and is clamped to `[0, audio_length]`. */
  function ClampedBegin(begin: TimeArg, audioLength: real): (b: real)
    requires !begin.NotTimeValue?
    ensures 0.0 <= audioLength ==> 0.0 <= b <= audioLength
    ensures begin.Seconds? && 0.0 <= begin.value <= audioLength ==> b == begin.value
  {
    var requested := if begin.Missing? then 0.0 else begin.value;
    MinReal(MaxReal(0.0, requested), audioLength)
  }

  /** `length` defaults to what remains after `begin` and is clamped to `[0, audio_length - begin]`. */
  function ClampedLength(length: TimeArg, begin: real, audioLength: real): (l: real)
    requires !length.NotTimeValue?
    ensures begin <= audioLength ==> 0.0 <= l <= audioLength - begin
    ensures length.Seconds? && 0.0 <= length.value <= audioLength - begin ==> l == length.value
    ensures length.Missing? && begin <= audioLength ==> l == audioLength - begin
  {
    var requested := if length.Missing? then audioLength - begin else length.value;
    MinReal(MaxReal(0.0, requested), audioLength - begin)
  }

  /** A time converted to a sample index: `int(t * rate)`. */
  function SampleIndex(t: real, rate: int): int
  {
    TruncToInt(t * rate as real)
  }

  /** The slice trim keeps: from the clamped begin to the clamped begin plus the clamped length. */
  function TrimIndices(begin: TimeArg, length: TimeArg, audioLength: real, rate: int): Span
    requires !begin.NotTimeValue? && !length.NotTimeValue?
  {
    var b := ClampedBegin(begin, audioLength);
    var l := ClampedLength(length, b, audioLength);
    Span(SampleIndex(b, rate), SampleIndex(b + l, rate))
  }

  lemma MulMonotone(x: real, y: real, k: real)
    requires x <= y && 0.0 <= k
    ensures x * k <= y * k
  {
    assert y * k - x * k == (y - x) * k;
  }

  lemma DurationTimesRate(count: nat, rate: int)
    requires rate > 0
    ensures 0.0 <= Duration(count, rate)
    ensures Duration(count, rate) * rate as real == count as real
  {
  }

  /** Truncation is monotone on non-negative reals. */
  lemma TruncMonotone(x: real, y: real)
    requires 0.0 <= x <= y
    ensures 0 <= TruncToInt(x) <= TruncToInt(y)
  {
  }

  /** Bounds in seconds inside `[0, count / rate]` become bounds in samples inside `[0, count]`. */
  lemma InSamples(count: nat, rate: int, b: real, l: real)
    requires rate > 0 && 0.0 <= b && 0.0 <= l && b + l <= Duration(count, rate)
    ensures 0.0 <= b * rate as real <= (b + l) * rate as real <= count as real
    ensures (b + l) * rate as real == b * rate as real + l * rate as real
  {
    var r := rate as real;
    DurationTimesRate(count, rate);
    MulMonotone(0.0, b, r);
    MulMonotone(b, b + l, r);
    MulMonotone(b + l, Duration(count, rate), r);
  }

  /** The indices of two such bounds are ordered and inside the buffer. */
  lemma IndicesInSamples(count: nat, rate: int, b: real, l: real)
    requires rate > 0 && 0.0 <= b && 0.0 <= l && b + l <= Duration(count, rate)
    ensures 0 <= SampleIndex(b, rate) <= SampleIndex(b + l, rate) <= count
    ensures l * rate as real - 1.0 < (SampleIndex(b + l, rate) - SampleIndex(b, rate)) as real < l * rate as real + 1.0
  {
    InSamples(count, rate, b, l);
    var lo, hi := b * rate as real, (b + l) * rate as real;
    TruncMonotone(lo, hi);
    TruncMonotone(hi, count as real);
    assert TruncToInt(count as real) == count;
  }

  /** The clamped bounds satisfy the premises of IndicesInSamples. */
  lemma ClampedWithin(count: nat, rate: int, begin: TimeArg, length: TimeArg)
    requires rate > 0 && !begin.NotTimeValue? && !length.NotTimeValue?
    ensures var total := Duration(count, rate);
      var b := ClampedBegin(begin, total);
      var l := ClampedLength(length, b, total);
      0.0 <= b && 0.0 <= l && b + l <= total &&
      TrimIndices(begin, length, total, rate) == Span(SampleIndex(b, rate), SampleIndex(b + l, rate))
  {
    DurationTimesRate(count, rate);
  }

  /**
    * When `audio_length` is the buffer's length over the rate, the kept slice
    * lies inside the valid samples: `0 <= begin <= end <= count`.
    */
  lemma TrimSpanWithinBuffer(count: nat, rate: int, begin: TimeArg, length: TimeArg)
    requires rate > 0 && !begin.NotTimeValue? && !length.NotTimeValue?
    ensures var s := TrimIndices(begin, length, Duration(count, rate), rate);
      0 <= s.begin <= s.end <= count
  {
    var total := Duration(count, rate);
    var b := ClampedBegin(begin, total);
    ClampedWithin(count, rate, begin, length);
    IndicesInSamples(count, rate, b, ClampedLength(length, b, total));
  }

  /**
    * The kept slice is within one sample of the clamped length:
    * `|(end - begin) - length * rate| < 1`.
    */
  lemma TrimSpanMatchesLength(count: nat, rate: int, begin: TimeArg, length: TimeArg)
    requires rate > 0 && !begin.NotTimeValue? && !length.NotTimeValue?
    ensures var total := Duration(count, rate);
      var l := ClampedLength(length, ClampedBegin(begin, total), total);
      var s := TrimIndices(begin, length, total, rate);
      l * rate as real - 1.0 < (s.end - s.begin) as real < l * rate as real + 1.0
  {
    var total := Duration(count, rate);
    var b := ClampedBegin(begin, total);
    ClampedWithin(count, rate, begin, length);
    IndicesInSamples(count, rate, b, ClampedLength(length, b, total));
  }

  /** Trimming from 0 for the whole duration keeps every sample. */
  lemma TrimWholeBuffer(count: nat, rate: int)
    requires rate > 0
    ensures TrimIndices(Seconds(0.0), Seconds(Duration(count, rate)), Duration(count, rate), rate) == Span(0, count)
    ensures TrimIndices(Seconds(0.0), Missing, Duration(count, rate), rate) == Span(0, count)
    ensures TrimIndices(Missing, Missing, Duration(count, rate), rate) == Span(0, count)
  {
    DurationTimesRate(count, rate);
  }

  /** Ten samples at 10 Hz, trimmed to 0.5 s from 0.2 s, keep slots 2 to 7. */
  lemma TrimTenSamples()
    ensures TrimIndices(Seconds(0.2), Seconds(0.5), Duration(10, 10), 10) == Span(2, 7)
  {
    assert Duration(10, 10) == 1.0;
    assert ClampedBegin(Seconds(0.2), 1.0) == 0.2;
    assert ClampedLength(Seconds(0.5), 0.2, 1.0) == 0.5;
    assert 0.2 * 10 as real == 2.0 && TruncToInt(2.0) == 2;
    assert (0.2 + 0.5) * 10 as real == 7.0 && TruncToInt(7.0) == 7;
  }
}
