/** Sample sequences and the numpy operations the buffer applies to them. */
module Samples {

  function Min(a: int, b: int): int { if a <= b then a else b }

  /** A block in reverse order, as numpy's `flipud` and `[::-1]` give it. */
  function Reversed<T>(s: seq<T>): (r: seq<T>)
    ensures |r| == |s|
    ensures forall i :: 0 <= i < |s| ==> r[i] == s[|s| - 1 - i]
  {
    if s == [] then [] else Reversed(s[1..]) + [s[0]]
  }

  /** Reversing twice gives the block back. */
  lemma {:induction false} ReversedTwice<T>(s: seq<T>)
    ensures Reversed(Reversed(s)) == s
  {
    var r := Reversed(Reversed(s));
    forall i | 0 <= i < |s| ensures r[i] == s[i] {
      assert r[i] == Reversed(s)[|s| - 1 - i];
    }
  }

  /** `numpy.zeros(c)`. */
  function Zeros(c: nat): seq<real>
  {
    seq(c, _ => 0.0)
  }

  /**
    * `numpy.resize(s, c)`: c slots holding s repeated cyclically, or zeros
    * when s is empty.
    */
  function Resize(s: seq<real>, c: nat): (r: seq<real>)
    ensures |r| == c
    ensures forall i :: 0 <= i < c && i < |s| ==> r[i] == s[i]
    ensures |s| == 0 ==> r == Zeros(c)
  {
    assert forall i :: 0 <= i < |s| ==> i % |s| == i;
    seq(c, i requires 0 <= i < c => if |s| == 0 then 0.0 else s[i % |s|])
  }

  /** Resizing to the size a sequence already has changes nothing. */
  lemma ResizeToOwnSize(s: seq<real>)
    ensures Resize(s, |s|) == s
  {
  }

  /** Resizing twice to the same size is resizing once. */
  lemma ResizeIdempotent(s: seq<real>, c: nat)
    ensures Resize(Resize(s, c), c) == Resize(s, c)
  {
    ResizeToOwnSize(Resize(s, c));
  }

  /**
    * numpy slice assignment `s[at:at + len(block)] = block`: the block
    * replaces that slice and every other slot keeps its value.
    */
  function Overwrite<T>(s: seq<T>, at: nat, block: seq<T>): (r: seq<T>)
    requires at + |block| <= |s|
    ensures |r| == |s|
    ensures forall i :: 0 <= i < |s| ==> r[i] == if at <= i < at + |block| then block[i - at] else s[i]
  {
    s[..at] + block + s[at + |block|..]
  }

  /** The valid prefix after an overwrite that starts at the end of it. */
  lemma OverwriteAtEnd<T>(s: seq<T>, at: nat, block: seq<T>)
    requires at + |block| <= |s|
    ensures Overwrite(s, at, block)[..at + |block|] == s[..at] + block
  {
  }

  /** The valid prefix after an overwrite that starts at slot 0. */
  lemma OverwriteFront<T>(s: seq<T>, block: seq<T>)
    requires |block| <= |s|
    ensures Overwrite(s, 0, block)[..|block|] == block
  {
  }

  /** Overwriting every slot replaces the sequence. */
  lemma OverwriteWhole<T>(s: seq<T>, block: seq<T>)
    requires |block| == |s|
    ensures Overwrite(s, 0, block) == block
  {
  }

  /** Writing a prefix back over itself changes nothing. */
  lemma OverwriteWithOwnPrefix<T>(s: seq<T>, n: nat)
    requires n <= |s|
    ensures Overwrite(s, 0, s[..n]) == s
  {
  }

  /** Reversing a prefix twice in place restores the sequence. */
  lemma OverwriteReversedTwice<T>(s: seq<T>, n: nat)
    requires n <= |s|
    ensures var once := Overwrite(s, 0, Reversed(s[..n]));
      Overwrite(once, 0, Reversed(once[..n])) == s
  {
    var once := Overwrite(s, 0, Reversed(s[..n]));
    OverwriteFront(s, Reversed(s[..n]));
    ReversedTwice(s[..n]);
    OverwriteWithOwnPrefix(s, n);
  }

  /** A 16-bit signed PCM value. */
  predicate IsInt16(v: int) { -32768 <= v <= 32767 }

  /** Reading a WAVE file: each int16 sample divided by 32768. */
  function Normalised(pcm: seq<int>): (r: seq<real>)
    ensures |r| == |pcm|
    ensures forall i :: 0 <= i < |pcm| && IsInt16(pcm[i]) ==> -1.0 <= r[i] < 1.0
  {
    seq(|pcm|, i requires 0 <= i < |pcm| => pcm[i] as real / 32768.0)
  }

  /** Python's `int()` on a number: truncation toward zero. */
  function TruncToInt(x: real): (r: int)
    ensures 0.0 <= x ==> 0 <= r && r as real <= x < r as real + 1.0
    ensures x < 0.0 ==> r <= 0 && r as real - 1.0 < x <= r as real
  {
    if 0.0 <= x then x.Floor else -((-x).Floor)
  }

  /** numpy's `astype("int16")` on an integer: wrap-around modulo 2^16. */
  function Wrap16(v: int): (r: int)
    ensures IsInt16(r)
    ensures (r - v) % 65536 == 0
    ensures IsInt16(v) ==> r == v
  {
    (v + 32768) % 65536 - 32768
  }

  /** Writing a sample: `(x * 32768).astype("int16")`. */
  function Quantised(x: real): (r: int)
    ensures IsInt16(r)
  {
    Wrap16(TruncToInt(x * 32768.0))
  }

  function QuantisedAll(s: seq<real>): (r: seq<int>)
    ensures |r| == |s|
    ensures forall i :: 0 <= i < |s| ==> r[i] == Quantised(s[i])
  {
    seq(|s|, i requires 0 <= i < |s| => Quantised(s[i]))
  }

  /** A sample that was read from a PCM16 file is written back unchanged. */
  lemma QuantisedNormalised(v: int)
    requires IsInt16(v)
    ensures Quantised(v as real / 32768.0) == v
  {
    assert (v as real / 32768.0) * 32768.0 == v as real;
  }

  /** Write after read: every int16 block survives the two conversions. */
  lemma {:induction false} WriteAfterRead(pcm: seq<int>)
    requires forall i :: 0 <= i < |pcm| ==> IsInt16(pcm[i])
    ensures QuantisedAll(Normalised(pcm)) == pcm
  {
    forall i | 0 <= i < |pcm| ensures QuantisedAll(Normalised(pcm))[i] == pcm[i] {
      QuantisedNormalised(pcm[i]);
    }
  }

  /** The full-scale sample 1.0 wraps to the most negative int16 value on write. */
  lemma FullScaleWraps()
    ensures Quantised(1.0) == -32768
    ensures Quantised(-1.0) == -32768
  {
  }
}
