/** The capacity policy of `add_samples` and what it costs over many appends. */
module Growth {

  /** `add_samples` reallocates when there is no array or the new samples do not fit. */
  predicate MustGrow(hasArray: bool, length: int, capacity: int, added: int)
  {
    !hasArray || capacity < length + added
  }

  /** The capacity after appending `added` samples: doubled demand when it must grow. */
  function GrownCapacity(hasArray: bool, length: nat, capacity: nat, added: nat): (c: nat)
    ensures length + added <= c
    ensures !MustGrow(hasArray, length, capacity, added) ==> c == capacity
  {
    if MustGrow(hasArray, length, capacity, added) then 2 * (length + added) else capacity
  }

  /** The buffer's sizes, plus a count of the reallocations made so far. */
  datatype Bookkeeping = Bookkeeping(hasArray: bool, length: nat, capacity: nat, reallocations: nat)

  /** The sizes of a newly constructed AudioFile. */
  const NewBuffer := Bookkeeping(false, 0, 0, 0)

  /** One `add_samples` of `added` samples. */
  function Append(b: Bookkeeping, added: nat): Bookkeeping
  {
    var grows := MustGrow(b.hasArray, b.length, b.capacity, added);
    Bookkeeping(true, b.length + added, GrownCapacity(b.hasArray, b.length, b.capacity, added),
                if grows then b.reallocations + 1 else b.reallocations)
  }

  /** A run of `add_samples` calls, one per entry of `sizes`. */
  function AppendAll(b: Bookkeeping, sizes: seq<nat>): Bookkeeping
    decreases |sizes|
  {
    if sizes == [] then b else AppendAll(Append(b, sizes[0]), sizes[1..])
  }

  function Sum(sizes: seq<nat>): nat
  {
    if sizes == [] then 0 else sizes[0] + Sum(sizes[1..])
  }

  function Pow2(k: nat): nat
  {
    if k == 0 then 1 else 2 * Pow2(k - 1)
  }

  /**
    * What a run of appends keeps: capacity at most twice the length, and a
    * capacity that doubled at every reallocation after the first.
    */
  ghost predicate Amortised(b: Bookkeeping)
  {
    b.length <= b.capacity &&
    (!b.hasArray ==> b.length == 0 && b.capacity == 0 && b.reallocations == 0) &&
    (b.hasArray ==> 1 <= b.reallocations && b.capacity <= 2 * b.length) &&
    (b.capacity == 0 ==> b.reallocations <= 1) &&
    (b.capacity > 0 ==> b.hasArray && 1 <= b.reallocations && Pow2(b.reallocations - 1) <= b.capacity)
  }

  lemma AppendKeepsAmortised(b: Bookkeeping, added: nat)
    requires Amortised(b)
    ensures Amortised(Append(b, added))
  {
    var a := Append(b, added);
    if MustGrow(b.hasArray, b.length, b.capacity, added) && a.capacity > 0 && b.capacity > 0 {
      assert Pow2(a.reallocations - 1) == 2 * Pow2(b.reallocations - 1);
    }
  }

  /** Appending one more block after a run is the run with that block at its end. */
  lemma {:induction false} AppendAllSnoc(b: Bookkeeping, sizes: seq<nat>, added: nat)
    ensures AppendAll(b, sizes + [added]) == Append(AppendAll(b, sizes), added)
    decreases |sizes|
  {
    if sizes != [] {
      assert (sizes + [added])[1..] == sizes[1..] + [added];
      AppendAllSnoc(Append(b, sizes[0]), sizes[1..], added);
    }
  }

  /** Any run of appends keeps the bookkeeping amortised and adds up the lengths. */
  lemma {:induction false} AppendAllAmortised(b: Bookkeeping, sizes: seq<nat>)
    requires Amortised(b)
    ensures Amortised(AppendAll(b, sizes))
    ensures AppendAll(b, sizes).length == b.length + Sum(sizes)
    decreases |sizes|
  {
    if sizes != [] {
      AppendKeepsAmortised(b, sizes[0]);
      AppendAllAmortised(Append(b, sizes[0]), sizes[1..]);
    }
  }

  /**
    * Starting from an unallocated buffer, appends totalling N samples end
    * with length N after at most log2(N) + 2 reallocations:
    * `2^(reallocations - 1) <= 2 N`.
    */
  lemma ReallocationsLogarithmic(sizes: seq<nat>)
    ensures AppendAll(NewBuffer, sizes).length == Sum(sizes)
    ensures var r := AppendAll(NewBuffer, sizes);
      r.reallocations <= 1 || Pow2(r.reallocations - 1) <= 2 * r.length
  {
    AppendAllAmortised(NewBuffer, sizes);
  }
}
