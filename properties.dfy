/**
  * Properties of AudioFile that span several calls, stated as clients of
  * the class in the way a caller of the Python object would see them.
  */
module AudioFileProperties {
  import opened Errors
  import opened Samples
  import opened Timing
  import opened Loading
  import opened Growth
  import opened AudioFiles

  /** Preallocating twice to the same capacity leaves the state one call leaves. */
  method PreallocateTwice(f: AudioFile, c: nat)
    requires f.Valid()
    modifies f, f.samples
    ensures f.Valid() && f.samples != null && f.samplesCapacity == c
    ensures old(f.samples) == null ==> f.samplesLength == 0 && f.samples[..] == Zeros(c)
    ensures old(f.samples) != null ==>
      f.samplesLength == Min(old(f.samplesLength), c) && f.samples[..] == Resize(old(f.samples[..]), c)
  {
    var first := f.PreallocateMemory(c);
    var second := f.PreallocateMemory(c);
    if old(f.samples) == null {
      ResizeToOwnSize(Zeros(c));
    } else {
      ResizeIdempotent(old(f.samples[..]), c);
    }
  }

  /** Reversing twice restores every slot of the array. */
  method ReverseTwice(f: AudioFile, src: SourceFile)
    requires f.Valid() && f.samples != null && src.WellFormed()
    modifies f, f.samples
    ensures f.Valid() && unchanged(f)
    ensures f.samples[..] == old(f.samples[..])
  {
    var first := f.Reverse(src);
    var second := f.Reverse(src);
    OverwriteReversedTwice(old(f.samples[..]), old(f.samplesLength));
  }

  /** Trimming from 0 for the whole `audio_length` keeps every sample where it is. */
  method TrimWholeAudio(f: AudioFile)
    requires f.Valid() && f.Timed()
    modifies f, f.samples
    ensures f.Valid() && f.Timed()
    ensures f.samplesLength == old(f.samplesLength) && f.samples[..] == old(f.samples[..])
  {
    TrimWholeBuffer(f.samplesLength, f.audioSampleRate.value);
    var r := f.Trim(Seconds(0.0), Seconds(f.audioLength.value));
    OverwriteWithOwnPrefix(old(f.samples[..]), old(f.samplesLength));
  }

  /** Four samples appended to a new in-memory file: length 4, capacity 2 * (0 + 4). */
  method AppendToNewFile(conf: RuntimeConf) returns (length: int, capacity: int, contents: seq<real>)
    ensures length == 4 && capacity == 8
    ensures contents == [0.1, -0.2, 0.3, -0.4]
  {
    var f := new AudioFile(None, None, conf);
    f.AddSamples([0.1, -0.2, 0.3, -0.4], false);
    length, capacity := f.samplesLength, f.samplesCapacity;
    contents := f.samples[..f.samplesLength];
  }

  /** A file with neither a path nor samples refuses to give its samples. */
  method SamplesOfEmptyFile(conf: RuntimeConf, src: SourceFile) returns (r: Result<seq<real>>)
    requires src.WellFormed()
    ensures r == Failure(NotInitialized)
  {
    var f := new AudioFile(None, None, conf);
    r := f.AudioSamples(src);
  }

  /** The sizes of a run of blocks. */
  function Sizes(blocks: seq<seq<real>>): (r: seq<nat>)
    ensures |r| == |blocks|
    ensures forall i :: 0 <= i < |blocks| ==> r[i] == |blocks[i]|
  {
    seq(|blocks|, i requires 0 <= i < |blocks| => |blocks[i]|)
  }

  /**
    * One `add_samples` is one `Append` of the growth bookkeeping, with a
    * reallocation counted when the array is replaced.
    */
  method AddSamplesStep(f: AudioFile, block: seq<real>, reverse: bool, before: Bookkeeping)
    returns (after: Bookkeeping)
    requires f.Valid()
    requires before == Bookkeeping(f.samples != null, f.samplesLength, f.samplesCapacity, before.reallocations)
    modifies f, f.samples
    ensures f.Valid() && (f.samples == old(f.samples) || fresh(f.samples))
    ensures after == Append(before, |block|)
    ensures after == Bookkeeping(f.samples != null, f.samplesLength, f.samplesCapacity, after.reallocations)
  {
    var previous := f.samples;
    f.AddSamples(block, reverse);
    after := Bookkeeping(f.samples != null, f.samplesLength, f.samplesCapacity,
                         if f.samples != previous then before.reallocations + 1 else before.reallocations);
  }

  /**
    * Appending a run of blocks to a new object follows the growth
    * bookkeeping block by block, so the run ends with capacity at most twice
    * the length and at most log2(N) + 2 reallocations.
    */
  method AppendBlocks(conf: RuntimeConf, blocks: seq<seq<real>>, reverse: bool)
    returns (length: int, capacity: int, reallocations: nat)
    ensures length == Sum(Sizes(blocks))
    ensures capacity <= 2 * length
    ensures reallocations <= 1 || Pow2(reallocations - 1) <= 2 * length
  {
    var f := new AudioFile(None, None, conf);
    var book := NewBuffer;
    var i := 0;
    while i < |blocks|
      invariant 0 <= i <= |blocks|
      invariant f.Valid() && fresh(f) && (f.samples == null || fresh(f.samples))
      invariant book == AppendAll(NewBuffer, Sizes(blocks[..i]))
      invariant book == Bookkeeping(f.samples != null, f.samplesLength, f.samplesCapacity, book.reallocations)
    {
      AppendAllSnoc(NewBuffer, Sizes(blocks[..i]), |blocks[i]|);
      assert Sizes(blocks[..i + 1]) == Sizes(blocks[..i]) + [|blocks[i]|];
      book := AddSamplesStep(f, blocks[i], reverse, book);
      i := i + 1;
    }
    assert blocks[..i] == blocks;
    AppendAllAmortised(NewBuffer, Sizes(blocks));
    ReallocationsLogarithmic(Sizes(blocks));
    length, capacity, reallocations := f.samplesLength, f.samplesCapacity, book.reallocations;
  }

  /**
    * `preallocate_memory` does not recompute `audio_length`: after shrinking
    * ten samples at 10 Hz to five, `audio_length` still says one second, and
    * a trim from 0.2 s for 0.5 s computes the span [2, 7) over a five-slot array.
    */
  method ShrinkLeavesLengthStale(conf: RuntimeConf)
    returns (length: int, capacity: int, audioLength: Option<real>, span: Span)
    ensures length == 5 && capacity == 5
    ensures audioLength == Some(1.0) && audioLength != Some(Duration(length, 10))
    ensures span == Span(2, 7) && span.end > capacity
  {
    var f := new AudioFile(Some("speech.wav"), Some(CanonicalFormat(conf)), conf);
    var src := SourceFile(true, Converted, Decoded(10, seq(10, _ => 0)));
    var r, temp := f.ReadSamplesFromFile(src);
    var _ := f.PreallocateMemory(5);
    length, capacity, audioLength := f.samplesLength, f.samplesCapacity, f.audioLength;
    span := TrimIndices(Seconds(0.2), Seconds(0.5), audioLength.value, 10);
    TrimTenSamples();
  }

  /**
    * After a converting load, `file_format` declares the canonical triple
    * while `file_path` still names the original file, whose converted copy
    * was deleted. Once `clear_data` drops the samples, the next load hands
    * the original straight to the WAVE reader; for a file only ffmpeg can
    * decode, that reload fails.
    */
  method ReloadAfterClearReadsOriginal(conf: RuntimeConf)
    returns (first: Outcome, firstTemp: TempFile, second: Outcome, secondTemp: TempFile)
    ensures first == Pass && firstTemp == TempDeleted
    ensures second == Fail(UnsupportedFormat) && secondTemp == NoTemp
  {
    var f := new AudioFile(Some("speech.mp3"), None, conf);
    // ffmpeg converts the mp3 and the WAVE reader decodes the converted copy
    first, firstTemp := f.ReadSamplesFromFile(SourceFile(true, Converted, Decoded(10, seq(10, _ => 0))));
    f.ClearData();
    // the WAVE reader rejects the mp3 itself
    second, secondTemp := f.ReadSamplesFromFile(SourceFile(true, Converted, DecodeFails));
  }

  /** Samples appended to an object with no known sample rate cannot be written. */
  method WriteWithoutRate(conf: RuntimeConf, src: SourceFile) returns (r: Result<WaveData>)
    requires src.WellFormed()
    ensures r == Failure(WriteFailed)
  {
    var f := new AudioFile(None, None, conf);
    f.AddSamples([0.5], false);
    r := f.Write(src, true);
  }
}
