/**
  * The mono sample buffer of an audio file: a growable array of samples with
  * a capacity and a valid length, loaded lazily from a file and edited in
  * place by append, reverse and trim.
  */
module AudioFiles {
  import opened Errors
  import opened Samples
  import opened Timing
  import opened Growth
  import opened Loading

  /** `numpy.resize`: a new array of `c` slots, old samples repeated cyclically. */
  method ResizeArray(a: array<real>, c: nat) returns (b: array<real>)
    ensures fresh(b)
    ensures b[..] == Resize(a[..], c)
  {
    b := new real[c];
    var n := a.Length;
    var i := 0;
    while i < c
      invariant 0 <= i <= c
      invariant forall k :: 0 <= k < i ==> b[k] == (if n == 0 then 0.0 else a[k % n])
    {
      b[i] := if n == 0 then 0.0 else a[i % n];
      i := i + 1;
    }
  }

  /** `pcm.astype("float64") / 32768` as a new array. */
  method NormalisedArray(pcm: seq<int>) returns (a: array<real>)
    ensures fresh(a)
    ensures a[..] == Normalised(pcm)
  {
    a := new real[|pcm|](i requires 0 <= i < |pcm| => pcm[i] as real / 32768.0);
  }

  /** Slice assignment `a[at:at + len(block)] = block`. */
  method WriteBlock(a: array<real>, at: nat, block: seq<real>)
    requires at + |block| <= a.Length
    modifies a
    ensures a[..] == Overwrite(old(a[..]), at, block)
  {
    var i := 0;
    while i < |block|
      invariant 0 <= i <= |block|
      invariant forall k :: 0 <= k < a.Length ==> a[k] == (if at <= k < at + i then block[k - at] else old(a[k]))
    {
      a[at + i] := block[i];
      i := i + 1;
    }
  }

  /** A sequence whose first n slots mirror `was` and whose tail equals it is `was` with its prefix reversed. */
  lemma MirroredPrefix(was: seq<real>, now: seq<real>, n: nat)
    requires n <= |was| == |now|
    requires forall k :: 0 <= k < n ==> now[k] == was[n - 1 - k]
    requires forall k :: n <= k < |was| ==> now[k] == was[k]
    ensures now == Overwrite(was, 0, Reversed(was[..n]))
  {
    var want := Overwrite(was, 0, Reversed(was[..n]));
    forall k | 0 <= k < |was| ensures now[k] == want[k] {
      if k < n {
        assert Reversed(was[..n])[k] == was[n - 1 - k];
      }
    }
  }

  /** `a[0:n] = numpy.flipud(a[0:n])`, swapping from both ends. */
  method ReversePrefix(a: array<real>, n: nat)
    requires n <= a.Length
    modifies a
    ensures a[..] == Overwrite(old(a[..]), 0, Reversed(old(a[..n])))
  {
    var i := 0;
    while i < n / 2
      invariant 0 <= i <= n / 2
      invariant forall k :: 0 <= k < i ==> a[k] == old(a[n - 1 - k])
      invariant forall k :: n - i <= k < n ==> a[k] == old(a[n - 1 - k])
      invariant forall k :: i <= k < n - i ==> a[k] == old(a[k])
      invariant forall k :: n <= k < a.Length ==> a[k] == old(a[k])
    {
      a[i], a[n - 1 - i] := a[n - 1 - i], a[i];
      i := i + 1;
    }
    MirroredPrefix(old(a[..]), a[..], n);
  }

  /** `a[0:hi - lo] = a[lo:hi]`, copying forward so no source slot is overwritten before it is read. */
  method SlideToFront(a: array<real>, lo: nat, hi: nat)
    requires lo <= hi <= a.Length
    modifies a
    ensures a[..] == Overwrite(old(a[..]), 0, old(a[lo..hi]))
  {
    var i := 0;
    while i < hi - lo
      invariant 0 <= i <= hi - lo
      invariant forall k :: 0 <= k < a.Length ==> a[k] == (if k < i then old(a[lo + k]) else old(a[k]))
    {
      a[i] := a[lo + i];
      i := i + 1;
    }
  }

  /** The data `write` hands to the WAVE writer: the sample rate and int16 samples. */
  datatype WaveData = WaveData(rate: int, pcm: seq<int>)

  class AudioFile {
    const rconf: RuntimeConf
    var filePath: Option<string>
    var fileFormat: Option<FileFormat>
    var fileSize: Option<int>
    var audioLength: Option<real>
    var audioFormat: Option<string>
    var audioSampleRate: Option<int>
    var audioChannels: Option<int>
    var samples: array?<real>
    var samplesCapacity: int
    var samplesLength: int

    /** The buffer invariant: `0 <= length <= capacity`, the array has `capacity` slots, no array means both are 0. */
    ghost predicate Valid()
      reads this
    {
      0 <= samplesLength <= samplesCapacity &&
      (samples != null ==> samples.Length == samplesCapacity) &&
      (samples == null ==> samplesLength == 0 && samplesCapacity == 0) &&
      (audioSampleRate.Some? ==> audioSampleRate.value > 0)
    }

    /** The valid samples: the first `length` slots. */
    ghost function Contents(): seq<real>
      reads this, samples
      requires Valid()
    {
      if samples == null then [] else samples[..samplesLength]
    }

    /** The state of a new object, and of one after `clear_data`. */
    ghost predicate Unallocated()
      reads this
    {
      samples == null && samplesCapacity == 0 && samplesLength == 0
    }

    /** Samples are resident and `audio_length` is their count over the known rate. */
    ghost predicate Timed()
      reads this
    {
      samples != null && audioSampleRate.Some? && audioSampleRate.value > 0 &&
      audioLength == Some(Duration(samplesLength, audioSampleRate.value))
    }

    /**
      * The fields as `read_samples_from_file` leaves them, from the state
      * before it ran; the array's contents are stated by each caller.
      */
    twostate predicate LoadEffect(src: SourceFile)
      reads this
    {
      var hasPath := old(filePath).Some?;
      var format := old(fileFormat);
      var r := LoadOutcome(hasPath, format, rconf, src);
      filePath == old(filePath) && fileSize == old(fileSize) &&
      fileFormat == (if Converts(hasPath, format, rconf, src) && src.conversion.Converted?
                     then Some(CanonicalFormat(rconf)) else format) &&
      (if ReachesDecoder(hasPath, format, rconf, src)
       then audioFormat == Some("pcm16") && audioChannels == Some(1)
       else audioFormat == old(audioFormat) && audioChannels == old(audioChannels)) &&
      (if r.Pass? then
         src.decoding.Decoded? && src.decoding.rate > 0 && samples != null && fresh(samples) &&
         audioSampleRate == Some(src.decoding.rate) &&
         samplesCapacity == |src.decoding.pcm| && samplesLength == |src.decoding.pcm| &&
         audioLength == Some(Duration(|src.decoding.pcm|, src.decoding.rate))
       else
         samples == old(samples) && samplesCapacity == old(samplesCapacity) &&
         samplesLength == old(samplesLength) && audioSampleRate == old(audioSampleRate) &&
         audioLength == old(audioLength))
    }

    constructor (filePath: Option<string>, fileFormat: Option<FileFormat>, rconf: RuntimeConf)
      ensures Valid() && Unallocated()
      ensures this.filePath == filePath && this.fileFormat == fileFormat && this.rconf == rconf
      ensures fileSize.None? && audioLength.None? && audioFormat.None?
      ensures audioSampleRate.None? && audioChannels.None?
    {
      this.rconf := rconf;
      this.filePath := filePath;
      this.fileFormat := fileFormat;
      fileSize := None;
      audioLength := None;
      audioFormat := None;
      audioSampleRate := None;
      audioChannels := None;
      samplesCapacity := 0;
      samplesLength := 0;
      samples := null;
    }

    /** `_update_length`: recompute `audio_length` when both the rate and the array are there. */
    method UpdateLength()
      requires Valid()
      modifies this`audioLength
      ensures Valid()
      ensures audioSampleRate.Some? && samples != null ==> Timed()
      ensures audioSampleRate.None? || samples == null ==> audioLength == old(audioLength)
    {
      if audioSampleRate.Some? && samples != null {
        audioLength := Some(Duration(samplesLength, audioSampleRate.value));
      }
    }

    /**
      * The conversion stage of `read_samples_from_file`: decide whether the
      * file needs converting and run ffmpeg when it does; a converted file
      * has the canonical format.
      */
    method ConvertIfNeeded(src: SourceFile) returns (convert: bool, r: Outcome)
      modifies this`fileFormat
      ensures convert == NeedsConversion(old(fileFormat), rconf)
      ensures r == (if convert && src.conversion.ConverterMissing? then Fail(ConverterError)
                    else if convert && src.conversion.ConverterRejects? then Fail(UnsupportedFormat)
                    else Pass)
      ensures fileFormat == (if convert && src.conversion.Converted? then Some(CanonicalFormat(rconf))
                             else old(fileFormat))
    {
      convert := NeedsConversion(fileFormat, rconf);
      r := Pass;
      if convert {
        match src.conversion
        case ConverterMissing =>
          r := Fail(ConverterError);
        case ConverterRejects =>
          r := Fail(UnsupportedFormat);
        case Converted =>
          fileFormat := Some(CanonicalFormat(rconf));
      }
    }

    /**
      * The reading stage of `read_samples_from_file`: store what the WAVE
      * reader returned, as reals, with capacity and length both its count.
      */
    method StoreDecoded(rate: int, pcm: seq<int>)
      requires Valid() && rate > 0
      modifies this
      ensures Valid() && Timed()
      ensures samples != null && fresh(samples) && samples[..] == Normalised(pcm)
      ensures audioSampleRate == Some(rate) && samplesCapacity == |pcm| && samplesLength == |pcm|
      ensures filePath == old(filePath) && fileFormat == old(fileFormat) && fileSize == old(fileSize)
      ensures audioFormat == old(audioFormat) && audioChannels == old(audioChannels)
    {
      audioSampleRate := Some(rate);
      samples := NormalisedArray(pcm);
      samplesCapacity := |pcm|;
      samplesLength := samplesCapacity;
      UpdateLength();
    }

    /**
      * `read_samples_from_file`: check the path, convert when needed, read the
      * PCM16 samples as reals in [-1, 1), delete the temporary file.
      */
    method ReadSamplesFromFile(src: SourceFile) returns (r: Outcome, temp: TempFile)
      requires Valid() && src.WellFormed()
      modifies this
      ensures Valid()
      ensures r == LoadOutcome(old(filePath).Some?, old(fileFormat), rconf, src)
      ensures temp == TempFate(old(filePath).Some?, old(fileFormat), rconf, src)
      ensures LoadEffect(src)
      ensures r.Pass? ==> samples[..] == Normalised(src.decoding.pcm) && Contents() == samples[..] && Timed()
    {
      if filePath.None? || !src.readable {
        return Fail(CannotRead), NoTemp;
      }
      var convert;
      convert, r := ConvertIfNeeded(src);
      if r.Fail? {
        return r, TempDeleted;
      }
      audioFormat := Some("pcm16");
      audioChannels := Some(1);
      if src.decoding.DecodeFails? {
        return Fail(UnsupportedFormat), if convert then TempLeft else NoTemp;
      }
      StoreDecoded(src.decoding.rate, src.decoding.pcm);
      temp := if convert then TempDeleted else NoTemp;
      UpdateLength();
    }

    /** The lazy-load guard shared by `audio_samples`, `reverse` and `write`. */
    method LoadIfNeeded(src: SourceFile) returns (r: Outcome)
      requires Valid() && src.WellFormed()
      modifies this
      ensures Valid()
      ensures r == AccessOutcome(old(samples) != null, old(filePath).Some?, old(fileFormat), rconf, src)
      ensures r.Pass? ==> samples != null
      ensures old(samples) != null || old(filePath).None? ==> unchanged(this)
      ensures old(samples) == null && old(filePath).Some? ==> LoadEffect(src)
      ensures old(samples) == null && r.Pass? ==> samples[..] == Normalised(src.decoding.pcm)
      ensures r.Pass? ==> Timed() || old(samples) != null
    {
      if samples != null {
        return Pass;
      }
      if filePath.None? {
        return Fail(NotInitialized);
      }
      var temp;
      r, temp := ReadSamplesFromFile(src);
    }

    /** `audio_samples`: exactly the first `length` samples, loading them first when needed. */
    method AudioSamples(src: SourceFile) returns (r: Result<seq<real>>)
      requires Valid() && src.WellFormed()
      modifies this
      ensures Valid()
      ensures var access := AccessOutcome(old(samples) != null, old(filePath).Some?, old(fileFormat), rconf, src);
        if access.Pass? then r == Success(Contents()) else r == Failure(access.error)
      ensures old(samples) != null ==> unchanged(this) && r == Success(old(Contents()))
      ensures old(samples) == null && old(filePath).None? ==> unchanged(this)
      ensures old(samples) == null && old(filePath).Some? ==> LoadEffect(src)
      ensures old(samples) == null && r.Success? ==> r.value == Normalised(src.decoding.pcm)
    {
      var loaded := LoadIfNeeded(src);
      if loaded.Fail? {
        return Failure(loaded.error);
      }
      r := Success(samples[..samplesLength]);
    }

    /**
      * `preallocate_memory`: make the array exactly `capacity` slots, keeping
      * the first `min(length, capacity)` samples; a negative capacity is a
      * ValueError and changes nothing.
      */
    method PreallocateMemory(capacity: int) returns (r: Outcome)
      requires Valid()
      modifies this`samples, this`samplesCapacity, this`samplesLength
      ensures Valid()
      ensures capacity < 0 ==>
        r == Fail(NegativeCapacity) && unchanged(this) &&
        (samples != null ==> samples[..] == old(samples[..]))
      ensures 0 <= capacity ==>
        r == Pass && samples != null && fresh(samples) && samplesCapacity == capacity
      ensures 0 <= capacity && old(samples) == null ==>
        samplesLength == 0 && samples[..] == Zeros(capacity)
      ensures 0 <= capacity && old(samples) != null ==>
        samplesLength == Min(old(samplesLength), capacity) &&
        samples[..] == Resize(old(samples[..]), capacity)
      ensures 0 <= capacity ==> Contents() == old(Contents())[..samplesLength]
    {
      if capacity < 0 {
        return Fail(NegativeCapacity);
      }
      if samples == null {
        samples := new real[capacity](_ => 0.0);
        samplesLength := 0;
      } else {
        samples := ResizeArray(samples, capacity);
        samplesLength := Min(samplesLength, capacity);
      }
      samplesCapacity := capacity;
      r := Pass;
    }

    /** `minimize_memory`: shrink the capacity to the length, keeping the samples. */
    method MinimizeMemory()
      requires Valid()
      modifies this`samples, this`samplesCapacity, this`samplesLength
      ensures Valid()
      ensures old(samples) == null ==> unchanged(this)
      ensures old(samples) != null ==>
        samples != null && fresh(samples) &&
        samplesLength == old(samplesLength) && samplesCapacity == samplesLength &&
        Contents() == old(Contents())
    {
      if samples != null {
        var _ := PreallocateMemory(samplesLength);
      }
    }

    /**
      * `add_samples`: append a block, reversed first when `reverse`, growing
      * the array to twice the new length when it does not fit.
      */
    method AddSamples(block: seq<real>, reverse: bool)
      requires Valid()
      modifies this`samples, this`samplesCapacity, this`samplesLength, this`audioLength, samples
      ensures Valid() && samples != null
      ensures samplesLength == old(samplesLength) + |block|
      ensures samplesCapacity == GrownCapacity(old(samples) != null, old(samplesLength), old(samplesCapacity), |block|)
      ensures Contents() == old(Contents()) + (if reverse then Reversed(block) else block)
      ensures !MustGrow(old(samples) != null, old(samplesLength), old(samplesCapacity), |block|) ==>
        samples == old(samples) &&
        samples[..] == Overwrite(old(samples[..]), old(samplesLength), if reverse then Reversed(block) else block)
      ensures MustGrow(old(samples) != null, old(samplesLength), old(samplesCapacity), |block|) ==> fresh(samples)
      ensures audioSampleRate.Some? ==> Timed()
      ensures audioSampleRate.None? ==> audioLength == old(audioLength)
    {
      ghost var kept := Contents();
      var future := samplesLength + |block|;
      if samples == null || samplesCapacity < future {
        var _ := PreallocateMemory(2 * future);
        assert samplesLength == old(samplesLength) && Contents() == kept;
      }
      assert samplesCapacity == GrownCapacity(old(samples) != null, old(samplesLength), old(samplesCapacity), |block|);
      PlaceAtEnd(if reverse then Reversed(block) else block);
    }

    /** The copy step of `add_samples`: write a block after the valid samples, in room already there. */
    method PlaceAtEnd(block: seq<real>)
      requires Valid() && samples != null && samplesLength + |block| <= samplesCapacity
      modifies this`samplesLength, this`audioLength, samples
      ensures Valid()
      ensures samplesLength == old(samplesLength) + |block|
      ensures samples[..] == Overwrite(old(samples[..]), old(samplesLength), block)
      ensures Contents() == old(Contents()) + block
      ensures audioSampleRate.Some? ==> Timed()
      ensures audioSampleRate.None? ==> audioLength == old(audioLength)
    {
      ghost var before := samples[..];
      WriteBlock(samples, samplesLength, block);
      OverwriteAtEnd(before, samplesLength, block);
      samplesLength := samplesLength + |block|;
      UpdateLength();
    }

    /**
      * `reverse`: reverse the valid samples in place, loading them first when
      * needed; capacity, length and the unused tail stay as they are.
      */
    method Reverse(src: SourceFile) returns (r: Outcome)
      requires Valid() && src.WellFormed()
      modifies this, samples
      ensures Valid()
      ensures r == AccessOutcome(old(samples) != null, old(filePath).Some?, old(fileFormat), rconf, src)
      ensures old(samples) != null ==>
        unchanged(this) &&
        samples[..] == Overwrite(old(samples[..]), 0, Reversed(old(Contents()))) &&
        Contents() == Reversed(old(Contents()))
      ensures old(samples) == null && old(filePath).None? ==> unchanged(this)
      ensures old(samples) == null && old(filePath).Some? ==> LoadEffect(src)
      ensures old(samples) == null && r.Pass? ==> samples[..] == Reversed(Normalised(src.decoding.pcm))
    {
      r := LoadIfNeeded(src);
      if r.Fail? {
        return;
      }
      ghost var loaded := samples[..];
      ghost var valid := Contents();
      ReverseResident();
      if old(samples) == null {
        assert valid == loaded == Normalised(src.decoding.pcm);
        OverwriteWhole(loaded, Reversed(loaded));
      } else {
        assert unchanged(this) && valid == old(Contents()) && loaded == old(samples[..]);
      }
    }

    /** The in-place step of `reverse`, on samples already resident. */
    method ReverseResident()
      requires Valid() && samples != null
      modifies samples
      ensures samples[..] == Overwrite(old(samples[..]), 0, Reversed(old(Contents())))
      ensures Contents() == Reversed(old(Contents()))
    {
      ghost var before := samples[..];
      ReversePrefix(samples, samplesLength);
      OverwriteFront(before, Reversed(before[..samplesLength]));
    }

    /**
      * `trim`: keep the samples between `begin` and `begin + length` seconds,
      * clamped to the audio, moved to the front; capacity does not change.
      */
    method Trim(begin: TimeArg, length: TimeArg) returns (r: Outcome)
      requires Valid()
      requires TrimMoves(begin, length) ==> Timed()
      modifies this`samplesLength, this`audioLength, samples
      ensures Valid()
      ensures begin.NotTimeValue? || length.NotTimeValue? ==>
        r == Fail(BadTimeType) && unchanged(this) && (samples != null ==> samples[..] == old(samples[..]))
      ensures begin.Missing? && length.Missing? ==>
        r == Pass && unchanged(this) && (samples != null ==> samples[..] == old(samples[..]))
      ensures TrimMoves(begin, length) ==>
        var span := TrimIndices(begin, length, old(audioLength).value, old(audioSampleRate).value);
        r == Pass && 0 <= span.begin <= span.end <= old(samplesLength) &&
        samplesLength == span.end - span.begin &&
        samples[..] == Overwrite(old(samples[..]), 0, old(samples[span.begin..span.end])) &&
        Contents() == old(Contents())[span.begin..span.end] &&
        Timed()
    {
      if begin.NotTimeValue? || length.NotTimeValue? {
        return Fail(BadTimeType);
      }
      if begin.Missing? && length.Missing? {
        return Pass;
      }
      var span := TrimIndices(begin, length, audioLength.value, audioSampleRate.value);
      TrimSpanWithinBuffer(samplesLength, audioSampleRate.value, begin, length);
      KeepSpan(span);
      r := Pass;
    }

    /** The moving step of `trim`: slide the samples of a span to the front and keep only them. */
    method KeepSpan(span: Span)
      requires Valid() && Timed() && 0 <= span.begin <= span.end <= samplesLength
      modifies this`samplesLength, this`audioLength, samples
      ensures Valid() && Timed()
      ensures samplesLength == span.end - span.begin
      ensures samples[..] == Overwrite(old(samples[..]), 0, old(samples[span.begin..span.end]))
      ensures Contents() == old(Contents())[span.begin..span.end]
    {
      ghost var before := samples[..];
      SlideToFront(samples, span.begin, span.end);
      OverwriteFront(before, before[span.begin..span.end]);
      samplesLength := span.end - span.begin;
      UpdateLength();
    }

    /**
      * `write`: load when needed, then hand the samples as int16 values
      * (`(x * 32768).astype("int16")`) to the WAVE writer, whose failure is an
      * OSError; the writer cannot write a header without a sample rate, so an
      * object with no known rate always fails.
      */
    method Write(src: SourceFile, writerSucceeds: bool) returns (r: Result<WaveData>)
      requires Valid() && src.WellFormed()
      modifies this
      ensures Valid()
      ensures var access := AccessOutcome(old(samples) != null, old(filePath).Some?, old(fileFormat), rconf, src);
        if access.Fail? then r == Failure(access.error)
        else if writerSucceeds && audioSampleRate.Some? then
          r == Success(WaveData(audioSampleRate.value, QuantisedAll(Contents())))
        else r == Failure(WriteFailed)
      ensures r.Success? ==> audioSampleRate.Some? && r.value.rate == audioSampleRate.value
      ensures old(samples) != null || old(filePath).None? ==> unchanged(this)
      ensures old(samples) == null && old(filePath).Some? ==> LoadEffect(src)
    {
      var loaded := LoadIfNeeded(src);
      if loaded.Fail? {
        return Failure(loaded.error);
      }
      if !writerSucceeds || audioSampleRate.None? {
        return Failure(WriteFailed);
      }
      r := Success(WaveData(audioSampleRate.value, QuantisedAll(samples[..samplesLength])));
    }

    /** `clear_data`: drop the array and return the buffer to the constructor's state. */
    method ClearData()
      requires Valid()
      modifies this`samples, this`samplesCapacity, this`samplesLength
      ensures Valid() && Unallocated()
    {
      samplesCapacity := 0;
      samplesLength := 0;
      samples := null;
    }
  }
}
