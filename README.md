# AudioFile sample buffer

A Dafny model of the mono sample buffer of `AudioFile` in aeneas
(`aeneas/audiofile.py`). The buffer has three parts:

- an array of float samples, or nothing;
- a capacity, the number of slots allocated;
- a length, the number of valid samples.

The model also covers the logic around the buffer:

- the lazy-load guard shared by `audio_samples`, `reverse` and `write`;
- the conversion decision and the state a load leaves behind (`read_samples_from_file`);
- the time arithmetic of `trim` and `_update_length`.

`AudioFiles.AudioFile` is a class. Its fields are the object's attributes.
The samples are an `array?<real>`, where `null` stands for Python's `None`.
Its methods update the fields and the array in place, as the Python methods
do. `Valid()` is the class invariant:

- `0 <= length <= capacity`;
- when the array is present, it has `capacity` slots;
- when the array is absent, length and capacity are both 0;
- a known `audio_sample_rate` is positive.

Each method is proved against pure functions on sequences:

- `Overwrite` is numpy slice assignment.
- `Resize` is `numpy.resize`.
- `Reversed` is `flipud` and `[::-1]`.
- `Normalised` is the `/ 32768` done on read.
- `Quantised` is the `(x * 32768).astype("int16")` done on write.
- `TrimIndices` is trim's clamping and its conversion from time to sample index.

Properties that span several calls are lemmas about those functions, or
client methods in `AudioFileProperties`.

The outside world at load time is a `SourceFile` value. It records whether
the path can be read, what ffmpeg does, and what the WAVE reader returns.
`write`'s WAVE writer is a success flag. Times (`TimeValue`) are exact reals.

Where the documentation and the code differ, the model follows the code:

- `preallocate_memory` grows the array with `numpy.resize`. That repeats the
  old samples cyclically in the new slots rather than filling them with zeros
  (`Resize`).
- `trim` never loads samples lazily. The model makes resident samples and a
  consistent `audio_length` a precondition whenever trim has data to move.
- `write` truncates toward zero and wraps to 16 bits. It does not round or
  clamp, so a full-scale sample of 1.0 or -1.0 is written as -32768
  (`Samples.FullScaleWraps`). Samples that came from a PCM16 file are written
  back unchanged (`Samples.WriteAfterRead`).
- When ffmpeg converts the file and the WAVE reader then fails, the exception
  is raised before the temporary file is deleted. The model reports that
  temporary file as `TempLeft` (`Loading.TempFileOnlyWhenConverting`).
- A conversion sets `file_format` to the canonical triple (line 420), but
  `file_path` still names the original file and the converted copy is deleted
  (lines 452-453). After `clear_data`, the next `audio_samples`, `reverse` or
  `write` therefore hands the original file to the WAVE reader unconverted,
  and a file that only ffmpeg can decode then fails to load
  (`AudioFileProperties.ReloadAfterClearReadsOriginal`).

## Model

| member | source | states |
|---|---|---|
| AudioFiles.AudioFile.Valid | aeneas/audiofile.py:207-209 | the class invariant the constructor sets up and every method keeps: `0 <= length <= capacity`, an array of `capacity` slots or none with both 0, and a positive known rate (kept at lines 445-446 and 494-495) |
| AudioFiles.AudioFile.Contents | aeneas/audiofile.py:325 | the valid samples: the first `length` slots of the array |
| AudioFiles.AudioFile.Timed | aeneas/audiofile.py:646-647 | samples are resident, the rate is known and audio_length is their count over the rate |
| AudioFiles.AudioFile.LoadEffect | aeneas/audiofile.py:397-461 | the fields a load leaves: the canonical triple after a conversion (line 420), "pcm16" and 1 channel once the reader is reached (439-440), and on success the decoded rate, capacity == length == count and audio_length (441-447); on failure the buffer and rate as before |
| AudioFiles.AudioFile.constructor | aeneas/audiofile.py:198-209 | a new object satisfies the invariant and has no array, capacity 0 and length 0; path and format are the arguments, and every other attribute is None |
| AudioFiles.AudioFile.UpdateLength | aeneas/audiofile.py:646-647 | with both a rate and an array, `audio_length` becomes length / rate; with either missing, `audio_length` is left alone |
| AudioFiles.AudioFile.ConvertIfNeeded | aeneas/audiofile.py:401-427 | conversion runs exactly when `NeedsConversion` holds; a missing ffmpeg is a converter error and a rejecting ffmpeg is an unsupported format; a successful conversion sets `file_format` to the canonical triple |
| AudioFiles.AudioFile.StoreDecoded | aeneas/audiofile.py:439-447 | the array holds the decoded samples divided by 32768; capacity == length == the decoded count; the rate is the decoded rate; audio_length is count / rate |
| AudioFiles.AudioFile.ReadSamplesFromFile | aeneas/audiofile.py:397-461 | the outcome is `LoadOutcome` and the temporary file's fate is `TempFate`; on success format "pcm16", 1 channel, capacity == length == count and the samples are the normalised PCM; on failure the buffer is untouched |
| AudioFiles.AudioFile.LoadIfNeeded | aeneas/audiofile.py:320-324 | resident samples are used as they are; with no array and no path the result is NotInitialized and nothing changes; otherwise the object loads |
| AudioFiles.AudioFile.AudioSamples | aeneas/audiofile.py:320-325 | returns exactly the first `length` samples, loading them first when needed; NotInitialized, or the load's error, otherwise |
| AudioFiles.AudioFile.PreallocateMemory | aeneas/audiofile.py:484-495 | a negative capacity is a ValueError that changes nothing; otherwise capacity becomes `c`, length becomes 0 (no array) or `min(length, c)`, the array is `Zeros(c)` or `Resize(old, c)`, and the kept samples are the old prefix |
| AudioFiles.AudioFile.MinimizeMemory | aeneas/audiofile.py:509-513 | without an array nothing changes; otherwise capacity equals length, and length and the valid samples are unchanged |
| AudioFiles.AudioFile.AddSamples | aeneas/audiofile.py:533-543 | length grows by the block's size; the contents are the old contents followed by the block, reversed when asked; capacity is `GrownCapacity` (exactly 2 * new length when short or unallocated, otherwise unchanged, and the array is then edited in place); audio_length follows when the rate is known |
| AudioFiles.AudioFile.PlaceAtEnd | aeneas/audiofile.py:538-543 | the block overwrites the slots right after the valid samples, every other slot keeps its value, and the length grows by the block's size |
| AudioFiles.AudioFile.Reverse | aeneas/audiofile.py:554-560 | the guard's outcome; resident samples: the first `length` slots are reversed in place and the tail, length, capacity and every other field are unchanged; loaded samples end up reversed |
| AudioFiles.AudioFile.ReverseResident | aeneas/audiofile.py:560 | the valid prefix is replaced by its reversal, and the slots after it are unchanged |
| AudioFiles.AudioFile.Trim | aeneas/audiofile.py:579-601 | a non-TimeValue argument is a TypeError and changes nothing; two None arguments change nothing; otherwise `0 <= bi <= ei <= length`, the new contents are the old slice `[bi, ei)` moved to the front, capacity and the array are kept, and audio_length is recomputed |
| AudioFiles.AudioFile.KeepSpan | aeneas/audiofile.py:596-601 | the slice `[bi, ei)` moves to slot 0, the other slots keep their values, the length becomes `ei - bi`, and audio_length matches the new length |
| AudioFiles.AudioFile.Write | aeneas/audiofile.py:614-626 | the guard's error; otherwise an OSError when the writer fails or the object has no sample rate (the writer needs one for the header); otherwise the rate with every valid sample quantised to int16 |
| AudioFiles.AudioFile.ClearData | aeneas/audiofile.py:634-636 | drops the array and sets capacity and length to 0 (the constructor's buffer state); other fields are unchanged |
| AudioFiles.ResizeArray | aeneas/audiofile.py:493 | a new array holding `Resize(old, c)` |
| AudioFiles.NormalisedArray | aeneas/audiofile.py:444 | a new array holding each PCM value divided by 32768 |
| AudioFiles.WriteBlock | aeneas/audiofile.py:539-541 | slice assignment: the block replaces `[at, at + n)` and every other slot keeps its value |
| AudioFiles.ReversePrefix | aeneas/audiofile.py:560 | swapping from both ends reverses the first `n` slots and leaves the rest |
| AudioFiles.SlideToFront | aeneas/audiofile.py:599 | a forward copy of `[lo, hi)` to slot 0 gives the old slice at the front and leaves the rest, although source and target overlap |
| Samples.Reversed | aeneas/audiofile.py:539 | same length, and slot i holds the element at the mirrored position |
| Samples.ReversedTwice | aeneas/audiofile.py:560 | reversing twice is the identity |
| Samples.Resize | aeneas/audiofile.py:493 | c slots; the first min(c, n) slots keep the old samples; an empty array resizes to zeros |
| Samples.ResizeToOwnSize | aeneas/audiofile.py:493 | resizing to the current size changes nothing |
| Samples.ResizeIdempotent | aeneas/audiofile.py:493 | resizing twice to the same capacity equals resizing once |
| Samples.Overwrite | aeneas/audiofile.py:539-541 | the size is unchanged; slots in the written range hold the block and the others keep their values |
| Samples.OverwriteAtEnd | aeneas/audiofile.py:539-542 | after writing at the current length, the new valid prefix is the old prefix followed by the block |
| Samples.OverwriteFront | aeneas/audiofile.py:599-600 | after writing at slot 0, the new valid prefix is the block |
| Samples.OverwriteWhole | aeneas/audiofile.py:560 | writing every slot replaces the sequence |
| Samples.OverwriteWithOwnPrefix | aeneas/audiofile.py:599 | writing a prefix back over itself changes nothing |
| Samples.OverwriteReversedTwice | aeneas/audiofile.py:560 | reversing the valid prefix in place twice restores every slot |
| Samples.Normalised | aeneas/audiofile.py:444 | one real per PCM value; int16 values map into [-1, 1) |
| Samples.TruncToInt | aeneas/audiofile.py:596-597 | Python `int()`: the integer within 1 of x on the side of 0 |
| Samples.Wrap16 | aeneas/audiofile.py:623 | the result is an int16 congruent to the input modulo 65536, and int16 inputs are unchanged |
| Samples.Quantised | aeneas/audiofile.py:623 | every written sample is an int16 |
| Samples.QuantisedAll | aeneas/audiofile.py:623 | the written data has one int16 per sample, each the quantised sample |
| Samples.QuantisedNormalised | aeneas/audiofile.py:623 | an int16 read as v / 32768 is written back as v |
| Samples.WriteAfterRead | aeneas/audiofile.py:623 | writing the samples read from an int16 block gives the block back |
| Samples.FullScaleWraps | aeneas/audiofile.py:623 | 1.0 and -1.0 are both written as -32768 |
| Timing.Duration | aeneas/audiofile.py:647 | audio_length: a sample count divided by the rate, exactly |
| Timing.TrimMoves | aeneas/audiofile.py:579-585 | trim moves data when both arguments are None or a TimeValue and not both are None |
| Timing.SampleIndex | aeneas/audiofile.py:596-597 | a time in seconds becomes the sample index `int(t * rate)` |
| Timing.TrimIndices | aeneas/audiofile.py:586-598 | the span trim keeps: from the index of the clamped begin to the index of the clamped begin plus the clamped length |
| Timing.ClampedBegin | aeneas/audiofile.py:586-589 | the begin lies in [0, audio_length] and is unchanged when already inside |
| Timing.ClampedLength | aeneas/audiofile.py:591-594 | the length lies in [0, audio_length - begin]; it defaults to the rest of the audio and is unchanged when already inside |
| Timing.DurationTimesRate | aeneas/audiofile.py:647 | audio_length times the rate is the sample count again |
| Timing.TruncMonotone | aeneas/audiofile.py:596-597 | int() of a larger non-negative time times the rate is not smaller |
| Timing.IndicesInSamples | aeneas/audiofile.py:596-598 | indices of in-range times lie in `[0, count]` in order, and their difference is within 1 of length * rate |
| Timing.TrimSpanWithinBuffer | aeneas/audiofile.py:589-598 | when audio_length is count / rate, `0 <= bi <= ei <= count` |
| Timing.TrimSpanMatchesLength | aeneas/audiofile.py:594-598 | the kept sample count is within one sample of the clamped length times the rate |
| Timing.TrimWholeBuffer | aeneas/audiofile.py:583-598 | begin 0 with the whole length, or with length None, keeps every sample |
| Timing.TrimTenSamples | aeneas/audiofile.py:586-598 | 10 samples at 10 Hz trimmed from 0.2 s for 0.5 s keep samples 2 to 6 |
| Growth.MustGrow | aeneas/audiofile.py:536 | add_samples reallocates when there is no array or the capacity is short of the new length |
| Growth.Append | aeneas/audiofile.py:533-537 | one add_samples on the sizes: length grows by the block, capacity as GrownCapacity, and a reallocation is counted when MustGrow holds |
| Growth.AppendAll | aeneas/audiofile.py:533-537 | a run of add_samples calls, one per block size |
| Growth.GrownCapacity | aeneas/audiofile.py:536-537 | the new samples fit, and capacity is unchanged when nothing needs to grow |
| Growth.AppendKeepsAmortised | aeneas/audiofile.py:533-537 | one append keeps capacity at most twice the length, and capacity at least doubles at each reallocation |
| Growth.AppendAllAmortised | aeneas/audiofile.py:533-537 | any run of appends keeps that bound, and its length is the sum of the block sizes |
| Growth.ReallocationsLogarithmic | aeneas/audiofile.py:536-537 | appends totalling N samples into a new buffer reallocate at most log2(N) + 2 times |
| Loading.CanonicalFormat | aeneas/audiofile.py:406 | the canonical triple: ("pcm_s16le", 1, the configured sample rate) |
| Loading.NeedsConversion | aeneas/audiofile.py:402-408 | conversion is needed when the format is unknown, or when safety checks are on and the declared format is not the canonical triple |
| Loading.Converts | aeneas/audiofile.py:398-411 | the loader reaches ffmpeg: a readable path and a format that needs conversion |
| Loading.ReachesDecoder | aeneas/audiofile.py:398-441 | the loader reaches the WAVE reader: a readable path and either no conversion needed or a successful one |
| Loading.LoadOutcome | aeneas/audiofile.py:397-449 | how a load ends: OSError for an unreadable or missing path, converter error for a missing ffmpeg, unsupported format when ffmpeg or the WAVE reader rejects the file, success otherwise |
| Loading.TempFate | aeneas/audiofile.py:410-453 | no temporary file without conversion; deleted when ffmpeg fails or the load succeeds; left on disk when the WAVE reader fails after a conversion |
| Loading.AccessOutcome | aeneas/audiofile.py:320-324 | the lazy-load guard (also lines 554-558 and 614-618): resident samples pass, no path is NotInitialized, otherwise the load's outcome |
| Loading.NotInitializedExactly | aeneas/audiofile.py:554-556 | NotInitialized is raised if and only if there are neither samples nor a path |
| Loading.LoadSucceedsExactly | aeneas/audiofile.py:397-449 | a load succeeds if and only if the file is readable, any needed conversion works and the WAVE reader parses the result |
| Loading.CanonicalIsReadDirectly | aeneas/audiofile.py:402-408 | a declared `file_format` equal to the canonical triple, as a conversion sets it, is never converted, whatever file the path names |
| Loading.UnknownFormatIsConverted | aeneas/audiofile.py:402-403 | an unknown format is always converted |
| Loading.DeclaredFormatTrustedWithoutChecks | aeneas/audiofile.py:402-408 | with safety checks off, any declared format is read directly |
| Loading.OtherRateIsConverted | aeneas/audiofile.py:405-406 | with safety checks on, PCM16 mono at another rate is still converted |
| Loading.TempFileOnlyWhenConverting | aeneas/audiofile.py:410-453 | a temporary file exists if and only if conversion ran; it is left on disk if and only if the WAVE reader fails after a successful conversion |
| AudioFileProperties.PreallocateTwice | aeneas/audiofile.py:484-495 | a second preallocation to the same capacity leaves the state the first one left |
| AudioFileProperties.ReverseTwice | aeneas/audiofile.py:554-560 | reversing resident samples twice restores every slot and field |
| AudioFileProperties.TrimWholeAudio | aeneas/audiofile.py:583-601 | trimming from 0 for the whole audio_length keeps every sample in place |
| AudioFileProperties.AppendToNewFile | aeneas/audiofile.py:533-543 | four samples appended to a new object give length 4, capacity 8 and those samples |
| AudioFileProperties.AddSamplesStep | aeneas/audiofile.py:533-537 | one `add_samples` maps the buffer's (array present, length, capacity) to one `Append` of the growth bookkeeping, counting a reallocation exactly when the array is replaced |
| AudioFileProperties.AppendBlocks | aeneas/audiofile.py:533-543 | appending any run of blocks to a new object gives length equal to the total size, capacity at most twice the length, and at most log2(N) + 2 reallocations |
| AudioFileProperties.ShrinkLeavesLengthStale | aeneas/audiofile.py:484-495 | preallocate_memory does not recompute audio_length: shrinking 10 samples at 10 Hz to 5 leaves audio_length at 1 s, and a trim from 0.2 s for 0.5 s then computes the span [2, 7) over a 5-slot array |
| Growth.AppendAllSnoc | aeneas/audiofile.py:533-537 | a run of appends followed by one more append is the longer run |
| AudioFileProperties.ReloadAfterClearReadsOriginal | aeneas/audiofile.py:397-453 | a converting load succeeds and deletes its temporary file; after clear_data, the reload reads the original without converting (no temporary file) and fails when the WAVE reader rejects it |
| AudioFileProperties.WriteWithoutRate | aeneas/audiofile.py:614-626 | samples appended to an object with no sample rate cannot be written: write fails with an OSError |
| AudioFileProperties.SamplesOfEmptyFile | aeneas/audiofile.py:320-322 | an object with neither path nor samples raises NotInitialized from `audio_samples` |

## Left out

- `read_properties` (ffprobe and file size) is not part of this model: it is a subprocess call plus file I/O.
- ffmpeg, the WAVE reader and the WAVE writer are external tools. Their observable results are the `SourceFile` parameter and the writer's success flag.
- `gf.file_can_be_read` is not part of this model. Readability is a flag, and a missing path counts as unreadable.
- Creating and deleting the temporary file are file I/O. Only the file's fate (`TempFile`) is modelled.
- Logging, `__unicode__`/`__str__` and `FILE_EXTENSIONS` have no behaviour on the buffer.
- The `Decimal` precision of `TimeValue` is left out: times and durations are exact reals.
- Floating-point rounding in `/ 32768` and `* 32768` is left out: those are exact real arithmetic.
- A known `audio_sample_rate` of zero or less is excluded by the invariant, whether it comes from the WAVE reader (`SourceFile.WellFormed`), from `read_properties` or from a caller assigning the public attribute. In Python, `add_samples`, `trim` and a load with such a rate update the buffer and then fail in `_update_length` with a rate of 0.
- AudioFiles.AudioFile.Trim: requires resident samples with audio_length equal to length / rate whenever it moves data, and what Python does outside that state is not modelled. The operations themselves reach such states: trim never loads, `preallocate_memory` never recomputes audio_length (so a shrinking preallocation leaves it stale, see `AudioFileProperties.ShrinkLeavesLengthStale`), and `clear_data` keeps it while dropping the samples. From a stale audio_length, Python's trim computes indices past the valid samples: with a short array the slice assignment at line 599 raises a numpy ValueError, and with spare capacity it turns slots beyond the old length into valid samples.
- AudioFiles.AudioFile.Write: whether the WAVE writer succeeds on a known rate is a flag, and every exception it raises is the single `WriteFailed` error.
- Samples.Normalised: states the [-1, 1) bound only for int16 values, since the WAVE reader's other sample types are not modelled.
- AudioFiles.AudioFile.AudioSamples: the result is a value. The source returns a writable numpy view that shares memory with the buffer (lines 312-316 and 325), so a caller writing into it changes the samples; that aliasing is not modelled.
- `add_samples` is modelled for a one-dimensional block of samples. numpy's handling of other shapes and dtypes is not modelled.
