/** Optional values and the failures an AudioFile reports. */
module Errors {

  /** Python's `None` or a value. */
  datatype Option<T> = None | Some(value: T)

  /** The exceptions the audio file raises, named after what they report. */
  datatype AudioError =
    | NotInitialized     // AudioFileNotInitializedError: no samples and no path
    | CannotRead         // OSError: the file at the path cannot be read
    | ConverterError     // AudioFileConverterError: ffmpeg cannot be called
    | UnsupportedFormat  // AudioFileUnsupportedFormatError: ffmpeg or the WAVE reader rejects the file
    | NegativeCapacity   // ValueError from preallocate_memory
    | BadTimeType        // TypeError from trim
    | WriteFailed        // OSError from write

  /** Completion of an operation that returns nothing. */
  datatype Outcome = Pass | Fail(error: AudioError)

  /** Completion of an operation that returns a value. */
  datatype Result<T> = Success(value: T) | Failure(error: AudioError)
}
