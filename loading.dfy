/**
  * The decisions of `read_samples_from_file` and of the lazy-load guard, as
  * functions of the object's state and of what the outside world does.
  */
module Loading {
  import opened Errors

  /** The parts of the runtime configuration the loader reads. */
  datatype RuntimeConf = RuntimeConf(safetyChecks: bool, sampleRate: int)

  /** A `file_format` triple `(codec, channels, rate)`. */
  datatype FileFormat = FileFormat(codec: string, channels: int, sampleRate: int)

  /** The format samples are read in: PCM16 little-endian, mono, the configured rate. */
  function CanonicalFormat(conf: RuntimeConf): FileFormat
  {
    FileFormat("pcm_s16le", 1, conf.sampleRate)
  }

  /**
    * Conversion runs when the format is unknown, or when safety checks are on
    * and the declared format is not exactly the canonical one.
    */
  predicate NeedsConversion(format: Option<FileFormat>, conf: RuntimeConf)
  {
    format.None? || (conf.safetyChecks && format.value != CanonicalFormat(conf))
  }

  /** What ffmpeg does when asked to convert. */
  datatype Conversion = Converted | ConverterMissing | ConverterRejects

  /** What the WAVE reader returns: a rate and int16 samples, or a ValueError. */
  datatype Decoding = Decoded(rate: int, pcm: seq<int>) | DecodeFails

  /** The outside world at load time: the file's readability, ffmpeg, the WAVE reader. */
  datatype SourceFile = SourceFile(readable: bool, conversion: Conversion, decoding: Decoding)
  {
    /** The WAVE reader reports a positive sample rate. */
    predicate WellFormed() { decoding.Decoded? ==> decoding.rate > 0 }
  }

  /** What becomes of the temporary WAVE file. */
  datatype TempFile = NoTemp | TempDeleted | TempLeft

  /** The loader reaches the converter: the path can be read and conversion is needed. */
  predicate Converts(hasPath: bool, format: Option<FileFormat>, conf: RuntimeConf, src: SourceFile)
  {
    hasPath && src.readable && NeedsConversion(format, conf)
  }

  /** The loader reaches the WAVE reader. */
  predicate ReachesDecoder(hasPath: bool, format: Option<FileFormat>, conf: RuntimeConf, src: SourceFile)
  {
    hasPath && src.readable && (!NeedsConversion(format, conf) || src.conversion.Converted?)
  }

  /** How `read_samples_from_file` completes. */
  function LoadOutcome(hasPath: bool, format: Option<FileFormat>, conf: RuntimeConf, src: SourceFile): Outcome
  {
    if !hasPath || !src.readable then Fail(CannotRead)
    else if NeedsConversion(format, conf) && src.conversion.ConverterMissing? then Fail(ConverterError)
    else if NeedsConversion(format, conf) && src.conversion.ConverterRejects? then Fail(UnsupportedFormat)
    else if src.decoding.DecodeFails? then Fail(UnsupportedFormat)
    else Pass
  }

  /** What `read_samples_from_file` does with the temporary file. */
  function TempFate(hasPath: bool, format: Option<FileFormat>, conf: RuntimeConf, src: SourceFile): TempFile
  {
    if !Converts(hasPath, format, conf, src) then NoTemp
    else if !src.conversion.Converted? then TempDeleted
    else if src.decoding.DecodeFails? then TempLeft
    else TempDeleted
  }

  /**
    * The lazy-load guard of `audio_samples`, `reverse` and `write`: resident
    * samples are used as they are, a path triggers a load, and with neither
    * the object is not initialized.
    */
  function AccessOutcome(resident: bool, hasPath: bool, format: Option<FileFormat>, conf: RuntimeConf, src: SourceFile): Outcome
  {
    if resident then Pass
    else if !hasPath then Fail(NotInitialized)
    else LoadOutcome(hasPath, format, conf, src)
  }

  /** NotInitialized is raised exactly when there are neither samples nor a path. */
  lemma NotInitializedExactly(resident: bool, hasPath: bool, format: Option<FileFormat>, conf: RuntimeConf, src: SourceFile)
    ensures AccessOutcome(resident, hasPath, format, conf, src) == Fail(NotInitialized) <==> !resident && !hasPath
  {
  }

  /** A load succeeds exactly when the file is readable, any needed conversion works and the reader parses the result. */
  lemma LoadSucceedsExactly(hasPath: bool, format: Option<FileFormat>, conf: RuntimeConf, src: SourceFile)
    ensures LoadOutcome(hasPath, format, conf, src) == Pass <==>
      ReachesDecoder(hasPath, format, conf, src) && src.decoding.Decoded?
  {
  }

  /**
    * A declared `file_format` equal to the canonical triple is read directly.
    * A conversion sets that triple on the object while the file at its path
    * is still the original, so a later load reads the original unconverted.
    */
  lemma CanonicalIsReadDirectly(conf: RuntimeConf)
    ensures !NeedsConversion(Some(CanonicalFormat(conf)), conf)
  {
  }

  /** An unknown format is always converted, whatever the safety setting. */
  lemma UnknownFormatIsConverted(conf: RuntimeConf)
    ensures NeedsConversion(None, conf)
  {
  }

  /** With safety checks off, any declared format is trusted. */
  lemma DeclaredFormatTrustedWithoutChecks(format: FileFormat, conf: RuntimeConf)
    requires !conf.safetyChecks
    ensures !NeedsConversion(Some(format), conf)
  {
  }

  /**
    * With safety checks on, a format that differs from the canonical one in
    * any field (here: PCM16 mono at another rate) is converted in full.
    */
  lemma OtherRateIsConverted(rate: int, conf: RuntimeConf)
    requires conf.safetyChecks && rate != conf.sampleRate
    ensures NeedsConversion(Some(FileFormat("pcm_s16le", 1, rate)), conf)
  {
  }

  /**
    * A temporary file exists only when conversion ran; it is deleted in every
    * case except a WAVE reader failure after a successful conversion.
    */
  lemma TempFileOnlyWhenConverting(hasPath: bool, format: Option<FileFormat>, conf: RuntimeConf, src: SourceFile)
    ensures TempFate(hasPath, format, conf, src) != NoTemp <==> Converts(hasPath, format, conf, src)
    ensures TempFate(hasPath, format, conf, src) == TempLeft <==>
      Converts(hasPath, format, conf, src) && src.conversion.Converted? && src.decoding.DecodeFails?
  {
  }
}
