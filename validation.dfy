/** Layer 1 of the pipeline: the input validator. An ordered chain of rejection checks
    (existence, extension allow-list, size ceiling, WAV header); the first failing check
    decides the error. What the file system and the `wave` module report is an input. */
module Validation {
  import opened Signal
  import opened Text

  const AllowedExtensions: set<string> := {".wav", ".mp3", ".m4a", ".ogg", ".flac"}
  const MaxSizeMb: real := 50.0
  const BytesPerMb: nat := 1048576

  /** The header fields `wave.open` reports: frame count, frame rate, channel count. */
  datatype WavHeader = WavHeader(frames: nat, rate: nat, channels: nat)

  /** What the operating system reports about the path: whether it exists, its size in
      bytes, and the outcome of opening it with `wave` (Err carries the exception text). */
  datatype FileFacts = FileFacts(path: string, present: bool, sizeBytes: nat, header: Result<WavHeader>)

  datatype Metadata = Metadata(sampleRate: nat, channels: nat, durationSec: real)

  datatype ValidationError =
    | NotFound
    | UnsupportedFormat(ext: string)
    | TooLarge(sizeBytes: nat)
    | CorruptHeader(detail: string)

  /** {'valid': True, 'error': None, 'metadata': ...} or {'valid': False, 'error': ...}. */
  datatype Validation = Valid(metadata: Metadata) | Invalid(error: ValidationError)

  /** The 'error' string of a rejected file. */
  function ErrorText(e: ValidationError): string {
    match e
    case NotFound => "File not found"
    case UnsupportedFormat(ext) => "Unsupported format: " + ext
    case TooLarge(b) => "File too large (" + MebibytesTwoDecimals(b) + "MB). Max: 50MB"
    case CorruptHeader(detail) => "Corrupt Audio Header: " + detail
  }

  /** The extension as the validator looks it up: splitext, then lower-cased. */
  function NormalisedExtension(path: string): string {
    Lower(Extension(path))
  }

  function SizeMb(sizeBytes: nat): real {
    sizeBytes as real / BytesPerMb as real
  }

  /** Step 4 for a .wav file: read the header; frames / float(rate) raises on a zero rate. */
  function ReadWavHeader(header: Result<WavHeader>): Validation {
    match header
    case Err(text) => Invalid(CorruptHeader(text))
    case Ok(h) =>
      if h.rate == 0 then Invalid(CorruptHeader("float division by zero"))
      else Valid(Metadata(h.rate, h.channels, h.frames as real / h.rate as real))
  }

  function Validate(f: FileFacts): (r: Validation)
    // existence comes first, whatever the extension or size
    ensures !f.present ==> r == Invalid(NotFound)
    // the lower-cased extension must be on the allow-list
    ensures r.Invalid? && r.error.UnsupportedFormat?
            <==> f.present && NormalisedExtension(f.path) !in AllowedExtensions
    ensures r.Invalid? && r.error.UnsupportedFormat? ==> r.error.ext == NormalisedExtension(f.path)
    // only strictly more than 50 MiB is too large
    ensures r.Invalid? && r.error.TooLarge?
            <==> f.present && NormalisedExtension(f.path) in AllowedExtensions
                 && f.sizeBytes > 50 * BytesPerMb
    // a header problem is reported only for a .wav file that passed every earlier check
    ensures r.Invalid? && r.error.CorruptHeader?
            <==> f.present && NormalisedExtension(f.path) == ".wav" && f.sizeBytes <= 50 * BytesPerMb
                 && (f.header.Err? || f.header.value.rate == 0)
    ensures r.Valid? && NormalisedExtension(f.path) == ".wav" ==>
              f.header.Ok? && f.header.value.rate > 0
              && r.metadata == Metadata(f.header.value.rate, f.header.value.channels,
                                        f.header.value.frames as real / f.header.value.rate as real)
    // other allowed formats pass without header inspection, with all-zero metadata
    ensures r.Valid? && NormalisedExtension(f.path) != ".wav" ==> r.metadata == Metadata(0, 0, 0.0)
  {
    if !f.present then Invalid(NotFound)
    else
      var ext := NormalisedExtension(f.path);
      if ext !in AllowedExtensions then Invalid(UnsupportedFormat(ext))
      else if SizeMb(f.sizeBytes) > MaxSizeMb then
        SizeCeiling(f.sizeBytes);
        Invalid(TooLarge(f.sizeBytes))
      else
        SizeCeiling(f.sizeBytes);
        if ext == ".wav" then ReadWavHeader(f.header)
        else Valid(Metadata(0, 0, 0.0))
  }

  /** bytes / 1048576 > 50 exactly when bytes > 52428800: a file of exactly 50 MiB passes. */
  lemma SizeCeiling(sizeBytes: nat)
    ensures SizeMb(sizeBytes) > MaxSizeMb <==> sizeBytes > 50 * BytesPerMb
  {
    var x := sizeBytes as real;
    assert SizeMb(sizeBytes) * 1048576.0 == x;
  }

  /** The header rules are reached only after the existence, extension and size checks pass,
      so a file that exists, is small enough and has an allowed extension gets the header's
      verdict (for .wav) or is accepted (for the other formats). */
  lemma {:induction false} FirstFailingCheckDecides(f: FileFacts)
    requires f.present && NormalisedExtension(f.path) in AllowedExtensions
    requires f.sizeBytes <= 50 * BytesPerMb
    ensures Validate(f) == if NormalisedExtension(f.path) == ".wav" then ReadWavHeader(f.header)
                           else Valid(Metadata(0, 0, 0.0))
  {
    SizeCeiling(f.sizeBytes);
  }
}
