/** Speech-to-text of utils/asr_utils.py: the upload gate, the normalisation
    of the remote transcription reply and the end-to-end upload pipeline.
    The remote Whisper call is an oracle `remote` from the uploaded bytes to
    a reply or an exception. */
module AsrUtils {
  import opened Errors
  import opened Text
  import opened PyValues
  import Config

  /** An uploaded file: its declared content type (absent when the client
      sent none), its bytes and the current position of its stream. */
  datatype UploadFile = UploadFile(filename: string, contentType: Option<string>, data: seq<Byte>, position: nat)

  /** The shapes a transcription reply may take: a mapping, a bare string,
      or some other object, known by its `str()` rendering. */
  datatype AsrReply = AsrDict(fields: map<string, PyValue>) | AsrText(s: string) | AsrObject(repr: string)

  /** The `{"text": ..., "language": ...}` result of a transcription. */
  datatype Transcription = Transcription(text: string, language: string)

  /** The language every transcription reports, whatever the remote detected. */
  const DefaultLanguage: string := "en"

  const EmptyAudioMessage: string := "Empty audio file"
  const EmptyTranscriptMessage: string := "Transcription returned empty text"
  const TranscriptionFailedPrefix: string := "Transcription failed: "

  /** f"{x}" of an optional string: None prints as "None". */
  function ShowOptional(x: Option<string>): string {
    match x
    case Some(s) => s
    case None => "None"
  }

  predicate IsAllowedType(contentType: Option<string>, s: Config.Settings) {
    contentType.Some? && contentType.value in s.allowedAudioFormats
  }

  /** f"{size / 2**20:.1f}": the size in MiB with one decimal, rounded half
      to even. The quotient of an integer below 2^53 by 2^20 is an exact
      binary fraction, so this is the value Python prints. */
  function MebibyteText(size: nat): (r: string)
    ensures '.' in r
  {
    var tenths := size * 10 / Config.BytesPerMb;
    var rest := size * 10 % Config.BytesPerMb;
    var rounded := if 2 * rest > Config.BytesPerMb || (2 * rest == Config.BytesPerMb && tenths % 2 == 1) then tenths + 1 else tenths;
    NatToDecimal(rounded / 10) + "." + [DigitChar(rounded % 10)]
  }

  /** A whole number of mebibytes prints with ".0": 26 MiB reads "26.0". */
  lemma MebibyteTextWhole(k: nat)
    ensures MebibyteText(k * Config.BytesPerMb) == NatToDecimal(k) + ".0"
  {
    assert Config.BytesPerMb == 1048576;
    var tenths := 10 * k;
    assert k * Config.BytesPerMb * 10 == tenths * 1048576;
    assert tenths * 1048576 / 1048576 == tenths && tenths * 1048576 % 1048576 == 0;
    assert tenths / 10 == k && tenths % 10 == 0;
  }

  function InvalidFormatMessage(contentType: Option<string>, s: Config.Settings): string {
    "Invalid audio format: " + ShowOptional(contentType) + ". Allowed formats: " + Join(", ", s.allowedAudioFormats)
  }

  function TooLargeMessage(size: nat, s: Config.Settings): string {
    "File too large: " + MebibyteText(size) + "MB. Maximum allowed: " + IntToDecimal(s.maxAudioFileSizeMb) + "MB"
  }

  /** `validate_audio_file`: the content type is checked first, then the size
      against the ceiling (a size equal to the ceiling passes), then emptiness.
      Measuring the size seeks to the end and back to 0, so once the type is
      accepted the stream is left at position 0 whatever the verdict; a
      refused type leaves the file untouched. Returns the file as it is left. */
  function ValidateAudioFile(f: UploadFile, s: Config.Settings): (r: (UploadFile, Outcome))
    ensures r.1.Pass? <==> IsAllowedType(f.contentType, s) && 0 < |f.data| <= Config.MaxAudioFileSizeBytes(s)
    ensures r.1.Fail? ==> r.1.exc.kind == AsrError
    ensures !IsAllowedType(f.contentType, s) ==> r.0 == f && r.1 == Fail(Exc(AsrError, InvalidFormatMessage(f.contentType, s)))
    ensures IsAllowedType(f.contentType, s) ==> r.0 == f.(position := 0)
    ensures IsAllowedType(f.contentType, s) && |f.data| > Config.MaxAudioFileSizeBytes(s)
      ==> r.1 == Fail(Exc(AsrError, TooLargeMessage(|f.data|, s)))
    ensures IsAllowedType(f.contentType, s) && |f.data| == 0 && Config.MaxAudioFileSizeBytes(s) >= 0
      ==> r.1 == Fail(Exc(AsrError, EmptyAudioMessage))
  {
    if !IsAllowedType(f.contentType, s) then
      (f, Fail(Exc(AsrError, InvalidFormatMessage(f.contentType, s))))
    else
      var size := |f.data|;
      var rewound := f.(position := 0);
      if size > Config.MaxAudioFileSizeBytes(s) then (rewound, Fail(Exc(AsrError, TooLargeMessage(size, s))))
      else if size == 0 then (rewound, Fail(Exc(AsrError, EmptyAudioMessage)))
      else (rewound, Pass)
  }

  /** The text candidate of a reply: `result.get("text", "")` for a mapping,
      the string itself, or `str(result)` for anything else. */
  function ReplyText(reply: AsrReply): PyValue {
    match reply
    case AsrDict(fields) => DictGet(fields, "text", PyStr(""))
    case AsrText(s) => PyStr(s)
    case AsrObject(repr) => PyStr(repr)
  }

  /** `transcribe_audio` given what the remote call produced. Success means a
      non-blank text candidate, returned stripped with language "en"; every
      failure is an `ASRError`: an existing one unchanged, any other exception
      re-raised with the prefix "Transcription failed: ". */
  function TranscribeAudio(reply: Result<AsrReply>): (r: Result<Transcription>)
    ensures r.Ok? <==> reply.Ok? && ReplyText(reply.value).PyStr? && !IsBlank(ReplyText(reply.value).s)
    ensures r.Ok? ==> r.value.text == Strip(ReplyText(reply.value).s) && r.value.text != []
    ensures r.Ok? ==> r.value.language == DefaultLanguage
    ensures r.Raise? ==> r.exc.kind == AsrError
    ensures reply.Raise? ==> r == Raise(WrapAs(AsrError, TranscriptionFailedPrefix, reply.exc))
    ensures reply.Ok? && !Truthy(ReplyText(reply.value)) ==> r == Raise(Exc(AsrError, EmptyTranscriptMessage))
  {
    match reply
    case Raise(e) => Raise(WrapAs(AsrError, TranscriptionFailedPrefix, e))
    case Ok(result) =>
      match StripReplyText(ReplyText(result), Exc(AsrError, EmptyTranscriptMessage))
      case Raise(e) => Raise(WrapAs(AsrError, TranscriptionFailedPrefix, e))
      case Ok(text) => Ok(Transcription(text, DefaultLanguage))
  }

  /** A mapping with a "text" entry and the bare string give the same result,
      and a mapping without one counts as an empty transcript. */
  lemma ReplyShapesAgree(s: string)
    ensures TranscribeAudio(Ok(AsrDict(map["text" := PyStr(s)]))) == TranscribeAudio(Ok(AsrText(s)))
    ensures TranscribeAudio(Ok(AsrObject(s))) == TranscribeAudio(Ok(AsrText(s)))
    ensures TranscribeAudio(Ok(AsrDict(map[]))) == Raise(Exc(AsrError, EmptyTranscriptMessage))
  {
    assert ReplyText(AsrDict(map["text" := PyStr(s)])) == PyStr(s) == ReplyText(AsrText(s));
    assert ReplyText(AsrObject(s)) == PyStr(s);
    assert ReplyText(AsrDict(map[])) == PyStr("");
  }

  /** `process_audio_upload`: validate, read the stream, transcribe.
      `readFault` is the exception `file.read()` raises, if any; it propagates
      unwrapped. Returns the file as left behind and the outcome. */
  function ProcessAudioUpload(f: UploadFile, s: Config.Settings, remote: seq<Byte> -> Result<AsrReply>, readFault: Option<Exc>): (r: (UploadFile, Result<Transcription>))
    ensures r.1.Ok? ==> ValidateAudioFile(f, s).1.Pass? && readFault.None?
    ensures r.0.data == f.data
  {
    var (checked, verdict) := ValidateAudioFile(f, s);
    match verdict
    case Fail(e) => (checked, Raise(e))
    case Pass =>
      match readFault
      case Some(e) => (checked, Raise(e))
      case None =>
        var audio := checked.data[checked.position..];
        (checked.(position := |checked.data|), TranscribeAudio(remote(audio)))
  }

  /** An upload the gate refuses never reaches the remote: the outcome is the
      gate's error whatever the remote would have answered. */
  lemma InvalidUploadMakesNoRemoteCall(f: UploadFile, s: Config.Settings, remote1: seq<Byte> -> Result<AsrReply>, remote2: seq<Byte> -> Result<AsrReply>, readFault: Option<Exc>)
    requires ValidateAudioFile(f, s).1.Fail?
    ensures ProcessAudioUpload(f, s, remote1, readFault) == ProcessAudioUpload(f, s, remote2, readFault)
    ensures ProcessAudioUpload(f, s, remote1, readFault).1 == Raise(ValidateAudioFile(f, s).1.exc)
  {
  }

  /** An accepted upload is sent whole to the remote, however far the stream
      had been read before validation, because the gate rewinds it. */
  lemma ValidUploadSendsWholeFile(f: UploadFile, s: Config.Settings, remote: seq<Byte> -> Result<AsrReply>)
    requires ValidateAudioFile(f, s).1.Pass?
    ensures ProcessAudioUpload(f, s, remote, None).1 == TranscribeAudio(remote(f.data))
  {
    assert f.data[0..] == f.data;
  }

  /** Every outcome of the pipeline except a failing read is a success or an
      `ASRError`. */
  lemma ProcessAudioUploadRaisesOnlyAsrError(f: UploadFile, s: Config.Settings, remote: seq<Byte> -> Result<AsrReply>)
    ensures ProcessAudioUpload(f, s, remote, None).1.Raise? ==> ProcessAudioUpload(f, s, remote, None).1.exc.kind == AsrError
  {
  }
}
