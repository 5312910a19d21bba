/** The transcription handler of api_v1/endpoints/asr_endpoint.py. */
module AsrEndpoint {
  import opened Errors
  import opened Text
  import opened PyValues
  import opened Http
  import opened AsrUtils
  import Config
  import Schemas

  const FailureDetail: string := "Audio transcription failed. Please try again."

  /** `transcribe_audio_endpoint`: run the upload pipeline and answer with
      its text and language; an `ASRError` becomes 400 with its message, any
      other exception 500 with a fixed detail. Nothing escapes unmapped. */
  function TranscribeAudioEndpoint(f: UploadFile, s: Config.Settings, remote: seq<Byte> -> Result<AsrReply>, readFault: Option<Exc>): (r: (UploadFile, EndpointResult<Schemas.AsrResponse>))
    ensures !r.1.RaisedOther?
    ensures r.1.Returned? ==> r.1.value.language == "en" && r.1.value.text != [] && HasNoOuterSpace(r.1.value.text)
    ensures r.1.RaisedHttp? && r.1.http.statusCode == StatusInternalError
      ==> ValidateAudioFile(f, s).1.Pass? && readFault.Some? && readFault.value.kind != AsrError
    ensures r.1.RaisedHttp? && r.1.http.statusCode == StatusInternalError ==> r.1.http.detail == FailureDetail
    ensures var (_, outcome) := ProcessAudioUpload(f, s, remote, readFault);
            && (r.1.Returned? <==> outcome.Ok?)
            && (r.1.Returned? ==> r.1.value.text == outcome.value.text && r.1.value.language == outcome.value.language)
            && (r.1.RaisedHttp? && r.1.http.statusCode == StatusBadRequest ==> outcome.Raise? && outcome.exc.kind == AsrError && r.1.http.detail == outcome.exc.message)
    ensures r.0 == ProcessAudioUpload(f, s, remote, readFault).0
  {
    var (f', result) := ProcessAudioUpload(f, s, remote, readFault);
    match result
    case Ok(t) =>
      StripHasNoOuterSpace(ReplyText(remote(f.data).value).s);
      (f', Returned(Schemas.NewAsrResponse(t.text, Some(t.language))))
    case Raise(e) => (f', RaisedHttp(ToHttpException(AsrError, FailureDetail, e)))
  }

  /** A failing remote call surfaces as 400 with the wrapped message, never
      as 500: the adapter has already turned it into an `ASRError`. */
  lemma RemoteFailureIsBadRequest(f: UploadFile, s: Config.Settings, remote: seq<Byte> -> Result<AsrReply>)
    requires ValidateAudioFile(f, s).1.Pass?
    requires remote(f.data).Raise?
    ensures TranscribeAudioEndpoint(f, s, remote, None).1
      == RaisedHttp(HttpException(StatusBadRequest, WrapAs(AsrError, TranscriptionFailedPrefix, remote(f.data).exc).message))
  {
    ValidUploadSendsWholeFile(f, s, remote);
  }

  /** A refused upload is answered 400 with the gate's message. */
  lemma InvalidUploadIsBadRequest(f: UploadFile, s: Config.Settings, remote: seq<Byte> -> Result<AsrReply>, readFault: Option<Exc>)
    requires ValidateAudioFile(f, s).1.Fail?
    ensures TranscribeAudioEndpoint(f, s, remote, readFault).1
      == RaisedHttp(HttpException(StatusBadRequest, ValidateAudioFile(f, s).1.exc.message))
  {
  }
}
