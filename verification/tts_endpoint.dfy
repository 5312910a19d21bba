/** The two synthesis handlers of api_v1/endpoints/tts_endpoint.py: one
    answers with the audio file, the other with JSON describing it. */
module TtsEndpoint {
  import opened Errors
  import opened Text
  import opened PyValues
  import opened Http
  import opened TtsUtils
  import Schemas

  const FailureDetail: string := "Text-to-speech conversion failed. Please try again."
  const AudioMediaType: string := "audio/wav"
  const AudioUrlPrefix: string := "/temp_audio/"

  /** A `FileResponse`: the file's path, media type, download name and the
      extra headers. */
  datatype FileResponse = FileResponse(path: string, mediaType: string, filename: string, headers: map<string, string>)

  /** `text_to_speech_endpoint`: synthesise and answer with the saved file,
      its `Content-Length` header being the audio length. A `TTSError`
      becomes 400 with its message, any other exception 500. */
  function TextToSpeechEndpoint(req: Schemas.TtsRequest, md5: string -> string, remote: string -> Result<seq<Byte>>, dir: Directory, now: real, writeFault: Option<Exc>): (r: (Directory, EndpointResult<FileResponse>))
    ensures !r.1.RaisedOther?
    ensures r.1.RaisedHttp? ==> r.0 == dir && r.1.http.statusCode == StatusBadRequest
    ensures r.1.Returned? <==> ProcessTtsRequest(req.text, md5, remote, dir, now, writeFault).1.Ok?
    ensures r.1.RaisedHttp? ==> r.1.http.detail == ProcessTtsRequest(req.text, md5, remote, dir, now, writeFault).1.exc.message
    ensures r.0 == ProcessTtsRequest(req.text, md5, remote, dir, now, writeFault).0
    ensures r.1.Returned? ==> var name := GenerateAudioFilename(req.text, md5);
      && r.1.value.filename == name
      && r.1.value.path == AudioPath(name)
      && r.1.value.mediaType == AudioMediaType
      && "Content-Length" in r.1.value.headers
      && r.1.value.headers["Content-Length"] == NatToDecimal(|remote(req.text).value|)
  {
    var (dir', result) := ProcessTtsRequest(req.text, md5, remote, dir, now, writeFault);
    match result
    case Ok((name, size)) =>
      (dir', Returned(FileResponse(AudioPath(name), AudioMediaType, name, map["Content-Length" := NatToDecimal(size)])))
    case Raise(e) => (dir', RaisedHttp(ToHttpException(TtsError, FailureDetail, e)))
  }

  /** The `Content-Length` header reads back as the number of audio bytes. */
  lemma ContentLengthIsAudioSize(req: Schemas.TtsRequest, md5: string -> string, remote: string -> Result<seq<Byte>>, dir: Directory, now: real, writeFault: Option<Exc>)
    requires TextToSpeechEndpoint(req, md5, remote, dir, now, writeFault).1.Returned?
    ensures var header := TextToSpeechEndpoint(req, md5, remote, dir, now, writeFault).1.value.headers["Content-Length"];
      forall k :: 0 <= k < |header| ==> IsDigit(header[k])
    ensures DecimalValue(TextToSpeechEndpoint(req, md5, remote, dir, now, writeFault).1.value.headers["Content-Length"])
      == |remote(req.text).value|
  {
    DecimalRoundTrip(|remote(req.text).value|);
  }

  /** `text_to_speech_json_endpoint`: the same pipeline, answered with the
      URL under which the file is served and the format "wav". */
  function TextToSpeechJsonEndpoint(req: Schemas.TtsRequest, md5: string -> string, remote: string -> Result<seq<Byte>>, dir: Directory, now: real, writeFault: Option<Exc>): (r: (Directory, EndpointResult<Schemas.TtsResponse>))
    ensures !r.1.RaisedOther?
    ensures r.1.RaisedHttp? ==> r.0 == dir && r.1.http.statusCode == StatusBadRequest
    ensures r.1.Returned? <==> ProcessTtsRequest(req.text, md5, remote, dir, now, writeFault).1.Ok?
    ensures r.1.RaisedHttp? ==> r.1.http.detail == ProcessTtsRequest(req.text, md5, remote, dir, now, writeFault).1.exc.message
    ensures r.0 == ProcessTtsRequest(req.text, md5, remote, dir, now, writeFault).0
    ensures r.1.Returned? ==> r.1.value.audioUrl == AudioUrlPrefix + GenerateAudioFilename(req.text, md5) && r.1.value.format == "wav"
  {
    var (dir', result) := ProcessTtsRequest(req.text, md5, remote, dir, now, writeFault);
    match result
    case Ok((name, _)) => (dir', Returned(Schemas.NewTtsResponse(AudioUrlPrefix + name, Some("wav"))))
    case Raise(e) => (dir', RaisedHttp(ToHttpException(TtsError, FailureDetail, e)))
  }

  /** Both handlers run the same pipeline: on the same request and the same
      remote behaviour they leave the same directory, fail alike, and the
      JSON handler's URL names the very file the binary handler serves. */
  lemma VariantsAgree(req: Schemas.TtsRequest, md5: string -> string, remote: string -> Result<seq<Byte>>, dir: Directory, now: real, writeFault: Option<Exc>)
    ensures var (d1, r1) := TextToSpeechEndpoint(req, md5, remote, dir, now, writeFault);
            var (d2, r2) := TextToSpeechJsonEndpoint(req, md5, remote, dir, now, writeFault);
            && d1 == d2
            && (r1.Returned? <==> r2.Returned?)
            && (r1.RaisedHttp? ==> r2 == RaisedHttp(r1.http))
            && (r1.Returned? ==> r2.value.audioUrl == AudioUrlPrefix + r1.value.filename)
  {
  }
}
