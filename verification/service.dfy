/** Request handling of the HTTP service (app/main.py): the API-key check,
    the synchronous `/extract` pipeline and `/health`. Extraction and upload
    are abstract outcomes; every call the pipeline makes is recorded, so
    calls that must not happen can be stated. */
module Service {
  import opened Results
  import opened Text
  import Paths
  import Storage
  import Downloader

  type byte = Storage.byte

  /** Content type of every uploaded audio object. */
  const AudioMpeg: string := "audio/mpeg"

  /** First line of the validation error raised when the metadata carries no video id. */
  const MetadataInvalid: string := "1 validation error for VideoMetadata"

  /** Version reported when the yt-dlp probe raises. */
  const UnknownVersion: string := "unknown"

  /** A validated `/extract` request body. */
  datatype ExtractRequest = ExtractRequest(url: string, userId: string, transcriptionId: string)

  datatype VideoMetadata = VideoMetadata(title: string, duration: int, channel: string, videoId: string)

  datatype ExtractResponse = ExtractResponse(status: string, r2Url: string, metadata: VideoMetadata)

  /** The HTTP answer to `/extract`: the response model, or an `HTTPException`. */
  datatype Reply = Completed(body: ExtractResponse) | HttpError(statusCode: nat, detail: string)

  /** Decision of the API-key dependency. */
  datatype AuthDecision = Accept(apiKey: string) | Reject(statusCode: nat, detail: string)

  /** A call the endpoint makes into the extractor or the uploader. */
  datatype Call =
    | ExtractAudio(url: string)
    | PutAudio(fileBytes: seq<byte>, key: string, contentType: string)

  /** A response together with the calls made while producing it, in order. */
  datatype Exchange = Exchange(reply: Reply, calls: seq<Call>)

  /** How the `yt-dlp --version` probe ended: it exited with this standard
      output, or it raised (not found, timed out). */
  datatype Probe = Exited(stdout: string) | ProbeRaised

  datatype HealthResponse = HealthResponse(status: string, ytdlpVersion: string)

  /** True when the API key counts as configured: set and non-empty. */
  predicate Configured(expected: Option<string>)
  {
    expected.Some? && expected.value != ""
  }

  /** `verify_api_key`: configuration is checked before the header, and an
      empty configured key counts as unconfigured. */
  function VerifyApiKey(expected: Option<string>, header: string): (d: AuthDecision)
    ensures !Configured(expected) <==> d == Reject(500, "API_KEY not configured")
    ensures Configured(expected) && header != expected.value <==> d == Reject(401, "Invalid API key")
    ensures d.Accept? <==> Configured(expected) && header == expected.value
    ensures d.Accept? ==> d.apiKey == header
  {
    if expected.None? || expected.value == "" then Reject(500, "API_KEY not configured")
    else if header != expected.value then Reject(401, "Invalid API key")
    else Accept(header)
  }

  /** The body of `extract_endpoint` once authorised: extract, upload, assemble.
      Any exception becomes a 500 carrying its message. */
  function RunPipeline(req: ExtractRequest, extracted: Result<Downloader.DownloadResult, string>,
                       uploaded: Result<string, string>): (x: Exchange)
    ensures |x.calls| >= 1 && x.calls[0] == ExtractAudio(req.url)
    ensures extracted.Failure? ==> x == Exchange(HttpError(500, extracted.error), [ExtractAudio(req.url)])
    ensures extracted.Success? ==>
      x.calls == [ExtractAudio(req.url),
                  PutAudio(extracted.value.fileBytes, Paths.YoutubeAudioPath(req.userId, req.transcriptionId), AudioMpeg)]
    ensures extracted.Success? && uploaded.Failure? ==> x.reply == HttpError(500, uploaded.error)
    ensures x.reply.HttpError? ==> x.reply.statusCode == 500
    ensures x.reply.Completed? <==> extracted.Success? && uploaded.Success? && extracted.value.videoId.Some?
    ensures x.reply.Completed? ==>
      && x.reply.body.status == "completed"
      && x.reply.body.r2Url == uploaded.value
      && x.reply.body.metadata.title == extracted.value.title
      && x.reply.body.metadata.duration == extracted.value.duration
      && x.reply.body.metadata.channel == extracted.value.channel
      && Some(x.reply.body.metadata.videoId) == extracted.value.videoId
  {
    match extracted
    case Failure(msg) => Exchange(HttpError(500, msg), [ExtractAudio(req.url)])
    case Success(result) =>
      var key := Paths.YoutubeAudioPath(req.userId, req.transcriptionId);
      var calls := [ExtractAudio(req.url), PutAudio(result.fileBytes, key, AudioMpeg)];
      match uploaded
      case Failure(msg) => Exchange(HttpError(500, msg), calls)
      case Success(r2Url) =>
        if result.videoId.None? then Exchange(HttpError(500, MetadataInvalid), calls)
        else
          Exchange(Completed(ExtractResponse(
            status := "completed",
            r2Url := r2Url,
            metadata := VideoMetadata(result.title, result.duration, result.channel, result.videoId.value))),
            calls)
  }

  /** `extract_endpoint` with its API-key dependency: a rejected request is
      answered with the rejection and makes no call at all. */
  function ExtractEndpoint(expected: Option<string>, header: string, req: ExtractRequest,
                           extracted: Result<Downloader.DownloadResult, string>,
                           uploaded: Result<string, string>): (x: Exchange)
    ensures !Configured(expected) ==> x == Exchange(HttpError(500, "API_KEY not configured"), [])
    ensures Configured(expected) && header != expected.value ==> x == Exchange(HttpError(401, "Invalid API key"), [])
    ensures |x.calls| > 0 <==> VerifyApiKey(expected, header).Accept?
    ensures x.reply.HttpError? ==> x.reply.statusCode in {401, 500}
    ensures x.reply.HttpError? && x.reply.statusCode == 401 ==> x.calls == []
    ensures x.reply.Completed? ==> Configured(expected) && header == expected.value
    ensures VerifyApiKey(expected, header).Accept? ==> x == RunPipeline(req, extracted, uploaded)
  {
    match VerifyApiKey(expected, header)
    case Reject(status, detail) => Exchange(HttpError(status, detail), [])
    case Accept(_) => RunPipeline(req, extracted, uploaded)
  }

  /** Number of upload calls in a call sequence. */
  function UploadCount(calls: seq<Call>): nat
  {
    if |calls| == 0 then 0
    else (if calls[0].PutAudio? then 1 else 0) + UploadCount(calls[1..])
  }

  /** Test-double view of the endpoint: the extractor is called at most
      once, the uploader at most once and only after a successful extraction. */
  lemma {:induction false} CallCounts(expected: Option<string>, header: string, req: ExtractRequest,
                                      extracted: Result<Downloader.DownloadResult, string>,
                                      uploaded: Result<string, string>)
    ensures var x := ExtractEndpoint(expected, header, req, extracted, uploaded);
            && |x.calls| <= 2
            && UploadCount(x.calls) == (if VerifyApiKey(expected, header).Accept? && extracted.Success? then 1 else 0)
  {
    var x := ExtractEndpoint(expected, header, req, extracted, uploaded);
    if |x.calls| == 2 {
      assert x.calls[1..][1..] == [];
      assert UploadCount(x.calls[1..][1..]) == 0;
      assert x.calls[1..] == [x.calls[1]];
    } else if |x.calls| == 1 {
      assert x.calls[1..] == [];
    }
  }

  /** End to end with the real downloader and uploader: an authorised
      request whose extraction and put both succeed is answered with the
      object's public URL, `{base without trailing /}/{derived key}`, and
      the tool's metadata with defaults for absent fields; the put carries
      the derived key, the audio bytes and `audio/mpeg`. */
  lemma EndToEndSuccess(apiKey: string, req: ExtractRequest, tmpdir: string,
                        denv: Downloader.DownloaderEnv, run: Downloader.YtdlpRun,
                        senv: Storage.StorageEnv, backend: Storage.Backend)
    requires apiKey != ""
    requires run.Finished? && run.info.id.Some?
    requires Downloader.Mp3Path(tmpdir, run.info.id) in run.files
    requires senv.bucketName.Some? && senv.publicUrl.Some? && senv.endpoint.Some?
    requires senv.accessKeyId.Some? && senv.secretAccessKey.Some?
    requires backend.PutSucceeded?
    ensures var extracted := Downloader.DownloadSync(tmpdir, denv, run).1;
            var key := Paths.YoutubeAudioPath(req.userId, req.transcriptionId);
            var bytes := run.files[Downloader.Mp3Path(tmpdir, run.info.id)];
            var upload := Storage.UploadToR2(senv, bytes, key, Some(AudioMpeg), backend);
            var x := ExtractEndpoint(Some(apiKey), apiKey, req, extracted, upload.outcome);
            && upload.put == Some(Storage.PutObject(senv.bucketName.value, key, bytes, AudioMpeg))
            && x.calls == [ExtractAudio(req.url), PutAudio(bytes, key, AudioMpeg)]
            && x.reply.Completed?
            && x.reply.body.r2Url == RStrip(senv.publicUrl.value, {'/'}) + "/" + key
            && x.reply.body.metadata
               == VideoMetadata(run.info.title.GetOr(""), run.info.duration.GetOr(0),
                                run.info.channel.GetOr(""), run.info.id.value)
  {
  }

  /** End to end with the real uploader: after a successful extraction, a put
      the store rejects is reported as a 500 with the store's message, even
      though the put was issued. */
  lemma EndToEndUploadFailure(apiKey: string, req: ExtractRequest, result: Downloader.DownloadResult,
                              senv: Storage.StorageEnv, message: string)
    requires apiKey != ""
    requires senv.bucketName.Some? && senv.publicUrl.Some? && senv.endpoint.Some?
    requires senv.accessKeyId.Some? && senv.secretAccessKey.Some?
    ensures var key := Paths.YoutubeAudioPath(req.userId, req.transcriptionId);
            var upload := Storage.UploadToR2(senv, result.fileBytes, key, Some(AudioMpeg), Storage.PutRaised(message));
            var x := ExtractEndpoint(Some(apiKey), apiKey, req, Success(result), upload.outcome);
            && upload.put.Some?
            && x.reply == HttpError(500, message)
  {
  }

  /** `health_endpoint`: always healthy; the version is the probe's output
      without surrounding whitespace, or `unknown` if the probe raised. */
  function HealthEndpoint(probe: Probe): (h: HealthResponse)
    ensures h.status == "healthy"
    ensures probe.ProbeRaised? ==> h.ytdlpVersion == UnknownVersion
    ensures probe.Exited? ==> |h.ytdlpVersion| <= |probe.stdout|
    ensures probe.Exited? && |h.ytdlpVersion| > 0 ==>
      h.ytdlpVersion[0] !in Whitespace && h.ytdlpVersion[|h.ytdlpVersion| - 1] !in Whitespace
  {
    match probe
    case Exited(stdout) => HealthResponse("healthy", Strip(stdout, Whitespace))
    case ProbeRaised => HealthResponse("healthy", UnknownVersion)
  }

  /** The version is exactly the probe output with only surrounding
      whitespace removed: a trailing newline is dropped, the text kept. */
  lemma HealthVersionIsTrimmedOutput(stdout: string)
    ensures var v := HealthEndpoint(Exited(stdout)).ytdlpVersion;
            var hi := |RStrip(stdout, Whitespace)|;
            var lo := hi - |v|;
            && 0 <= lo <= hi <= |stdout|
            && v == stdout[lo..hi]
            && (forall i :: 0 <= i < lo ==> stdout[i] in Whitespace)
            && (forall i :: hi <= i < |stdout| ==> stdout[i] in Whitespace)
  {
  }

  /** A typical probe answer. */
  lemma HealthExample()
    ensures HealthEndpoint(Exited("2024.08.06\n")).ytdlpVersion == "2024.08.06"
  {
    var s := "2024.08.06\n";
    assert s[|s| - 1] in Whitespace;
    assert s[..|s| - 1] == "2024.08.06";
    assert RStripEnd(s, Whitespace) == |s| - 1;
    assert LStripStart("2024.08.06", Whitespace) == 0;
  }
}
