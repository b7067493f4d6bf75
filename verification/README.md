# fretwise-yt-downloader in Dafny

A model of the deterministic core of the FretWise YouTube audio extractor: a
small HTTP service that downloads a video's audio with yt-dlp, stores the mp3
in a Cloudflare R2 bucket under a per-user key, and answers with the object's
public URL and the video's metadata.

The model covers:

- `Paths` (app/paths.py): the storage key
  `fretwise/users/{user_id}/transcriptions/{transcription_id}/audio/youtube.mp3`.
  The key is also described as its seven `/`-separated segments, with a
  parser that reads the identifiers back.
- `Storage` (app/storage.py): `upload_to_r2`. The environment is a record of
  optional variables. The object-store client's answer is a parameter. The
  put it would receive is recorded as a `PutObject` value. The public URL is
  the configured base with all trailing `/` removed, then `/`, then the key.
- `Downloader` (app/downloader.py): the yt-dlp options record, built from an
  explicit environment. It also covers the exponential retry-sleep
  schedules, the path of the mp3 read back, and `DownloadResult` with its
  defaults for absent info fields. yt-dlp's behaviour is a parameter: an info
  record plus the files it left behind, or an exception message.
- `Service` (app/main.py): the three-way API-key decision, the `/extract`
  pipeline, and `/health`. The pipeline runs over abstract extraction and
  upload outcomes. It returns the reply together with the calls it made, so
  "no upload happens" is a statement about that call list. End-to-end lemmas
  plug in the `Downloader` and `Storage` models.
- `Text`: the string operations the service calls, which are `rstrip('/')`
  (app/storage.py:50), `strip()` with `str.isspace` whitespace (app/main.py:121)
  and POSIX `os.path.join` (app/downloader.py:77, 84). `lstrip` is the
  building block of `strip`. `Split` and `Join` are not called by the service.
  They are this model's own definitions, used to describe the key's layout
  and to parse it.
- `Results`: `Option` and `Result` wrappers.

All of this code is sequential. The `asyncio.to_thread` wrappers are treated
as plain calls.

app/main.py defines only the `/extract` and `/health` endpoints, and both are
modelled.

## Model

| member | source | states |
|---|---|---|
| Paths.YoutubeAudioPath | app/paths.py:8-26 | The key starts with `fretwise/users/` and ends with `/audio/youtube.mp3`. Its length is the fixed text plus both identifiers. Both identifiers appear verbatim at their positions. |
| Paths.KeyIsJoinOfSegments | app/paths.py:4-5 | The key equals the documented layout: the seven segments `fretwise`, `users`, user id, `transcriptions`, transcription id, `audio`, `youtube.mp3`, joined with `/`. |
| Paths.SplitKeyRecoversIds | app/paths.py:26 | If neither id contains `/`, splitting the key on `/` gives seven parts: the user id at index 2 and the transcription id at index 4. |
| Paths.ParseDerivedKey | app/paths.py:11-26 | If neither id contains `/`, parsing the derived key returns exactly the pair it came from. |
| Paths.ParsedKeyIsDerived | app/paths.py:11-26 | Converse: any key that parses to a pair is the derived key of that pair, and that pair has no `/`. |
| Paths.DistinctIdsDistinctKeys | app/paths.py:26 | Distinct pairs of `/`-free ids never share a key. |
| Paths.UnsanitisedIdsCanCollide | app/paths.py:26 | Ids are not sanitised, so two different pairs containing `/` can produce the same key. |
| Paths.DocumentedExample | app/paths.py:22-24 | `("usr_abc123", "txn_xyz789")` gives `fretwise/users/usr_abc123/transcriptions/txn_xyz789/audio/youtube.mp3`. |
| Text.RStrip | app/storage.py:50 | `rstrip` returns a prefix of its input that does not end in a stripped character, and every removed character was one to strip. |
| Text.RStripIdempotent | app/storage.py:50 | Running `rstrip` a second time changes nothing. |
| Storage.PublicBase | app/storage.py:50 | The stripped base is a prefix of the configured URL that never ends in `/`. Only `/` characters were removed. |
| Storage.PublicBaseIdempotent | app/storage.py:50 | Stripping the base again changes nothing. |
| Storage.PublicUrlFor | app/storage.py:50-62 | The URL is the stripped base, then `/`, then the key. It ends with `/` plus the key, and its length is the sum of those parts. |
| Storage.UploadToR2 | app/storage.py:33-62 | A missing `R2_BUCKET_NAME` or `R2_PUBLIC_URL` fails with the `KeyError` text and issues no put. A put is issued iff all five variables are set and the client was created; it carries the configured bucket, the given key and body, and the content type (default `application/octet-stream`). The upload succeeds iff the put succeeded, and then returns the stripped base, `/` and the key. A rejected put fails with the store's message. |
| Storage.UrlIgnoresBodyAndContentType | app/storage.py:33-62 | The outcome, including the returned URL, does not depend on the body or the content type. |
| Storage.SuccessfulUrlShape | app/storage.py:50-62 | A returned URL ends with `/` plus the key. The part before that does not end in `/` and is a prefix of the configured base. |
| Downloader.GetYtdlpOpts | app/downloader.py:26-71 | The fixed options are always set: `bestaudio/best`, the mp3 FFmpeg postprocessor, `noplaylist`, 10 retries of each kind, sleep 10 to 30 seconds with 10 ≤ 30, 2 request sleeps, and backoff bases 5 and 2. `cookiefile` is present iff the cookie path (`COOKIE_PATH` or `/config/cookies.txt`) exists, and then equals it. `proxy` is present iff `PROXY_URL` is set and non-empty, and then equals it. `impersonate` is `chrome` iff curl_cffi is importable. |
| Downloader.DelayDoubles | app/downloader.py:48-51 | Each retry sleep is twice the previous one. |
| Downloader.DelayStrictlyIncreasing | app/downloader.py:48-51 | With a positive base, a later retry always sleeps strictly longer than an earlier one. |
| Downloader.RetrySchedules | app/downloader.py:45-51 | In the options, for every attempt n including the first (n = 0), the HTTP sleep is `5·2^n` and the fragment sleep is `2·2^n`, and each doubles from attempt n to n + 1. For m < n, both are strictly larger at n than at m. |
| Downloader.FirstRetryDelays | app/downloader.py:49-50 | The first retry (n = 0) sleeps 5 seconds after an HTTP error and 2 seconds after a fragment error. |
| Text.PathJoin | app/downloader.py:77 | `os.path.join` ends with its second argument. An absolute second argument replaces the first. For a relative second argument, the two parts are concatenated directly when the first is empty or ends in `/`. Otherwise exactly one `/` is inserted between them. |
| Downloader.Mp3Path | app/downloader.py:83-84 | The file read back ends with `{video_id}.mp3`. A missing id prints as `None`. |
| Downloader.Mp3PathIsInWorkingDirectory | app/downloader.py:76-84 | For a working directory not ending in `/` and a relative id, the file read back is `tmpdir + "/" + id + ".mp3"`. |
| Downloader.DownloadSync | app/downloader.py:74-95 | yt-dlp gets the options for template `tmpdir/%(id)s.%(ext)s`. A yt-dlp exception is passed through. After a finished run, the result succeeds iff the mp3 exists, and a missing file fails with the `FileNotFoundError` text. On success the bytes are that file's contents and the id is the reported id. Title, duration and channel are copied when present and default to `""`, `0` and `""` when absent. |
| Service.VerifyApiKey | app/main.py:53-60 | An unset or empty `API_KEY` gives a 500 `API_KEY not configured`, whatever the header. A configured key that differs from the header gives a 401 `Invalid API key`. Otherwise the request is accepted and the header is returned. Each case holds iff its condition holds. |
| Service.RunPipeline | app/main.py:80-104 | The extractor is called first, with the request URL. If extraction fails, no upload is made and the reply is a 500 with its message. After success, exactly one upload is made, with the extracted bytes, the derived key and `audio/mpeg`, and an upload failure gives a 500 with its message. Every error is a 500. The reply is completed iff both steps succeeded and an id was reported. It then has status `completed`, the uploader's URL, and the extracted title, duration, channel and id. |
| Service.ExtractEndpoint | app/main.py:65-104 | The configuration check comes first (500), then the key comparison (401). A rejected request makes no call at all. An accepted request gets exactly the pipeline's reply and calls. Calls are made iff the key check accepts. Every error status is 401 or 500, and a completed reply implies a correct key. |
| Service.CallCounts | app/main.py:65-90 | At most two calls are made. Exactly one upload is made iff the request was authorised and extraction succeeded. Otherwise no upload is made. |
| Service.EndToEndSuccess | app/main.py:80-101 | With the downloader and storage models plugged in and both steps succeeding, the put carries the bucket, the derived key, the mp3 bytes and `audio/mpeg`. The reply's URL is the base without trailing `/`, then `/`, then the derived key. The metadata is the tool's fields, with defaults for absent ones. |
| Service.EndToEndUploadFailure | app/main.py:84-104 | With the storage model plugged in, a put the store rejects was still issued, and the reply is a 500 carrying the store's message. |
| Text.Strip | app/main.py:121 | The result of `strip` is no longer than its input and neither starts nor ends with a stripped character. |
| Text.StripIsSlice | app/main.py:121 | The result of `strip` is a contiguous slice of the input, and every character cut from either end is one to strip. |
| Service.HealthEndpoint | app/main.py:107-128 | Status is always `healthy`. If the probe raised, the version is `unknown`. Otherwise the version has no leading or trailing whitespace and is no longer than the probe output. |
| Service.HealthVersionIsTrimmedOutput | app/main.py:114-121 | The version is the probe's standard output with exactly the surrounding whitespace removed. |
| Service.HealthExample | app/main.py:121 | A probe output of `2024.08.06` followed by a newline reports version `2024.08.06`. |

## Left out

- The yt-dlp download, network fetching and ffmpeg transcoding (app/downloader.py:80-81) are a foreign tool. Their result is the `YtdlpRun` parameter. How yt-dlp interprets the options, including how it calls the retry-sleep functions, is external too.
- The temporary directory's creation and removal and the reading of the file (app/downloader.py:76, 86-87) are filesystem I/O. The directory's path and the files it holds are parameters.
- boto3 client creation and the real `put_object` (app/storage.py:21-30, 52-60) are a network client. The model reads the client's three environment variables in order; any other failure of the client or the put is the `Backend` parameter.
- `asyncio.to_thread` (app/downloader.py:111, app/storage.py:54) is scheduling. `extract_audio` is `DownloadSync` run as a plain call.
- FastAPI routing, dependency injection and pydantic request validation (app/main.py:18-48) are framework machinery. Requests are validated records, so a missing `x-api-key` header (answered 422 by the framework) is not modelled.
- Service.ExtractRequest: `url` is the string form `str(request.url)` after pydantic's URL normalisation. That normalisation is not modelled.
- The `subprocess.run` version probe (app/main.py:115-120) is a process call. Its outcome is the `Probe` parameter.
- Environment variables, `Path.exists` and the `curl_cffi` import are explicit parameters. Path existence is the set `existingPaths`, so a `COOKIE_PATH` of `""` (which Python resolves to the existing directory `.`) is covered only if the caller includes `""` in that set.
- Downloader.DownloadSync: the info record's fields are typed options. A key present with a `None` value, or a value of another type such as a floating-point duration, is not modelled.
- Service.RunPipeline: for a reply without a video id, the 500's detail is only the first line of pydantic's validation message. The rest of that message is version-specific text.
- Downloader.NoSuchFile: the path is quoted with `'` as Python's `repr` does for ordinary paths. The different quoting `repr` chooses for a path that contains `'` is not modelled.
- An asynchronous endpoint with webhook delivery and a flat `downloads/{video_id}.mp3` key are not part of this model. app/main.py defines neither.
