/** Audio extraction around yt-dlp (app/downloader.py). The tool itself is
    external: what it reports, and the files it leaves in the working
    directory, are parameters. */
module Downloader {
  import opened Results
  import opened Text
  import Storage

  type byte = Storage.byte

  /** Cookie file consulted when `COOKIE_PATH` is unset. */
  const DefaultCookiePath: string := "/config/cookies.txt"

  /** yt-dlp's output template inside the working directory. */
  const OutputTemplateName: string := "%(id)s.%(ext)s"

  /** One entry of the `postprocessors` option. */
  datatype Postprocessor = Postprocessor(key: string, preferredCodec: string, preferredQuality: string)

  /** A retry-sleep function `n -> base * 2^n`. */
  datatype Backoff = Backoff(base: nat)

  /** The options dictionary handed to yt-dlp; optional entries are `None`
      when the key is not in the dictionary. */
  datatype YtdlpOpts = YtdlpOpts(
    format: string,
    postprocessors: seq<Postprocessor>,
    outtmpl: string,
    noplaylist: bool,
    noWarnings: bool,
    quiet: bool,
    sleepInterval: nat,
    maxSleepInterval: nat,
    sleepRequests: nat,
    retries: nat,
    fragmentRetries: nat,
    httpRetrySleep: Backoff,
    fragmentRetrySleep: Backoff,
    cookiefile: Option<string>,
    proxy: Option<string>,
    impersonate: Option<string>)

  /** What the options depend on besides the output path: the `COOKIE_PATH`
      and `PROXY_URL` variables, the set of paths that exist on disk, and
      whether `curl_cffi` can be imported. */
  datatype DownloaderEnv = DownloaderEnv(
    cookiePath: Option<string>,
    proxyUrl: Option<string>,
    existingPaths: set<string>,
    curlCffiInstalled: bool)

  /** The fields of yt-dlp's info dictionary the service reads; `None` is an
      absent key. */
  datatype Info = Info(id: Option<string>, title: Option<string>, duration: Option<int>, channel: Option<string>)

  /** What `extract_info` did: returned an info dictionary, leaving `files`
      (path to contents) behind, or raised with the given message. */
  datatype YtdlpRun = Finished(info: Info, files: map<string, seq<byte>>) | Raised(message: string)

  /** `DownloadResult`. `videoId` is `None` when the tool reported no id. */
  datatype DownloadResult = DownloadResult(
    fileBytes: seq<byte>, title: string, duration: int, channel: string, videoId: Option<string>)

  /** 2 to the power `n`. */
  function Pow2(n: nat): (p: nat)
    ensures p >= 1
  {
    if n == 0 then 1 else 2 * Pow2(n - 1)
  }

  /** Seconds yt-dlp sleeps before retry number `n`. */
  function Delay(b: Backoff, n: nat): nat
  {
    b.base * Pow2(n)
  }

  /** Each retry waits twice as long as the one before. */
  lemma DelayDoubles(b: Backoff, n: nat)
    ensures Delay(b, n + 1) == 2 * Delay(b, n)
  {
  }

  /** With a positive base the schedule strictly increases. */
  lemma {:induction false} DelayStrictlyIncreasing(b: Backoff, m: nat, n: nat)
    requires b.base > 0
    requires m < n
    ensures Delay(b, m) < Delay(b, n)
    decreases n - m
  {
    DelayDoubles(b, m);
    if m + 1 < n {
      DelayStrictlyIncreasing(b, m + 1, n);
    }
  }

  /** The options that do not depend on the environment. */
  predicate FixedOptions(o: YtdlpOpts)
  {
    && o.format == "bestaudio/best"
    && o.postprocessors == [Postprocessor("FFmpegExtractAudio", "mp3", "0")]
    && o.noplaylist && !o.noWarnings && !o.quiet
    && o.sleepInterval == 10 && o.maxSleepInterval == 30 && o.sleepRequests == 2
    && o.retries == 10 && o.fragmentRetries == 10
    && o.httpRetrySleep == Backoff(5) && o.fragmentRetrySleep == Backoff(2)
  }

  /** The cookie file path consulted: `COOKIE_PATH`, or the default. */
  function CookiePath(env: DownloaderEnv): string
  {
    env.cookiePath.GetOr(DefaultCookiePath)
  }

  /** `_get_ytdlp_opts`. */
  function GetYtdlpOpts(outputPath: string, env: DownloaderEnv): (o: YtdlpOpts)
    ensures FixedOptions(o)
    ensures o.sleepInterval <= o.maxSleepInterval
    ensures o.outtmpl == outputPath
    ensures o.cookiefile.Some? <==> CookiePath(env) in env.existingPaths
    ensures o.cookiefile.Some? ==> o.cookiefile.value == CookiePath(env)
    ensures o.proxy.Some? <==> env.proxyUrl.Some? && env.proxyUrl.value != ""
    ensures o.proxy.Some? ==> o.proxy == env.proxyUrl
    ensures o.impersonate.Some? <==> env.curlCffiInstalled
    ensures o.impersonate.Some? ==> o.impersonate.value == "chrome"
  {
    var cookiePath := CookiePath(env);
    YtdlpOpts(
      format := "bestaudio/best",
      postprocessors := [Postprocessor("FFmpegExtractAudio", "mp3", "0")],
      outtmpl := outputPath,
      noplaylist := true,
      noWarnings := false,
      quiet := false,
      sleepInterval := 10,
      maxSleepInterval := 30,
      sleepRequests := 2,
      retries := 10,
      fragmentRetries := 10,
      httpRetrySleep := Backoff(5),
      fragmentRetrySleep := Backoff(2),
      cookiefile := if cookiePath in env.existingPaths then Some(cookiePath) else None,
      proxy := if env.proxyUrl.Some? && env.proxyUrl.value != "" then env.proxyUrl else None,
      impersonate := if env.curlCffiInstalled then Some("chrome") else None)
  }

  /** The HTTP retry schedule is `5 * 2^n` and the fragment schedule `2 * 2^n`,
      each doubling per attempt and strictly increasing. */
  lemma RetrySchedules(outputPath: string, env: DownloaderEnv, m: nat, n: nat)
    ensures var o := GetYtdlpOpts(outputPath, env);
            && Delay(o.httpRetrySleep, n) == 5 * Pow2(n)
            && Delay(o.fragmentRetrySleep, n) == 2 * Pow2(n)
            && Delay(o.httpRetrySleep, n + 1) == 2 * Delay(o.httpRetrySleep, n)
            && Delay(o.fragmentRetrySleep, n + 1) == 2 * Delay(o.fragmentRetrySleep, n)
            && (m < n ==> Delay(o.httpRetrySleep, m) < Delay(o.httpRetrySleep, n))
            && (m < n ==> Delay(o.fragmentRetrySleep, m) < Delay(o.fragmentRetrySleep, n))
  {
    var o := GetYtdlpOpts(outputPath, env);
    if m < n {
      DelayStrictlyIncreasing(o.httpRetrySleep, m, n);
      DelayStrictlyIncreasing(o.fragmentRetrySleep, m, n);
    }
    DelayDoubles(o.httpRetrySleep, n);
    DelayDoubles(o.fragmentRetrySleep, n);
  }

  /** The first retry sleeps 5 seconds on HTTP errors and 2 on fragment errors. */
  lemma FirstRetryDelays(outputPath: string, env: DownloaderEnv)
    ensures var o := GetYtdlpOpts(outputPath, env);
            Delay(o.httpRetrySleep, 0) == 5 && Delay(o.fragmentRetrySleep, 0) == 2
  {
  }

  /** Text of the reported id in an f-string: a missing id prints as `None`. */
  function IdText(id: Option<string>): string
  {
    id.GetOr("None")
  }

  /** Path of the mp3 file read back after extraction. */
  function Mp3Path(tmpdir: string, id: Option<string>): (p: string)
    ensures var name := IdText(id) + ".mp3"; |name| <= |p| && p[|p| - |name|..] == name
  {
    PathJoin(tmpdir, IdText(id) + ".mp3")
  }

  /** For an ordinary working directory and a relative id, the file read
      back is `tmpdir + "/" + id + ".mp3"`. */
  lemma Mp3PathIsInWorkingDirectory(tmpdir: string, id: string)
    requires |tmpdir| > 0 && tmpdir[|tmpdir| - 1] != '/'
    requires |id| == 0 || id[0] != '/'
    ensures Mp3Path(tmpdir, Some(id)) == tmpdir + "/" + id + ".mp3"
  {
  }

  /** `str()` of the `FileNotFoundError` raised when opening a missing file. */
  function NoSuchFile(path: string): string
  {
    "[Errno 2] No such file or directory: '" + path + "'"
  }

  /** `_download_sync` in working directory `tmpdir`, with yt-dlp's behaviour
      given by `run`. Returns the options yt-dlp received and the result. */
  function DownloadSync(tmpdir: string, env: DownloaderEnv, run: YtdlpRun): (r: (YtdlpOpts, Result<DownloadResult, string>))
    ensures r.0 == GetYtdlpOpts(PathJoin(tmpdir, OutputTemplateName), env)
    ensures run.Raised? ==> r.1 == Failure(run.message)
    ensures run.Finished? ==> (r.1.Success? <==> Mp3Path(tmpdir, run.info.id) in run.files)
    ensures run.Finished? && r.1.Failure? ==> r.1.error == NoSuchFile(Mp3Path(tmpdir, run.info.id))
    ensures r.1.Success? ==>
      && run.Finished?
      && r.1.value.fileBytes == run.files[Mp3Path(tmpdir, run.info.id)]
      && r.1.value.videoId == run.info.id
      && (run.info.title.Some? ==> r.1.value.title == run.info.title.value)
      && (run.info.title.None? ==> r.1.value.title == "")
      && (run.info.duration.Some? ==> r.1.value.duration == run.info.duration.value)
      && (run.info.duration.None? ==> r.1.value.duration == 0)
      && (run.info.channel.Some? ==> r.1.value.channel == run.info.channel.value)
      && (run.info.channel.None? ==> r.1.value.channel == "")
  {
    var opts := GetYtdlpOpts(PathJoin(tmpdir, OutputTemplateName), env);
    match run
    case Raised(msg) => (opts, Failure(msg))
    case Finished(info, files) =>
      var path := Mp3Path(tmpdir, info.id);
      if path !in files then (opts, Failure(NoSuchFile(path)))
      else
        (opts, Success(DownloadResult(
          fileBytes := files[path],
          title := info.title.GetOr(""),
          duration := info.duration.GetOr(0),
          channel := info.channel.GetOr(""),
          videoId := info.id)))
  }
}
