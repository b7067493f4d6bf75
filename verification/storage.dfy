/** Upload of a blob to the object store and construction of its public URL
    (app/storage.py). The network client is not modelled: its answer is a
    parameter, and the put it would receive is recorded. */
module Storage {
  import opened Results
  import opened Text

  type byte = x: int | 0 <= x < 256

  /** Content type used when the caller passes none. */
  const DefaultContentType: string := "application/octet-stream"

  /** The process environment as far as the uploader reads it; `None` is an
      unset variable. */
  datatype StorageEnv = StorageEnv(
    bucketName: Option<string>,
    publicUrl: Option<string>,
    endpoint: Option<string>,
    accessKeyId: Option<string>,
    secretAccessKey: Option<string>)

  /** The parameters of one `put_object` request. */
  datatype PutObject = PutObject(bucket: string, key: string, body: seq<byte>, contentType: string)

  /** What the object-store client does: fail while being created, reject the
      put, or accept it. */
  datatype Backend = ClientRaised(clientError: string) | PutRaised(putError: string) | PutSucceeded

  /** One run of `upload_to_r2`: the put it issued, if it got that far, and
      its outcome (the public URL, or the `str()` of the exception raised). */
  datatype Upload = Upload(put: Option<PutObject>, outcome: Result<string, string>)

  /** `str()` of the `KeyError` that `os.environ[name]` raises for an unset variable. */
  function MissingVariable(name: string): string
  {
    "'" + name + "'"
  }

  /** The configured public base with every trailing `/` removed. */
  function PublicBase(publicUrl: string): (base: string)
    ensures base <= publicUrl
    ensures |base| == 0 || base[|base| - 1] != '/'
    ensures forall i :: |base| <= i < |publicUrl| ==> publicUrl[i] == '/'
  {
    RStrip(publicUrl, {'/'})
  }

  /** Stripping the base a second time changes nothing. */
  lemma PublicBaseIdempotent(publicUrl: string)
    ensures PublicBase(PublicBase(publicUrl)) == PublicBase(publicUrl)
  {
  }

  /** Public URL under which `key` becomes readable. */
  function PublicUrlFor(publicUrl: string, key: string): (url: string)
    ensures |url| == |PublicBase(publicUrl)| + 1 + |key|
    ensures url[|url| - |key| - 1..] == "/" + key
    ensures url[..|PublicBase(publicUrl)|] == PublicBase(publicUrl)
  {
    PublicBase(publicUrl) + "/" + key
  }

  /** `upload_to_r2`. The bucket and public base are read first, then the
      client's three settings; a missing variable raises before any put.
      `contentType` is `None` when the caller relies on the default. */
  function UploadToR2(env: StorageEnv, fileBytes: seq<byte>, key: string,
                      contentType: Option<string>, backend: Backend): (u: Upload)
    ensures env.bucketName.None? ==> u == Upload(None, Failure(MissingVariable("R2_BUCKET_NAME")))
    ensures env.bucketName.Some? && env.publicUrl.None?
            ==> u == Upload(None, Failure(MissingVariable("R2_PUBLIC_URL")))
    ensures u.put.Some? ==> u.put.value == PutObject(env.bucketName.value, key, fileBytes, contentType.GetOr(DefaultContentType))
    ensures u.put.Some? <==> (&& env.bucketName.Some? && env.publicUrl.Some? && env.endpoint.Some?
                             && env.accessKeyId.Some? && env.secretAccessKey.Some? && !backend.ClientRaised?)
    ensures u.outcome.Success? <==> u.put.Some? && backend.PutSucceeded?
    ensures u.outcome.Success? ==> u.outcome.value == PublicBase(env.publicUrl.value) + "/" + key
    ensures u.put.Some? && backend.PutRaised? ==> u.outcome == Failure(backend.putError)
  {
    if env.bucketName.None? then Upload(None, Failure(MissingVariable("R2_BUCKET_NAME")))
    else if env.publicUrl.None? then Upload(None, Failure(MissingVariable("R2_PUBLIC_URL")))
    else if env.endpoint.None? then Upload(None, Failure(MissingVariable("R2_ENDPOINT")))
    else if env.accessKeyId.None? then Upload(None, Failure(MissingVariable("R2_ACCESS_KEY_ID")))
    else if env.secretAccessKey.None? then Upload(None, Failure(MissingVariable("R2_SECRET_ACCESS_KEY")))
    else
      match backend
      case ClientRaised(msg) => Upload(None, Failure(msg))
      case PutRaised(msg) =>
        Upload(Some(PutObject(env.bucketName.value, key, fileBytes, contentType.GetOr(DefaultContentType))),
               Failure(msg))
      case PutSucceeded =>
        Upload(Some(PutObject(env.bucketName.value, key, fileBytes, contentType.GetOr(DefaultContentType))),
               Success(PublicUrlFor(env.publicUrl.value, key)))
  }

  /** The returned URL depends on neither the body nor the content type. */
  lemma UrlIgnoresBodyAndContentType(env: StorageEnv, key: string, b1: seq<byte>, b2: seq<byte>,
                                     c1: Option<string>, c2: Option<string>, backend: Backend)
    ensures UploadToR2(env, b1, key, c1, backend).outcome == UploadToR2(env, b2, key, c2, backend).outcome
  {
  }

  /** A successful URL always ends with `/` followed by the key, and its base
      part never ends in `/`, however many slashes the configured base had. */
  lemma SuccessfulUrlShape(env: StorageEnv, fileBytes: seq<byte>, key: string,
                           contentType: Option<string>, backend: Backend)
    requires UploadToR2(env, fileBytes, key, contentType, backend).outcome.Success?
    ensures var url := UploadToR2(env, fileBytes, key, contentType, backend).outcome.value;
            var baseLen := |url| - |key| - 1;
            && 0 <= baseLen
            && url[baseLen..] == "/" + key
            && (baseLen == 0 || url[baseLen - 1] != '/')
            && url[..baseLen] <= env.publicUrl.value
  {
  }
}
