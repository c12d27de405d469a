/** The asset-status registry of the upload/download URL service, as values.

    Each request handler is a step function from a `State` (the worker's local
    cache in front of the shared Redis store) to a `Step`: the HTTP response it
    gives and the state it leaves behind. The calls into S3 (presigning,
    head_object) and the health of Redis are inputs, so every branch the
    handlers take on their results is visible here.
 */
module AssetModel {

  datatype Option<+T> = None | Some(value: T)

  /** The two statuses the service ever writes. */
  datatype Status = NotUploaded | Uploaded

  /** The literal token stored in Redis and in the local cache for a status. */
  function Token(s: Status): (t: string)
    ensures t == "NOT_UPLOADED" || t == "UPLOADED"
    ensures t == "UPLOADED" <==> s == Uploaded
  {
    match s
    case NotUploaded => "NOT_UPLOADED"
    case Uploaded => "UPLOADED"
  }

  /** Both tiers map an asset id to the token read from or written to Redis.
      Redis holds untyped strings, so a value need not be a status token. */
  datatype State = State(local: map<string, string>, store: map<string, string>)

  /** A decoded JSON request body. */
  datatype Json =
    | JNull
    | JBool(b: bool)
    | JNumber(n: real)
    | JString(s: string)
    | JArray(items: seq<Json>)
    | JObject(fields: map<string, Json>)

  /** The only body the confirm handler accepts: {"Status": "uploaded"}. */
  const Confirmation: Json := JObject(map["Status" := JString("uploaded")])

  /** `body` is None when the request has no body or it is not JSON. */
  predicate IsConfirmation(body: Option<Json>)
  {
    body == Some(Confirmation)
  }

  /** Environment configuration read by the handlers. */
  datatype Config = Config(bucket: string, acl: string, uploadTtl: int, downloadTtl: int)

  /** What a presigned URL authorises. */
  datatype ClientMethod = PutObject(acl: string) | GetObject

  datatype SignRequest = SignRequest(op: ClientMethod, bucket: string, key: string, expiresIn: int)

  /** The outcome of `generate_presigned_url`: a URL or a botocore ClientError. */
  datatype Presigned = Url(url: string) | PresignError(code: string)

  /** The outcome of `head_object`: the object exists, or a ClientError with its code. */
  datatype HeadResult = HeadOk | HeadError(code: string)

  /** The `timeout` query argument of a download request. */
  datatype TimeoutArg = NoTimeout | Timeout(seconds: int) | NotAnInteger

  datatype NotFoundReason = UnknownAsset | NotMarkedUploaded | MissingOnS3

  datatype FailureReason =
    | UploadUrlFailed
    | HeadObjectFailed
    | DownloadUrlFailed
    | BadTimeout        // int() of the timeout argument raised
    | StoreUnavailable  // a Redis call raised

  datatype Response =
    | UploadGrant(uploadUrl: string, id: string)
    | Confirmed
    | DownloadGrant(downloadUrl: string)
    | BadRequest
    | NotFound(why: NotFoundReason)
    | ServerError(cause: FailureReason)

  /** The HTTP status code of a response. An exception escaping a handler
      is answered by the framework with 500. */
  function StatusCode(r: Response): (code: int)
    ensures code == 200 <==> r.UploadGrant? || r.Confirmed? || r.DownloadGrant?
    ensures code == 400 <==> r.BadRequest?
    ensures code == 404 <==> r.NotFound?
    ensures code == 500 <==> r.ServerError?
  {
    match r
    case UploadGrant(_, _) => 200
    case Confirmed => 200
    case DownloadGrant(_) => 200
    case BadRequest => 400
    case NotFound(_) => 404
    case ServerError(_) => 500
  }

  datatype Presence = Known | Unknown | StoreDown

  datatype Probe = Probe(presence: Presence, after: State)

  datatype Step = Step(response: Response, after: State)

  /** The read-through existence check: a local hit answers at once; on a
      local miss Redis is asked, a hit there is copied into the local cache
      and a miss is not cached. `storeUp` says whether the Redis call
      succeeds; when it does not, the exception propagates. */
  function CacheProbe(s: State, id: string, storeUp: bool): (r: Probe)
    ensures r.after.store == s.store
    ensures r.presence == Known <==> id in s.local || (storeUp && id in s.store)
    ensures r.presence == StoreDown <==> id !in s.local && !storeUp
    ensures id in s.local ==> r == Probe(Known, s)
    ensures r.presence != Known ==> r.after == s
    ensures r.presence == Known ==> id in r.after.local
    ensures r.presence == Known && id !in s.local ==>
              r.after.local == s.local[id := s.store[id]]
  {
    if id in s.local then Probe(Known, s)
    else if !storeUp then Probe(StoreDown, s)
    else if id !in s.store then Probe(Unknown, s)
    else Probe(Known, s.(local := s.local[id := s.store[id]]))
  }

  /** POST /asset: presign a PUT for the fresh id `id`; only if that succeeds
      is the id recorded as NOT_UPLOADED, first in the local cache, then in
      Redis. */
  function UploadStep(s: State, cfg: Config, id: string, sign: SignRequest -> Presigned,
                      storeUp: bool): (r: Step)
    ensures sign(SignRequest(PutObject(cfg.acl), cfg.bucket, id, cfg.uploadTtl)).PresignError? ==>
              r == Step(ServerError(UploadUrlFailed), s)
    ensures r.response.UploadGrant? <==>
              storeUp && sign(SignRequest(PutObject(cfg.acl), cfg.bucket, id, cfg.uploadTtl)).Url?
    ensures r.response.UploadGrant? ==>
              && r.response == UploadGrant(sign(SignRequest(PutObject(cfg.acl), cfg.bucket, id, cfg.uploadTtl)).url, id)
              && r.after == State(s.local[id := Token(NotUploaded)], s.store[id := Token(NotUploaded)])
    ensures !r.response.UploadGrant? ==> r.response.ServerError?
    ensures !storeUp && sign(SignRequest(PutObject(cfg.acl), cfg.bucket, id, cfg.uploadTtl)).Url? ==>
              r == Step(ServerError(StoreUnavailable), s.(local := s.local[id := Token(NotUploaded)]))
  {
    match sign(SignRequest(PutObject(cfg.acl), cfg.bucket, id, cfg.uploadTtl))
    case PresignError(_) => Step(ServerError(UploadUrlFailed), s)
    case Url(u) =>
      var cached := s.(local := s.local[id := Token(NotUploaded)]);
      if storeUp then Step(UploadGrant(u, id), cached.(store := cached.store[id := Token(NotUploaded)]))
      else Step(ServerError(StoreUnavailable), cached)
  }

  /** PUT /asset/<id>: check the payload, then the existence check, then write
      UPLOADED unconditionally, first locally, then to Redis. */
  function ConfirmStep(s: State, id: string, body: Option<Json>, storeUp: bool): (r: Step)
    ensures !IsConfirmation(body) ==> r == Step(BadRequest, s)
    ensures IsConfirmation(body) && id !in s.local && storeUp && id !in s.store ==>
              r == Step(NotFound(UnknownAsset), s)
    ensures r.response == Confirmed <==>
              IsConfirmation(body) && storeUp && (id in s.local || id in s.store)
    ensures r.response == Confirmed ==>
              r.after == State(s.local[id := Token(Uploaded)], s.store[id := Token(Uploaded)])
    ensures r.response.ServerError? <==> IsConfirmation(body) && !storeUp
    ensures r.response.ServerError? ==>
              && r.response.cause == StoreUnavailable
              && r.after.store == s.store
              && r.after.local == if id in s.local then s.local[id := Token(Uploaded)] else s.local
  {
    if !IsConfirmation(body) then Step(BadRequest, s)
    else
      var p := CacheProbe(s, id, storeUp);
      match p.presence
      case StoreDown => Step(ServerError(StoreUnavailable), p.after)
      case Unknown => Step(NotFound(UnknownAsset), p.after)
      case Known =>
        var marked := p.after.(local := p.after.local[id := Token(Uploaded)]);
        if storeUp then Step(Confirmed, marked.(store := marked.store[id := Token(Uploaded)]))
        else Step(ServerError(StoreUnavailable), marked)
  }

  /** Another worker's Redis `set` of `status` for `id`: only the shared
      store changes. */
  function OtherWorkerWrite(s: State, id: string, status: Status): (t: State)
    ensures t.local == s.local
    ensures id in t.store && t.store[id] == Token(status)
    ensures forall k :: k in s.store && k != id ==> k in t.store && t.store[k] == s.store[k]
    ensures t.store.Keys == s.store.Keys + {id}
  {
    s.(store := s.store[id := Token(status)])
  }

  /** The expiry of a download URL: the `timeout` argument when given,
      otherwise the configured default; None when int() would raise. */
  function DownloadTtl(cfg: Config, timeout: TimeoutArg): (ttl: Option<int>)
    ensures ttl.None? <==> timeout.NotAnInteger?
    ensures timeout == NoTimeout ==> ttl == Some(cfg.downloadTtl)
    ensures timeout.Timeout? ==> ttl == Some(timeout.seconds)
  {
    match timeout
    case NoTimeout => Some(cfg.downloadTtl)
    case Timeout(t) => Some(t)
    case NotAnInteger => None
  }

  /** GET /asset/<id>: the existence check, the LOCAL status, head_object on
      S3, the TTL, then a presigned GET. */
  function DownloadStep(s: State, cfg: Config, id: string, timeout: TimeoutArg,
                        head: (string, string) -> HeadResult, sign: SignRequest -> Presigned,
                        storeUp: bool): (r: Step)
    ensures r.after == CacheProbe(s, id, storeUp).after
    ensures r.after.store == s.store
    ensures r.response == NotFound(UnknownAsset) <==> id !in s.local && storeUp && id !in s.store
    ensures r.response == ServerError(StoreUnavailable) <==> id !in s.local && !storeUp
    ensures r.response == NotFound(NotMarkedUploaded) <==>
              id in r.after.local && r.after.local[id] != Token(Uploaded)
    ensures r.response.DownloadGrant? <==>
              && id in r.after.local && r.after.local[id] == Token(Uploaded)
              && head(cfg.bucket, id) == HeadOk
              && DownloadTtl(cfg, timeout).Some?
              && sign(SignRequest(GetObject, cfg.bucket, id, DownloadTtl(cfg, timeout).value)).Url?
    ensures r.response.DownloadGrant? ==>
              r.response.downloadUrl ==
              sign(SignRequest(GetObject, cfg.bucket, id, DownloadTtl(cfg, timeout).value)).url
    ensures r.response == NotFound(MissingOnS3) <==>
              && id in r.after.local && r.after.local[id] == Token(Uploaded)
              && head(cfg.bucket, id) == HeadError("404")
    ensures id in r.after.local && r.after.local[id] == Token(Uploaded) &&
            head(cfg.bucket, id).HeadError? && head(cfg.bucket, id).code != "404" ==>
              r.response == ServerError(HeadObjectFailed)
    ensures id in r.after.local && r.after.local[id] == Token(Uploaded) &&
            head(cfg.bucket, id) == HeadOk && timeout.NotAnInteger? ==>
              r.response == ServerError(BadTimeout)
    ensures id in r.after.local && r.after.local[id] == Token(Uploaded) &&
            head(cfg.bucket, id) == HeadOk && DownloadTtl(cfg, timeout).Some? &&
            sign(SignRequest(GetObject, cfg.bucket, id, DownloadTtl(cfg, timeout).value)).PresignError? ==>
              r.response == ServerError(DownloadUrlFailed)
    ensures r.response.DownloadGrant? || r.response.NotFound? || r.response.ServerError?
  {
    var p := CacheProbe(s, id, storeUp);
    match p.presence
    case StoreDown => Step(ServerError(StoreUnavailable), p.after)
    case Unknown => Step(NotFound(UnknownAsset), p.after)
    case Known =>
      if p.after.local[id] != Token(Uploaded) then Step(NotFound(NotMarkedUploaded), p.after)
      else match head(cfg.bucket, id)
        case HeadError(code) =>
          if code == "404" then Step(NotFound(MissingOnS3), p.after)
          else Step(ServerError(HeadObjectFailed), p.after)
        case HeadOk =>
          match DownloadTtl(cfg, timeout)
          case None => Step(ServerError(BadTimeout), p.after)
          case Some(ttl) =>
            match sign(SignRequest(GetObject, cfg.bucket, id, ttl))
            case PresignError(_) => Step(ServerError(DownloadUrlFailed), p.after)
            case Url(u) => Step(DownloadGrant(u), p.after)
  }
}
