/** One worker process of the service: its local cache (`app.cache`) and its
    view of the shared Redis store, updated in place by the request handlers
    in the order the handlers write them. Each method is specified by the
    step function of AssetModel that it implements. */
module Registry {
  import opened AssetModel

  class AssetRegistry {
    /** The worker's `app.cache`. */
    var local: map<string, string>
    /** The shared Redis store, one string value per asset id. */
    var store: map<string, string>

    /** The registry as a value. */
    function Snapshot(): State
      reads this
    {
      State(local, store)
    }

    /** Worker start-up: the local cache begins empty in front of a store
        that may already hold records written by any worker. */
    constructor (shared: map<string, string>)
      ensures local == map[] && store == shared
    {
      local := map[];
      store := shared;
    }

    /** `is_asset_in_cache`. */
    method IsAssetInCache(id: string, storeUp: bool) returns (presence: Presence)
      modifies this
      ensures Probe(presence, Snapshot()) == CacheProbe(old(Snapshot()), id, storeUp)
    {
      if id !in local {
        if !storeUp {
          return StoreDown;
        }
        if id !in store {
          return Unknown;
        }
        local := local[id := store[id]];
      }
      return Known;
    }

    /** `generate_upload_url`, for the freshly generated id `id`. */
    method GenerateUploadUrl(cfg: Config, id: string, sign: SignRequest -> Presigned, storeUp: bool)
      returns (response: Response)
      modifies this
      ensures Step(response, Snapshot()) == UploadStep(old(Snapshot()), cfg, id, sign, storeUp)
    {
      var presigned := sign(SignRequest(PutObject(cfg.acl), cfg.bucket, id, cfg.uploadTtl));
      if presigned.PresignError? {
        return ServerError(UploadUrlFailed);
      }
      local := local[id := Token(NotUploaded)];
      if !storeUp {
        return ServerError(StoreUnavailable);
      }
      store := store[id := Token(NotUploaded)];
      return UploadGrant(presigned.url, id);
    }

    /** `mark_as_uploaded`. */
    method MarkAsUploaded(id: string, body: Option<Json>, storeUp: bool) returns (response: Response)
      modifies this
      ensures Step(response, Snapshot()) == ConfirmStep(old(Snapshot()), id, body, storeUp)
    {
      if !IsConfirmation(body) {
        return BadRequest;
      }
      var presence := IsAssetInCache(id, storeUp);
      if presence == StoreDown {
        return ServerError(StoreUnavailable);
      }
      if presence == Unknown {
        return NotFound(UnknownAsset);
      }
      local := local[id := Token(Uploaded)];
      if !storeUp {
        return ServerError(StoreUnavailable);
      }
      store := store[id := Token(Uploaded)];
      return Confirmed;
    }

    /** `generate_download_url`. Only the read-through population can change
        the registry, and the status it tests is the local one. */
    method GenerateDownloadUrl(cfg: Config, id: string, timeout: TimeoutArg,
                               head: (string, string) -> HeadResult, sign: SignRequest -> Presigned,
                               storeUp: bool)
      returns (response: Response)
      modifies this
      ensures Step(response, Snapshot()) == DownloadStep(old(Snapshot()), cfg, id, timeout, head, sign, storeUp)
      ensures store == old(store)
    {
      var presence := IsAssetInCache(id, storeUp);
      if presence == StoreDown {
        return ServerError(StoreUnavailable);
      }
      if presence == Unknown {
        return NotFound(UnknownAsset);
      }
      if local[id] != Token(Uploaded) {
        return NotFound(NotMarkedUploaded);
      }
      var found := head(cfg.bucket, id);
      if found.HeadError? {
        if found.code == "404" {
          return NotFound(MissingOnS3);
        }
        return ServerError(HeadObjectFailed);
      }
      var ttl := cfg.downloadTtl;
      if timeout.NotAnInteger? {
        return ServerError(BadTimeout);
      }
      if timeout.Timeout? {
        ttl := timeout.seconds;
      }
      var presigned := sign(SignRequest(GetObject, cfg.bucket, id, ttl));
      if presigned.PresignError? {
        return ServerError(DownloadUrlFailed);
      }
      return DownloadGrant(presigned.url);
    }

    /** Another worker's Redis `set`: the shared store changes, this worker's
        local cache does not. Another worker writes NOT_UPLOADED only for its
        own fresh uuid4, and UPLOADED only for an id it created or found in
        Redis. */
    method ExternalWrite(id: string, status: Status)
      requires status == NotUploaded ==> id !in local && id !in store
      requires status == Uploaded ==> id in store || id !in local
      modifies this
      ensures Snapshot() == OtherWorkerWrite(old(Snapshot()), id, status)
    {
      store := store[id := Token(status)];
    }
  }
}
