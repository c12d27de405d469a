# Asset-status registry of the S3 signed-URL service

The service issues presigned S3 URLs for uploading and downloading assets. For each
asset it records whether the upload was confirmed. That record lives in two tiers:

- the worker's in-memory dict `app.cache` (the *local* cache);
- a shared Redis store, one string key per asset id, whose value is `"NOT_UPLOADED"` or `"UPLOADED"` (the *store*).

Three HTTP handlers read and write these tiers, and a helper, `is_asset_in_cache`, reads them and copies a Redis hit into the local cache:

- `POST /asset` presigns a PUT. Only when that succeeds does it record the fresh id as `NOT_UPLOADED`.
- `PUT /asset/<id>` accepts exactly the body `{"Status": "uploaded"}`. If the id exists, it records `UPLOADED`.
- `GET /asset/<id>` needs the local status to be `UPLOADED` and the object to exist on S3. Then it presigns a GET, with an optional `timeout` query argument.

The model has four modules:

- `AssetModel` (`asset_model.dfy`) gives each handler as a step function from a `State(local, store)` to a `Step(response, after)`. Each contract states the response for every branch and the state left behind.
- `Registry` (`asset_registry.dfy`) is the class `AssetRegistry`. Its two map fields are updated in place, in the handlers' own order: local cache first, then Redis. Each method is proved equal to its step function.
- `AssetProperties` (`asset_properties.dfy`) holds the single-request properties: invariants kept, idempotent confirmation, the effects of a Redis failure, and the scenarios of `tests/test.py`.
- `AssetTraces` (`asset_traces.dfy`) holds properties of whole request sequences. These include writes by other workers. Statuses only move forward, even when Redis fails. A single worker whose Redis calls succeed stays coherent. With several workers and Redis reachable, the local cache can only lag behind Redis. A failed `set` can leave it ahead (`ConfirmOutageRunsAhead`).

The handlers' outside calls become inputs:

- the fresh uuid4 is a parameter `id`;
- `generate_presigned_url` is a function `sign` from the request (method, bucket, key, expiry) to a URL or a ClientError;
- `head_object` is a function `head` from bucket and key to success or a ClientError code;
- `storeUp` says whether this request's Redis calls succeed. An aioredis exception is not caught, so the framework answers 500.

Where the code's behaviour is easy to misread, the model follows the code:

- The handlers write the local cache *before* Redis (`datastax/datastax.py:64-65`, `:88-89`). Writing Redis first would leave the local cache untouched when the Redis write fails; the code does not do that. `UploadOutageLeavesOrphan` and `ConfirmOutageRunsAhead` state what the code actually does when that write fails.
- The download guard reads the local, possibly stale, status (`:103`). `StaleAcrossWorkers` exhibits the stale read. The model reproduces it and does not fix it.
- The download TTL is any integer the caller passes. No bound is imposed.

## Model

| member | source | states |
|---|---|---|
| AssetModel.Token | datastax/datastax.py:64-65 | the only values the service writes are the literal tokens `NOT_UPLOADED` and `UPLOADED` |
| AssetModel.StatusCode | datastax/datastax.py:59-156 | each response kind has its HTTP code: grants and confirmation 200, bad payload 400, not-found 404, errors 500 |
| AssetModel.CacheProbe | datastax/datastax.py:11-22 | a local hit answers true and changes nothing. On a miss, Redis is asked: a hit is copied into the local cache (so the id is then local), a miss answers false and caches nothing. The store is never changed |
| AssetModel.UploadStep | datastax/datastax.py:42-71 | a failed presign gives 500 with both tiers unchanged. Success gives the URL and the id, and sets local and store at the id to `NOT_UPLOADED`. A failed Redis `set` gives 500 but leaves the local write in place |
| AssetModel.ConfirmStep | datastax/datastax.py:74-92 | a body other than `{"Status": "uploaded"}` gives 400 and changes nothing. An id in neither tier gives 404 and changes nothing. Confirmation succeeds exactly when the id is known and Redis is up, and then both tiers hold `UPLOADED` at the id |
| AssetModel.DownloadTtl | datastax/datastax.py:131-133 | the `timeout` argument overrides the configured default. A non-integer argument makes `int()` raise |
| AssetModel.DownloadStep | datastax/datastax.py:95-156 | the store never changes, and the only local change is the read-through. Three cases give 404: unknown id; local status not `UPLOADED`; head-object error `"404"`. Each 500 is told apart: Redis failing, any other head-object error (checked before the timeout is parsed), a non-integer timeout, a failed presign. A grant is given exactly when the local status is `UPLOADED`, the object exists and presigning succeeds; it carries the presigned GET URL for the chosen TTL |
| Registry.AssetRegistry.constructor | datastax/datastax.py:26 | a worker starts with an empty local cache in front of the existing store |
| Registry.AssetRegistry.IsAssetInCache | datastax/datastax.py:11-22 | the in-place existence check answers and updates the fields as `CacheProbe` |
| Registry.AssetRegistry.GenerateUploadUrl | datastax/datastax.py:42-71 | writes the local cache, then Redis, as `UploadStep` |
| Registry.AssetRegistry.MarkAsUploaded | datastax/datastax.py:74-92 | checks the payload, runs the existence check, then writes local and Redis, as `ConfirmStep` |
| Registry.AssetRegistry.GenerateDownloadUrl | datastax/datastax.py:95-156 | runs the chain of guards as `DownloadStep`; the store is unchanged |
| AssetModel.OtherWorkerWrite | datastax/datastax.py:65-89 | another worker's Redis `set` puts the token at the id, keeps every other stored record, and leaves this worker's cache as it was |
| Registry.AssetRegistry.ExternalWrite | datastax/datastax.py:89 | the in-place form of `OtherWorkerWrite`. It may write `NOT_UPLOADED` only for a fresh id, and `UPLOADED` only for an id in Redis or unknown locally, as the trace events `OtherWorker` under `Possible` |
| AssetProperties.ProbeKeepsValid | datastax/datastax.py:11-22 | in a coherent registry, the existence check answers true exactly for ids in Redis, keeps coherence, and never undoes a local status |
| AssetProperties.UploadKeepsValid | datastax/datastax.py:64-65 | creating a fresh id keeps coherence and well-formedness, and no status goes back |
| AssetProperties.ConfirmKeepsValid | datastax/datastax.py:88-89 | confirmation keeps coherence and well-formedness, and no status goes back |
| AssetProperties.DownloadKeepsValid | datastax/datastax.py:96-103 | a download keeps coherence, and its local change is forward only |
| AssetProperties.ConfirmIdempotent | datastax/datastax.py:88-92 | a second identical confirmation gives the same response and the same state |
| AssetProperties.LocalStatusIsCurrent | datastax/datastax.py:103 | with a single worker, the local-status guard refuses exactly when Redis does not hold `UPLOADED` |
| AssetProperties.UploadOutageLeavesOrphan | datastax/datastax.py:64-65 | when the Redis `set` of a create fails, a local entry is left that no record backs |
| AssetProperties.ConfirmOutageRunsAhead | datastax/datastax.py:88-89 | when the Redis `set` of a confirm fails after a local hit, the local cache says `UPLOADED` while Redis still says `NOT_UPLOADED` |
| AssetProperties.EndToEnd | tests/test.py:66-75 | create leaves `NOT_UPLOADED` in Redis, confirm leaves `UPLOADED`, and the download with timeout 10 gives the presigned URL. A later `{"data": "stax"}` body gives 400 and changes nothing |
| AssetProperties.UnknownIdRejected | tests/test.py:77-81 | an id that was never created gets 404 from confirm and from download, with nothing cached |
| AssetProperties.DownloadWithoutConfirm | tests/test.py:83-86 | created but unconfirmed: the download gives 404 on the local status |
| AssetProperties.DownloadWithoutBytes | tests/test.py:88-92 | confirmed, so Redis holds `UPLOADED`, but the object is absent from S3: the download gives 404 |
| AssetTraces.RunKeepsValid | datastax/datastax.py:20-89 | a single worker whose Redis calls all succeed keeps every local entry equal to its store record, and every store value a status token, over any request sequence |
| AssetTraces.RunMovesForward | datastax/datastax.py:20-89 | over any request sequence, with other workers and Redis failures, no record disappears from either tier and no `UPLOADED` reverts |
| AssetTraces.RunKeepsWellFormed | datastax/datastax.py:20-89 | store values remain status tokens over any sequence |
| AssetTraces.RunKeepsLagging | datastax/datastax.py:20-89 | with other workers writing and Redis reachable, each local entry equals Redis or is `NOT_UPLOADED` where Redis has `UPLOADED` |
| AssetTraces.ConfirmedStaysConfirmed | datastax/datastax.py:88-103 | after a successful confirm, no later download on the same worker answers "unknown", "not uploaded" or Redis-unavailable |
| AssetTraces.StaleAcrossWorkers | datastax/datastax.py:103 | create here, confirm by another worker: Redis holds `UPLOADED`, yet this worker's download is answered 404 "not uploaded" |

## Left out

- The Sanic app and routing, the `start_up`/`shut_down` listeners apart from the empty cache, the Redis pool, and the boto3 session (`datastax/datastax.py:1-9`, `24-39`): these are framework and connection setup.
- Presigned-URL generation and `head_object` are replaced by the input functions `sign` and `head`. Exceptions from boto3 other than `ClientError` are not modelled. The handlers do not catch them, and the framework would answer 500.
- Logging and the `__main__` block with its multi-worker `app.run` (`datastax/datastax.py:158-176`) have no behaviour to state.
- Interleaving of requests at `await` points within a worker is not modelled. Requests run one after another. Other worker processes appear only as Redis writes (`OtherWorker`, `ExternalWrite`). The forward-only results (`RunMovesForward`, `ConfirmedStaysConfirmed`) rely on this. In the running program, a read-through suspended at the Redis `get` (`datastax/datastax.py:14`) can resume and overwrite at `:20` an `UPLOADED` that a confirm on the same worker wrote meanwhile, putting a `NOT_UPLOADED` back in the local cache.
- `uuid4` is not modelled. Its id is a parameter, and its uniqueness is the precondition `FreshId`.
- JSON decoding: the body is an already-decoded `Option<Json>`, with `None` meaning no body or unparseable JSON. JSON numbers are reals.
- Parsing of environment variables with `int()` is not modelled. `Config` holds the parsed values. A malformed `timeout` argument is the input `NotAnInteger`.
- Byte decoding of Redis replies is not modelled. Values are strings.
- URL expiry and the content of downloaded bytes belong to S3, not to this subsystem.
- Redis failure is one flag per request. All of a request's Redis calls succeed, or the first one raises, so the case where a `get` succeeds and the following `set` fails is not separated.
