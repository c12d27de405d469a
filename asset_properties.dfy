/** What one request does to the registry: the invariants a single worker
    keeps, the forward-only movement of statuses, idempotent confirmation,
    the consequences of the handlers writing the local cache before Redis,
    and the end-to-end scenarios the service's HTTP tests exercise. */
module AssetProperties {
  import opened AssetModel

  predicate IsStatusToken(v: string)
  {
    v == Token(NotUploaded) || v == Token(Uploaded)
  }

  /** Every local entry is backed by the same value in the store. */
  predicate Coherent(s: State)
  {
    forall id :: id in s.local ==> id in s.store && s.local[id] == s.store[id]
  }

  /** Every stored value is one of the two status tokens. */
  predicate WellFormed(s: State)
  {
    forall id :: id in s.store ==> IsStatusToken(s.store[id])
  }

  /** The invariant of a registry that only its own worker writes to. */
  predicate Valid(s: State)
  {
    Coherent(s) && WellFormed(s)
  }

  /** A uuid4 collides with no id either tier holds. */
  predicate FreshId(s: State, id: string)
  {
    id !in s.local && id !in s.store
  }

  /** From `before` to `after` no id disappears and no UPLOADED is undone. */
  predicate Forward(before: map<string, string>, after: map<string, string>)
  {
    forall id :: id in before ==>
      id in after && (before[id] == Token(Uploaded) ==> after[id] == Token(Uploaded))
  }

  lemma ForwardTransitive(a: map<string, string>, b: map<string, string>, c: map<string, string>)
    requires Forward(a, b) && Forward(b, c)
    ensures Forward(a, c)
  {
  }

  // ---------------------------------------------------------------------
  // One request, one worker, Redis reachable

  lemma ProbeKeepsValid(s: State, id: string)
    requires Valid(s)
    ensures Valid(CacheProbe(s, id, true).after)
    ensures CacheProbe(s, id, true).presence == Known <==> id in s.store
    ensures Forward(s.local, CacheProbe(s, id, true).after.local)
  {
  }

  lemma UploadKeepsValid(s: State, cfg: Config, id: string, sign: SignRequest -> Presigned)
    requires Valid(s) && FreshId(s, id)
    ensures Valid(UploadStep(s, cfg, id, sign, true).after)
    ensures Forward(s.store, UploadStep(s, cfg, id, sign, true).after.store)
    ensures Forward(s.local, UploadStep(s, cfg, id, sign, true).after.local)
  {
  }

  lemma ConfirmKeepsValid(s: State, id: string, body: Option<Json>)
    requires Valid(s)
    ensures Valid(ConfirmStep(s, id, body, true).after)
    ensures Forward(s.store, ConfirmStep(s, id, body, true).after.store)
    ensures Forward(s.local, ConfirmStep(s, id, body, true).after.local)
  {
  }

  lemma DownloadKeepsValid(s: State, cfg: Config, id: string, timeout: TimeoutArg,
                           head: (string, string) -> HeadResult, sign: SignRequest -> Presigned)
    requires Valid(s)
    ensures Valid(DownloadStep(s, cfg, id, timeout, head, sign, true).after)
    ensures Forward(s.local, DownloadStep(s, cfg, id, timeout, head, sign, true).after.local)
  {
  }

  /** A second identical confirmation answers the same and changes nothing. */
  lemma ConfirmIdempotent(s: State, id: string, body: Option<Json>)
    requires ConfirmStep(s, id, body, true).response == Confirmed
    ensures ConfirmStep(ConfirmStep(s, id, body, true).after, id, body, true)
            == ConfirmStep(s, id, body, true)
  {
  }

  /** For a single worker the local status is never stale: the download
      guard on the local value decides exactly as Redis would. */
  lemma LocalStatusIsCurrent(s: State, cfg: Config, id: string, timeout: TimeoutArg,
                             head: (string, string) -> HeadResult, sign: SignRequest -> Presigned)
    requires Valid(s)
    ensures DownloadStep(s, cfg, id, timeout, head, sign, true).response == NotFound(NotMarkedUploaded)
            <==> id in s.store && s.store[id] != Token(Uploaded)
  {
  }

  // ---------------------------------------------------------------------
  // Redis failing after the local cache was written

  /** Create writes the local cache before Redis: when the Redis `set` fails
      the worker keeps a NOT_UPLOADED entry that no store record backs,
      although the caller was never given the id. */
  lemma UploadOutageLeavesOrphan(s: State, cfg: Config, id: string, sign: SignRequest -> Presigned)
    requires FreshId(s, id)
    requires sign(SignRequest(PutObject(cfg.acl), cfg.bucket, id, cfg.uploadTtl)).Url?
    ensures UploadStep(s, cfg, id, sign, false).response == ServerError(StoreUnavailable)
    ensures id in UploadStep(s, cfg, id, sign, false).after.local
    ensures id !in UploadStep(s, cfg, id, sign, false).after.store
    ensures !Coherent(UploadStep(s, cfg, id, sign, false).after)
  {
  }

  /** Confirm also writes locally first: on a local hit with Redis failing,
      the worker believes UPLOADED while every other worker reads
      NOT_UPLOADED, and the caller got 500. */
  lemma ConfirmOutageRunsAhead(s: State, id: string)
    requires Valid(s) && id in s.local && s.local[id] == Token(NotUploaded)
    ensures ConfirmStep(s, id, Some(Confirmation), false).response == ServerError(StoreUnavailable)
    ensures ConfirmStep(s, id, Some(Confirmation), false).after.local[id] == Token(Uploaded)
    ensures ConfirmStep(s, id, Some(Confirmation), false).after.store[id] == Token(NotUploaded)
    ensures !Coherent(ConfirmStep(s, id, Some(Confirmation), false).after)
  {
  }

  // ---------------------------------------------------------------------
  // The scenarios of the HTTP tests

  /** Create, confirm with {"Status": "uploaded"}, download with timeout 10;
      then a confirmation with {"data": "stax"} is refused. */
  lemma EndToEnd(s: State, cfg: Config, id: string, head: (string, string) -> HeadResult,
                 sign: SignRequest -> Presigned)
    requires FreshId(s, id)
    requires sign(SignRequest(PutObject(cfg.acl), cfg.bucket, id, cfg.uploadTtl)).Url?
    requires sign(SignRequest(GetObject, cfg.bucket, id, 10)).Url?
    requires head(cfg.bucket, id) == HeadOk
    ensures
      var created := UploadStep(s, cfg, id, sign, true);
      var confirmed := ConfirmStep(created.after, id, Some(Confirmation), true);
      var fetched := DownloadStep(confirmed.after, cfg, id, Timeout(10), head, sign, true);
      var bogus := ConfirmStep(fetched.after, id, Some(JObject(map["data" := JString("stax")])), true);
      && created.response.UploadGrant? && created.response.id == id
      && created.after.store[id] == "NOT_UPLOADED"
      && confirmed.response == Confirmed
      && confirmed.after.store[id] == "UPLOADED"
      && fetched.response == DownloadGrant(sign(SignRequest(GetObject, cfg.bucket, id, 10)).url)
      && bogus == Step(BadRequest, fetched.after)
  {
    var bad := Some(JObject(map["data" := JString("stax")]));
    assert "Status" in Confirmation.fields;
    assert bad.value.fields.Keys != Confirmation.fields.Keys;
    assert !IsConfirmation(bad);
  }

  /** An id nobody created is rejected by confirm and by download alike. */
  lemma UnknownIdRejected(s: State, cfg: Config, id: string, body: Option<Json>, timeout: TimeoutArg,
                          head: (string, string) -> HeadResult, sign: SignRequest -> Presigned)
    requires FreshId(s, id) && IsConfirmation(body)
    ensures ConfirmStep(s, id, body, true) == Step(NotFound(UnknownAsset), s)
    ensures DownloadStep(s, cfg, id, timeout, head, sign, true) == Step(NotFound(UnknownAsset), s)
  {
  }

  /** Bytes uploaded to S3 but never confirmed: the download is refused. */
  lemma DownloadWithoutConfirm(s: State, cfg: Config, id: string, timeout: TimeoutArg,
                               head: (string, string) -> HeadResult, sign: SignRequest -> Presigned)
    requires FreshId(s, id)
    requires sign(SignRequest(PutObject(cfg.acl), cfg.bucket, id, cfg.uploadTtl)).Url?
    ensures
      var created := UploadStep(s, cfg, id, sign, true);
      DownloadStep(created.after, cfg, id, timeout, head, sign, true).response == NotFound(NotMarkedUploaded)
  {
  }

  /** Confirmed but never uploaded: S3 answers 404 and so does the service. */
  lemma DownloadWithoutBytes(s: State, cfg: Config, id: string, timeout: TimeoutArg,
                             head: (string, string) -> HeadResult, sign: SignRequest -> Presigned)
    requires FreshId(s, id)
    requires sign(SignRequest(PutObject(cfg.acl), cfg.bucket, id, cfg.uploadTtl)).Url?
    requires head(cfg.bucket, id) == HeadError("404")
    ensures
      var created := UploadStep(s, cfg, id, sign, true);
      var confirmed := ConfirmStep(created.after, id, Some(Confirmation), true);
      && confirmed.after.store[id] == "UPLOADED"
      && DownloadStep(confirmed.after, cfg, id, timeout, head, sign, true).response == NotFound(MissingOnS3)
  {
  }
}
