/** Sequences of requests handled by one worker, interleaved with the Redis
    writes other workers make. Handlers run one after another here: the
    interleaving of two requests at an `await` is not modelled. */
module AssetTraces {
  import opened AssetModel
  import opened AssetProperties

  datatype Request =
    | Upload(id: string, sign: SignRequest -> Presigned)
    | Confirm(id: string, body: Option<Json>)
    | Download(id: string, timeout: TimeoutArg, head: (string, string) -> HeadResult,
               sign: SignRequest -> Presigned)

  datatype Event =
    | Handle(request: Request, storeUp: bool)
    | OtherWorker(id: string, status: Status)

  function Next(s: State, cfg: Config, e: Event): (t: State)
    ensures e.Handle? && e.request.Download? ==> t.store == s.store
  {
    match e
    case OtherWorker(id, status) => OtherWorkerWrite(s, id, status)
    case Handle(Upload(id, sign), up) => UploadStep(s, cfg, id, sign, up).after
    case Handle(Confirm(id, body), up) => ConfirmStep(s, id, body, up).after
    case Handle(Download(id, timeout, head, sign), up) => DownloadStep(s, cfg, id, timeout, head, sign, up).after
  }

  /** The ids a worker creates are fresh uuid4s, so: an upload uses an id no
      tier holds; another worker writes NOT_UPLOADED only for its own fresh
      id, and UPLOADED only for an id it created or found in Redis. */
  predicate Possible(s: State, e: Event)
  {
    match e
    case Handle(Upload(id, _), _) => FreshId(s, id)
    case Handle(_, _) => true
    case OtherWorker(id, NotUploaded) => FreshId(s, id)
    case OtherWorker(id, Uploaded) => id in s.store || id !in s.local
  }

  function Run(s: State, cfg: Config, trace: seq<Event>): State
    decreases |trace|
  {
    if trace == [] then s else Run(Next(s, cfg, trace[0]), cfg, trace[1..])
  }

  predicate PossibleRun(s: State, cfg: Config, trace: seq<Event>)
    decreases |trace|
  {
    trace == [] || (Possible(s, trace[0]) && PossibleRun(Next(s, cfg, trace[0]), cfg, trace[1..]))
  }

  /** Only this worker writes, and Redis is reachable throughout. */
  predicate SingleWorker(trace: seq<Event>)
  {
    forall i :: 0 <= i < |trace| ==> trace[i].Handle? && trace[i].storeUp
  }

  predicate StoreReachable(trace: seq<Event>)
  {
    forall i :: 0 <= i < |trace| ==> trace[i].OtherWorker? || trace[i].storeUp
  }

  /** With several workers the local cache may lag behind Redis, but only
      from NOT_UPLOADED to UPLOADED. */
  predicate Lagging(s: State)
  {
    forall id :: id in s.local ==>
      id in s.store &&
      (s.local[id] == s.store[id] ||
       (s.local[id] == Token(NotUploaded) && s.store[id] == Token(Uploaded)))
  }

  // ---------------------------------------------------------------------
  // One event

  lemma NextKeepsValid(s: State, cfg: Config, e: Event)
    requires Valid(s) && Possible(s, e) && e.Handle? && e.storeUp
    ensures Valid(Next(s, cfg, e))
  {
    match e.request
    case Upload(id, sign) => UploadKeepsValid(s, cfg, id, sign);
    case Confirm(id, body) => ConfirmKeepsValid(s, id, body);
    case Download(id, timeout, head, sign) => DownloadKeepsValid(s, cfg, id, timeout, head, sign);
  }

  lemma NextMovesForward(s: State, cfg: Config, e: Event)
    requires Possible(s, e)
    ensures Forward(s.store, Next(s, cfg, e).store)
    ensures Forward(s.local, Next(s, cfg, e).local)
  {
  }

  lemma NextKeepsWellFormed(s: State, cfg: Config, e: Event)
    requires WellFormed(s)
    ensures WellFormed(Next(s, cfg, e))
  {
  }

  lemma NextKeepsLagging(s: State, cfg: Config, e: Event)
    requires Lagging(s) && WellFormed(s) && Possible(s, e)
    requires e.OtherWorker? || e.storeUp
    ensures Lagging(Next(s, cfg, e))
  {
  }

  // ---------------------------------------------------------------------
  // Whole runs

  /** A single worker keeps both tiers coherent and well formed. */
  lemma {:induction false} RunKeepsValid(s: State, cfg: Config, trace: seq<Event>)
    requires Valid(s) && PossibleRun(s, cfg, trace) && SingleWorker(trace)
    ensures Valid(Run(s, cfg, trace))
    decreases |trace|
  {
    if trace != [] {
      NextKeepsValid(s, cfg, trace[0]);
      assert SingleWorker(trace[1..]) by {
        forall i | 0 <= i < |trace[1..]| ensures trace[1..][i].Handle? && trace[1..][i].storeUp {
          assert trace[1..][i] == trace[i + 1];
        }
      }
      RunKeepsValid(Next(s, cfg, trace[0]), cfg, trace[1..]);
    }
  }

  /** Whatever the workers do and whether or not Redis fails, no record
      disappears and no UPLOADED goes back, in Redis or in the local cache. */
  lemma {:induction false} RunMovesForward(s: State, cfg: Config, trace: seq<Event>)
    requires PossibleRun(s, cfg, trace)
    ensures Forward(s.store, Run(s, cfg, trace).store)
    ensures Forward(s.local, Run(s, cfg, trace).local)
    decreases |trace|
  {
    if trace != [] {
      var t := Next(s, cfg, trace[0]);
      NextMovesForward(s, cfg, trace[0]);
      RunMovesForward(t, cfg, trace[1..]);
      ForwardTransitive(s.store, t.store, Run(t, cfg, trace[1..]).store);
      ForwardTransitive(s.local, t.local, Run(t, cfg, trace[1..]).local);
    }
  }

  /** Stored values stay status tokens whatever happens. */
  lemma {:induction false} RunKeepsWellFormed(s: State, cfg: Config, trace: seq<Event>)
    requires WellFormed(s)
    ensures WellFormed(Run(s, cfg, trace))
    decreases |trace|
  {
    if trace != [] {
      NextKeepsWellFormed(s, cfg, trace[0]);
      RunKeepsWellFormed(Next(s, cfg, trace[0]), cfg, trace[1..]);
    }
  }

  /** With other workers writing and Redis reachable, the local cache is at
      worst one step behind Redis for the ids it holds. */
  lemma {:induction false} RunKeepsLagging(s: State, cfg: Config, trace: seq<Event>)
    requires Lagging(s) && WellFormed(s) && PossibleRun(s, cfg, trace) && StoreReachable(trace)
    ensures Lagging(Run(s, cfg, trace))
    decreases |trace|
  {
    if trace != [] {
      NextKeepsLagging(s, cfg, trace[0]);
      NextKeepsWellFormed(s, cfg, trace[0]);
      assert StoreReachable(trace[1..]) by {
        forall i | 0 <= i < |trace[1..]| ensures trace[1..][i].OtherWorker? || trace[1..][i].storeUp {
          assert trace[1..][i] == trace[i + 1];
        }
      }
      RunKeepsLagging(Next(s, cfg, trace[0]), cfg, trace[1..]);
    }
  }

  /** Once this worker has confirmed an asset, no later download it handles
      answers "unknown" or "not uploaded", whatever else happens meanwhile. */
  lemma ConfirmedStaysConfirmed(s: State, cfg: Config, id: string, body: Option<Json>,
                                trace: seq<Event>, timeout: TimeoutArg,
                                head: (string, string) -> HeadResult, sign: SignRequest -> Presigned,
                                storeUp: bool)
    requires ConfirmStep(s, id, body, true).response == Confirmed
    requires PossibleRun(ConfirmStep(s, id, body, true).after, cfg, trace)
    ensures
      var later := Run(ConfirmStep(s, id, body, true).after, cfg, trace);
      && id in later.local && later.local[id] == Token(Uploaded)
      && DownloadStep(later, cfg, id, timeout, head, sign, storeUp).response !in
           {NotFound(UnknownAsset), NotFound(NotMarkedUploaded), ServerError(StoreUnavailable)}
  {
    var confirmed := ConfirmStep(s, id, body, true).after;
    RunMovesForward(confirmed, cfg, trace);
  }

  /** The consistency gap between workers: this worker creates an asset,
      another worker confirms it in Redis, and this worker still refuses the
      download because it trusts its local NOT_UPLOADED. */
  lemma StaleAcrossWorkers(cfg: Config, id: string, timeout: TimeoutArg,
                           head: (string, string) -> HeadResult, sign: SignRequest -> Presigned)
    requires sign(SignRequest(PutObject(cfg.acl), cfg.bucket, id, cfg.uploadTtl)).Url?
    ensures
      var s := Run(State(map[], map[]), cfg, [Handle(Upload(id, sign), true), OtherWorker(id, Uploaded)]);
      && PossibleRun(State(map[], map[]), cfg, [Handle(Upload(id, sign), true), OtherWorker(id, Uploaded)])
      && id in s.store && s.store[id] == Token(Uploaded)
      && DownloadStep(s, cfg, id, timeout, head, sign, true).response == NotFound(NotMarkedUploaded)
  {
    var s0 := State(map[], map[]);
    var trace := [Handle(Upload(id, sign), true), OtherWorker(id, Uploaded)];
    var s1 := Next(s0, cfg, trace[0]);
    var s2 := Next(s1, cfg, trace[1]);
    assert trace[1..][1..] == [];
    assert Run(s0, cfg, trace) == Run(s1, cfg, trace[1..]) == Run(s2, cfg, []) == s2;
    assert PossibleRun(s2, cfg, []);
  }
}
