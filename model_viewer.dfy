/** The loader rules of `frontend/components/ModelViewer.tsx` (also used by
    `ModelViewer3DWithTooltips.tsx`): the texture-URL rewrite, the ngrok
    header rule, the module-level `fetchCache` behind `fetchFBXWithHeaders`,
    the `cancelled` flag of `FBXModel`'s fetch effect, and the choice between
    the GLTF and FBX loaders.

    `fetch` and `URL.createObjectURL` are the environment: a call records a
    request, and the network answers it later with an `Outcome` event.
    Promises are identified by the index of the request that created them. */
module ModelViewer {
  import opened Wrappers
  import opened Strings

  // ---------------------------------------------------------------------
  // Texture URLs

  /** The loading manager's URL modifier: absolute paths and Windows drive
      paths (embedded in FBX files exported elsewhere) become `''`, so the
      texture is skipped; any other URL is kept. */
  function TextureUrl(url: string): (r: string)
    ensures r == url || r == ""
    ensures !StartsWith(r, "/") && !Contains(r, ":\\")
  {
    if StartsWith(url, "/") || Contains(url, ":\\") then "" else url
  }

  /** No absolute or drive path survives the rewrite, every other URL is
      kept, and rewriting twice is rewriting once. */
  lemma TextureUrlSpec(url: string)
    ensures var r := TextureUrl(url);
      && !StartsWith(r, "/") && !Contains(r, ":\\")
      && (r == url <==> !(StartsWith(url, "/") || Contains(url, ":\\")))
      && (r != url ==> r == "")
      && TextureUrl(r) == r
  {
  }

  // ---------------------------------------------------------------------
  // Request headers

  const NgrokHeader := "ngrok-skip-browser-warning"

  /** Requests to an ngrok tunnel skip its browser warning page. */
  function RequestHeaders(url: string): (h: map<string, string>)
    ensures NgrokHeader in h <==> Contains(url, "ngrok")
    ensures NgrokHeader in h ==> h[NgrokHeader] == "true"
    ensures forall k :: k in h ==> k == NgrokHeader
  {
    if Contains(url, "ngrok") then map[NgrokHeader := "true"] else map[]
  }

  // ---------------------------------------------------------------------
  // The fetch cache

  /** What the network eventually says about one request: a response with
      its `ok` flag (and the blob URL made from its body when ok), or a
      thrown error. */
  datatype Outcome = Response(ok: bool, blobUrl: string) | NetworkError

  /** A request `fetchFBXWithHeaders` issued, and whether it has settled. */
  datatype Request = Request(url: string, headers: map<string, string>, settled: bool)

  /** A cached promise: the request that backs it and its value once resolved. */
  datatype Entry = Entry(promise: nat, resolved: Option<string>)

  datatype Cache = Cache(entries: map<string, Entry>, requests: seq<Request>)

  /** Cache entries point at the request that created them; an entry is
      resolved exactly when its request has settled; an unsettled request
      is always the cached entry for its URL. */
  ghost predicate Valid(c: Cache) {
    && (forall u :: u in c.entries ==>
          var e := c.entries[u];
          e.promise < |c.requests| && c.requests[e.promise].url == u
          && (c.requests[e.promise].settled <==> e.resolved.Some?))
    && (forall k :: 0 <= k < |c.requests| && !c.requests[k].settled ==>
          c.requests[k].url in c.entries && c.entries[c.requests[k].url].promise == k)
  }

  const Empty := Cache(map[], [])

  /** `fetchFBXWithHeaders(url)`: the cache and the promise returned.  A
      cached URL gets its cached promise back and issues nothing; otherwise
      exactly one request, with the ngrok header rule applied, is appended
      and becomes the URL's entry. */
  function Fetch(c: Cache, url: string): (r: (Cache, nat))
    ensures url in r.0.entries && r.0.entries[url].promise == r.1
    ensures url in c.entries ==> r.0 == c
    ensures url !in c.entries ==>
      r.1 == |c.requests| && r.0.requests == c.requests + [Request(url, RequestHeaders(url), false)]
      && r.0.entries[url].resolved == None
    ensures forall u :: u in c.entries ==> u in r.0.entries && r.0.entries[u] == c.entries[u]
  {
    if url in c.entries then (c, c.entries[url].promise)
    else
      var p := |c.requests|;
      (Cache(c.entries[url := Entry(p, None)], c.requests + [Request(url, RequestHeaders(url), false)]), p)
  }

  /** Request `k` settles.  A non-ok response throws like a network error;
      both delete the URL's entry.  A settlement for a request that does not
      exist or has already settled cannot happen and changes nothing. */
  function Settle(c: Cache, k: nat, outcome: Outcome): (r: Cache)
    ensures k >= |c.requests| || c.requests[k].settled ==> r == c
    ensures |r.requests| == |c.requests|
    ensures forall j :: 0 <= j < |c.requests| && j != k ==> r.requests[j] == c.requests[j]
    ensures k < |c.requests| && !c.requests[k].settled ==>
      && r.requests[k].settled && r.requests[k].url == c.requests[k].url
      && (c.requests[k].url in r.entries <==> outcome.Response? && outcome.ok)
      && (outcome.Response? && outcome.ok ==> r.entries[c.requests[k].url] == Entry(k, Some(outcome.blobUrl)))
      && (forall u :: u != c.requests[k].url ==>
            (u in r.entries <==> u in c.entries) && (u in r.entries ==> r.entries[u] == c.entries[u]))
  {
    if k >= |c.requests| || c.requests[k].settled then c
    else
      var url := c.requests[k].url;
      var requests := c.requests[k := c.requests[k].(settled := true)];
      if outcome.Response? && outcome.ok then
        Cache(c.entries[url := Entry(k, Some(outcome.blobUrl))], requests)
      else
        Cache(c.entries - {url}, requests)
  }

  datatype CacheEvent = Call(url: string) | Answer(request: nat, outcome: Outcome)

  function CacheStep(c: Cache, e: CacheEvent): Cache {
    match e
    case Call(url) => Fetch(c, url).0
    case Answer(k, outcome) => Settle(c, k, outcome)
  }

  function CacheRun(c: Cache, events: seq<CacheEvent>): Cache
    decreases |events|
  {
    if events == [] then c else CacheRun(CacheStep(c, events[0]), events[1..])
  }

  lemma FetchValid(c: Cache, url: string)
    requires Valid(c)
    ensures Valid(Fetch(c, url).0)
  {
  }

  lemma SettleValid(c: Cache, k: nat, outcome: Outcome)
    requires Valid(c)
    ensures Valid(Settle(c, k, outcome))
  {
    if k < |c.requests| && !c.requests[k].settled {
      var c' := Settle(c, k, outcome);
      forall j | 0 <= j < |c'.requests| && !c'.requests[j].settled
        ensures c'.requests[j].url in c'.entries && c'.entries[c'.requests[j].url].promise == j
      {
        assert j != k;
      }
    }
  }

  lemma {:induction false} CacheRunValid(c: Cache, events: seq<CacheEvent>)
    requires Valid(c)
    ensures Valid(CacheRun(c, events))
    decreases |events|
  {
    if events != [] {
      match events[0] {
        case Call(url) => FetchValid(c, url);
        case Answer(k, outcome) => SettleValid(c, k, outcome);
      }
      CacheRunValid(CacheStep(c, events[0]), events[1..]);
    }
  }

  /** A URL already cached returns the cached promise and issues no fetch;
      a new URL issues exactly one request, with the header rule applied,
      and caches its promise. */
  lemma FetchSpec(c: Cache, url: string)
    ensures var (c', p) := Fetch(c, url);
      if url in c.entries then c' == c && p == c.entries[url].promise
      else
        && c'.requests == c.requests + [Request(url, RequestHeaders(url), false)]
        && p == |c.requests|
        && c'.entries == c.entries[url := Entry(p, None)]
  {
  }

  /** A failed request (non-ok status or thrown error) removes its URL from
      the cache, so the next call for that URL fetches again. */
  lemma FailureEvicts(c: Cache, k: nat, outcome: Outcome)
    requires Valid(c)
    requires k < |c.requests| && !c.requests[k].settled
    requires outcome.NetworkError? || !outcome.ok
    ensures var c' := Settle(c, k, outcome);
      && c.requests[k].url !in c'.entries
      && |Fetch(c', c.requests[k].url).0.requests| == |c.requests| + 1
  {
  }

  /** A successful request leaves its URL cached with the blob URL; later
      calls return it without fetching. */
  lemma SuccessCached(c: Cache, k: nat, blob: string)
    requires Valid(c)
    requires k < |c.requests| && !c.requests[k].settled
    ensures var c' := Settle(c, k, Response(true, blob));
      var url := c.requests[k].url;
      && url in c'.entries && c'.entries[url] == Entry(k, Some(blob))
      && Fetch(c', url) == (c', k)
  {
  }

  /** A resolved entry is never evicted: it stays, unchanged, through any
      later calls and answers. */
  lemma {:induction false} ResolvedStays(c: Cache, events: seq<CacheEvent>, url: string)
    requires Valid(c)
    requires url in c.entries && c.entries[url].resolved.Some?
    ensures var c' := CacheRun(c, events);
      url in c'.entries && c'.entries[url] == c.entries[url]
    decreases |events|
  {
    if events != [] {
      var c1 := CacheStep(c, events[0]);
      match events[0] {
        case Call(u) => FetchValid(c, u);
        case Answer(k, outcome) =>
          SettleValid(c, k, outcome);
          if k < |c.requests| && !c.requests[k].settled {
            assert c.requests[k].url != url;
          }
      }
      ResolvedStays(c1, events[1..], url);
    }
  }

  /** The module-level `fetchCache` map and the requests it has issued. */
  class FetchCache {
    var entries: map<string, Entry>
    var requests: seq<Request>

    function Snapshot(): Cache
      reads this
    {
      Cache(entries, requests)
    }

    constructor ()
      ensures Snapshot() == Empty
    {
      entries, requests := map[], [];
    }

    /** `fetchFBXWithHeaders(url)`. */
    method FetchWithHeaders(url: string) returns (promise: nat)
      modifies this
      ensures (Snapshot(), promise) == Fetch(old(Snapshot()), url)
    {
      if url in entries {
        return entries[url].promise;
      }
      promise := |requests|;
      requests := requests + [Request(url, RequestHeaders(url), false)];  // fetch(url, { headers })
      entries := entries[url := Entry(promise, None)];                     // fetchCache.set(url, promise)
    }

    /** The promise of request `k` settles. */
    method Answer(k: nat, outcome: Outcome)
      modifies this
      ensures Snapshot() == Settle(old(Snapshot()), k, outcome)
    {
      if k >= |requests| || requests[k].settled {
        return;
      }
      var url := requests[k].url;
      requests := requests[k := requests[k].(settled := true)];
      if outcome.Response? && outcome.ok {
        entries := entries[url := Entry(k, Some(outcome.blobUrl))];
      } else {
        entries := entries - {url};  // fetchCache.delete(url)
      }
    }
  }

  // ---------------------------------------------------------------------
  // `FBXModel`'s fetch effect

  /** `blobUrl` state, the effect run and whether its `cancelled` flag is
      still false. */
  datatype BlobState = BlobState(url: string, blobUrl: Option<string>, run: nat, live: bool)

  datatype BlobEvent = ChangeUrl(url: string) | Resolved(run: nat, blob: string) | Rejected(run: nat) | Unmount

  function BlobInit(url: string): BlobState { BlobState(url, None, 1, true) }

  /** One event.  Only a resolution of the current, uncancelled run changes
      `blobUrl`; only a URL change starts a new (live) run; once cancelled,
      only a URL change does anything. */
  function BlobStep(s: BlobState, e: BlobEvent): (r: BlobState)
    ensures r.blobUrl != s.blobUrl ==> e.Resolved? && e.run == s.run && s.live && r.blobUrl == Some(e.blob)
    ensures r.run == s.run || (e.ChangeUrl? && r.run == s.run + 1 && r.live)
    ensures !s.live && !e.ChangeUrl? ==> r == s
  {
    match e
    case ChangeUrl(url) =>
      // cleanup sets `cancelled`, the new run starts with a fresh flag;
      // `blobUrl` is not reset
      if url == s.url then s else BlobState(url, s.blobUrl, s.run + 1, true)
    case Resolved(r, blob) =>
      if r == s.run && s.live then s.(blobUrl := Some(blob)) else s
    case Rejected(_) => s
    case Unmount => s.(live := false)
  }

  function BlobRun(s: BlobState, events: seq<BlobEvent>): BlobState
    decreases |events|
  {
    if events == [] then s else BlobRun(BlobStep(s, events[0]), events[1..])
  }

  /** Only the current, uncancelled run's resolution sets `blobUrl`; a
      resolution after that run's cleanup, or a rejection, changes nothing. */
  lemma BlobResolution(s: BlobState, r: nat, blob: string)
    ensures BlobStep(s, Resolved(r, blob)).blobUrl ==
      (if r == s.run && s.live then Some(blob) else s.blobUrl)
    ensures r != s.run || !s.live ==> BlobStep(s, Resolved(r, blob)) == s
    ensures BlobStep(s, Rejected(r)) == s
  {
  }

  /** After a URL change, resolutions of earlier runs are ignored for ever. */
  lemma {:induction false} StaleRunsIgnored(s: BlobState, events: seq<BlobEvent>, r: nat, blob: string)
    requires r < s.run
    ensures var s' := BlobRun(s, events); r < s'.run && BlobStep(s', Resolved(r, blob)) == s'
    decreases |events|
  {
    if events != [] {
      StaleRunsIgnored(BlobStep(s, events[0]), events[1..], r, blob);
    }
  }

  /** After unmount nothing changes `blobUrl`. */
  lemma {:induction false} UnmountFinal(s: BlobState, events: seq<BlobEvent>)
    requires !s.live
    requires forall i :: 0 <= i < |events| ==> !events[i].ChangeUrl?
    ensures BlobRun(s, events) == s
    decreases |events|
  {
    if events != [] {
      UnmountFinal(BlobStep(s, events[0]), events[1..]);
    }
  }

  class FbxModel {
    var url: string
    var blobUrl: Option<string>
    var run: nat
    var live: bool

    function Snapshot(): BlobState
      reads this
    {
      BlobState(url, blobUrl, run, live)
    }

    /** Mount: the first effect run starts. */
    constructor (u: string)
      ensures Snapshot() == BlobInit(u)
    {
      url, blobUrl, run, live := u, None, 1, true;
    }

    method ChangeUrl(u: string)
      modifies this
      ensures Snapshot() == BlobStep(old(Snapshot()), BlobEvent.ChangeUrl(u))
    {
      if u != url {
        live := false;      // cleanup: cancelled = true
        url := u;
        run := run + 1;     // new run, new `cancelled` flag
        live := true;
      }
    }

    method Resolve(r: nat, blob: string)
      modifies this
      ensures Snapshot() == BlobStep(old(Snapshot()), Resolved(r, blob))
    {
      if r == run && live {
        blobUrl := Some(blob);
      }
    }

    method Unmount()
      modifies this
      ensures Snapshot() == BlobStep(old(Snapshot()), BlobEvent.Unmount)
    {
      live := false;
    }
  }

  // ---------------------------------------------------------------------
  // Loader choice

  datatype ModelType = Gltf | Fbx

  datatype Loaded = GltfModel(url: string) | FbxModelOf(url: string)

  /** `modelUrl && modelType && (modelType === 'gltf' ? <GLTFModel> : <FBXModel>)`. */
  function SceneModel(modelUrl: Option<string>, modelType: Option<ModelType>): (m: Option<Loaded>)
    ensures m.Some? <==> modelUrl.Some? && modelUrl.value != "" && modelType.Some?
    ensures m.Some? ==> m.value.url == modelUrl.value
    ensures m.Some? ==> (m.value.GltfModel? <==> modelType.value == Gltf)
  {
    if modelUrl.Some? && modelUrl.value != "" && modelType.Some? then
      Some(if modelType.value == Gltf then GltfModel(modelUrl.value) else FbxModelOf(modelUrl.value))
    else None
  }
}
