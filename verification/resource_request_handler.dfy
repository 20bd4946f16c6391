/**
 * The request handler that stands between the router and a resource: it maps
 * the HTTP verb to an operation, binds the request's arguments to the
 * operation's parameters, calls it, wraps the outcome in a JSON envelope with
 * a status code, and keeps a time-limited cache of those envelopes shared by
 * every handler.
 *
 * Each step is a function on values (routing, binding, the envelope, the
 * cache step); the handler object's methods do the same work on the shared
 * cache and on the in-memory resource in place, and are proved to agree with
 * those functions.
 */
module ResourceRequestHandler {
  import opened Wrappers
  import opened Values
  import opened BaseResource
  import opened ParamBinder
  import PG = PostgreSQLReadOnlyResource
  import ReadOnlyResource
  import InMemoryResource

  /** What the handler reads from an incoming request. `matchId` is the `{id}`
      segment of the path when the route has one; `body` is the parsed JSON
      body, `None` when the body is not valid JSON. */
  datatype Request = Request(verb: string, url: string, matchId: Option<string>, query: Dict, body: Option<Value>)

  /** The callable chosen for a request: a bound operation of the resource,
      or, for `POST`, the one-element tuple `(self.resource.create,)`. */
  datatype Func = Bound(op: Op) | CreateTuple

  /** The outcome of routing: call something with keyword arguments, or
      answer at once with an error envelope. */
  datatype Route = Call(func: Func, kwargs: Dict) | Refuse(message: string)

  function MethodNotAllowedHere(verb: string): string {
    "Method \"" + verb + "\" is not allowed here"
  }

  const IdRequired := "id is required"

  /** `await request.json()`: a body that is not JSON raises `ValueError`. */
  function Json(req: Request): (r: Result<Value, Exc>)
    ensures r.Success? <==> req.body.Some?
  {
    match req.body
    case Some(v) => Success(v)
    case None => Failure(ValueError("Expecting value"))
  }

  /** `request_resource`: the collection endpoint. */
  function CollectionRoute(req: Request): Result<Route, Exc> {
    if req.verb == "GET" || req.verb == "OPTIONS" then Success(Call(Bound(List), []))
    else if req.verb == "PUT" then
      var items :- Json(req);
      Success(Call(Bound(ReplaceAll), [("items", items)]))
    else if req.verb == "POST" then
      var items :- Json(req);
      Success(Call(CreateTuple, [("items", items)]))
    else if req.verb == "DELETE" then Success(Call(Bound(DeleteAll), []))
    else Success(Refuse(MethodNotAllowedHere(req.verb)))
  }

  /** `request_resource_item`: the item endpoint. */
  function ItemRoute(req: Request): Result<Route, Exc> {
    match req.matchId
    case None => Success(Refuse(IdRequired))
    case Some(id) =>
      if req.verb == "GET" || req.verb == "OPTIONS" then Success(Call(Bound(Get), [("item_id", VStr(id))]))
      else if req.verb == "PUT" then
        var item :- Json(req);
        Success(Call(Bound(CreateOrReplace), [("item_id", VStr(id)), ("item", item)]))
      else if req.verb == "PATCH" then
        var item :- Json(req);
        Success(Call(Bound(Update), [("item_id", VStr(id)), ("item", item)]))
      else if req.verb == "DELETE" then Success(Call(Bound(Delete), [("item_id", VStr(id))]))
      else Success(Refuse(MethodNotAllowedHere(req.verb)))
  }

  /** The verbs each endpoint accepts, and the operation each one calls;
      every other verb is refused without reaching the resource. */
  lemma VerbsToOperations(req: Request)
    ensures req.verb in {"GET", "OPTIONS"} ==> CollectionRoute(req) == Success(Call(Bound(List), []))
    ensures req.verb == "DELETE" ==> CollectionRoute(req) == Success(Call(Bound(DeleteAll), []))
    ensures req.verb == "PUT" && req.body.Some? ==> CollectionRoute(req) == Success(Call(Bound(ReplaceAll), [("items", req.body.value)]))
    ensures req.verb == "POST" && req.body.Some? ==> CollectionRoute(req) == Success(Call(CreateTuple, [("items", req.body.value)]))
    ensures req.verb !in {"GET", "OPTIONS", "PUT", "POST", "DELETE"} ==> CollectionRoute(req) == Success(Refuse(MethodNotAllowedHere(req.verb)))
    ensures req.matchId.None? ==> ItemRoute(req) == Success(Refuse(IdRequired))
    ensures req.matchId.Some? && req.verb in {"GET", "OPTIONS"} ==> ItemRoute(req) == Success(Call(Bound(Get), [("item_id", VStr(req.matchId.value))]))
    ensures req.matchId.Some? && req.verb == "DELETE" ==> ItemRoute(req) == Success(Call(Bound(Delete), [("item_id", VStr(req.matchId.value))]))
    ensures req.matchId.Some? && req.verb == "PUT" && req.body.Some? ==>
      ItemRoute(req) == Success(Call(Bound(CreateOrReplace), [("item_id", VStr(req.matchId.value)), ("item", req.body.value)]))
    ensures req.matchId.Some? && req.verb == "PATCH" && req.body.Some? ==>
      ItemRoute(req) == Success(Call(Bound(Update), [("item_id", VStr(req.matchId.value)), ("item", req.body.value)]))
    ensures req.matchId.Some? && req.verb !in {"GET", "OPTIONS", "PUT", "PATCH", "DELETE"} ==>
      ItemRoute(req) == Success(Refuse(MethodNotAllowedHere(req.verb)))
  {
  }

  /** The resource behind a handler: the query compiler over a database, the
      read-only base, or the in-memory test resource (whose `list` and
      `update` outcomes are given). */
  datatype Backend =
    | Pg(desc: PG.Resource, db: PG.Database)
    | ReadOnly
    | InMemory(res: InMemoryResource.TestResource, listOutcome: Result<Output, Exc>, updateOutcome: Result<Output, Exc>)

  /** The declared parameters of an operation of the backend. */
  function SignatureOf(b: Backend, op: Op): (sig: Signature)
    ensures WellFormed(sig)
  {
    match b
    case Pg(_, _) => PG.Signature(op)
    case ReadOnly => ReadOnlyResource.Signature(op)
    case InMemory(_, _, _) => InMemoryResource.Signature(op)
  }

  /** The keyword arguments routing supplies are always declared parameters,
      and they include every parameter without a default: binding can then
      fail only because of the query string or a coercion. */
  lemma RoutesFitSignatures(b: Backend, req: Request, op: Op, kwargs: Dict)
    requires CollectionRoute(req) == Success(Call(Bound(op), kwargs)) || ItemRoute(req) == Success(Call(Bound(op), kwargs))
    ensures Keys(kwargs) <= Names(SignatureOf(b, op))
    ensures forall p :: p in SignatureOf(b, op) && p.default.None? ==> p.name in Keys(kwargs)
  {
    var sig := SignatureOf(b, op);
    if op.ReplaceAll? {
      assert sig[0].name == "items";
    } else if op.CreateOrReplace? || op.Update? {
      assert sig[0].name == "item_id" && sig[1].name == "item";
      var item := Json(req).value;
      assert kwargs == [("item_id", VStr(req.matchId.value)), ("item", item)];
      assert Keys(kwargs[1..]) == {"item"};
    } else if op.Get? || op.Delete? {
      assert sig[0].name == "item_id";
    }
  }

  /** Calling an operation of the backend with bound arguments: the outcome and
      the in-memory state afterwards (only the in-memory resource has one). */
  function Invoke(b: Backend, s: InMemoryResource.Store, op: Op, args: Dict): (Result<Output, Exc>, InMemoryResource.Store) {
    match b
    case Pg(desc, db) => (PG.Invoke(desc, db, op, args), s)
    case ReadOnly => (ReadOnlyResource.Invoke(op, args), s)
    case InMemory(_, lo, uo) => InMemoryResource.Dispatch(s, op, args, lo, uo)
  }

  /** An envelope and its status code, as `make_request` returns them. */
  type Reply = (Dict, int)

  function ErrorEnvelope(message: string): Dict {
    [("status", VStr("error")), ("error_message", VStr(message))]
  }

  function ProcessingError(req: Request): string {
    "Error during processing resource \"" + req.url + "\" with request method \"" + req.verb + "\""
  }

  /** A successful result: `data` holds the value, and the second part of a
      pair is merged into the top level, where it may override either key. */
  function OkReply(out: Output): (r: Reply)
    ensures r.1 == 200
    ensures forall k :: Lookup(r.0, k) ==
                        (if out.Pair? && k in Keys(out.extra) then Final(out.extra, k)
                         else if k == "data" then Some(out.data)
                         else if k == "status" then Some(VStr("ok"))
                         else None)
  {
    var base := Store([("status", VStr("ok"))], "data", out.data);
    match out
    case Plain(_) => (base, 200)
    case Pair(_, extra) => (Values.Update(base, extra), 200)
  }

  /** The exception handlers of `make_request`: 404 for a missing item and for
      a refused method, 400 with its own message for a validation error, and
      500 naming the URL and verb for anything else. */
  function Caught(req: Request, e: Exc): (r: Reply)
    ensures Lookup(r.0, "status") == Some(VStr("error"))
    ensures e.ItemDoesNotExist? ==> r == (ErrorEnvelope("item does not exist"), 404)
    ensures e.MethodIsNotAllowed? ==> r == (ErrorEnvelope("This method is not allowed for this resource"), 404)
    ensures e.ParamsValidation? ==> r == (ErrorEnvelope(e.msg), 400)
    ensures !e.ItemDoesNotExist? && !e.MethodIsNotAllowed? && !e.ParamsValidation? ==> r == (ErrorEnvelope(ProcessingError(req)), 500)
  {
    match e
    case ItemDoesNotExist => (ErrorEnvelope("item does not exist"), 404)
    case MethodIsNotAllowed => (ErrorEnvelope("This method is not allowed for this resource"), 404)
    case ParamsValidation(msg) => (ErrorEnvelope(msg), 400)
    case _ => (ErrorEnvelope(ProcessingError(req)), 500)
  }

  /** `kwargs.update(dict(request.query))`: query-string keys win over the
      path and body arguments, and a key repeated in the query string takes
      its first value, which is what `request.query[key]` gives. */
  function Params(req: Request, kwargs: Dict): (params: Dict)
    ensures Keys(params) == Keys(kwargs) + Keys(req.query)
    ensures forall k :: k in Keys(req.query) ==> Lookup(params, k) == Lookup(req.query, k)
    ensures forall k :: k !in Keys(req.query) ==> Lookup(params, k) == Lookup(kwargs, k)
  {
    var query := Values.FirstWins(req.query);
    forall k | k in Keys(req.query)
      ensures Values.Final(query, k) == Lookup(req.query, k)
    {
      Values.UniqueFinal(query, k);
    }
    Values.Update(kwargs, query)
  }

  /** `make_request`: bind, call, and wrap the outcome; the in-memory state
      changes only when the call is made. */
  function MakeRequestSpec(b: Backend, s: InMemoryResource.Store, req: Request, func: Func, kwargs: Dict): (Reply, InMemoryResource.Store) {
    match func
    case CreateTuple => (Caught(req, TypeError), s)
    case Bound(op) =>
      match Bind(SignatureOf(b, op), Params(req, kwargs))
      case Failure(e) => (Caught(req, e), s)
      case Success(args) =>
        var called := Invoke(b, s, op, args);
        (if called.0.Success? then OkReply(called.0.value) else Caught(req, called.0.error), called.1)
  }

  /** The status codes `make_request` produces, and when: 200 exactly when
      binding and the call both succeed, and never a change of state when the
      call is not made. */
  lemma MakeRequestOutcome(b: Backend, s: InMemoryResource.Store, req: Request, func: Func, kwargs: Dict)
    ensures MakeRequestSpec(b, s, req, func, kwargs).0.1 in {200, 400, 404, 500}
    ensures MakeRequestSpec(b, s, req, func, kwargs).0.1 == 200 <==>
      func.Bound? && Bind(SignatureOf(b, func.op), Params(req, kwargs)).Success? &&
      Invoke(b, s, func.op, Bind(SignatureOf(b, func.op), Params(req, kwargs)).value).0.Success?
    ensures (func.CreateTuple? || Bind(SignatureOf(b, func.op), Params(req, kwargs)).Failure?) ==>
      MakeRequestSpec(b, s, req, func, kwargs).1 == s
  {
  }

  /** `POST` to a collection always ends in the 500 envelope: the tuple it
      binds is not callable. Nothing is created. */
  lemma PostAlwaysFails(b: Backend, s: InMemoryResource.Store, req: Request, kwargs: Dict)
    requires req.verb == "POST" && req.body.Some?
    ensures CollectionRoute(req).Success? && CollectionRoute(req).value.Call?
    ensures var route := CollectionRoute(req).value;
      MakeRequestSpec(b, s, req, route.func, route.kwargs) == ((ErrorEnvelope(ProcessingError(req)), 500), s)
  {
  }

  /** The read-only resource refuses each mutator with a 404, once the
      arguments bind. */
  lemma ReadOnlyRefusesMutators(s: InMemoryResource.Store, req: Request, op: Op, kwargs: Dict)
    requires IsMutator(op) && Bind(SignatureOf(ReadOnly, op), Params(req, kwargs)).Success?
    ensures MakeRequestSpec(ReadOnly, s, req, Bound(op), kwargs) ==
      ((ErrorEnvelope("This method is not allowed for this resource"), 404), s)
  {
  }

  /** Per-resource cache settings: whether responses are cached, their
      lifetime, and the number of entries above which the cache is cleared. */
  datatype CacheConfig = CacheConfig(cached: bool, ttl: int, size: int)

  /** The cache key: verb, full URL, the callable (the resource it is bound
      to, by identity, and the operation), and the frozen set of arguments. */
  datatype CacheKey = CacheKey(verb: string, url: string, resource: nat, func: Func, kwargs: set<(string, Value)>)

  /** A cached reply and the instant after which it is stale. */
  datatype Entry = Entry(reply: Reply, expires: int)

  type Cache = map<CacheKey, Entry>

  /** `frozenset(kwargs.items())` hashes every value. */
  predicate AllHashable(kwargs: Dict) {
    forall p :: p in kwargs ==> Hashable(p.1)
  }

  function KeyOf(req: Request, resource: nat, func: Func, kwargs: Dict): CacheKey {
    CacheKey(req.verb, req.url, resource, func, set p | p in kwargs)
  }

  /** The response sent: the envelope as JSON with its status, plus the
      `Allow` header on `OPTIONS`. */
  datatype HttpResponse = HttpResponse(status: int, body: Dict, headers: seq<(string, string)>)

  const AllowHeader := ("Allow", "GET, PUT, POST, DELETE")

  function Respond(req: Request, reply: Reply): (r: HttpResponse)
    ensures r.status == reply.1 && r.body == reply.0
    ensures r.headers == if req.verb == "OPTIONS" then [AllowHeader] else []
  {
    HttpResponse(reply.1, reply.0, if req.verb == "OPTIONS" then [AllowHeader] else [])
  }

  /** The cached path of `pre_request` for one key, whatever the state the
      computation threads: on a miss, compute, store with its expiry and clear
      everything if the cache has grown past its bound; then read the entry
      back (`KeyError` if it was cleared); if it has expired, compute again and
      refresh it, but answer with what was read. */
  function CacheLookup<S>(cfg: CacheConfig, cache: Cache, s: S, now: int, key: CacheKey, compute: S -> (Reply, S))
    : (Result<Reply, Exc>, S, Cache)
  {
    var filled := Fill(cfg, cache, s, now, key, compute);
    var c1, s1 := filled.0, filled.1;
    if key !in c1 then (Failure(KeyError), s1, c1)
    else if c1[key].expires < now then
      (Success(c1[key].reply), compute(s1).1, c1[key := Entry(compute(s1).0, now + cfg.ttl)])
    else (Success(c1[key].reply), s1, c1)
  }

  /** The miss branch: compute, store with its expiry, and clear everything
      if the cache has grown past its bound. */
  function Fill<S>(cfg: CacheConfig, cache: Cache, s: S, now: int, key: CacheKey, compute: S -> (Reply, S)): (r: (Cache, S))
    ensures key in cache ==> r == (cache, s)
    ensures key !in cache ==> r.1 == compute(s).1
    ensures key !in cache && |cache| < cfg.size ==>
      key in r.0 && r.0 == cache[key := Entry(compute(s).0, now + cfg.ttl)]
    ensures key !in cache && |cache| >= cfg.size ==> r.0 == map[]
    ensures |cache| <= cfg.size ==> |r.0| <= cfg.size
  {
    if key in cache then (cache, s)
    else
      var c := cache[key := Entry(compute(s).0, now + cfg.ttl)];
      assert |c| == |cache| + 1;
      (if |c| > cfg.size then map[] else c, compute(s).1)
  }

  /** The cache never holds more entries than its bound after a lookup, if it
      did not before. */
  lemma CacheStaysBounded<S>(cfg: CacheConfig, cache: Cache, s: S, now: int, key: CacheKey, compute: S -> (Reply, S))
    requires |cache| <= cfg.size
    ensures |CacheLookup(cfg, cache, s, now, key, compute).2| <= cfg.size
  {
    if key !in cache {
      var c := cache[key := Entry(compute(s).0, now + cfg.ttl)];
      assert |c| == |cache| + 1;
    }
  }

  /** A miss that fills the cache past its bound clears the whole cache, the
      new entry included, and the read that follows raises `KeyError`: the
      computation ran, but no response is produced. */
  lemma OverflowRaises<S>(cfg: CacheConfig, cache: Cache, s: S, now: int, key: CacheKey, compute: S -> (Reply, S))
    requires key !in cache && |cache| >= cfg.size
    ensures CacheLookup(cfg, cache, s, now, key, compute) == (Failure(KeyError), compute(s).1, map[])
  {
    var c := cache[key := Entry(compute(s).0, now + cfg.ttl)];
    assert |c| == |cache| + 1;
  }

  /** A miss below the bound stores the fresh reply with its expiry, keeps
      every other entry, and (for a non-negative lifetime) answers with it. */
  lemma MissStores<S>(cfg: CacheConfig, cache: Cache, s: S, now: int, key: CacheKey, compute: S -> (Reply, S))
    requires key !in cache && |cache| < cfg.size && cfg.ttl >= 0
    ensures CacheLookup(cfg, cache, s, now, key, compute) ==
      (Success(compute(s).0), compute(s).1, cache[key := Entry(compute(s).0, now + cfg.ttl)])
  {
    var c := cache[key := Entry(compute(s).0, now + cfg.ttl)];
    assert |c| == |cache| + 1;
  }

  /** A hit that has not expired answers from the cache: nothing is computed
      and nothing changes. */
  lemma FreshHit<S>(cfg: CacheConfig, cache: Cache, s: S, now: int, key: CacheKey, compute: S -> (Reply, S))
    requires key in cache && cache[key].expires >= now
    ensures CacheLookup(cfg, cache, s, now, key, compute) == (Success(cache[key].reply), s, cache)
  {
  }

  /** An expired hit recomputes and refreshes the entry, but this request is
      still answered with the stale reply. */
  lemma StaleHit<S>(cfg: CacheConfig, cache: Cache, s: S, now: int, key: CacheKey, compute: S -> (Reply, S))
    requires key in cache && cache[key].expires < now
    ensures CacheLookup(cfg, cache, s, now, key, compute) ==
      (Success(cache[key].reply), compute(s).1, cache[key := Entry(compute(s).0, now + cfg.ttl)])
  {
  }

  /** The cached path of `pre_request` with `make_request` as the
      computation: the miss branch. */
  function FillSpec(b: Backend, cfg: CacheConfig, cache: Cache, s: InMemoryResource.Store, now: int, key: CacheKey, req: Request, func: Func, kwargs: Dict)
    : (Cache, InMemoryResource.Store)
  {
    if key in cache then (cache, s)
    else
      var computed := MakeRequestSpec(b, s, req, func, kwargs);
      var c := cache[key := Entry(computed.0, now + cfg.ttl)];
      (if |c| > cfg.size then map[] else c, computed.1)
  }

  /** The cached path of `pre_request` with `make_request` as the
      computation: fill, read back, refresh if expired. */
  function CachedSpec(b: Backend, cfg: CacheConfig, cache: Cache, s: InMemoryResource.Store, now: int, key: CacheKey, req: Request, func: Func, kwargs: Dict)
    : (Result<Reply, Exc>, InMemoryResource.Store, Cache)
  {
    var filled := FillSpec(b, cfg, cache, s, now, key, req, func, kwargs);
    var c1, s1 := filled.0, filled.1;
    if key !in c1 then (Failure(KeyError), s1, c1)
    else if c1[key].expires < now then
      var again := MakeRequestSpec(b, s1, req, func, kwargs);
      (Success(c1[key].reply), again.1, c1[key := Entry(again.0, now + cfg.ttl)])
    else (Success(c1[key].reply), s1, c1)
  }

  /** The cached path of a request is the cache lookup above, computing with
      `make_request`; so every property of the lookup holds of it. */
  lemma CachedSpecIsCacheLookup(b: Backend, cfg: CacheConfig, cache: Cache, s: InMemoryResource.Store, now: int, key: CacheKey, req: Request, func: Func, kwargs: Dict)
    ensures CachedSpec(b, cfg, cache, s, now, key, req, func, kwargs) ==
      CacheLookup(cfg, cache, s, now, key, st => MakeRequestSpec(b, st, req, func, kwargs))
  {
  }

  /** `pre_request`: the response for a routed call, the in-memory state and
      the cache afterwards. `Failure` is an exception that escapes the
      handler. */
  function PreRequestSpec(b: Backend, cfg: CacheConfig, resource: nat, cache: Cache, s: InMemoryResource.Store, now: int, req: Request, func: Func, kwargs: Dict)
    : (Result<HttpResponse, Exc>, InMemoryResource.Store, Cache)
  {
    if !cfg.cached then
      var computed := MakeRequestSpec(b, s, req, func, kwargs);
      (Success(Respond(req, computed.0)), computed.1, cache)
    else if !AllHashable(kwargs) then (Failure(TypeError), s, cache)
    else
      var cached := CachedSpec(b, cfg, cache, s, now, KeyOf(req, resource, func, kwargs), req, func, kwargs);
      (if cached.0.Success? then Success(Respond(req, cached.0.value)) else Failure(cached.0.error), cached.1, cached.2)
  }

  /** An uncached resource recomputes every time and leaves the cache alone. */
  lemma UncachedRecomputes(b: Backend, cfg: CacheConfig, resource: nat, cache: Cache, s: InMemoryResource.Store, now: int, req: Request, func: Func, kwargs: Dict)
    requires !cfg.cached
    ensures PreRequestSpec(b, cfg, resource, cache, s, now, req, func, kwargs) ==
      (Success(Respond(req, MakeRequestSpec(b, s, req, func, kwargs).0)), MakeRequestSpec(b, s, req, func, kwargs).1, cache)
  {
  }

  /** Over a whole request the shared cache stays within the bound. */
  lemma PreRequestBounded(b: Backend, cfg: CacheConfig, resource: nat, cache: Cache, s: InMemoryResource.Store, now: int, req: Request, func: Func, kwargs: Dict)
    requires |cache| <= cfg.size
    ensures |PreRequestSpec(b, cfg, resource, cache, s, now, req, func, kwargs).2| <= cfg.size
  {
    if cfg.cached && AllHashable(kwargs) {
      var key := KeyOf(req, resource, func, kwargs);
      CachedSpecIsCacheLookup(b, cfg, cache, s, now, key, req, func, kwargs);
      CacheStaysBounded(cfg, cache, s, now, key, st => MakeRequestSpec(b, st, req, func, kwargs));
    }
  }

  /** The handling of one request at an endpoint, from its route. */
  function HandleSpec(route: Result<Route, Exc>, b: Backend, cfg: CacheConfig, resource: nat, cache: Cache, s: InMemoryResource.Store, now: int, req: Request)
    : (Result<HttpResponse, Exc>, InMemoryResource.Store, Cache)
  {
    match route
    case Failure(e) => (Failure(e), s, cache)
    case Success(Refuse(message)) => (Success(HttpResponse(200, ErrorEnvelope(message), [])), s, cache)
    case Success(Call(func, kwargs)) => PreRequestSpec(b, cfg, resource, cache, s, now, req, func, kwargs)
  }

  /** An unsupported verb is answered with status 200 and an error envelope,
      and neither the resource nor the cache is touched. */
  lemma UnsupportedVerbUntouched(b: Backend, cfg: CacheConfig, resource: nat, cache: Cache, s: InMemoryResource.Store, now: int, req: Request)
    requires req.verb !in {"GET", "OPTIONS", "PUT", "POST", "DELETE"}
    ensures HandleSpec(CollectionRoute(req), b, cfg, resource, cache, s, now, req) ==
      (Success(HttpResponse(200, ErrorEnvelope(MethodNotAllowedHere(req.verb)), [])), s, cache)
  {
  }

  /** A cached collection refuses a JSON list body on `PUT` before anything
      else happens: the list cannot be frozen into the cache key. */
  lemma CachedReplaceAllRaises(b: Backend, cfg: CacheConfig, resource: nat, cache: Cache, s: InMemoryResource.Store, now: int, req: Request)
    requires cfg.cached && req.verb == "PUT" && req.body.Some? && req.body.value.VList?
    ensures HandleSpec(CollectionRoute(req), b, cfg, resource, cache, s, now, req) == (Failure(TypeError), s, cache)
  {
    assert !AllHashable([("items", req.body.value)]) by {
      assert ("items", req.body.value) in [("items", req.body.value)];
    }
  }

  /** The cache shared by every handler, as the class attribute is. */
  class RequestCache {
    var entries: Cache

    constructor ()
      ensures entries == map[]
    {
      entries := map[];
    }
  }

  /** A handler for one registered resource. */
  class Handler {
    /** The identity of the resource object, which the cache key includes. */
    const resource: nat
    const backend: Backend
    const config: CacheConfig
    const cache: RequestCache

    constructor (resource: nat, backend: Backend, config: CacheConfig, cache: RequestCache)
      ensures this.resource == resource && this.backend == backend && this.config == config && this.cache == cache
    {
      this.resource := resource;
      this.backend := backend;
      this.config := config;
      this.cache := cache;
    }

    /** The objects a call into the resource may change. */
    function Footprint(): set<object> {
      if backend.InMemory? then {backend.res} else {}
    }

    /** The in-memory resource's state; the other backends have none. */
    function ResourceState(): InMemoryResource.Store
      reads Footprint()
    {
      if backend.InMemory? then backend.res.State() else InMemoryResource.Empty
    }

    /** `await func(**kwargs)` on a bound operation. */
    method Call(op: Op, args: Dict) returns (r: Result<Output, Exc>)
      modifies Footprint()
      ensures (r, ResourceState()) == Invoke(backend, old(ResourceState()), op, args)
    {
      match backend {
        case Pg(desc, db) =>
          if op.List? {
            var req := PG.ListArgs(args);
            if req.Failure? {
              return Failure(req.error);
            }
            r := PG.List(desc, db, req.value);
          } else {
            r := PG.Invoke(desc, db, op, args);
          }
        case ReadOnly =>
          r := ReadOnlyResource.Invoke(op, args);
        case InMemory(res, lo, uo) =>
          r := res.Invoke(op, args, lo, uo);
      }
    }

    /** `make_request`. */
    method MakeRequest(req: Request, func: Func, kwargs: Dict) returns (reply: Reply)
      modifies Footprint()
      ensures (reply, ResourceState()) == MakeRequestSpec(backend, old(ResourceState()), req, func, kwargs)
    {
      var params := Params(req, kwargs);
      if func.CreateTuple? {
        return Caught(req, TypeError);
      }
      var args := PrepareParams(SignatureOf(backend, func.op), params);
      if args.Failure? {
        return Caught(req, args.error);
      }
      var res := Call(func.op, args.value);
      reply := if res.Success? then OkReply(res.value) else Caught(req, res.error);
    }

    /** `pre_request`, with `now` the time read from the clock. */
    method PreRequest(req: Request, func: Func, kwargs: Dict, now: int) returns (r: Result<HttpResponse, Exc>)
      modifies cache, Footprint()
      ensures (r, ResourceState(), cache.entries) ==
        PreRequestSpec(backend, config, resource, old(cache.entries), old(ResourceState()), now, req, func, kwargs)
    {
      if !config.cached {
        var reply := MakeRequest(req, func, kwargs);
        return Success(Respond(req, reply));
      }
      if !AllHashable(kwargs) {
        return Failure(TypeError);
      }
      var reply := CachedRequest(req, func, kwargs, now, KeyOf(req, resource, func, kwargs));
      r := if reply.Success? then Success(Respond(req, reply.value)) else Failure(reply.error);
    }

    /** The cached path of `pre_request` on the shared cache. */
    method CachedRequest(req: Request, func: Func, kwargs: Dict, now: int, key: CacheKey) returns (r: Result<Reply, Exc>)
      modifies cache, Footprint()
      ensures (r, ResourceState(), cache.entries) ==
        CachedSpec(backend, config, old(cache.entries), old(ResourceState()), now, key, req, func, kwargs)
    {
      FillCache(req, func, kwargs, now, key);
      r := ReadBack(req, func, kwargs, now, key);
    }

    /** Reading the entry back after the miss branch, refreshing it if it
        has expired. */
    method ReadBack(req: Request, func: Func, kwargs: Dict, now: int, key: CacheKey) returns (r: Result<Reply, Exc>)
      modifies cache, Footprint()
      ensures key !in old(cache.entries) ==>
        r == Failure(KeyError) && cache.entries == old(cache.entries) && ResourceState() == old(ResourceState())
      ensures key in old(cache.entries) ==> r == Success(old(cache.entries)[key].reply)
      ensures key in old(cache.entries) && old(cache.entries)[key].expires < now ==>
        var again := MakeRequestSpec(backend, old(ResourceState()), req, func, kwargs);
        cache.entries == old(cache.entries)[key := Entry(again.0, now + config.ttl)] && ResourceState() == again.1
      ensures key in old(cache.entries) && old(cache.entries)[key].expires >= now ==>
        cache.entries == old(cache.entries) && ResourceState() == old(ResourceState())
    {
      if key !in cache.entries {
        return Failure(KeyError);
      }
      var entry := cache.entries[key];
      if entry.expires < now {
        var again := MakeRequest(req, func, kwargs);
        cache.entries := cache.entries[key := Entry(again, now + config.ttl)];
      }
      r := Success(entry.reply);
    }

    /** The miss branch of `pre_request`. */
    method FillCache(req: Request, func: Func, kwargs: Dict, now: int, key: CacheKey)
      modifies cache, Footprint()
      ensures key in old(cache.entries) ==> cache.entries == old(cache.entries) && ResourceState() == old(ResourceState())
      ensures key !in old(cache.entries) ==>
        var computed := MakeRequestSpec(backend, old(ResourceState()), req, func, kwargs);
        var c := old(cache.entries)[key := Entry(computed.0, now + config.ttl)];
        cache.entries == (if |c| > config.size then map[] else c) && ResourceState() == computed.1
    {
      if key !in cache.entries {
        var reply := MakeRequest(req, func, kwargs);
        var c := cache.entries[key := Entry(reply, now + config.ttl)];
        cache.entries := if |c| > config.size then map[] else c;
      }
    }

    /** `request_resource`. */
    method RequestResource(req: Request, now: int) returns (r: Result<HttpResponse, Exc>)
      modifies cache, Footprint()
      ensures (r, ResourceState(), cache.entries) ==
        HandleSpec(CollectionRoute(req), backend, config, resource, old(cache.entries), old(ResourceState()), now, req)
    {
      r := Handle(CollectionRoute(req), req, now);
    }

    /** `request_resource_item`. */
    method RequestResourceItem(req: Request, now: int) returns (r: Result<HttpResponse, Exc>)
      modifies cache, Footprint()
      ensures (r, ResourceState(), cache.entries) ==
        HandleSpec(ItemRoute(req), backend, config, resource, old(cache.entries), old(ResourceState()), now, req)
    {
      r := Handle(ItemRoute(req), req, now);
    }

    method Handle(route: Result<Route, Exc>, req: Request, now: int) returns (r: Result<HttpResponse, Exc>)
      modifies cache, Footprint()
      ensures (r, ResourceState(), cache.entries) ==
        HandleSpec(route, backend, config, resource, old(cache.entries), old(ResourceState()), now, req)
    {
      match route {
        case Failure(e) =>
          r := Failure(e);
        case Success(Refuse(message)) =>
          r := Success(HttpResponse(200, ErrorEnvelope(message), []));
        case Success(Call(func, kwargs)) =>
          r := PreRequest(req, func, kwargs, now);
      }
    }
  }
}
