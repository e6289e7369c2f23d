/**
 * The shared HTTP client service: start-up binds one of two transport
 * backends, shutdown releases what start-up created, and the four verb
 * methods forward to the bound request path, which normalises the request
 * and records the transport call it would make.
 */
module HttpClientService {
  import opened PyValues
  import opened BackendSelection
  import opened RequestShaping

  /** `self.__class__.__name__` of the service. */
  const CLASS_NAME: string := "HTTPClientService"

  /** Twisted's class default for the persistent connections per host of a pool. */
  const POOL_DEFAULT_MAX_PERSISTENT_PER_HOST: nat := 2

  /** A txrequests session; only whether it was closed is observed. */
  class Session {
    var closed: bool

    constructor ()
      ensures !closed
    {
      closed := false;
    }

    method Close()
      modifies this
      ensures closed
    {
      closed := true;
    }
  }

  /** A Twisted HTTPConnectionPool; only its per-host limit and whether its cached connections were closed are observed. */
  class ConnectionPool {
    var maxPersistentPerHost: nat
    var cachedConnectionsClosed: bool

    constructor ()
      ensures maxPersistentPerHost == POOL_DEFAULT_MAX_PERSISTENT_PER_HOST && !cachedConnectionsClosed
    {
      maxPersistentPerHost := POOL_DEFAULT_MAX_PERSISTENT_PER_HOST;
      cachedConnectionsClosed := false;
    }

    method CloseCachedConnections()
      modifies this
      ensures cachedConnectionsClosed && maxPersistentPerHost == old(maxPersistentPerHost)
    {
      cachedConnectionsClosed := true;
    }
  }

  /** A Twisted Agent, built on a connection pool. */
  class Agent {
    const pool: ConnectionPool

    constructor (pool: ConnectionPool)
      ensures this.pool == pool
    {
      this.pool := pool;
    }
  }

  /** How `stopService` released the resources. */
  datatype Stopped = SessionClosed | PoolConnectionsClosed

  class HTTPClientService {
    const baseUrl: string
    const auth: Value
    const headers: Option<map<string, Value>>
    /** `urlparse.urljoin` and `json.dumps`, library functions the service calls. */
    const urljoin: (string, string) -> string
    const dumps: Value -> string

    /** `PREFER_TREQ`: the class default until start-up overrides it on the instance. */
    var preferTreq: bool
    var session: Session?
    var pool: ConnectionPool?
    var agent: Agent?
    /** Which request method `_doRequest` is bound to. */
    var backend: Backend

    /** The bound request path has the resources it uses. */
    ghost predicate Valid()
      reads this
    {
      && (backend == TxRequests ==> session != null)
      && (backend == Treq ==> pool != null && agent != null && agent.pool == pool)
    }

    /** The configuration the request normaliser works from. */
    function Config(): ClientConfig
    {
      ClientConfig(baseUrl, auth, headers)
    }

    /** `__init__(base_url, auth=None, headers=None)`. */
    constructor (baseUrl: string, auth: Value, headers: Option<map<string, Value>>,
                 urljoin: (string, string) -> string, dumps: Value -> string)
      ensures Valid()
      ensures this.baseUrl == baseUrl && this.auth == auth && this.headers == headers
      ensures this.urljoin == urljoin && this.dumps == dumps
      ensures preferTreq == DEFAULT_PREFER_TREQ
      ensures session == null && pool == null && agent == null && backend == Unbound
    {
      this.baseUrl := baseUrl;
      this.auth := auth;
      this.headers := headers;
      this.urljoin := urljoin;
      this.dumps := dumps;
      preferTreq := DEFAULT_PREFER_TREQ;
      session := null;
      pool := null;
      agent := null;
      backend := Unbound;
    }

    /**
     * `startService`: switch the treq preference off for a credential treq
     * cannot express, then bind txrequests with a new session, or raise
     * ImportError, or bind treq with a new pool limited to MAX_THREADS
     * connections per host and an agent on that pool.
     */
    method StartService(env: Environment) returns (outcome: StartOutcome)
      requires Valid()
      modifies this
      ensures Valid()
      ensures outcome == SelectBackend(env, auth, old(preferTreq), CLASS_NAME)
      ensures preferTreq == EffectivePreferTreq(auth, old(preferTreq))
      ensures outcome == Started(TxRequests) ==>
        && backend == TxRequests && fresh(session) && !session.closed
        && pool == old(pool) && agent == old(agent)
      ensures outcome == Started(Treq) ==>
        && backend == Treq && fresh(pool) && fresh(agent) && agent.pool == pool
        && pool.maxPersistentPerHost == MAX_THREADS && !pool.cachedConnectionsClosed
        && session == old(session)
      ensures outcome.Failed? ==>
        backend == old(backend) && session == old(session) && pool == old(pool) && agent == old(agent)
    {
      if auth != NoneValue && !auth.Tuple? {
        preferTreq := false;
      }
      if env.txrequestsInstalled && !preferTreq {
        session := new Session();
        backend := TxRequests;
        outcome := Started(TxRequests);
      } else if !env.treqInstalled {
        outcome := Failed(ImportError(ImportErrorMessage(CLASS_NAME)));
      } else {
        backend := Treq;
        var p := new ConnectionPool();
        p.maxPersistentPerHost := MAX_THREADS;
        pool := p;
        agent := new Agent(p);
        outcome := Started(Treq);
      }
    }

    /**
     * `stopService`: close the session if there is one, otherwise close the
     * pool's cached connections; with neither, Python fails on the missing
     * `_pool` attribute.
     */
    method StopService() returns (r: Result<Stopped, Error>)
      modifies session, pool
      ensures session != null ==>
        && r == Success(SessionClosed) && session.closed
        && (pool != null ==> unchanged(pool))
      ensures session == null && pool != null ==>
        && r == Success(PoolConnectionsClosed) && pool.cachedConnectionsClosed
        && pool.maxPersistentPerHost == old(pool.maxPersistentPerHost)
      ensures session == null && pool == null ==> r == Failure(AttributeError("_pool"))
    {
      if session != null {
        session.Close();
        r := Success(SessionClosed);
      } else if pool != null {
        pool.CloseCachedConnections();
        r := Success(PoolConnectionsClosed);
      } else {
        r := Failure(AttributeError("_pool"));
      }
    }

    /** `_prepareRequest(ep, kwargs)`, rewriting the keyword arguments step by step. */
    method PrepareRequest(ep: string, kwargs: Kwargs) returns (r: Result<Prepared, Error>)
      ensures r == Prepare(Config(), ep, kwargs, urljoin)
    {
      var url := urljoin(baseUrl, ep);
      var kw := kwargs;
      if auth != NoneValue && "auth" !in kw {
        kw := kw["auth" := auth];
      }
      var callHeaders := GetOr(kw, "headers", Dict(map[]));
      if headers.Some? {
        if !callHeaders.Dict? {
          return Failure(AttributeError("update"));
        }
        callHeaders := Dict(callHeaders.entries + headers.value);
      }
      kw := kw["headers" := callHeaders];
      return Success(Prepared(url, kw));
    }

    /** `_doTxRequest(method, ep, **kwargs)`. */
    method DoTxRequest(verb: string, ep: string, kwargs: Kwargs) returns (r: Result<Call, Error>)
      requires session != null
      ensures r == TxDispatch(Config(), session, verb, ep, kwargs, urljoin)
    {
      var prepared := PrepareRequest(ep, kwargs);
      if prepared.Failure? {
        return Failure(prepared.error);
      }
      var kw := prepared.value.kwargs;
      kw := kw["background_callback" := READ_CONTENT];
      return Success(SessionRequest(session, verb, prepared.value.url, kw));
    }

    /** `_doTReq(method, ep, data=None, json=None, **kwargs)`. */
    method DoTReq(verb: string, ep: string, kwargs: Kwargs) returns (r: Result<Call, Error>)
      requires agent != null
      ensures r == TreqDispatch(Config(), agent, verb, ep, kwargs, urljoin, dumps)
    {
      var data := GetOr(kwargs, "data", NoneValue);
      var json := GetOr(kwargs, "json", NoneValue);
      var prepared := PrepareRequest(ep, kwargs - {"data", "json"});
      if prepared.Failure? {
        return Failure(prepared.error);
      }
      var url := prepared.value.url;
      var kw := prepared.value.kwargs;
      var given := kw["headers"];
      if !given.Dict? {
        return Failure(AttributeError("items"));
      }
      var wrapped := WrapHeaders(given.entries);
      kw := kw["headers" := Dict(wrapped)];
      kw := kw["agent" := Ref(agent)];
      if json.Dict? {
        wrapped := wrapped["Content-Type" := JSON_CONTENT_TYPE];
        kw := kw["headers" := Dict(wrapped)];
        return Success(TreqRequest(verb, url, kw["data" := Str(dumps(json))]));
      }
      if data.Dict? {
        return Success(TreqRequest(verb, url, kw["data" := data]));
      }
      return Success(TreqRequest(verb, url, kw));
    }

    /** What the bound `_doRequest` produces; before a successful start the attribute is missing. */
    function Dispatched(verb: string, ep: string, kwargs: Kwargs): (r: Result<Call, Error>)
      reads this
      requires Valid()
      ensures backend == Unbound ==> r == Failure(AttributeError("_doRequest"))
      ensures r.Success? ==> r.value.verb == verb && r.value.url == urljoin(baseUrl, ep)
      ensures r.Success? && backend == TxRequests ==> r.value.SessionRequest? && r.value.session == session
      ensures r.Success? && backend == Treq ==>
        r.value.TreqRequest? && "agent" in r.value.kwargs && r.value.kwargs["agent"] == Ref(agent)
    {
      match backend
      case Unbound => Failure(AttributeError("_doRequest"))
      case TxRequests => TxDispatch(Config(), session, verb, ep, kwargs, urljoin)
      case Treq => TreqDispatch(Config(), agent, verb, ep, kwargs, urljoin, dumps)
    }

    /** `self._doRequest(method, ep, **kwargs)`: call whichever request method start-up bound. */
    method DoRequest(verb: string, ep: string, kwargs: Kwargs) returns (r: Result<Call, Error>)
      requires Valid()
      ensures r == Dispatched(verb, ep, kwargs)
    {
      match backend
      case Unbound =>
        r := Failure(AttributeError("_doRequest"));
      case TxRequests =>
        r := DoTxRequest(verb, ep, kwargs);
      case Treq =>
        r := DoTReq(verb, ep, kwargs);
    }

    method Get(ep: string, kwargs: Kwargs) returns (r: Result<Call, Error>)
      requires Valid()
      ensures r == Dispatched("get", ep, kwargs)
    {
      r := DoRequest("get", ep, kwargs);
    }

    method Put(ep: string, kwargs: Kwargs) returns (r: Result<Call, Error>)
      requires Valid()
      ensures r == Dispatched("put", ep, kwargs)
    {
      r := DoRequest("put", ep, kwargs);
    }

    method Delete(ep: string, kwargs: Kwargs) returns (r: Result<Call, Error>)
      requires Valid()
      ensures r == Dispatched("delete", ep, kwargs)
    {
      r := DoRequest("delete", ep, kwargs);
    }

    method Post(ep: string, kwargs: Kwargs) returns (r: Result<Call, Error>)
      requires Valid()
      ensures r == Dispatched("post", ep, kwargs)
    {
      r := DoRequest("post", ep, kwargs);
    }
  }

  /**
   * A fresh instance started and then stopped releases exactly what start-up
   * created; after a failed start there is nothing to release and stopping
   * fails on the missing pool.
   */
  method FreshInstanceLifecycle(env: Environment, baseUrl: string, auth: Value, headers: Option<map<string, Value>>,
                                urljoin: (string, string) -> string, dumps: Value -> string)
    returns (started: StartOutcome, stopped: Result<Stopped, Error>)
    ensures started == SelectBackend(env, auth, DEFAULT_PREFER_TREQ, CLASS_NAME)
    ensures started == Started(TxRequests) ==> stopped == Success(SessionClosed)
    ensures started == Started(Treq) ==> stopped == Success(PoolConnectionsClosed)
    ensures started.Failed? ==> stopped == Failure(AttributeError("_pool"))
  {
    var service := new HTTPClientService(baseUrl, auth, headers, urljoin, dumps);
    started := service.StartService(env);
    stopped := service.StopService();
  }

  /**
   * Stopping does not unbind the request method: a fresh instance that was
   * started and stopped still dispatches a request, on txrequests to the
   * session that stopping closed.
   */
  method RequestAfterStop(env: Environment, baseUrl: string, auth: Value, headers: Option<map<string, Value>>,
                          urljoin: (string, string) -> string, dumps: Value -> string,
                          ep: string, kwargs: Kwargs)
    returns (service: HTTPClientService, started: StartOutcome, response: Result<Call, Error>)
    ensures started == SelectBackend(env, auth, DEFAULT_PREFER_TREQ, CLASS_NAME)
    ensures started.Started? && "headers" !in kwargs ==>
      response.Success? && response.value.verb == "get" && response.value.url == urljoin(baseUrl, ep)
    ensures started == Started(TxRequests) && response.Success? ==>
      response.value.SessionRequest? && service.session != null && response.value.session == service.session
      && service.session.closed
  {
    service := new HTTPClientService(baseUrl, auth, headers, urljoin, dumps);
    started := service.StartService(env);
    var stopped := service.StopService();
    response := service.Get(ep, kwargs);
  }
}
