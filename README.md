# Buildbot HTTP client service, modelled in Dafny

Buildbot's `HTTPClientService` is a shared service that talks to REST services.
It supports two optional transport libraries: txrequests, which is thread based,
and treq, which is native to Twisted. It picks one of them when it starts. Then
it offers `get`/`put`/`delete`/`post` on a base URL, with default headers and a
default credential.

This project models the decision and normalisation logic of that service. The
transports are left out.

- `values.dfy`, module `PyValues`. The Python values the service inspects:
  `None`, strings, tuples, lists, string-keyed dicts, and other objects.
  Keyword arguments are a `map<string, Value>`. It also holds the two errors the
  service lets escape (`AttributeError`, `ImportError`) and a `Contains`
  predicate for Python's `in` on strings.
- `selection.dfy`, module `BackendSelection`. This covers `checkAvailable` and
  the start-up policy. The policy switches the treq preference off for a
  credential that is neither `None` nor a tuple. It then picks txrequests, or
  treq, or raises `ImportError`. It also holds the messages of both errors.
- `requests.dfy`, module `RequestShaping`. These are pure specifications of
  `_prepareRequest` (URL join, credential injection, header merge), of the treq
  shaping in `_doTReq` (header wrapping and body choice) and of `_doTxRequest`.
  Each transport call is recorded as a `Call` value with its arguments.
- `service.dfy`, module `HttpClientService`. The class `HTTPClientService` has
  the fields `preferTreq`, `session`, `pool`, `agent` and `backend`. `backend`
  says which request method `_doRequest` is bound to. `StartService` and
  `StopService` update these fields in place. The request methods rewrite the
  keyword map step by step, and each is proved equal to its specification
  function. The verbs forward to `DoRequest`. Small classes stand for the
  txrequests session, the Twisted connection pool and the agent.

The service is also described as letting per-call headers take priority. The
code does the opposite: `headers.update(self._headers)` (line 116) keeps the
instance default on a shared header name. The model follows the code.

Stopping is also described as preventing further requests until the next
start. The code does not do that: `stopService` (lines 104-108) closes the
session or the pool's cached connections, but `_doRequest` stays bound. A later
request is still dispatched, and on txrequests it goes to the closed session
(`RequestAfterStop`).

Two behaviours of the code are stated as lemmas rather than changed:
- With `PREFER_TREQ` switched on, txrequests installed and treq missing,
  `checkAvailable` is silent but `startService` raises `ImportError`
  (`PreferTreqWithoutTreqFails`).
- Without txrequests, treq is bound even for a credential that treq cannot
  express (`NonBasicAuthReachesTreqWithoutTxRequests`).

## Model

| member | source | states |
|---|---|---|
| `BackendSelection.CheckAvailable` | master/buildbot/util/httpclientservice.py:78-85 | earlier configuration errors are kept; exactly one error is appended, the neither-installed message, if and only if neither txrequests nor treq is installed |
| `BackendSelection.NeitherInstalledMessageContents` | master/buildbot/util/httpclientservice.py:53-85 | the configuration error contains the requiring module's name and the whole pros-and-cons guidance text |
| `BackendSelection.ImportErrorMessageContents` | master/buildbot/util/httpclientservice.py:94-97 | the start-up ImportError names the class and tells the user to call `<class>.checkAvailable()` |
| `BackendSelection.EffectivePreferTreq` | master/buildbot/util/httpclientservice.py:88-90 | the preference can only be switched off, and it is switched off exactly when treq was preferred and the credential is neither None nor a tuple |
| `BackendSelection.SelectBackend` | master/buildbot/util/httpclientservice.py:87-102 | there are three outcomes and a backend is always bound on success; txrequests is chosen iff it is installed and either treq is not preferred or the credential is neither None nor a tuple; otherwise start-up fails iff treq is missing, with the ImportError naming the class; otherwise treq is chosen |
| `BackendSelection.NonBasicAuthForcesTxRequests` | master/buildbot/util/httpclientservice.py:88-93 | a credential that is neither None nor a tuple selects txrequests whenever it is installed, whatever the preference |
| `BackendSelection.DefaultPreferenceSelection` | master/buildbot/util/httpclientservice.py:68-102 | with the default preference (False), txrequests is used iff installed, treq iff only treq is installed, and start-up fails iff neither is installed |
| `BackendSelection.CheckAvailableAgreesWithStartup` | master/buildbot/util/httpclientservice.py:78-102 | with the default preference, the availability check reports nothing exactly when start-up will bind a backend |
| `BackendSelection.PreferTreqWithoutTreqFails` | master/buildbot/util/httpclientservice.py:83-97 | with the treq preference on, txrequests installed, treq missing and a None or tuple credential, the availability check is silent yet start-up raises |
| `BackendSelection.NonBasicAuthReachesTreqWithoutTxRequests` | master/buildbot/util/httpclientservice.py:88-102 | without txrequests and with treq installed, treq is bound for any credential and any preference |
| `RequestShaping.Prepare` | master/buildbot/util/httpclientservice.py:110-118 | the URL is the join of base URL and endpoint; a caller's `auth` is kept; the instance credential is injected only when it is set and the caller gave none; merged header names are the union of per-call and instance names; the instance value wins on a shared name and per-call values fill the rest; instance headers of None leave the per-call headers (default `{}`) as they are; no other keyword changes; AttributeError exactly when there are instance headers and the per-call headers are not a dict |
| `RequestShaping.PrepareIdempotent` | master/buildbot/util/httpclientservice.py:110-118 | normalising an already normalised keyword map leaves it unchanged |
| `RequestShaping.WrapHeaders` | master/buildbot/util/httpclientservice.py:151-152 | the wrapped headers have the same names, each with a one-element list |
| `RequestShaping.UnwrapWrapHeaders` | master/buildbot/util/httpclientservice.py:151-152 | wrapping loses nothing: taking each list's only element gives back the original headers |
| `RequestShaping.TreqCall` | master/buildbot/util/httpclientservice.py:151-161 | header names are kept (plus Content-Type for a JSON body), with each value wrapped as a one-element list; the service's agent is attached; a dict `json` is sent as `dumps(json)` with Content-Type `['application/json']`, replacing any given one, and wins over `data`; otherwise a dict `data` is sent as is; otherwise no `data` keyword is passed; no other keyword changes; AttributeError exactly when the prepared headers are not a dict |
| `RequestShaping.TreqHeadersRoundTrip` | master/buildbot/util/httpclientservice.py:152-156 | the headers treq receives unwrap to the prepared headers, with Content-Type set to `application/json` exactly when a JSON body is sent |
| `RequestShaping.TreqCallShape` | master/buildbot/util/httpclientservice.py:152-161 | a successful treq call built from keywords without `data` and `json` never carries `json`, sends every header value as a one-element list, and its headers unwrap to the given ones, with Content-Type `application/json` exactly when a JSON body is sent |
| `RequestShaping.TreqDispatch` | master/buildbot/util/httpclientservice.py:149-161 | `data` and `json` are taken out of the keywords before normalising, and `json` never reaches treq; it fails exactly when normalising fails or the prepared headers are not a dict; a successful call goes to treq with the fixed verb, the joined URL and the service's agent; every header value is a one-element list, and the headers unwrap to the prepared ones, with Content-Type `application/json` exactly when a JSON body is sent; a dict `json` becomes the body `dumps(json)`; otherwise a dict `data` is sent as is; otherwise no `data` keyword is sent; the other prepared keywords are passed unchanged |
| `RequestShaping.TxDispatch` | master/buildbot/util/httpclientservice.py:120-147 | fails exactly when normalising fails; otherwise calls `request` on the session with the verb, the joined URL and the normalised keywords plus the `background_callback` that reads the body in the worker thread |
| `RequestShaping.DispatchVerbIndependent` | master/buildbot/util/httpclientservice.py:164-174 | on both backends the verb changes nothing in the issued call but its method name |
| `HttpClientService.HTTPClientService.constructor` | master/buildbot/util/httpclientservice.py:71-76 | the base URL, credential and default headers are stored; there is no session, pool or agent, no bound request method, and the preference is the class default |
| `HttpClientService.HTTPClientService.StartService` | master/buildbot/util/httpclientservice.py:87-102 | the outcome is `SelectBackend` of the credential and the preference before the call; the preference is left switched off for a credential that is neither None nor a tuple; txrequests gets a new open session and nothing else changes; treq gets a new pool with `maxPersistentPerHost == MAX_THREADS` (5), a new agent on that pool, and no session; a failed start binds nothing and creates nothing |
| `HttpClientService.HTTPClientService.StopService` | master/buildbot/util/httpclientservice.py:104-108 | with a session, closes it and leaves the pool alone; otherwise closes the pool's cached connections; with neither, fails on the missing `_pool` |
| `HttpClientService.HTTPClientService.PrepareRequest` | master/buildbot/util/httpclientservice.py:110-118 | the step-by-step rewrite of the keyword map gives exactly `Prepare` of the instance configuration |
| `HttpClientService.HTTPClientService.DoTxRequest` | master/buildbot/util/httpclientservice.py:120-147 | the call issued on the session is exactly `TxDispatch` |
| `HttpClientService.HTTPClientService.DoTReq` | master/buildbot/util/httpclientservice.py:149-161 | the step-by-step treq shaping, including writing Content-Type into the dict just built, is exactly `TreqDispatch` on the service's agent |
| `HttpClientService.HTTPClientService.Dispatched` | master/buildbot/util/httpclientservice.py:91-99 | before a successful start the request method is missing (AttributeError); on success the call carries the verb and the joined URL; on txrequests it goes to the instance's session, on treq it carries the instance's agent |
| `HttpClientService.HTTPClientService.DoRequest` | master/buildbot/util/httpclientservice.py:93-99 | calls the request method bound at start-up, giving `Dispatched` |
| `HttpClientService.HTTPClientService.Get` | master/buildbot/util/httpclientservice.py:164-165 | forwards to the bound request method with verb `"get"` and the endpoint and keywords unchanged |
| `HttpClientService.HTTPClientService.Put` | master/buildbot/util/httpclientservice.py:167-168 | forwards with verb `"put"` and the endpoint and keywords unchanged |
| `HttpClientService.HTTPClientService.Delete` | master/buildbot/util/httpclientservice.py:170-171 | forwards with verb `"delete"` and the endpoint and keywords unchanged |
| `HttpClientService.HTTPClientService.Post` | master/buildbot/util/httpclientservice.py:173-174 | forwards with verb `"post"` and the endpoint and keywords unchanged |
| `HttpClientService.RequestAfterStop` | master/buildbot/util/httpclientservice.py:104-108 | stopping leaves the request method bound: after start and stop, a `get` without per-call headers is still dispatched to the joined URL, and on txrequests it goes to the session that stopping closed |
| `HttpClientService.FreshInstanceLifecycle` | master/buildbot/util/httpclientservice.py:87-108 | a new instance that is started and then stopped closes the session it got, or the pool it got; after a failed start, stopping fails on the missing `_pool` |

## Left out

- The transports (`txrequests.Session.request`, `treq.<verb>`, Twisted's `Agent` and `HTTPConnectionPool`) do network I/O. Each call is recorded as a `Call` with its arguments. The session, pool and agent keep only the state the service touches.
- Deferreds, `defer.succeed`, the `ResponseWrapper` content/json callbacks and the body read inside `readContent` (lines 123-145) are asynchronous and thread based. The model records only that `background_callback` is set to that callback.
- `urlparse.urljoin` (section 5.2 of RFC 3986) and `json.dumps` are library calls. They are uninterpreted functions given to the constructor, so no URL-resolution or JSON property is claimed.
- `SharedService` instance sharing and its registry are host-framework code and are not part of this model. So are `self.master.reactor` (passed to the pool and agent), logging, and `config.error` reporting; a configuration error is modelled as a message appended to a list.
- `headers.update` mutates the caller's own header dict. The model builds a new dict value, so that aliasing is not captured.
- Python's own `TypeError` for a keyword named `method` or `ep`, which clashes with a positional parameter, is not modelled.
- `HttpClientService.HTTPClientService.StartService` uses the fixed class name `HTTPClientService` in its ImportError. A subclass's `__class__.__name__` is not modelled.
- Python's `PREFER_TREQ` is a class attribute that start-up may shadow on the instance. The model keeps one field, `preferTreq`. It starts at the class default, and a client may assign it before start-up.
- `Dict` stands only for a Python `dict` with string keys. The source duck-types the per-call headers (`update` at line 116, `items()` at line 152). So a mapping that is not a dict, such as a case-insensitive header mapping, works there, but the model treats it as an `AttributeError`. The `AttributeError` clauses of `RequestShaping.Prepare`, `RequestShaping.TreqCall` and `RequestShaping.TreqDispatch` hold only for values that are not mappings at all.
- `isinstance(json, dict)` and `isinstance(data, dict)` (lines 154 and 158) accept dicts with keys of any type. The model cannot express a `json` or `data` dict with non-string keys.
- Header names are the string keys of a dict. Case-insensitive header matching belongs to the transports and is not modelled.
