/**
 * What a request looks like when it leaves the service: the normalisation
 * shared by both backends (`_prepareRequest`) and the shaping each backend
 * applies before handing the call to its transport library. These functions
 * specify the step-by-step methods of the service class.
 */
module RequestShaping {
  import opened PyValues

  /** The instance configuration fixed at construction: base URL, credential (NoneValue for None), default headers. */
  datatype ClientConfig = ClientConfig(baseUrl: string, auth: Value, headers: Option<map<string, Value>>)

  /** The result of `_prepareRequest`: the joined URL and the rewritten keyword arguments. */
  datatype Prepared = Prepared(url: string, kwargs: Kwargs)

  /** A transport call the service issues, recorded with its arguments. */
  datatype Call =
    | SessionRequest(session: object, verb: string, url: string, kwargs: Kwargs) // txrequests `session.request(verb, url, **kwargs)`
    | TreqRequest(verb: string, url: string, kwargs: Kwargs)                     // treq `<verb>(url, **kwargs)`

  /** The callback that makes txrequests read the whole body in its worker thread. */
  const READ_CONTENT: Value := Opaque("readContent")

  /** The header value treq sends for a JSON body. */
  const JSON_CONTENT_TYPE: Value := List([Str("application/json")])

  /** The per-call headers `_prepareRequest` starts from: `kwargs.get('headers', {})`. */
  function CallHeaders(kwargs: Kwargs): Value
  {
    GetOr(kwargs, "headers", Dict(map[]))
  }

  /**
   * `_prepareRequest(ep, kwargs)`: join the endpoint to the base URL, inject
   * the instance credential when the caller gave no `auth` keyword, and
   * `update` the per-call headers with the instance headers, so that on a
   * shared name the instance value wins. Python raises AttributeError when
   * the per-call headers are not a dict and there are instance headers to
   * merge into them.
   */
  function Prepare(config: ClientConfig, ep: string, kwargs: Kwargs,
                   urljoin: (string, string) -> string): (r: Result<Prepared, Error>)
    ensures r.Failure? <==> config.headers.Some? && !CallHeaders(kwargs).Dict?
    ensures r.Failure? ==> r.error == AttributeError("update")
    ensures r.Success? ==> r.value.url == urljoin(config.baseUrl, ep)
    // the credential
    ensures r.Success? && "auth" in kwargs ==>
      "auth" in r.value.kwargs && r.value.kwargs["auth"] == kwargs["auth"]
    ensures r.Success? && "auth" !in kwargs ==>
      ("auth" in r.value.kwargs <==> config.auth != NoneValue)
    ensures r.Success? && "auth" !in kwargs && config.auth != NoneValue ==>
      r.value.kwargs["auth"] == config.auth
    // the headers
    ensures r.Success? ==> "headers" in r.value.kwargs
    ensures r.Success? && config.headers.None? ==>
      r.value.kwargs["headers"] == CallHeaders(kwargs)
    ensures r.Success? && config.headers.Some? ==>
      var merged := r.value.kwargs["headers"];
      var defaults := config.headers.value;
      && merged.Dict?
      && merged.entries.Keys == CallHeaders(kwargs).entries.Keys + defaults.Keys
      && (forall name :: name in defaults ==> merged.entries[name] == defaults[name])
      && (forall name :: name in CallHeaders(kwargs).entries && name !in defaults ==>
            merged.entries[name] == CallHeaders(kwargs).entries[name])
    // everything else
    ensures r.Success? ==>
      r.value.kwargs.Keys == kwargs.Keys + {"headers"} + (if config.auth != NoneValue then {"auth"} else {})
    ensures r.Success? ==>
      forall key :: key in kwargs && key != "auth" && key != "headers" ==> r.value.kwargs[key] == kwargs[key]
  {
    var url := urljoin(config.baseUrl, ep);
    var withAuth := if config.auth != NoneValue && "auth" !in kwargs then kwargs["auth" := config.auth] else kwargs;
    var headers := CallHeaders(kwargs);
    if config.headers.None? then
      Success(Prepared(url, withAuth["headers" := headers]))
    else if !headers.Dict? then
      Failure(AttributeError("update"))
    else
      Success(Prepared(url, withAuth["headers" := Dict(headers.entries + config.headers.value)]))
  }

  /** Normalising an already normalised request changes nothing but the URL. */
  lemma PrepareIdempotent(config: ClientConfig, ep: string, ep': string, kwargs: Kwargs,
                          urljoin: (string, string) -> string)
    requires Prepare(config, ep, kwargs, urljoin).Success?
    ensures var once := Prepare(config, ep, kwargs, urljoin).value.kwargs;
      Prepare(config, ep', once, urljoin) == Success(Prepared(urljoin(config.baseUrl, ep'), once))
  {
    var once := Prepare(config, ep, kwargs, urljoin).value.kwargs;
    assert "headers" in once;
    if config.headers.Some? {
      var merged := once["headers"].entries;
      assert merged + config.headers.value == merged;
    }
    assert once["headers" := CallHeaders(once)] == once;
  }

  /** treq wants every header value as a list: `{k: [v] for k, v in headers.items()}`. */
  function WrapHeaders(headers: map<string, Value>): (wrapped: map<string, Value>)
    ensures wrapped.Keys == headers.Keys
    ensures forall name :: name in wrapped ==> wrapped[name].List? && |wrapped[name].items| == 1
  {
    map name | name in headers :: List([headers[name]])
  }

  /** The header dict a treq header dict stands for: each one-element list replaced by its element. */
  function UnwrapHeaders(wrapped: map<string, Value>): map<string, Value>
  {
    map name | name in wrapped ::
      if wrapped[name].List? && |wrapped[name].items| == 1 then wrapped[name].items[0] else wrapped[name]
  }

  /** Wrapping loses nothing: unwrapping gives back the original headers. */
  lemma UnwrapWrapHeaders(headers: map<string, Value>)
    ensures UnwrapHeaders(WrapHeaders(headers)) == headers
  {
    var wrapped := WrapHeaders(headers);
    forall name | name in headers
      ensures UnwrapHeaders(wrapped)[name] == headers[name]
    {
      assert wrapped[name] == List([headers[name]]);
    }
  }

  /**
   * The treq call `_doTReq` issues once the request is prepared: headers
   * wrapped, the service's agent attached, and the body chosen by payload.
   * A dict `json` wins and is sent serialised with a JSON Content-Type;
   * otherwise a dict `data` is sent as is; otherwise no `data` keyword is
   * passed at all. Python raises AttributeError when the prepared headers
   * are not a dict.
   */
  function TreqCall(verb: string, url: string, kwargs: Kwargs, data: Value, json: Value,
                    agent: object, dumps: Value -> string): (r: Result<Call, Error>)
    requires "headers" in kwargs && "data" !in kwargs
    ensures r.Failure? <==> !kwargs["headers"].Dict?
    ensures r.Failure? ==> r.error == AttributeError("items")
    ensures r.Success? ==> r.value.TreqRequest? && r.value.verb == verb && r.value.url == url
    // the headers
    ensures r.Success? ==>
      var sent := r.value.kwargs;
      var given := kwargs["headers"].entries;
      && "headers" in sent && sent["headers"].Dict?
      && sent["headers"].entries.Keys == given.Keys + (if json.Dict? then {"Content-Type"} else {})
      && (forall name :: name in given && !(json.Dict? && name == "Content-Type") ==>
            sent["headers"].entries[name] == List([given[name]]))
      && (json.Dict? ==> sent["headers"].entries["Content-Type"] == JSON_CONTENT_TYPE)
    // the agent and the body
    ensures r.Success? ==> "agent" in r.value.kwargs && r.value.kwargs["agent"] == Ref(agent)
    ensures r.Success? && json.Dict? ==>
      "data" in r.value.kwargs && r.value.kwargs["data"] == Str(dumps(json))
    ensures r.Success? && !json.Dict? && data.Dict? ==>
      "data" in r.value.kwargs && r.value.kwargs["data"] == data
    ensures r.Success? && !json.Dict? && !data.Dict? ==> "data" !in r.value.kwargs
    // everything else
    ensures r.Success? ==>
      r.value.kwargs.Keys == kwargs.Keys + {"agent"} + (if json.Dict? || data.Dict? then {"data"} else {})
    ensures r.Success? ==>
      forall key :: key in kwargs && key != "headers" && key != "agent" ==> r.value.kwargs[key] == kwargs[key]
  {
    if !kwargs["headers"].Dict? then
      Failure(AttributeError("items"))
    else
      var wrapped := WrapHeaders(kwargs["headers"].entries);
      var withAgent := kwargs["headers" := Dict(wrapped)]["agent" := Ref(agent)];
      if json.Dict? then
        var headers := wrapped["Content-Type" := JSON_CONTENT_TYPE];
        Success(TreqRequest(verb, url, withAgent["headers" := Dict(headers)]["data" := Str(dumps(json))]))
      else if data.Dict? then
        Success(TreqRequest(verb, url, withAgent["data" := data]))
      else
        Success(TreqRequest(verb, url, withAgent))
  }

  /**
   * The headers treq receives stand for the prepared headers, with the JSON
   * Content-Type replacing any given one when a JSON body is sent.
   */
  lemma TreqHeadersRoundTrip(verb: string, url: string, kwargs: Kwargs, data: Value, json: Value,
                             agent: object, dumps: Value -> string)
    requires "headers" in kwargs && "data" !in kwargs
    requires TreqCall(verb, url, kwargs, data, json, agent, dumps).Success?
    ensures var sent := TreqCall(verb, url, kwargs, data, json, agent, dumps).value.kwargs["headers"].entries;
      var given := kwargs["headers"].entries;
      UnwrapHeaders(sent) == if json.Dict? then given["Content-Type" := Str("application/json")] else given
  {
    var given := kwargs["headers"].entries;
    var sent := TreqCall(verb, url, kwargs, data, json, agent, dumps).value.kwargs["headers"].entries;
    UnwrapWrapHeaders(given);
    if json.Dict? {
      assert sent == WrapHeaders(given)["Content-Type" := JSON_CONTENT_TYPE];
      UnwrapAfterSet(WrapHeaders(given), "Content-Type", Str("application/json"));
    } else {
      assert sent == WrapHeaders(given);
    }
  }

  /** Setting one header to a one-element list and then unwrapping sets it to the element. */
  lemma UnwrapAfterSet(wrapped: map<string, Value>, name: string, v: Value)
    ensures UnwrapHeaders(wrapped[name := List([v])]) == UnwrapHeaders(wrapped)[name := v]
  {
  }

  /** A successful treq call, described against the prepared keywords it was built from. */
  lemma TreqCallShape(verb: string, url: string, kwargs: Kwargs, data: Value, json: Value,
                      agent: object, dumps: Value -> string)
    requires "headers" in kwargs && "data" !in kwargs && "json" !in kwargs
    requires TreqCall(verb, url, kwargs, data, json, agent, dumps).Success?
    ensures var sent := TreqCall(verb, url, kwargs, data, json, agent, dumps).value.kwargs;
      var given := kwargs["headers"].entries;
      && "json" !in sent
      && "headers" in sent && sent["headers"].Dict?
      && (forall name :: name in sent["headers"].entries ==>
            sent["headers"].entries[name].List? && |sent["headers"].entries[name].items| == 1)
      && UnwrapHeaders(sent["headers"].entries)
           == (if json.Dict? then given["Content-Type" := Str("application/json")] else given)
  {
    TreqHeadersRoundTrip(verb, url, kwargs, data, json, agent, dumps);
  }

  /**
   * `_doTReq(verb, ep, data=None, json=None, **kwargs)`: take `data` and
   * `json` out of the keywords, prepare the rest, and shape the treq call.
   */
  function TreqDispatch(config: ClientConfig, agent: object, verb: string, ep: string, kwargs: Kwargs,
                        urljoin: (string, string) -> string, dumps: Value -> string): (r: Result<Call, Error>)
    ensures var prepared := Prepare(config, ep, kwargs - {"data", "json"}, urljoin);
      r.Failure? <==> prepared.Failure? || !prepared.value.kwargs["headers"].Dict?
    ensures r.Success? ==>
      r.value.TreqRequest? && r.value.verb == verb && r.value.url == urljoin(config.baseUrl, ep)
    ensures r.Success? ==> "json" !in r.value.kwargs
    ensures r.Success? ==> "agent" in r.value.kwargs && r.value.kwargs["agent"] == Ref(agent)
    // the body
    ensures r.Success? && GetOr(kwargs, "json", NoneValue).Dict? ==>
      && "data" in r.value.kwargs && r.value.kwargs["data"] == Str(dumps(kwargs["json"]))
      && "headers" in r.value.kwargs && r.value.kwargs["headers"].Dict?
      && "Content-Type" in r.value.kwargs["headers"].entries
      && r.value.kwargs["headers"].entries["Content-Type"] == JSON_CONTENT_TYPE
    ensures r.Success? && !GetOr(kwargs, "json", NoneValue).Dict? && GetOr(kwargs, "data", NoneValue).Dict? ==>
      "data" in r.value.kwargs && r.value.kwargs["data"] == kwargs["data"]
    ensures r.Success? && !GetOr(kwargs, "json", NoneValue).Dict? && !GetOr(kwargs, "data", NoneValue).Dict? ==>
      "data" !in r.value.kwargs
    // the headers and the other keywords, against the prepared request
    ensures r.Success? ==>
      var prepared := Prepare(config, ep, kwargs - {"data", "json"}, urljoin).value.kwargs;
      var given := prepared["headers"].entries;
      var jsonBody := GetOr(kwargs, "json", NoneValue).Dict?;
      && "headers" in r.value.kwargs && r.value.kwargs["headers"].Dict?
      && (forall name :: name in r.value.kwargs["headers"].entries ==>
            r.value.kwargs["headers"].entries[name].List? && |r.value.kwargs["headers"].entries[name].items| == 1)
      && UnwrapHeaders(r.value.kwargs["headers"].entries)
           == (if jsonBody then given["Content-Type" := Str("application/json")] else given)
      && r.value.kwargs.Keys
           == prepared.Keys + {"agent"} + (if jsonBody || GetOr(kwargs, "data", NoneValue).Dict? then {"data"} else {})
      && (forall key :: key in prepared && key != "headers" && key != "agent" ==> r.value.kwargs[key] == prepared[key])
  {
    var data := GetOr(kwargs, "data", NoneValue);
    var json := GetOr(kwargs, "json", NoneValue);
    match Prepare(config, ep, kwargs - {"data", "json"}, urljoin)
    case Failure(e) => Failure(e)
    case Success(prepared) =>
      assert "data" !in prepared.kwargs && "json" !in prepared.kwargs;
      var call := TreqCall(verb, prepared.url, prepared.kwargs, data, json, agent, dumps);
      if call.Success? then
        TreqCallShape(verb, prepared.url, prepared.kwargs, data, json, agent, dumps);
        call
      else
        call
  }

  /**
   * `_doTxRequest(verb, ep, **kwargs)`: prepare, ask txrequests to read the
   * body in its worker thread, and hand everything else, `data` and `json`
   * included, to `session.request`.
   */
  function TxDispatch(config: ClientConfig, session: object, verb: string, ep: string, kwargs: Kwargs,
                      urljoin: (string, string) -> string): (r: Result<Call, Error>)
    ensures r.Failure? <==> Prepare(config, ep, kwargs, urljoin).Failure?
    ensures r.Success? ==>
      && r.value.SessionRequest? && r.value.session == session
      && r.value.verb == verb && r.value.url == urljoin(config.baseUrl, ep)
      && r.value.kwargs == Prepare(config, ep, kwargs, urljoin).value.kwargs["background_callback" := READ_CONTENT]
  {
    match Prepare(config, ep, kwargs, urljoin)
    case Failure(e) => Failure(e)
    case Success(prepared) =>
      Success(SessionRequest(session, verb, prepared.url, prepared.kwargs["background_callback" := READ_CONTENT]))
  }

  /** Two calls that differ only in the method name are shaped alike: the verb is the only thing it fixes. */
  lemma DispatchVerbIndependent(config: ClientConfig, session: object, agent: object,
                                verb: string, verb': string, ep: string, kwargs: Kwargs,
                                urljoin: (string, string) -> string, dumps: Value -> string)
    ensures var a := TxDispatch(config, session, verb, ep, kwargs, urljoin);
      var b := TxDispatch(config, session, verb', ep, kwargs, urljoin);
      a.Success? == b.Success? && (a.Success? ==> b.value == a.value.(verb := verb'))
    ensures var a := TreqDispatch(config, agent, verb, ep, kwargs, urljoin, dumps);
      var b := TreqDispatch(config, agent, verb', ep, kwargs, urljoin, dumps);
      a.Success? == b.Success? && (a.Success? ==> b.value == a.value.(verb := verb'))
  {
  }
}
