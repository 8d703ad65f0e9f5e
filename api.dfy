/** The axios instance every page sends through: a request interceptor that attaches the
    persisted bearer token, and a response interceptor that ends the session on a 401. */
module Api {
  import opened Common
  import opened Browser

  /** The Authorization value the request interceptor derives from the stored record:
      present exactly when the record is truthy, parses, and carries a truthy token. */
  function BearerFromStorage(stored: Option<Stored>): (h: Option<string>)
    ensures h.Some? <==> stored.Some? && stored.value.Json? && Truthy(stored.value.record.token)
    ensures h.Some? ==> h.value == "Bearer " + stored.value.record.token.value
  {
    match stored
    case None => None
    case Some(v) =>
      if !StoredTruthy(v) then None
      else match v
        // JSON.parse throws; the interceptor catches it and sends the request unchanged
        case Unparsable(_) => None
        case Json(rec) => if Truthy(rec.token) then Some("Bearer " + rec.token.value) else None
  }

  /** The headers after the request interceptor: Authorization set from storage when there is
      a token, and every header left as it was otherwise. */
  function WithAuthorization(storage: map<string, Stored>, headers: map<string, string>): (h: map<string, string>)
    ensures forall k :: k != "Authorization" ==> (k in h <==> k in headers)
    ensures forall k :: k != "Authorization" && k in headers ==> h[k] == headers[k]
    ensures BearerFromStorage(GetItem(storage, AuthKey)).None? ==> h == headers
    ensures BearerFromStorage(GetItem(storage, AuthKey)).Some? ==>
      "Authorization" in h && h["Authorization"] == BearerFromStorage(GetItem(storage, AuthKey)).value
  {
    match BearerFromStorage(GetItem(storage, AuthKey))
    case None => headers
    case Some(b) => headers["Authorization" := b]
  }

  /** The config object the request interceptor mutates. */
  class RequestConfig {
    var headers: map<string, string>

    constructor (headers: map<string, string>)
      ensures this.headers == headers
    {
      this.headers := headers;
    }
  }

  /** The request interceptor: reads storage, writes `config.headers.Authorization`, returns the
      same config, and never throws. */
  method InterceptRequest(w: Window, config: RequestConfig) returns (sent: RequestConfig)
    modifies config`headers
    ensures sent == config
    ensures config.headers == WithAuthorization(w.storage, old(config.headers))
  {
    var stored := GetItem(w.storage, AuthKey);
    var bearer := BearerFromStorage(stored);
    if bearer.Some? {
      config.headers := config.headers["Authorization" := bearer.value];
    }
    sent := config;
  }

  predicate IsUnauthorized(e: HttpError)
  {
    e.response.Some? && e.response.value.status == 401
  }

  /** The browser state after the error interceptor has seen `e`: a 401 removes the session key
      and points the location at "/login"; any other error changes nothing. */
  function AfterRejection(s: BrowserState, e: HttpError): (t: BrowserState)
    ensures IsUnauthorized(e) ==> AuthKey !in t.storage && t.location == "/login"
    ensures IsUnauthorized(e) ==> forall k :: k != AuthKey ==> (k in t.storage <==> k in s.storage)
    ensures IsUnauthorized(e) ==> forall k :: k != AuthKey && k in s.storage ==> t.storage[k] == s.storage[k]
    ensures !IsUnauthorized(e) ==> t == s
  {
    if IsUnauthorized(e) then BrowserState(s.storage - {AuthKey}, "/login") else s
  }

  /** Any number of 401s leave the same state as the first one: redundant triggers from
      concurrent requests agree. */
  lemma RejectionIdempotent(s: BrowserState, e1: HttpError, e2: HttpError)
    requires IsUnauthorized(e1) && IsUnauthorized(e2)
    ensures AfterRejection(AfterRejection(s, e1), e2) == AfterRejection(s, e1)
  {
    var t := AfterRejection(s, e1);
    assert t.storage - {AuthKey} == t.storage;
  }

  /** The response interceptor pair: successes pass through, and every rejection is re-rejected
      with the same error object after the 401 side effects. */
  method InterceptResponse<T>(w: Window, raw: Outcome<T>) returns (seen: Outcome<T>)
    modifies w
    ensures seen == raw
    ensures raw.Success? ==> w.State() == old(w.State())
    ensures raw.Failure? ==> w.State() == AfterRejection(old(w.State()), raw.error)
  {
    if raw.Failure? && IsUnauthorized(raw.error) {
      w.storage := w.storage - {AuthKey};
      w.location := "/login";
    }
    seen := raw;
  }
}
