/**
 * The server-side proxy (includes/rest.php): a cache-aside lookup over
 * WordPress transients keyed by namespace and a hash of the URL, and the
 * events endpoint that checks the configuration, logs in and lists events.
 *
 * The clock, the hash and the upstream are inputs: `now` is the time in
 * seconds, `md5` is any function from URL to digest, and `upstream` says what
 * `wp_remote_get` would return for each URL.
 */
module RestProxy {
  import opened Text

  /** A value as `json_decode($body, true)` produces it. */
  datatype Json =
    | JNull
    | JBool(b: bool)
    | JNum(n: int)
    | JStr(s: string)
    | JArr(items: seq<Json>)
    | JObj(fields: map<string, Json>)

  /** What `wp_remote_get` returned: a transport failure, or a status code and the decoded body. */
  datatype Response = TransportFailure(message: string) | HttpResponse(code: int, body: Json)

  /** A `WP_Error`: its code, its message and the `status` of its data. */
  datatype WpError = WpError(code: string, message: Json, status: int)

  datatype Outcome = Ok(value: Json) | Err(error: WpError)

  /** A transient: its value and the second after which it has expired. */
  datatype Entry = Entry(value: Json, expires: int)

  /** Seconds a successful response stays cached. */
  const Ttl := 300

  /** `'neoncrm_' . $cache_key . '_' . md5( $url )`. */
  function CacheKey(ns: string, url: string, md5: string -> string): (key: string)
    ensures |key| == 9 + |ns| + |md5(url)|
    ensures key[..8] == "neoncrm_" && key[8..8 + |ns|] == ns && key[8 + |ns|] == '_'
    ensures key[9 + |ns|..] == md5(url)
  {
    "neoncrm_" + ns + "_" + md5(url)
  }

  /**
   * Two namespaces without underscores never share a key: equal keys mean the
   * same namespace and the same digest.
   */
  lemma CacheKeysSeparateNamespaces(ns1: string, url1: string, ns2: string, url2: string, md5: string -> string)
    requires '_' !in ns1 && '_' !in ns2
    requires CacheKey(ns1, url1, md5) == CacheKey(ns2, url2, md5)
    ensures ns1 == ns2 && md5(url1) == md5(url2)
  {
    var k := CacheKey(ns1, url1, md5);
    NamespaceEndsAtUnderscore(ns1, md5(url1));
    NamespaceEndsAtUnderscore(ns2, md5(url2));
    assert |ns1| == |ns2|;
    assert ns1 == k[8..8 + |ns1|] == ns2;
    assert md5(url1) == k[9 + |ns1|..] == md5(url2);
  }

  /** In a key, the first underscore after the prefix ends the namespace. */
  lemma NamespaceEndsAtUnderscore(ns: string, digest: string)
    requires '_' !in ns
    ensures var k := "neoncrm_" + ns + "_" + digest;
      && k[8 + |ns|] == '_'
      && forall i :: 8 <= i < 8 + |ns| ==> k[i] != '_'
  {
    var k := "neoncrm_" + ns + "_" + digest;
    forall i | 8 <= i < 8 + |ns| ensures k[i] != '_' {
      assert k[i] == ns[i - 8];
    }
  }

  /** `get_transient`: the stored value while it has not expired, otherwise `false`. */
  function GetTransient(store: map<string, Entry>, key: string, now: int): (v: Json)
    ensures key !in store || store[key].expires < now ==> v == JBool(false)
    ensures key in store && now <= store[key].expires ==> v == store[key].value
  {
    if key in store && now <= store[key].expires then store[key].value else JBool(false)
  }

  /** A hit is any transient other than `false`, which PHP cannot tell from a miss. */
  predicate Hit(store: map<string, Entry>, key: string, now: int)
  {
    GetTransient(store, key, now) != JBool(false)
  }

  /** The response of a remote call, classified: only 2xx succeeds. */
  function Classify(response: Response): (r: Outcome)
    ensures response.TransportFailure? ==> r == Err(WpError("http_error", JStr(response.message), 500))
    ensures response.HttpResponse? && 200 <= response.code < 300 ==> r == Ok(response.body)
    ensures response.HttpResponse? && !(200 <= response.code < 300) ==>
      r == Err(WpError("neon_error", response.body, response.code))
  {
    match response
    case TransportFailure(message) => Err(WpError("http_error", JStr(message), 500))
    case HttpResponse(code, body) =>
      if 200 <= code && code < 300 then Ok(body) else Err(WpError("neon_error", body, code))
  }

  /** One `get_from_cache` call: its result, the transients after it, and whether the upstream was called. */
  datatype Served = Served(outcome: Outcome, store: map<string, Entry>, fetched: bool)

  function Serve(store: map<string, Entry>, key: string, url: string, now: int, upstream: string -> Response): (served: Served)
    ensures served.fetched <==> !Hit(store, key, now)
    ensures !served.fetched ==> served.outcome == Ok(store[key].value) && served.store == store
    ensures served.fetched ==> served.outcome == Classify(upstream(url))
    ensures forall k :: k != key ==> (k in served.store <==> k in store) && (k in store ==> served.store[k] == store[k])
  {
    if Hit(store, key, now) then Served(Ok(GetTransient(store, key, now)), store, false)
    else
      var outcome := Classify(upstream(url));
      if outcome.Ok? then Served(outcome, store[key := Entry(outcome.value, now + Ttl)], true)
      else Served(outcome, store, true)
  }

  /** On a hit the stored value is returned and nothing is fetched or stored. */
  lemma HitIsServedFromCache(store: map<string, Entry>, key: string, url: string, now: int, upstream: string -> Response)
    requires key in store && now <= store[key].expires && store[key].value != JBool(false)
    ensures Serve(store, key, url, now, upstream) == Served(Ok(store[key].value), store, false)
  {
  }

  /** Only a 2xx response changes the transients, and then only under the request's key. */
  lemma OnlySuccessIsCached(store: map<string, Entry>, key: string, url: string, now: int, upstream: string -> Response)
    ensures var served := Serve(store, key, url, now, upstream);
      && (served.store != store ==>
            served.fetched && upstream(url).HttpResponse? && 200 <= upstream(url).code < 300
            && served.store == store[key := Entry(upstream(url).body, now + Ttl)])
      && (served.outcome.Err? ==> served.store == store)
  {
  }

  /**
   * After a successful call, the same call within the TTL returns the same
   * value without calling the upstream, whatever the upstream would say now.
   */
  lemma RepeatWithinTtlIsCached(store: map<string, Entry>, key: string, url: string, now: int, later: int,
                                upstream: string -> Response, upstreamLater: string -> Response)
    requires now <= later <= now + Ttl
    requires Serve(store, key, url, now, upstream).fetched
    requires Serve(store, key, url, now, upstream).outcome.Ok?
    requires Serve(store, key, url, now, upstream).outcome.value != JBool(false)
    ensures var first := Serve(store, key, url, now, upstream);
      var second := Serve(first.store, key, url, later, upstreamLater);
      second == Served(first.outcome, first.store, false)
  {
  }

  /** A failed call leaves nothing behind: the next call asks the upstream again. */
  lemma FailureIsRetried(store: map<string, Entry>, key: string, url: string, now: int, later: int,
                         upstream: string -> Response, upstreamLater: string -> Response)
    requires Serve(store, key, url, now, upstream).outcome.Err?
    requires later >= now
    ensures var first := Serve(store, key, url, now, upstream);
      first.fetched && Serve(first.store, key, url, later, upstreamLater).fetched
  {
    var first := Serve(store, key, url, now, upstream);
    assert first.store == store;
    assert !Hit(store, key, now);
    if key in store {
      assert store[key].expires < now || store[key].value == JBool(false);
    }
  }

  /** A 2xx body that decodes to `false` is stored but reads as a miss, so it is fetched every time. */
  lemma CachedFalseIsFetchedAgain(store: map<string, Entry>, key: string, url: string, now: int,
                                  upstream: string -> Response)
    requires !Hit(store, key, now)
    requires upstream(url) == HttpResponse(200, JBool(false))
    ensures var first := Serve(store, key, url, now, upstream);
      && first.fetched && first.store[key] == Entry(JBool(false), now + Ttl)
      && Serve(first.store, key, url, now, upstream).fetched
  {
  }

  // ---------------------------------------------------------------------------
  // The events endpoint

  const LoginBase := "https://api.neoncrm.com/neonws/services/api/common/login?login.apiKey="

  /** The login URL: the API key right after the base, the org id at the very end. */
  function LoginUrl(apiKey: string, orgId: string): (url: string)
    ensures LoginBase + apiKey <= url
    ensures |url| >= |orgId| && url[|url| - |orgId|..] == orgId
  {
    var head := LoginBase + apiKey + "&login.orgid=";
    assert (head + orgId)[|head|..] == orgId;
    head + orgId
  }

  const EventsBase := "https://api.neoncrm.com/neonws/services/api/event/listEvents?responseType=json&userSessionId="
  const EventsFields := "&outputfields.idnamepair.name=Event%20Category%20Name&outputfields.idnamepair.name=Event%20ID&outputfields.idnamepair.name=Event%20Name&outputfields.idnamepair.name=Total%20Revenue&outputfields.idnamepair.name=Campaign%20ID&outputfields.idnamepair.name=Campaign%20Name&outputfields.idnamepair.name=Event%20Start%20Date&outputfields.idnamepair.name=Event%20Start%20Time&outputfields.idnamepair.name=Event%20End%20Date&outputfields.idnamepair.name=Event%20End%20Time"
  const EventsSearchStart := "&searches.search.key=Event%20Start%20Date&searches.search.searchOperator=GREATER_THAN&searches.search.value="
  const EventsSearchEnd := "&searches.search.key=Event%20End%20Date&searches.search.searchOperator=LESS_THAN&searches.search.value="
  const EventsPageSize := "&page.pageSize=200"

  /** The listing URL; `startDate` and `endDate` are the clock's "-1 month" and "+3 month" dates. */
  function EventsUrl(sessionId: string, startDate: string, endDate: string): (url: string)
    ensures EventsBase + sessionId + EventsFields + EventsSearchStart + startDate <= url
    ensures var tail := EventsSearchEnd + endDate + EventsPageSize;
      |url| >= |tail| && url[|url| - |tail|..] == tail
  {
    var head := EventsBase + sessionId + EventsFields + EventsSearchStart + startDate;
    var tail := EventsSearchEnd + endDate + EventsPageSize;
    assert (head + tail)[|head|..] == tail;
    assert head + EventsSearchEnd + endDate + EventsPageSize == head + tail;
    head + tail
  }

  /** The login answer holds `id` as the string at `loginResponse.userSessionId`. */
  predicate CarriesSessionId(login: Json, id: string)
  {
    login.JObj? && "loginResponse" in login.fields && login.fields["loginResponse"].JObj?
    && "userSessionId" in login.fields["loginResponse"].fields
    && login.fields["loginResponse"].fields["userSessionId"] == JStr(id)
  }

  /** `$login["loginResponse"]["userSessionId"]`; a missing or non-string id reads as "". */
  function SessionId(login: Json): (id: string)
    ensures CarriesSessionId(login, id) || (id == "" && forall other :: !CarriesSessionId(login, other))
  {
    if login.JObj? && "loginResponse" in login.fields && login.fields["loginResponse"].JObj?
       && "userSessionId" in login.fields["loginResponse"].fields
       && login.fields["loginResponse"].fields["userSessionId"].JStr?
    then login.fields["loginResponse"].fields["userSessionId"].s
    else ""
  }

  /** A stored option, or "" when unset. */
  function Setting(opts: map<string, string>, name: string): string
  {
    if name in opts then opts[name] else ""
  }

  /** One events request: its result, the transients after it, and the URLs fetched, in order. */
  datatype Handled = Handled(outcome: Outcome, store: map<string, Entry>, fetches: seq<string>)

  function FetchedUrls(served: Served, url: string): seq<string>
  {
    if served.fetched then [url] else []
  }

  /** `neoncrm_calendar_rest_get_events` as a function of the options, the transients, the clock and the upstream. */
  function HandleEvents(opts: map<string, string>, store: map<string, Entry>, now: int,
                        startDate: string, endDate: string, md5: string -> string,
                        upstream: string -> Response): (h: Handled)
    ensures |h.fetches| <= 2
    ensures h.outcome.Err? ==> h.outcome.error.code in ["no_api_key", "no_org_id", "http_error", "neon_error"]
    ensures h.fetches != [] || h.outcome.Ok? ==>
      !PhpEmpty(Setting(opts, "neoncrm_api_key")) && !PhpEmpty(Setting(opts, "neoncrm_org_id"))
  {
    var apiKey := Setting(opts, "neoncrm_api_key");
    var orgId := Setting(opts, "neoncrm_org_id");
    if PhpEmpty(apiKey) then Handled(Err(WpError("no_api_key", JStr("API key not configured"), 500)), store, [])
    else if PhpEmpty(orgId) then Handled(Err(WpError("no_org_id", JStr("Org ID not configured"), 500)), store, [])
    else
      var loginUrl := LoginUrl(apiKey, orgId);
      var login := Serve(store, CacheKey("login", loginUrl, md5), loginUrl, now, upstream);
      if login.outcome.Err? then Handled(login.outcome, login.store, FetchedUrls(login, loginUrl))
      else
        var eventsUrl := EventsUrl(SessionId(login.outcome.value), startDate, endDate);
        var events := Serve(login.store, CacheKey("events", eventsUrl, md5), eventsUrl, now, upstream);
        Handled(events.outcome, events.store, FetchedUrls(login, loginUrl) + FetchedUrls(events, eventsUrl))
  }

  /** A missing API key is reported first, then a missing org id; neither touches the upstream or the cache. */
  lemma ConfigurationCheckedFirst(opts: map<string, string>, store: map<string, Entry>, now: int,
                                  startDate: string, endDate: string, md5: string -> string, upstream: string -> Response)
    ensures var h := HandleEvents(opts, store, now, startDate, endDate, md5, upstream);
      && (PhpEmpty(Setting(opts, "neoncrm_api_key")) ==>
            h == Handled(Err(WpError("no_api_key", JStr("API key not configured"), 500)), store, []))
      && (!PhpEmpty(Setting(opts, "neoncrm_api_key")) && PhpEmpty(Setting(opts, "neoncrm_org_id")) ==>
            h == Handled(Err(WpError("no_org_id", JStr("Org ID not configured"), 500)), store, []))
      && (h.fetches != [] ==> !PhpEmpty(Setting(opts, "neoncrm_api_key")) && !PhpEmpty(Setting(opts, "neoncrm_org_id")))
  {
  }

  /** A failed login, of either kind, is returned as it is, and the events listing is never requested. */
  lemma LoginErrorStopsRequest(opts: map<string, string>, store: map<string, Entry>, now: int,
                               startDate: string, endDate: string, md5: string -> string, upstream: string -> Response)
    requires !PhpEmpty(Setting(opts, "neoncrm_api_key")) && !PhpEmpty(Setting(opts, "neoncrm_org_id"))
    requires var loginUrl := LoginUrl(Setting(opts, "neoncrm_api_key"), Setting(opts, "neoncrm_org_id"));
      Serve(store, CacheKey("login", loginUrl, md5), loginUrl, now, upstream).outcome.Err?
    ensures var h := HandleEvents(opts, store, now, startDate, endDate, md5, upstream);
      var loginUrl := LoginUrl(Setting(opts, "neoncrm_api_key"), Setting(opts, "neoncrm_org_id"));
      && h.outcome == Serve(store, CacheKey("login", loginUrl, md5), loginUrl, now, upstream).outcome
      && h.outcome == Classify(upstream(loginUrl))
      && h.fetches == [loginUrl]
      && h.store == store
  {
  }

  /**
   * After a successful login, the response is the events lookup's outcome,
   * success or error, unchanged, and the transients are those it leaves.
   */
  lemma EventsOutcomePassesThrough(opts: map<string, string>, store: map<string, Entry>, now: int,
                                   startDate: string, endDate: string, md5: string -> string, upstream: string -> Response)
    requires !PhpEmpty(Setting(opts, "neoncrm_api_key")) && !PhpEmpty(Setting(opts, "neoncrm_org_id"))
    requires var loginUrl := LoginUrl(Setting(opts, "neoncrm_api_key"), Setting(opts, "neoncrm_org_id"));
      Serve(store, CacheKey("login", loginUrl, md5), loginUrl, now, upstream).outcome.Ok?
    ensures var h := HandleEvents(opts, store, now, startDate, endDate, md5, upstream);
      var loginUrl := LoginUrl(Setting(opts, "neoncrm_api_key"), Setting(opts, "neoncrm_org_id"));
      var login := Serve(store, CacheKey("login", loginUrl, md5), loginUrl, now, upstream);
      var eventsUrl := EventsUrl(SessionId(login.outcome.value), startDate, endDate);
      var events := Serve(login.store, CacheKey("events", eventsUrl, md5), eventsUrl, now, upstream);
      && h.outcome == events.outcome
      && h.store == events.store
      && (events.fetched ==> h.fetches[|h.fetches| - 1] == eventsUrl)
  {
  }

  /**
   * Whatever happens, at most the login URL and then one listing URL are
   * fetched, and every error is a transport `http_error` or a `neon_error`
   * status. That the error itself passes through unchanged is
   * `LoginErrorStopsRequest` and `EventsOutcomePassesThrough`.
   */
  lemma ErrorsPassThrough(opts: map<string, string>, store: map<string, Entry>, now: int,
                          startDate: string, endDate: string, md5: string -> string, upstream: string -> Response)
    requires !PhpEmpty(Setting(opts, "neoncrm_api_key")) && !PhpEmpty(Setting(opts, "neoncrm_org_id"))
    ensures var h := HandleEvents(opts, store, now, startDate, endDate, md5, upstream);
      var loginUrl := LoginUrl(Setting(opts, "neoncrm_api_key"), Setting(opts, "neoncrm_org_id"));
      && |h.fetches| <= 2
      && (|h.fetches| == 2 ==> h.fetches[0] == loginUrl)
      && (h.outcome.Err? && h.outcome.error.code != "http_error" ==> h.outcome.error.code == "neon_error")
  {
  }

  /** The WordPress transients as the proxy sees them. */
  class Proxy {
    const md5: string -> string
    var transients: map<string, Entry>

    constructor (md5: string -> string, transients: map<string, Entry>)
      ensures this.md5 == md5 && this.transients == transients
    {
      this.md5 := md5;
      this.transients := transients;
    }

    /** `get_from_cache`: serve a live transient, or fetch, classify, and store a success for `Ttl` seconds. */
    method GetFromCache(ns: string, url: string, now: int, upstream: string -> Response)
      returns (outcome: Outcome, fetched: bool)
      modifies this
      ensures Served(outcome, transients, fetched) == Serve(old(transients), CacheKey(ns, url, md5), url, now, upstream)
    {
      var key := CacheKey(ns, url, md5);
      var cached := GetTransient(transients, key, now);
      if cached != JBool(false) {
        return Ok(cached), false;
      }
      var response := upstream(url);
      fetched := true;
      match response {
        case TransportFailure(message) =>
          return Err(WpError("http_error", JStr(message), 500)), true;
        case HttpResponse(code, body) =>
          if 200 <= code && code < 300 {
            transients := transients[key := Entry(body, now + Ttl)];
            return Ok(body), true;
          }
          return Err(WpError("neon_error", body, code)), true;
      }
    }

    /** `neoncrm_calendar_rest_get_events`: configuration checks, then login, then the listing, each through the cache. */
    method GetEvents(opts: map<string, string>, now: int, startDate: string, endDate: string,
                     upstream: string -> Response)
      returns (outcome: Outcome, fetches: seq<string>)
      modifies this
      ensures Handled(outcome, transients, fetches)
           == HandleEvents(opts, old(transients), now, startDate, endDate, md5, upstream)
    {
      var apiKey := Setting(opts, "neoncrm_api_key");
      var orgId := Setting(opts, "neoncrm_org_id");
      if PhpEmpty(apiKey) {
        return Err(WpError("no_api_key", JStr("API key not configured"), 500)), [];
      }
      if PhpEmpty(orgId) {
        return Err(WpError("no_org_id", JStr("Org ID not configured"), 500)), [];
      }
      var loginUrl := LoginUrl(apiKey, orgId);
      var login, loginFetched := GetFromCache("login", loginUrl, now, upstream);
      fetches := if loginFetched then [loginUrl] else [];
      if login.Err? {
        return login, fetches;
      }
      var eventsUrl := EventsUrl(SessionId(login.value), startDate, endDate);
      var events, eventsFetched := GetFromCache("events", eventsUrl, now, upstream);
      fetches := fetches + if eventsFetched then [eventsUrl] else [];
      outcome := events;
    }
  }
}
