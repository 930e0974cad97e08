/**
 * GetPublicGistsService: validate the request, answer from the module-level
 * cache gist_cache when it holds a non-empty list for the request's key, and
 * otherwise fetch from upstream, store, and shape.
 *
 * The upstream call (GithubAPIClient.get_user_gists) is not modelled as code:
 * its outcome is a parameter, consulted only when the call is made, and every
 * reply records which call, if any, was made.
 */
module WebApiHelper {
  import opened Wrappers
  import opened PathText
  import opened RequestPath
  import opened GistsBuilder

  const HttpOk := 200
  const BadRequest := 400
  const HttpNotFound := 404
  const ServerError := 500

  const Usage := "Usage - 127.0.0.1:8080/USERNAME[?page=NUMBER]"
  /** The username browsers probe for; answered with 200 and no body. */
  const Favicon := "favicon.ico"
  const UserNotFound := "User not found."
  const InvalidJsonMessage := "Invalid JSON response"
  const HttpErrorPrefix := "HTTP error: "

  /** How the one upstream request of a cache miss ends. */
  datatype FetchOutcome =
      /** A 2xx response whose body decoded to a list of gist records. */
    | Fetched(gists: seq<RawGist>)
      /** raise_for_status failed; status is None when the error carries no response, detail is str(error). */
    | HttpError(status: Option<int>, detail: string)
      /** Any ValueError from the upstream call, such as a body that does not decode. */
    | InvalidJson
      /** Any other requests exception (connection, DNS, timeout); detail is str(error). */
    | NetworkError(detail: string)

  /** The upstream request get_user_gists(username, page). */
  datatype UpstreamCall = UpstreamCall(username: string, page: nat)

  /** The contents of gist_cache: raw upstream lists by cache key. */
  type Cache = map<string, seq<RawGist>>

  /** What handling one request gives: status, body (None: no body), the cache after, and the upstream call made. */
  datatype Reply = Reply(status: int, body: Option<Payload>, cache: Cache, call: Option<UpstreamCall>)

  /** The cached list counts as a hit only when it is truthy, i.e. non-empty. */
  function IsHit(cache: Cache, key: string): bool {
    key in cache && cache[key] != []
  }

  /** _fetch_and_cache_gists: one upstream call; only success touches the cache. */
  function FetchAndCache(username: string, page: nat, key: string, cache: Cache, outcome: FetchOutcome): (r: Reply)
    ensures r.call == Some(UpstreamCall(username, page))
    ensures r.status == HttpOk <==> outcome.Fetched?
    ensures outcome.Fetched? ==> r.cache == cache[key := outcome.gists]
    ensures !outcome.Fetched? ==> r.cache == cache && r.body.Some? && r.body.value.Error?
  {
    var call := Some(UpstreamCall(username, page));
    match outcome
    case Fetched(gists) =>
      Reply(HttpOk, Some(Gists(Shape(username, gists, page))), cache[key := gists], call)
    case HttpError(status, detail) =>
      if status == Some(HttpNotFound) then Reply(HttpNotFound, Some(Error(UserNotFound)), cache, call)
      else Reply(ServerError, Some(Error(HttpErrorPrefix + detail)), cache, call)
    case InvalidJson =>
      Reply(ServerError, Some(Error(InvalidJsonMessage)), cache, call)
    case NetworkError(detail) =>
      Reply(ServerError, Some(Error(detail)), cache, call)
  }

  /** handle_request: favicon, then bad request, then cache hit, then fetch. */
  function Handle(username: Option<string>, page: Option<nat>, key: string, cache: Cache, outcome: FetchOutcome): (r: Reply)
    ensures r.status in {HttpOk, BadRequest, HttpNotFound, ServerError}
    ensures cache.Keys <= r.cache.Keys
    ensures r.status != HttpOk ==> r.cache == cache
    ensures r.call.Some? <==> username.Some? && username != Some(Favicon) && page.Some? && !IsHit(cache, key)
    ensures r.call.Some? ==> r.call.value == UpstreamCall(username.value, page.value)
    ensures r.body.None? <==> username == Some(Favicon)
  {
    if username == Some(Favicon) then Reply(HttpOk, None, cache, None)
    else if username.None? || page.None? then Reply(BadRequest, Some(Error(Usage)), cache, None)
    else if IsHit(cache, key) then Reply(HttpOk, Some(Gists(Shape(username.value, cache[key], page.value))), cache, None)
    else FetchAndCache(username.value, page.value, key, cache, outcome)
  }

  /** A whole request: build the service for the path (parse, key), then handle it. */
  function Serve(path: string, query: seq<QueryPair>, cache: Cache, outcome: FetchOutcome): (r: Reply)
    ensures r.body.None? <==> Strip(path, Slash) == Favicon
    ensures r.call.Some? ==>
      && r.call.value.username == Strip(path, Slash)
      && r.call.value.username != [] && Slash !in r.call.value.username
      && r.call.value.page >= DefaultPage
  {
    var parsed := ParseRequestPath(path, query);
    ParseUsername(path, query);
    assert Slash !in Favicon && Favicon != [];
    assert parsed.username == Some(Favicon) <==> Strip(path, Slash) == Favicon;
    Handle(parsed.username, parsed.page, CacheKey(parsed.username, parsed.page), cache, outcome)
  }

  /** "favicon.ico" is answered with 200 and no body before any validation, cache access or fetch. */
  lemma FaviconShortCircuits(page: Option<nat>, key: string, cache: Cache, outcome: FetchOutcome)
    ensures Handle(Some(Favicon), page, key, cache, outcome) == Reply(HttpOk, None, cache, None)
  {
  }

  /** A missing username or page is a 400 with the usage text; nothing is fetched or stored. */
  lemma MissingPartIsUsageError(username: Option<string>, page: Option<nat>, key: string, cache: Cache, outcome: FetchOutcome)
    requires username != Some(Favicon)
    requires username.None? || page.None?
    ensures Handle(username, page, key, cache, outcome) == Reply(BadRequest, Some(Error(Usage)), cache, None)
  {
  }

  /** A non-empty cached list is served shaped, without an upstream call. */
  lemma CacheHitDoesNotFetch(username: string, page: nat, key: string, cache: Cache, outcome: FetchOutcome)
    requires username != Favicon
    requires IsHit(cache, key)
    ensures Handle(Some(username), Some(page), key, cache, outcome) ==
      Reply(HttpOk, Some(Gists(Shape(username, cache[key], page))), cache, None)
  {
  }

  /** An absent or empty cache entry makes exactly the request's upstream call. */
  lemma CacheMissFetches(username: string, page: nat, key: string, cache: Cache, outcome: FetchOutcome)
    requires username != Favicon
    requires !IsHit(cache, key)
    ensures Handle(Some(username), Some(page), key, cache, outcome).call == Some(UpstreamCall(username, page))
  {
  }

  /**
   * The fetch outcomes: success stores the raw list under the key and serves
   * it shaped; a 404 is "User not found."; any other HTTP error, an invalid
   * body and a network error are 500s; no failure changes the cache.
   */
  lemma FetchOutcomes(username: string, page: nat, key: string, cache: Cache, outcome: FetchOutcome)
    ensures var r := FetchAndCache(username, page, key, cache, outcome);
      && r.call == Some(UpstreamCall(username, page))
      && (outcome.Fetched? ==>
            r.status == HttpOk && r.cache == cache[key := outcome.gists] &&
            r.body == Some(Gists(Shape(username, outcome.gists, page))))
      && (!outcome.Fetched? ==> r.cache == cache && r.body.Some? && r.body.value.Error?)
      && (outcome.HttpError? && outcome.status == Some(HttpNotFound) ==>
            r.status == HttpNotFound && r.body.value.message == UserNotFound)
      && (outcome.HttpError? && outcome.status != Some(HttpNotFound) ==>
            r.status == ServerError && r.body.value.message == HttpErrorPrefix + outcome.detail)
      && (outcome.InvalidJson? ==> r.status == ServerError && r.body.value.message == InvalidJsonMessage)
      && (outcome.NetworkError? ==> r.status == ServerError && r.body.value.message == outcome.detail)
  {
  }

  /**
   * The cache only changes at the request's key, only by a successful fetch,
   * and never loses a key; every reply but the favicon one has a body, and
   * the status is one of 200, 400, 404, 500.
   */
  lemma HandleFrame(username: Option<string>, page: Option<nat>, key: string, cache: Cache, outcome: FetchOutcome)
    ensures var r := Handle(username, page, key, cache, outcome);
      && cache.Keys <= r.cache.Keys
      && (forall k :: k in cache && k != key ==> r.cache[k] == cache[k])
      && (forall k :: k in r.cache && k != key ==> k in cache)
      && (r.cache != cache ==> r.call.Some? && outcome.Fetched? && r.cache == cache[key := outcome.gists])
      && (r.status != HttpOk ==> r.cache == cache)
      && r.status in {HttpOk, BadRequest, HttpNotFound, ServerError}
      && (r.body.None? <==> username == Some(Favicon))
  {
  }

  /**
   * After a successful fetch of a non-empty list, the same request is a cache
   * hit: same status and body, no second upstream call, whatever upstream
   * would now say.
   */
  lemma RepeatAfterNonEmptyFetchHits(username: string, page: nat, key: string, cache: Cache,
                                     gists: seq<RawGist>, later: FetchOutcome)
    requires username != Favicon && gists != []
    requires !IsHit(cache, key)
    ensures var first := Handle(Some(username), Some(page), key, cache, Fetched(gists));
      var second := Handle(Some(username), Some(page), key, first.cache, later);
      second == Reply(first.status, first.body, first.cache, None)
  {
  }

  /** An empty list is stored but not a hit: the same request calls upstream again. */
  lemma RepeatAfterEmptyFetchRefetches(username: string, page: nat, key: string, cache: Cache, later: FetchOutcome)
    requires username != Favicon
    requires !IsHit(cache, key)
    ensures var first := Handle(Some(username), Some(page), key, cache, Fetched([]));
      && first.status == HttpOk && first.body == Some(Gists(GistList(username, page, 0, [])))
      && key in first.cache
      && Handle(Some(username), Some(page), key, first.cache, later).call == Some(UpstreamCall(username, page))
  {
  }

  /** "/favicon.ico", with any query and any slashes around it, is 200 with no body. */
  lemma FaviconPath(leading: string, trailing: string, query: seq<QueryPair>, cache: Cache, outcome: FetchOutcome)
    requires AllOf(leading, Slash) && AllOf(trailing, Slash)
    ensures Serve(leading + Favicon + trailing, query, cache, outcome) == Reply(HttpOk, None, cache, None)
  {
    StripPadded(leading, Favicon, trailing, Slash);
    ParseUsername(leading + Favicon + trailing, query);
  }

  /** An empty or multi-segment path is a 400 usage error that neither fetches nor stores. */
  lemma MalformedPathIsUsageError(path: string, query: seq<QueryPair>, cache: Cache, outcome: FetchOutcome)
    requires Strip(path, Slash) == [] || Slash in Strip(path, Slash)
    ensures Serve(path, query, cache, outcome) == Reply(BadRequest, Some(Error(Usage)), cache, None)
  {
    ParseUsername(path, query);
  }

  /** A query key other than "page" is a 400 usage error even when "page" itself is valid. */
  lemma UnknownQueryKeyIsUsageError(path: string, query: seq<QueryPair>, cache: Cache, outcome: FetchOutcome)
    requires Strip(path, Slash) != [] && Slash !in Strip(path, Slash) && Strip(path, Slash) != Favicon
    requires HasNonPageKey(query)
    ensures Serve(path, query, cache, outcome) == Reply(BadRequest, Some(Error(Usage)), cache, None)
  {
    ParseUsername(path, query);
    ParsePage(path, query);
  }

  /**
   * A plain "/<user>" that is not cached fetches page one of that user, and on
   * success stores the list under "<user>_1".
   */
  lemma PlainUserPathFetchesPageOne(leading: string, user: string, trailing: string, cache: Cache, gists: seq<RawGist>)
    requires AllOf(leading, Slash) && AllOf(trailing, Slash)
    requires user != [] && Slash !in user && user != Favicon
    requires !IsHit(cache, user + "_1")
    ensures var r := Serve(leading + user + trailing, [], cache, Fetched(gists));
      && r.call == Some(UpstreamCall(user, 1))
      && r.status == HttpOk
      && r.cache == cache[user + "_1" := gists]
  {
    var path := leading + user + trailing;
    SingleSegmentHasDefaultPage(leading, user, trailing);
    var key := CacheKey(Some(user), Some(DefaultPage));
    assert key == user + "_1" by {
      assert Decimal.Show(DefaultPage) == "1";
    }
    assert Serve(path, [], cache, Fetched(gists)) == Handle(Some(user), Some(DefaultPage), key, cache, Fetched(gists));
    CacheMissFetches(user, DefaultPage, key, cache, Fetched(gists));
  }

  /** Requests for different (username, page) pairs never touch each other's cache entry. */
  lemma DistinctRequestsDistinctEntries(u1: string, p1: nat, u2: string, p2: nat, cache: Cache, outcome: FetchOutcome)
    requires (u1, p1) != (u2, p2)
    requires CacheKey(Some(u2), Some(p2)) in cache
    ensures var r := Handle(Some(u1), Some(p1), CacheKey(Some(u1), Some(p1)), cache, outcome);
      var k2 := CacheKey(Some(u2), Some(p2));
      k2 in r.cache && r.cache[k2] == cache[k2]
  {
    if CacheKey(Some(u1), Some(p1)) == CacheKey(Some(u2), Some(p2)) {
      CacheKeyInjective(u1, p1, u2, p2);
    }
  }

  /** The module-level dictionary gist_cache: never evicted, only written by a successful fetch. */
  class GistCache {
    var entries: Cache

    constructor ()
      ensures entries == map[]
    {
      entries := map[];
    }

    /** gist_cache.get(key). */
    function Get(key: string): (r: Option<seq<RawGist>>)
      reads this
    {
      if key in entries then Some(entries[key]) else None
    }

    /** gist_cache[key] = gists. */
    method Put(key: string, gists: seq<RawGist>)
      modifies this
      ensures entries == old(entries)[key := gists]
    {
      entries := entries[key := gists];
    }
  }

  /** One request: its parsed username and page and its cache key, fixed at construction. */
  class GetPublicGistsService {
    const username: Option<string>
    const page: Option<nat>
    const cacheKey: string

    /** __init__: parse the path and build f"{username}_{page}". */
    constructor (path: string, query: seq<QueryPair>)
      ensures ParsedPath(username, page) == ParseRequestPath(path, query)
      ensures cacheKey == CacheKey(username, page)
      ensures username.Some? && page.Some? ==> page.value >= DefaultPage
    {
      var parsed := ParseRequestPath(path, query);
      username, page := parsed.username, parsed.page;
      cacheKey := CacheKey(parsed.username, parsed.page);
    }

    /** handle_request, against the module-level cache. */
    method HandleRequest(cache: GistCache, outcome: FetchOutcome)
      returns (status: int, body: Option<Payload>, call: Option<UpstreamCall>)
      modifies cache
      ensures Reply(status, body, cache.entries, call) == Handle(username, page, cacheKey, old(cache.entries), outcome)
    {
      if username == Some(Favicon) {
        return HttpOk, None, None;
      }
      if username.None? || page.None? {
        return BadRequest, Some(Error(Usage)), None;
      }
      var gists := cache.Get(cacheKey);
      if gists.Some? && gists.value != [] {
        var shaped := Response(username.value, gists.value, page.value);
        return HttpOk, Some(Gists(shaped)), None;
      }
      status, body, call := FetchAndCacheGists(cache, outcome);
    }

    /** _fetch_and_cache_gists: store on success, map each failure to its status and message. */
    method FetchAndCacheGists(cache: GistCache, outcome: FetchOutcome)
      returns (status: int, body: Option<Payload>, call: Option<UpstreamCall>)
      requires username.Some? && page.Some?
      modifies cache
      ensures Reply(status, body, cache.entries, call) ==
              FetchAndCache(username.value, page.value, cacheKey, old(cache.entries), outcome)
    {
      call := Some(UpstreamCall(username.value, page.value));
      match outcome {
        case Fetched(gists) =>
          cache.Put(cacheKey, gists);
          var shaped := Response(username.value, gists, page.value);
          status, body := HttpOk, Some(Gists(shaped));
        case HttpError(code, detail) =>
          if code == Some(HttpNotFound) {
            status, body := HttpNotFound, Some(Error(UserNotFound));
          } else {
            status, body := ServerError, Some(Error(HttpErrorPrefix + detail));
          }
        case InvalidJson =>
          status, body := ServerError, Some(Error(InvalidJsonMessage));
        case NetworkError(detail) =>
          status, body := ServerError, Some(Error(detail));
      }
    }
  }
}
