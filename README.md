# Gist proxy request core, modelled in Dafny

This project models the request-handling core of a small proxy for a user's public GitHub gists, found in `src/web_api_helper.py`. A request `/<username>[?page=N]` is parsed into a username and a page. The proxy answers from a process-wide cache when that cache holds a non-empty list for the request's key. Otherwise it asks the upstream API once, stores a successful result, and returns the list reshaped into `{name, page, total_gists, gists_list}`. Upstream failures become fixed status codes and error payloads.

Modules, one per component of the source file:

- `Decimal`: the ASCII part of `str.isdigit`, `int(s)` on digit strings and `str(n)`, with their round trips.
- `PathText`: `str.strip("/")` and `str.split("/")` on the URL path, each with an inverse lemma.
- `RequestPath`: `GetPublicGistsService._parse_request_path` and the cache key `f"{username}_{page}"` from `__init__`.
- `GistsBuilder`: `GistsBuilder.response`, as a method with a loop proved against the function `Shape`. `GistsBuilder.error` is the `Payload.Error` constructor.
- `WebApiHelper`: the constants (`DEFAULT_PAGE` is in `RequestPath`), the cache `gist_cache` as the class `GistCache` with a map field, and `GetPublicGistsService` as a class. The service's username, page and key are fixed in its constructor. Its methods `HandleRequest` and `FetchAndCacheGists` change the cache in place. They are proved equal to the pure transition functions `Handle` and `FetchAndCache`, and the request-level lemmas are stated about those functions.

The upstream call is a parameter of type `FetchOutcome`: `Fetched(list)`, `HttpError(status, detail)`, `InvalidJson` or `NetworkError(detail)`. The handler consults it only when it makes the call. Every reply records the upstream call it made (`call`), so "served from the cache without fetching" can be stated.

`total_gists` is `len(gists)` (src/web_api_helper.py:68), so records without `html_url` are left out of `gists_list` but still counted.

## Model

| member | source | states |
|---|---|---|
| Decimal.IsDigitString | src/web_api_helper.py:123 | `isdigit` holds only of a non-empty text, and never of one with a sign or a space, which `int` alone would accept |
| Decimal.Value | src/web_api_helper.py:123 | `int` of a digit string is zero iff every digit is `0` |
| Decimal.Show | src/web_api_helper.py:95 | `str(page)` is a non-empty ASCII digit string, holds no underscore and has no leading zero |
| Decimal.ValueOfShow | src/web_api_helper.py:123-126 | reading back the decimal text of a page with `int` gives the same page |
| Decimal.ShowOfValue | src/web_api_helper.py:123-126 | a digit string without a leading zero is the decimal text of its own value |
| Decimal.LeadingNonZeroIsPositive | src/web_api_helper.py:123 | a digit string that starts with a non-zero digit has a value of at least one |
| Decimal.ShowInjective | src/web_api_helper.py:95 | different pages have different decimal texts in the cache key |
| PathText.LeadingRun | src/web_api_helper.py:114 | the leading run `strip` removes is all slashes and is followed by a non-slash or the end |
| PathText.TrailingRun | src/web_api_helper.py:114 | the trailing run `strip` removes is all slashes and is preceded by a non-slash or the start |
| PathText.Strip | src/web_api_helper.py:114 | the stripped path neither starts nor ends with a slash |
| PathText.StripParts | src/web_api_helper.py:114 | the path is the stripped path with runs made only of slashes before and after it |
| PathText.StripPadded | src/web_api_helper.py:114 | stripping any slashes put around a segment that does not start or end with one gives the segment back |
| PathText.LeadingRunPadded | src/web_api_helper.py:114 | the leading slash run of padding plus a segment is exactly the padding |
| PathText.TrailingRunPadded | src/web_api_helper.py:114 | the trailing slash run of a segment plus padding is exactly the padding |
| PathText.Split | src/web_api_helper.py:114 | `split("/")` gives at least one piece and no piece holds a slash; there is exactly one piece, the whole text, iff the text holds no slash |
| PathText.JoinSplit | src/web_api_helper.py:114 | joining the pieces of `split` with the separator gives back the original path |
| RequestPath.FirstValue | src/web_api_helper.py:120-122 | the value for a key is absent iff no pair has that key; when present it is the value of the first pair with that key |
| RequestPath.ParseRequestPath | src/web_api_helper.py:111-126 | no username means no page; a returned page is at least one |
| RequestPath.ParseUsername | src/web_api_helper.py:113-118 | the username is present iff the stripped path is non-empty and holds no slash, and it is that stripped path, whatever the query |
| RequestPath.ParsePage | src/web_api_helper.py:120-126 | given a username, the page is absent if any key is not `page`; otherwise it is 1 for an empty query, or the first value when that is a digit string of value at least one, and absent if not |
| RequestPath.SingleSegmentHasDefaultPage | src/web_api_helper.py:113-126 | one non-empty segment with any slashes around it and no query parses to that segment and page `DEFAULT_PAGE` = 1 |
| RequestPath.RootPathIsMalformed | src/web_api_helper.py:114-118 | `/` parses to `(None, None)` |
| RequestPath.TwoSegmentsAreMalformed | src/web_api_helper.py:114-118 | `/user/name` parses to `(None, None)` |
| RequestPath.BlankUnknownKeyRejectsPage | src/web_api_helper.py:120-124 | `/user?query` keeps the username and has no page |
| RequestPath.UserPathNamesUser | src/web_api_helper.py:113-118 | `/user` names the user `user` whatever the query |
| RequestPath.NotPageTexts | src/web_api_helper.py:123 | `as`, `-1`, `0` and the empty text fail the digit-string or at-least-one test |
| RequestPath.BadPageTextRejectsPage | src/web_api_helper.py:122-124 | `page=as`, `page=-1`, `page=0` and a blank `page=` keep the username and have no page |
| RequestPath.LeadingZerosNameSamePage | src/web_api_helper.py:123-126 | a page written with leading zeros parses to the same page as without them |
| RequestPath.LeadingZerosKeepValue | src/web_api_helper.py:123-126 | zeros in front of a digit string do not change what `int` gives |
| RequestPath.CacheKey | src/web_api_helper.py:95 | for a parsed request the key is the username, an underscore, then the page's canonical decimal text: digits whose value is the page, with no leading zero unless the page text is the single digit `0` |
| RequestPath.CacheKeyInjective | src/web_api_helper.py:95 | two parsed requests share a cache key only if they have the same username and page |
| GistsBuilder.ShapeGist | src/web_api_helper.py:74-79 | an entry copies `id` and `html_url`, never has an empty description, shows "No Description" iff the description is missing, null, empty or that text, copies any other description unchanged, and lists the file names or `[]` |
| GistsBuilder.ShapedEntries | src/web_api_helper.py:72-80 | the shaped list is never longer than the raw list |
| GistsBuilder.KeptIndices | src/web_api_helper.py:72-73 | the positions of the records that have `html_url`: all of them, each once, increasing |
| GistsBuilder.Shape | src/web_api_helper.py:63-81 | name and page are echoed, `total_gists` is the raw length and `gists_list` is never longer |
| GistsBuilder.ShapedEntriesAppend | src/web_api_helper.py:72-80 | shaping a concatenation shapes each part in turn |
| GistsBuilder.ShapedEntriesFollowKeptIndices | src/web_api_helper.py:72-80 | the k-th shaped entry is the shaped form of the k-th raw record that has `html_url` |
| GistsBuilder.ShapeKeepsRecordsWithUrl | src/web_api_helper.py:63-81 | name and page are echoed, `total_gists` is the raw length, and `gists_list` holds exactly the records with `html_url`, shaped, in order, so it is never longer than `total_gists` |
| GistsBuilder.ThreeRecordsOneWithoutUrl | src/web_api_helper.py:68-80 | three records, the middle one without `html_url`: `total_gists` is 3 and two entries are listed |
| GistsBuilder.Response | src/web_api_helper.py:63-81 | the dictionary built by the append loop is the shaped response `Shape` |
| WebApiHelper.FetchAndCache | src/web_api_helper.py:128-148 | one upstream call for the request's username and page; 200 iff the fetch succeeded, which stores the list under the key; every failure has an error body and leaves the cache unchanged |
| WebApiHelper.Handle | src/web_api_helper.py:97-109 | the status is 200, 400, 404 or 500; no key is lost; a non-200 leaves the cache unchanged; the upstream call is made iff the username is present and not the favicon, the page is present and the cache has no hit, and then for that username and page; there is no body iff the username is the favicon |
| WebApiHelper.Serve | src/web_api_helper.py:92-126 | a whole request has no body iff its stripped path is `favicon.ico`; any upstream call it makes is for the stripped path as username (non-empty, no slash) and a page of at least one |
| WebApiHelper.FaviconShortCircuits | src/web_api_helper.py:99-100 | username `favicon.ico` gives 200 with no body, whatever the page, cache or upstream, with no fetch and no cache change |
| WebApiHelper.MissingPartIsUsageError | src/web_api_helper.py:102-103 | a missing username or page gives 400 with the usage text; the cache is unchanged and nothing is fetched |
| WebApiHelper.CacheHitDoesNotFetch | src/web_api_helper.py:105-107 | a non-empty cached list is returned shaped with 200, without an upstream call |
| WebApiHelper.CacheMissFetches | src/web_api_helper.py:105-109 | an absent or empty cache entry makes the upstream call for exactly this username and page |
| WebApiHelper.FetchOutcomes | src/web_api_helper.py:128-148 | success stores the list under the key and returns it shaped with 200; 404 gives "User not found."; any other HTTP error gives 500 "HTTP error: …"; invalid JSON gives 500 "Invalid JSON response"; a network error gives 500 with its message; no failure changes the cache |
| WebApiHelper.HandleFrame | src/web_api_helper.py:97-148 | the cache changes only at the request's key and only by a successful fetch, and loses no key; a non-200 leaves it unchanged; the status is 200, 400, 404 or 500; there is no body only for the favicon |
| WebApiHelper.RepeatAfterNonEmptyFetchHits | src/web_api_helper.py:105-134 | after a successful fetch of a non-empty list, the same request gets the same reply from the cache without fetching |
| WebApiHelper.RepeatAfterEmptyFetchRefetches | src/web_api_helper.py:105-134 | after a successful fetch of an empty list (200, empty `gists_list`), the same request fetches again |
| WebApiHelper.FaviconPath | src/web_api_helper.py:92-100 | `/favicon.ico` with any query gives 200 with no body and leaves the cache alone |
| WebApiHelper.MalformedPathIsUsageError | src/web_api_helper.py:97-118 | an empty or multi-segment path gives 400 with the usage text, without a fetch or a cache change |
| WebApiHelper.UnknownQueryKeyIsUsageError | src/web_api_helper.py:102-124 | a single-segment path with a query key other than `page` gives 400 with the usage text |
| WebApiHelper.PlainUserPathFetchesPageOne | src/web_api_helper.py:92-134 | an uncached `/<user>` fetches page 1 of that user and stores the result under `<user>_1` |
| WebApiHelper.DistinctRequestsDistinctEntries | src/web_api_helper.py:95-132 | handling one (username, page) never changes the cache entry of a different (username, page) |
| WebApiHelper.GistCache.constructor | src/web_api_helper.py:27 | the cache starts empty |
| WebApiHelper.GistCache.Put | src/web_api_helper.py:132 | storing changes exactly the entry at the key |
| WebApiHelper.GetPublicGistsService.constructor | src/web_api_helper.py:92-95 | the service holds the parsed username and page and the key `f"{username}_{page}"` |
| WebApiHelper.GetPublicGistsService.HandleRequest | src/web_api_helper.py:97-109 | the status, body, upstream call and new cache are those of the transition `Handle` on the old cache |
| WebApiHelper.GetPublicGistsService.FetchAndCacheGists | src/web_api_helper.py:128-148 | the status, body, upstream call and new cache are those of `FetchAndCache` on the old cache |

## Left out

- `GithubAPIClient.get_user_gists` (src/web_api_helper.py:40-56) is not modelled as code. It makes a real HTTP request with fixed headers, `per_page` 50 and a 20-second timeout. Its result is the parameter `FetchOutcome`, and only the call's username and page are recorded.
- The text of `str(http_err)` and `str(req_err)` is an opaque `detail` string.
- URL parsing is taken as done: the input is the path component plus the query as an ordered list of (key, value) pairs, as `parse_qsl` with blank values kept would give them. Percent-decoding, `+` to space, fragments, `urlparse` reading a path that starts with `//` as a host name, and `urlparse` splitting `;params` off the last path segment (`/user;x` has path `/user`) are not modelled.
- `str.isdigit` is restricted to ASCII digits. Python also accepts other Unicode digits, some of which `int` then rejects with an exception that nothing catches.
- Gist records are assumed to be JSON objects whose `id`, `description` and `html_url` are strings or null, and whose `files`, when present, is an object (its keys are kept in order). A null `files` makes the source raise an `AttributeError` after the list is already cached; that path is not modelled. A description that is falsy but not a string (such as `0`) is not modelled either.
- An upstream body that decodes to JSON but is not a list is not modelled.
- RequestPath.ParseRequestPath: does not model CPython's limit on `int()` of a text longer than 4300 digits (leading zeros included). There, `int(page_str)` raises a `ValueError` from `__init__`, outside the `try` of `_fetch_and_cache_gists`, so the request ends in an uncaught exception. The model instead returns the page's value.
- RequestPath.ParsePage: same limit; for a page text longer than 4300 digits the stated page is what the source would never return, since it raises instead.
- RequestPath.LeadingZerosNameSamePage: same limit; once the zeros take the text past 4300 digits the source raises instead of naming the same page.
- RequestPath.ParseUsername: same limit. When the `page` value is a digit text longer than 4300 digits, the source raises and names no username. The model gives the segment as the username whatever the query.
- RequestPath.UserPathNamesUser: same limit. `/user` with a `page` value longer than 4300 digits makes the source raise instead of naming `user`.
- WebApiHelper.Serve: same limit. A request whose `page` value is a digit text longer than 4300 digits ends in an uncaught exception in `__init__`, and no reply is sent. Serve returns a reply for it.
- WebApiHelper.FaviconPath: same limit. The parse in `__init__` (line 94) runs before the favicon test of `handle_request` (line 99), so `/favicon.ico` with a `page` value longer than 4300 digits raises instead of answering (200, None).
- WebApiHelper.UnknownQueryKeyIsUsageError: same limit. `int(page_str)` is evaluated before the unknown keys are consulted, so a `page` value longer than 4300 digits raises instead of giving 400.
- WebApiHelper.GetPublicGistsService.constructor: same limit. `__init__` raises for a `page` value longer than 4300 digits. The constructor stores a parse result for it.
- Concurrent access to `gist_cache` is not modelled; the source has no locking.
- `src/gists_controller.py` (headers, `json.dumps`, sending no body when the payload is `None`) and `src/serve_gists.py` (the server loop) are I/O plumbing and are not part of this model.
