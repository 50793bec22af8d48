# gist-rss in Dafny

gist-rss is a small App Engine service. For a GitHub user, it fetches the user's public gists
from the GitHub API and republishes them as an Atom feed. Its one handler (`handle` in
`main.go`) works in four steps:

1. It fetches `https://api.github.com/users/<user>/gists`.
2. It decides from the `X-RateLimit-Remaining` header whether to use the fresh body or the
   copy kept in memcache under `gist_<user>`.
3. It turns every gist that has a description into an Atom entry, keeping their order.
4. It wraps the entries in a feed whose id and links are `http://gist-rss.appspot.com/<user>`.

When something fails, `serveError` writes an error page. The page says
"Github API rate limit exceeded =/, back later..." when the budget is spent and nothing is
cached, and "Internal Server Error" otherwise.

The model has four modules:

- `Results` (results.dfy): `Option` and `Result`, for Go's `(value, error)` returns.
- `Feed` (feed.dfy): the gist, link, entry and feed records, and the URL and cache-key strings.
  It also holds the entry transform. `Entries` is a function that specifies the transform, and
  `BuildEntries` is the loop proved against it.
- `Memcache` (memcache.dfy): the cache, a class whose `items` map field `Add` and `Set` update
  in place. A `reachable` flag stands for the service failing with an error other than
  `ErrNotStored` or `ErrCacheMiss`.
- `Handler` (handler.dfy): the error pages. It holds the cache policy (`ResolvePayload`) and
  the whole handler (`Handle`). `Handle` takes as parameters the GET of a URL, JSON decoding,
  the reformatting of each entry's time and the generation time.

Every `serveError` call ends the request with an error page in the model. The source does not
return after `serveError`. It goes on to the next step, and after a failed fetch or a cache miss
it dereferences a nil value (main.go:111-145). The model does not follow it there. Each such
point carries a comment.

Where the code's behaviour differs from what a reader might expect, the model follows the code:

- The `err` declared at main.go:125 is scoped to that `if`. The test at main.go:128 therefore
  reads the handler's outer `err`, which is nil at that point. A failed cache write never ends
  the request, so caching is best-effort.
- The body is stored in the cache (main.go:125-126) before it is decoded (main.go:131). A body
  that does not decode is cached anyway. So a cached payload is not always a valid listing,
  and `UndecodableBodyIsCached` shows this.
- The cache key is `gist_<user>`, not the bare user name.
- Entry content is always empty; no embed snippet is generated.
- A missing rate-limit header reads as `""`, which is not `"0"`, so it counts as budget left.
- The `Type` field of `Entry` carries the tag `xml:"type,attr"` (main.go:90). So `type="html"`
  is written on the `<entry>` element, and `<content>` gets no `type` attribute.
- The HTTP status of the upstream response is never checked (main.go:110-131). A 404 or 5xx
  body whose rate-limit header is not `"0"` is cached like any other body, and it replaces a
  good cached listing. `Fetched` covers a response with any status.

## Model

| member | source | states |
|---|---|---|
| Feed.UpstreamUrl | main.go:108 | the fetched URL is the API users prefix, then exactly the user name, then `/gists` |
| Feed.CacheKey | main.go:121 | the cache key is `gist_` followed by exactly the user name |
| Feed.SelfUrl | main.go:153 | the feed address is the site base followed by exactly the user name |
| Feed.DistinctUsersDistinctKeys | main.go:108-136 | two different users never share a cache key or an upstream URL |
| Feed.Described | main.go:148 | a gist is published exactly when its description is non-empty |
| Feed.ToEntry | main.go:149-150 | an entry's title is the gist's description; its id and link href are the gist's web URL; its link has no rel; its content is empty; the entry's `type` is `html`; its updated time is the formatted `Updated_At` |
| Feed.Entries | main.go:146-152 | there are never more entries than gists; every entry has a non-empty title, id equal to its link's href, no rel, empty content, and `type` `html` on the entry |
| Feed.KeptPositionsAreDescribed | main.go:146-148 | the positions the loop keeps are increasing, and they are exactly the positions of gists with a non-empty description |
| Feed.EntriesFollowKeptPositions | main.go:146-152 | entry k is the entry made from the gist at the k-th kept position, with one entry per kept position |
| Feed.EntriesAreDescribedGistsInOrder | main.go:146-152 | entries are exactly the described gists in their original relative order; entry k is the projection of the gist at an increasing position; a gist is kept if and only if its description is non-empty |
| Feed.AllKeptIffAllDescribed | main.go:146-152 | the entry count equals the gist count if and only if every gist has a description |
| Feed.BuildEntries | main.go:146-152 | the append loop produces exactly the entries that `Entries` specifies |
| Feed.BuildAtom | main.go:153 | the feed has the Atom namespace, title `<user> gists`, author name the user and empty email, and id the self URL; it has exactly two links to that id, the first with rel `self` and the second with none; it carries the given generation time and entries |
| Feed.FeedIdentity | main.go:153 | two feeds share an id if and only if they are for the same user; the feed depends on the generation time only through `updated` |
| Memcache.Cache.Add | main.go:125 | stores the value only when the key is absent; a present key fails with `ErrNotStored` and leaves the map unchanged |
| Memcache.Cache.Set | main.go:126 | overwrites the key unconditionally and changes no other key |
| Memcache.Cache.Get | main.go:136 | succeeds exactly when the service answers and the key is present, with the stored value; otherwise fails with `ErrCacheMiss` when the service answers and a service error when it does not |
| Handler.ServeErrorBody | main.go:96-100 | the error body is never empty; it is exactly `Internal Server Error` when no message is given, and the given message otherwise |
| Handler.Message | main.go:112-144 | the message a `serveError` call site passes is non-empty exactly for the rate-limited cache miss, and is then the rate-limit text |
| Handler.ErrorBody | main.go:96-137 | the page reads the rate-limit text exactly for the rate-limited miss and the generic text for every other failure |
| Handler.BudgetLeftStoresFreshBody | main.go:124-127 | with budget left, the cache afterwards maps the user's key to the fresh body, whether or not it was present before, and no other key changes |
| Handler.BudgetLeftServesFreshBody | main.go:124-134 | with budget left, the payload is the fresh body, never a cached value, and it fails only when the body does not decode |
| Handler.BudgetExhaustedReadsCache | main.go:135-140 | with the budget exhausted, the cache is not written, whether or not the service answers; a hit serves the cached bytes; a miss is the rate-limit failure, whose page differs from the generic one |
| Handler.UndecodableBodyIsCached | main.go:124-134 | a body that fails to decode still ends up in the cache and is served from it once the budget is exhausted |
| Handler.ResolvePayload | main.go:118-141 | Add, then Set on `ErrNotStored`, leaves the cache as `CacheAfter`; the payload is `Payload` of the old cache |
| Handler.Handle | main.go:104-160 | fetches the user's upstream URL; a failed fetch or read is the generic error with the cache untouched; otherwise the cache is updated by the policy and the response is the feed of the decoded payload's described gists, or the matching error page |
| Handler.OneDescribedGistGivesOneEntry | main.go:124-153 | a listing with one described gist, fetched with budget left, gives a feed with exactly that entry's title and id, whatever the cache holds and whether or not it answers |

## Left out

- The HTTP GET through `urlfetch` and reading the response body (main.go:109-117) are network
  I/O. `Handle` takes them as the function parameter `fetch`, applied to the upstream URL.
- The memcache service, the App Engine context and its logging (`c.Errorf`, main.go:101) are
  replaced by the in-memory `Cache` class. Concurrent requests sharing the cache are not modelled.
- JSON decoding (main.go:131, main.go:142) is a library. It is the function parameter
  `decode`, which may fail.
- Time parsing and formatting of `Updated_At` (main.go:149-150) are the parameter `formatTime`.
  The parse error the source ignores is covered, because `formatTime` may be any function. The
  generation time `time.Now()` (main.go:153) is the parameter `now`.
- XML encoding, response headers and status codes (main.go:94-95, main.go:154-159) are output
  plumbing. An encoding failure after the status was written is not modelled.
- The routing in `init` (main.go:162-166) is not modelled.
- The unused `Gist` fields, the `File` and `User` structs and the maps that hold them
  (main.go:18-65) are not modelled, because no behaviour depends on them.
- The fall-through after `serveError` and the nil dereference it leads to (main.go:111-145) are
  not modelled. Each error ends the request.
- Memcache.Cache: whether the service answers is fixed for the whole request. So the model
  cannot produce a `Set` that fails after `Add` answered `ErrNotStored` (main.go:125-126). In
  that case the stale value stays cached while the fresh body is served.
