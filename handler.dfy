/**
  The request handler of main.go: fetch the user's gist listing, keep or read the cached copy
  depending on GitHub's remaining rate-limit budget, and answer with an Atom feed or an error
  page. The network fetch, JSON decoding and time formatting are parameters.
 */
module Handler {
  import opened Results
  import opened Feed
  import opened Memcache

  /** The reasons the handler ends a request with an error page. */
  datatype Failure =
    | FetchFailed      // the GET of the listing failed (main.go:111-113)
    | ReadFailed       // reading the response body failed (main.go:115-117)
    | DecodeFailed     // the payload is not a JSON gist listing (main.go:132-134, main.go:143-145)
    | RateLimited      // budget exhausted and nothing cached (main.go:136-137)
    | CacheReadFailed  // memcache failed other than by a miss (main.go:138-139)

  /** What one GET of the listing endpoint yields: the `X-RateLimit-Remaining` header (empty
      when absent) and the body, or the failure of the request or of reading its body. */
  datatype Upstream = Fetched(remaining: string, body: Bytes) | GetFailed | BodyUnreadable

  /** What the handler writes: a feed, or an error page with its plain-text body. */
  datatype Response = FeedPage(atom: Atom) | ErrorPage(body: string)

  const InternalErrorText := "Internal Server Error"
  const RateLimitText := "Github API rate limit exceeded =/, back later..."

  /** The message each `serveError` call site passes: only the cache miss under an exhausted
      budget has its own. */
  function Message(f: Failure): (msg: string)
    ensures msg != "" <==> f == RateLimited
    ensures msg != "" ==> msg == RateLimitText
  {
    if f == RateLimited then RateLimitText else ""
  }

  /** The body `serveError` writes for message `msg` (main.go:96-100): never empty, the generic
      text when no message is given, and the message itself otherwise. */
  function ServeErrorBody(msg: string): (body: string)
    ensures body != ""
    ensures msg == "" ==> body == InternalErrorText
    ensures msg != "" ==> body == msg
  {
    if msg == "" then InternalErrorText else msg
  }

  /** The error page for a failure: the rate-limit text exactly for `RateLimited`, the generic
      text for everything else. */
  function ErrorBody(f: Failure): (body: string)
    ensures body == RateLimitText <==> f == RateLimited
    ensures f != RateLimited ==> body == InternalErrorText
  {
    ServeErrorBody(Message(f))
  }

  /** The cache after the policy of main.go:118-141 has run with budget header `remaining`. */
  ghost function CacheAfter(items: map<string, Bytes>, reachable: bool, key: string,
                            remaining: string, body: Bytes): map<string, Bytes>
  {
    if remaining != "0" && reachable then items[key := body] else items
  }

  /** The payload the policy of main.go:118-141 hands on to decoding, or why it stopped. */
  ghost function Payload(items: map<string, Bytes>, reachable: bool, key: string, remaining: string,
                         body: Bytes, decode: Bytes -> Option<seq<Gist>>): Result<Bytes, Failure>
  {
    if remaining != "0" then
      if decode(body).Some? then Ok(body) else Err(DecodeFailed)
    else if !reachable then Err(CacheReadFailed)
    else if key in items then Ok(items[key])
    else Err(RateLimited)
  }

  /** The response main.go:142-159 gives for a payload: decode it, keep the described gists and
      wrap them in the user's feed generated at `now`. */
  ghost function Serve(user: string, payload: Result<Bytes, Failure>, decode: Bytes -> Option<seq<Gist>>,
                       formatTime: string -> string, now: string): Response
  {
    match payload
    case Err(f) => ErrorPage(ErrorBody(f))
    case Ok(bytes) =>
      match decode(bytes)
      case None => ErrorPage(ErrorBody(DecodeFailed))
      case Some(gists) => FeedPage(BuildAtom(user, now, Entries(gists, formatTime)))
  }

  /** While budget remains, the cache ends up holding the fresh body under the user's key,
      whether or not the key was there before, and no other key changes. */
  lemma BudgetLeftStoresFreshBody(items: map<string, Bytes>, key: string, remaining: string, body: Bytes)
    requires remaining != "0"
    ensures var after := CacheAfter(items, true, key, remaining, body);
      && key in after && after[key] == body
      && forall k | k != key :: (k in after <==> k in items) && (k in items ==> after[k] == items[k])
  {
  }

  /** While budget remains, the payload is the freshly fetched body and never a cached value. */
  lemma BudgetLeftServesFreshBody(items: map<string, Bytes>, reachable: bool, key: string,
                                  remaining: string, body: Bytes, decode: Bytes -> Option<seq<Gist>>)
    requires remaining != "0"
    ensures var p := Payload(items, reachable, key, remaining, body, decode);
      && (p.Ok? <==> decode(body).Some?)
      && (p.Ok? ==> p.value == body)
  {
  }

  /** With the budget exhausted the cache is only read; a hit serves the cached value, a miss
      is the rate-limit error, whose page differs from the generic one. */
  lemma BudgetExhaustedReadsCache(items: map<string, Bytes>, reachable: bool, key: string, body: Bytes,
                                  decode: Bytes -> Option<seq<Gist>>)
    ensures CacheAfter(items, reachable, key, "0", body) == items
    ensures key in items ==> Payload(items, true, key, "0", body, decode) == Ok(items[key])
    ensures key !in items ==> Payload(items, true, key, "0", body, decode) == Err(RateLimited)
    ensures ErrorBody(RateLimited) == RateLimitText != InternalErrorText
  {
  }

  /** The cache is written before the body is decoded, so a body that does not decode is kept
      and served again once the budget is exhausted. */
  lemma UndecodableBodyIsCached(items: map<string, Bytes>, key: string, remaining: string, body: Bytes,
                                decode: Bytes -> Option<seq<Gist>>)
    requires remaining != "0" && decode(body).None?
    ensures Payload(items, true, key, remaining, body, decode) == Err(DecodeFailed)
    ensures var after := CacheAfter(items, true, key, remaining, body);
      Payload(after, true, key, "0", body, decode) == Ok(body)
  {
  }

  /** Lines 118-141 of main.go: store the fresh body while budget remains, else read the cache. */
  method ResolvePayload(cache: Cache, user: string, remaining: string, body: Bytes,
                        decode: Bytes -> Option<seq<Gist>>) returns (r: Result<Bytes, Failure>)
    modifies cache`items
    ensures cache.items == CacheAfter(old(cache.items), cache.reachable, CacheKey(user), remaining, body)
    ensures r == Payload(old(cache.items), cache.reachable, CacheKey(user), remaining, body, decode)
  {
    var key := CacheKey(user);
    if remaining != "0" {
      var err := cache.Add(key, body);
      if err == Some(ErrNotStored) {
        err := cache.Set(key, body);
      }
      // main.go:128 tests the handler's outer `err`, not this one: the `err` declared at
      // main.go:125 lives only inside that `if`, so a failed cache write never ends the request.
      if decode(body).None? {
        // serveError; the source does not return here (main.go:133).
        return Err(DecodeFailed);
      }
      r := Ok(body);
    } else {
      var item := cache.Get(key);
      if item.Err? {
        // serveError; the source does not return here and dereferences a nil item at main.go:142.
        return Err(if item.error == ErrCacheMiss then RateLimited else CacheReadFailed);
      }
      r := Ok(item.value);
    }
  }

  /** The whole handler of main.go:104-160 for the path user `user`. `fetch` stands for the
      GET of a URL, `decode` for JSON decoding, `formatTime` for the time reformatting of each
      entry, and `now` for the generation time. */
  method Handle(cache: Cache, user: string, fetch: string -> Upstream, decode: Bytes -> Option<seq<Gist>>,
                formatTime: string -> string, now: string) returns (resp: Response)
    modifies cache`items
    ensures match fetch(UpstreamUrl(user))
      case Fetched(remaining, body) =>
        && cache.items == CacheAfter(old(cache.items), cache.reachable, CacheKey(user), remaining, body)
        && resp == Serve(user, Payload(old(cache.items), cache.reachable, CacheKey(user), remaining, body, decode),
                         decode, formatTime, now)
      case _ =>
        cache.items == old(cache.items) && resp == ErrorPage(InternalErrorText)
  {
    var res := fetch(UpstreamUrl(user));
    if res.GetFailed? {
      // serveError; the source does not return here and reads the body of a nil response.
      return ErrorPage(ErrorBody(FetchFailed));
    }
    if res.BodyUnreadable? {
      // serveError; the source does not return here (main.go:116).
      return ErrorPage(ErrorBody(ReadFailed));
    }
    var payload := ResolvePayload(cache, user, res.remaining, res.body, decode);
    if payload.Err? {
      return ErrorPage(ErrorBody(payload.error));
    }
    var data := decode(payload.value);
    if data.None? {
      // serveError; the source does not return here (main.go:144).
      return ErrorPage(ErrorBody(DecodeFailed));
    }
    var entries := BuildEntries(data.value, formatTime);
    resp := FeedPage(BuildAtom(user, now, entries));
  }

  /** A listing with one described gist, fetched with budget left, gives a feed with exactly
      that one entry, whatever the cache holds and whether or not it answers. */
  lemma OneDescribedGistGivesOneEntry(items: map<string, Bytes>, reachable: bool, user: string, body: Bytes,
                                      decode: Bytes -> Option<seq<Gist>>, formatTime: string -> string, now: string)
    requires decode(body) == Some([Gist("demo snippet", "https://x/1", "2024-01-01T00:00:00Z")])
    ensures var resp := Serve(user, Payload(items, reachable, CacheKey(user), "5", body, decode), decode, formatTime, now);
      && resp.FeedPage?
      && |resp.atom.entries| == 1
      && resp.atom.entries[0].title == "demo snippet"
      && resp.atom.entries[0].id == "https://x/1"
  {
  }
}
