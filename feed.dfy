/**
  The gist records decoded from GitHub's listing, the Atom feed built from them, and the
  fixed strings the handler derives from the user name (main.go).
 */
module Feed {

  /** The fields of a decoded gist that the feed reads (main.go:18-34); the others are never used. */
  datatype Gist = Gist(description: string, htmlUrl: string, updatedAt: string)

  /** An Atom `link` element; an empty `rel` is omitted when serialised (main.go:67-70). */
  datatype Link = Link(href: string, rel: string)

  /** One Atom `entry` (main.go:84-91); `entryType` is written as the `type` attribute of the
      `entry` element itself, not of `content`. */
  datatype Entry = Entry(title: string, link: Link, updated: string, id: string,
                         content: string, entryType: string)

  /** The Atom `feed` document (main.go:72-82). */
  datatype Atom = Atom(xmlns: string, title: string, links: seq<Link>, updated: string,
                       id: string, name: string, email: string, entries: seq<Entry>)

  const AtomNamespace := "http://www.w3.org/2005/Atom"
  const SiteBase := "http://gist-rss.appspot.com/"
  const ApiUsers := "https://api.github.com/users/"
  const GistsSuffix := "/gists"
  const CachePrefix := "gist_"

  /** The GitHub listing endpoint fetched for `user` (main.go:108). */
  function UpstreamUrl(user: string): (url: string)
    ensures |url| == |ApiUsers| + |user| + |GistsSuffix|
    ensures url[..|ApiUsers|] == ApiUsers
    ensures url[|ApiUsers|..|ApiUsers| + |user|] == user
    ensures url[|ApiUsers| + |user|..] == GistsSuffix
  {
    ApiUsers + user + GistsSuffix
  }

  /** The memcache key under which `user`'s last listing is kept (main.go:121, main.go:136). */
  function CacheKey(user: string): (key: string)
    ensures |key| == |CachePrefix| + |user|
    ensures key[..|CachePrefix|] == CachePrefix && key[|CachePrefix|..] == user
  {
    CachePrefix + user
  }

  /** The feed's own address, used as its id and its links (main.go:153). */
  function SelfUrl(user: string): (url: string)
    ensures |url| == |SiteBase| + |user|
    ensures url[..|SiteBase|] == SiteBase && url[|SiteBase|..] == user
  {
    SiteBase + user
  }

  /** Distinct users never share a cache entry, and never share an upstream request. */
  lemma {:induction false} DistinctUsersDistinctKeys(u: string, v: string)
    requires u != v
    ensures CacheKey(u) != CacheKey(v)
    ensures UpstreamUrl(u) != UpstreamUrl(v)
  {
  }

  /** The entry made from one gist (main.go:149-150); `formatTime` stands for parsing the
      RFC 3339 `Updated_At` and printing it with `Time.String`. */
  function ToEntry(g: Gist, formatTime: string -> string): (e: Entry)
    ensures e.title == g.description
    ensures e.id == e.link.href == g.htmlUrl && e.link.rel == ""
    ensures e.content == "" && e.entryType == "html"
    ensures e.updated == formatTime(g.updatedAt)
  {
    Entry(title := g.description, link := Link(g.htmlUrl, ""), updated := formatTime(g.updatedAt),
          id := g.htmlUrl, content := "", entryType := "html")
  }

  /** Whether a gist is published as an entry: only gists with a description are (main.go:148). */
  predicate Described(g: Gist)
    ensures Described(g) <==> |g.description| > 0
  {
    g.description != ""
  }

  /** The entries of the feed for `gists`: the described gists, in order, each made an entry.
      Defined from the last gist backwards, as the loop in main.go:146-152 appends. */
  function Entries(gists: seq<Gist>, formatTime: string -> string): (entries: seq<Entry>)
    ensures |entries| <= |gists|
    ensures forall e | e in entries ::
      && e.title != ""
      && e.id == e.link.href
      && e.link.rel == ""
      && e.content == ""
      && e.entryType == "html"
  {
    if gists == [] then []
    else
      var last := gists[|gists| - 1];
      Entries(gists[..|gists| - 1], formatTime)
        + (if Described(last) then [ToEntry(last, formatTime)] else [])
  }

  /** The positions in `gists` of the described gists, in increasing order. */
  function KeptPositions(gists: seq<Gist>): seq<nat>
  {
    if gists == [] then []
    else
      KeptPositions(gists[..|gists| - 1])
        + (if Described(gists[|gists| - 1]) then [|gists| - 1] else [])
  }

  /** The kept positions are increasing positions of `gists`, and they are exactly the
      positions of the described gists. */
  lemma {:induction false} KeptPositionsAreDescribed(gists: seq<Gist>)
    ensures var p := KeptPositions(gists);
      && (forall k | 0 <= k < |p| :: p[k] < |gists| && Described(gists[p[k]]))
      && (forall k, l | 0 <= k < l < |p| :: p[k] < p[l])
      && (forall i | 0 <= i < |gists| :: Described(gists[i]) <==> i in p)
  {
    if gists != [] {
      var n := |gists| - 1;
      var front := gists[..n];
      KeptPositionsAreDescribed(front);
      var p, q := KeptPositions(front), KeptPositions(gists);
      assert q == p + (if Described(gists[n]) then [n] else []);
      assert forall k | 0 <= k < |p| :: p[k] < n && front[p[k]] == gists[p[k]];
      forall i | 0 <= i < |gists|
        ensures Described(gists[i]) <==> i in q
      {
        if i < n {
          assert gists[i] == front[i];
          assert i in q <==> i in p;
        }
      }
    }
  }

  /** Entry k is the entry made from the gist at the k-th kept position. */
  lemma {:induction false} EntriesFollowKeptPositions(gists: seq<Gist>, formatTime: string -> string)
    ensures var p := KeptPositions(gists);
      && |p| == |Entries(gists, formatTime)|
      && (forall k | 0 <= k < |p| ::
            p[k] < |gists| && Entries(gists, formatTime)[k] == ToEntry(gists[p[k]], formatTime))
  {
    if gists != [] {
      var n := |gists| - 1;
      var front := gists[..n];
      EntriesFollowKeptPositions(front, formatTime);
      var p, q := KeptPositions(front), KeptPositions(gists);
      var es, fs := Entries(gists, formatTime), Entries(front, formatTime);
      assert es == fs + (if Described(gists[n]) then [ToEntry(gists[n], formatTime)] else []);
      assert q == p + (if Described(gists[n]) then [n] else []);
      forall k | 0 <= k < |q|
        ensures q[k] < |gists| && es[k] == ToEntry(gists[q[k]], formatTime)
      {
        if k < |p| {
          assert q[k] == p[k] && es[k] == fs[k] && gists[p[k]] == front[p[k]];
        }
      }
    }
  }

  /** The entries are exactly the described gists, in their original relative order: entry k
      comes from the gist at position p[k], the positions increase, and every described gist
      has its position among them (so a gist without description has none). */
  lemma {:induction false} EntriesAreDescribedGistsInOrder(gists: seq<Gist>, formatTime: string -> string)
    ensures var p := KeptPositions(gists);
      && |p| == |Entries(gists, formatTime)|
      && (forall k | 0 <= k < |p| ::
            p[k] < |gists| && Described(gists[p[k]])
            && Entries(gists, formatTime)[k] == ToEntry(gists[p[k]], formatTime))
      && (forall k, l | 0 <= k < l < |p| :: p[k] < p[l])
      && (forall i | 0 <= i < |gists| :: Described(gists[i]) <==> i in p)
  {
    KeptPositionsAreDescribed(gists);
    EntriesFollowKeptPositions(gists, formatTime);
  }

  /** No gist is dropped exactly when every gist has a description. */
  lemma {:induction false} AllKeptIffAllDescribed(gists: seq<Gist>, formatTime: string -> string)
    ensures |Entries(gists, formatTime)| == |gists| <==> forall i | 0 <= i < |gists| :: Described(gists[i])
  {
    if gists != [] {
      var n := |gists| - 1;
      var front := gists[..n];
      AllKeptIffAllDescribed(front, formatTime);
      assert forall i | 0 <= i < n :: front[i] == gists[i];
    }
  }

  /** The loop of main.go:146-152: walk the gists and append an entry for each described one. */
  method BuildEntries(gists: seq<Gist>, formatTime: string -> string) returns (entries: seq<Entry>)
    ensures entries == Entries(gists, formatTime)
  {
    entries := [];
    var i := 0;
    while i < |gists|
      invariant 0 <= i <= |gists|
      invariant entries == Entries(gists[..i], formatTime)
    {
      var gist := gists[i];
      assert gists[..i + 1][..i] == gists[..i];
      if gist.description != "" {
        entries := entries + [ToEntry(gist, formatTime)];
      }
      i := i + 1;
    }
    assert gists[..i] == gists;
  }

  /** The feed document for `user`, generated at time `updated` (main.go:153). */
  function BuildAtom(user: string, updated: string, entries: seq<Entry>): (feed: Atom)
    ensures feed.xmlns == AtomNamespace
    ensures feed.name == user && feed.email == "" && feed.title == feed.name + " gists"
    ensures feed.id == SelfUrl(user)
    ensures feed.links == [Link(feed.id, "self"), Link(feed.id, "")]
    ensures feed.updated == updated && feed.entries == entries
  {
    var self := SelfUrl(user);
    Atom(xmlns := AtomNamespace, title := user + " gists", links := [Link(self, "self"), Link(href := self, rel := "")],
         updated := updated, id := self, name := user, email := "", entries := entries)
  }

  /** Two users' feeds never share an id; apart from `updated`, the feed depends only on the
      user and the entries. */
  lemma {:induction false} FeedIdentity(u: string, v: string, t: string, t': string, es: seq<Entry>)
    ensures BuildAtom(u, t, es).id == BuildAtom(v, t', es).id <==> u == v
    ensures BuildAtom(u, t, es).(updated := t') == BuildAtom(u, t', es)
  {
  }
}
