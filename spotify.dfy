/** The source-catalog client: the playlist id taken from a link, the credential
    check, and the page loop that follows the server's `next` pointers while
    filtering each page's items into tracks. The token request and the page
    requests are replaced by oracle values held in a `SpotifyEnv`. */
module Spotify {
  import opened Outcomes
  import opened PyStrings
  import opened Sequences

  /** A track as the rest of the pipeline sees it. */
  datatype Track = Track(name: string, artists: seq<string>, album: string)

  /** The parts of a page item the client reads. */
  datatype Artist = Artist(name: string)
  datatype TrackObject = TrackObject(
    name: string, artists: seq<Artist>, albumName: string,
    isLocal: bool,       // `is_local` is truthy
    restricted: bool)    // `restrictions` is present and truthy
  /** The `track` field of an item: JSON null, an empty (falsy) object, or a track. */
  datatype TrackField = NullTrack | EmptyTrack | Present(obj: TrackObject)
  datatype Item = Item(track: TrackField)

  /** One response of the tracks endpoint: its status, its items and its `next`
      field (None when the field is absent or null). */
  datatype Page = Page(status: int, items: seq<Item>, next: Option<string>)

  datatype TokenReply = TokenReply(status: int, accessToken: string)

  /** What the client depends on outside the program: the configured credentials
      (None when the variable is unset), the reply of the token endpoint (None
      when the request raises), and the page served at each URL (a URL not in
      `pages` makes the request raise). */
  datatype SpotifyEnv = SpotifyEnv(
    clientId: Option<string>,
    clientSecret: Option<string>,
    token: Option<TokenReply>,
    pages: map<string, Page>)

  const PlaylistMarker: string := "/playlist/"

  /** The second piece of the link split on "/playlist/", cut at its first "?";
      a link without "/playlist/" splits into one piece, and asking for the
      second one raises IndexError. */
  function ExtractPlaylistId(url: string): Result<string>
  {
    var parts := Split(url, PlaylistMarker);
    if |parts| < 2 then Err(IndexError) else Ok(Split(parts[1], "?")[0])
  }

  /** `id` is the text of `s` from `start` up to but excluding the first "?" or
      "/playlist/" at or after `start` (or the end of `s`). */
  predicate IdCut(s: string, start: nat, id: string)
  {
    var end := start + |id|;
    && end <= |s| && s[start..end] == id
    && (forall j: nat :: start <= j < end ==> s[j] != '?' && !OccursAt(s, PlaylistMarker, j))
    && (end == |s| || s[end] == '?' || OccursAt(s, PlaylistMarker, end))
  }

  /** Cutting the text after the first "/playlist/": the first piece of its split
      on "/playlist/", cut again at "?". */
  lemma CutAfterMarker(rest: string)
    ensures IdCut(rest, 0, Split(Split(rest, PlaylistMarker)[0], "?")[0])
  {
    var p1 := Split(rest, PlaylistMarker)[0];
    SplitHead(rest, PlaylistMarker);
    var id := Split(p1, "?")[0];
    SplitHead(p1, "?");
    forall j: nat | j < |id|
      ensures rest[j] != '?'
    {
      CharOccursAt(p1, '?', j);
      assert rest[j] == p1[j];
    }
    if |id| < |p1| {
      CharOccursAt(p1, '?', |id|);
      assert rest[|id|] == p1[|id|];
    }
  }

  /** A cut of `url[start..]`, restated in `url`'s own indices. */
  lemma ShiftCut(url: string, start: nat, id: string)
    requires start <= |url| && IdCut(url[start..], 0, id)
    ensures IdCut(url, start, id)
  {
    var rest := url[start..];
    var end := start + |id|;
    assert url[start..end] == rest[..|id|];
    forall j: nat | start <= j < end
      ensures url[j] != '?' && !OccursAt(url, PlaylistMarker, j)
    {
      assert url[j] == rest[j - start];
      OccursInSuffix(url, PlaylistMarker, start, j - start);
    }
    if |id| < |rest| {
      assert url[end] == rest[|id|];
      OccursInSuffix(url, PlaylistMarker, start, |id|);
    }
  }

  /** The id is the text after the first "/playlist/", up to but excluding the
      first "?" or the next "/playlist/" (or the end of the link); a link without
      "/playlist/" has no id. */
  lemma ExtractPlaylistIdSpec(url: string)
    ensures ExtractPlaylistId(url).Ok? <==> Contains(url, PlaylistMarker)
    ensures ExtractPlaylistId(url).Ok? ==>
      IdCut(url, FirstIndex(url, PlaylistMarker, 0).value + |PlaylistMarker|, ExtractPlaylistId(url).value)
  {
    SplitSecond(url, PlaylistMarker);
    if Contains(url, PlaylistMarker) {
      var start := FirstIndex(url, PlaylistMarker, 0).value + |PlaylistMarker|;
      var id := Split(Split(url[start..], PlaylistMarker)[0], "?")[0];
      assert ExtractPlaylistId(url) == Ok(id);
      CutAfterMarker(url[start..]);
      ShiftCut(url, start, id);
    }
  }

  /** The id never contains "?" or "/playlist/". */
  lemma ExtractedIdClean(url: string)
    ensures ExtractPlaylistId(url).Ok? ==>
      !Contains(ExtractPlaylistId(url).value, "?") &&
      !Contains(ExtractPlaylistId(url).value, PlaylistMarker)
  {
    var parts := Split(url, PlaylistMarker);
    if |parts| >= 2 {
      var id := Split(parts[1], "?")[0];
      SplitPiecesFree(parts[1], "?");
      SplitPiecesFree(url, PlaylistMarker);
      SplitHead(parts[1], "?");
      assert !Contains(parts[1], PlaylistMarker);
      forall j: nat | j <= |id|
        ensures !OccursAt(id, PlaylistMarker, j)
      {
        OccursInPrefix(parts[1], PlaylistMarker, |id|, j);
      }
    }
  }

  /** Python truthiness of an optional string: set and non-empty. */
  predicate Truthy(s: Option<string>)
  {
    s.Some? && s.value != ""
  }

  predicate CredentialsPresent(env: SpotifyEnv)
  {
    Truthy(env.clientId) && Truthy(env.clientSecret)
  }

  /** The first page's URL for a playlist and a market. */
  function TracksUrl(playlistId: string, market: string): string
  {
    "https://api.spotify.com/v1/playlists/" + playlistId + "/tracks?market=" + market + "&limit=100"
  }

  function ArtistNames(artists: seq<Artist>): seq<string>
  {
    seq(|artists|, i requires 0 <= i < |artists| => artists[i].name)
  }

  /** The item filter and map: an empty track object, a local track and a
      restricted track are skipped; any other track becomes its name, its
      artists' names in order and its album's name. (A null track is not kept
      either; it makes the loop raise, see HasNullTrack.) */
  function Keep(item: Item): Option<Track>
  {
    match item.track
    case Present(t) =>
      if t.isLocal || t.restricted then None
      else Some(Track(t.name, ArtistNames(t.artists), t.albumName))
    case _ => None
  }

  /** A null track: the debug message built for skipped items calls `.get` on it. */
  predicate HasNullTrack(items: seq<Item>)
  {
    exists i :: 0 <= i < |items| && items[i].track.NullTrack?
  }

  /** The URL the loop requests after `p`, or None when it stops: `next` is
      absent, null, empty, or the literal string "null". */
  function NextLink(p: Page): (r: Option<string>)
    ensures r.Some? <==> Truthy(p.next) && p.next.value != "null"
    ensures r.Some? ==> r == p.next
  {
    if Truthy(p.next) && p.next.value != "null" then p.next else None
  }

  /** Requesting `url` succeeds: it is served with status 200 and its items hold
      no null track. */
  predicate Served(pages: map<string, Page>, url: string)
  {
    url in pages && pages[url].status == 200 && !HasNullTrack(pages[url].items)
  }

  /** The failure raised by requesting a page that is not served. */
  function PageError(pages: map<string, Page>, url: string): Error
  {
    if url !in pages then NetworkError
    else if pages[url].status != 200 then ApiError(pages[url].status)
    else AttributeError
  }

  /** Starting at `url`, the loop leaves after at most `n` requests. */
  predicate ExitsWithin(pages: map<string, Page>, url: string, n: nat)
    decreases n
  {
    n > 0 &&
    (!Served(pages, url) || NextLink(pages[url]).None? ||
     ExitsWithin(pages, NextLink(pages[url]).value, n - 1))
  }

  /** The chain of `next` pointers from `url` ends: the server's pages form a
      finite chain (on a cycle the loop never stops). */
  ghost predicate ChainEnds(pages: map<string, Page>, url: string)
  {
    exists n: nat :: ExitsWithin(pages, url, n)
  }

  /** The URLs requested, in order, starting at `url`. */
  function WalkWithin(pages: map<string, Page>, url: string, n: nat): (urls: seq<string>)
    requires ExitsWithin(pages, url, n)
    ensures |urls| >= 1 && urls[0] == url
    decreases n
  {
    if !Served(pages, url) || NextLink(pages[url]).None? then [url]
    else [url] + WalkWithin(pages, NextLink(pages[url]).value, n - 1)
  }

  lemma {:induction false} WalkFuel(pages: map<string, Page>, url: string, n: nat, m: nat)
    requires ExitsWithin(pages, url, n) && ExitsWithin(pages, url, m)
    ensures WalkWithin(pages, url, n) == WalkWithin(pages, url, m)
    decreases n
  {
    if Served(pages, url) && NextLink(pages[url]).Some? {
      WalkFuel(pages, NextLink(pages[url]).value, n - 1, m - 1);
    }
  }

  /** A request that fails, or a page without a link to follow, is the last. */
  lemma WalkStops(pages: map<string, Page>, url: string, n: nat)
    requires ExitsWithin(pages, url, n) && !Served(pages, url)
    ensures WalkWithin(pages, url, n) == [url]
  {
  }

  /** A served page without a link to follow is the last. */
  lemma WalkLast(pages: map<string, Page>, url: string, n: nat)
    requires ExitsWithin(pages, url, n) && Served(pages, url) && NextLink(pages[url]).None?
    ensures WalkWithin(pages, url, n) == [url]
  {
  }

  /** A served page with a link to follow is followed by the walk from that link. */
  lemma WalkNext(pages: map<string, Page>, url: string, n: nat)
    requires ExitsWithin(pages, url, n) && Served(pages, url) && NextLink(pages[url]).Some?
    ensures var next := NextLink(pages[url]).value;
      n > 0 && ExitsWithin(pages, next, n - 1) &&
      WalkWithin(pages, url, n) == [url] + WalkWithin(pages, next, n - 1)
  {
  }

  ghost function Walk(pages: map<string, Page>, url: string): seq<string>
    requires ChainEnds(pages, url)
  {
    var n: nat :| ExitsWithin(pages, url, n);
    WalkWithin(pages, url, n)
  }

  lemma WalkIs(pages: map<string, Page>, url: string, n: nat)
    requires ExitsWithin(pages, url, n)
    ensures ChainEnds(pages, url) && Walk(pages, url) == WalkWithin(pages, url, n)
  {
    forall m: nat | ExitsWithin(pages, url, m)
      ensures WalkWithin(pages, url, m) == WalkWithin(pages, url, n)
    {
      WalkFuel(pages, url, m, n);
    }
  }

  /** Every request but the first uses the `next` link of the page before it,
      every page before the last was served, and the last page either failed or
      carries no link to follow. */
  lemma {:induction false} WalkChain(pages: map<string, Page>, url: string, n: nat)
    requires ExitsWithin(pages, url, n)
    ensures var urls := WalkWithin(pages, url, n);
      && (forall k :: 0 <= k < |urls| - 1 ==>
            Served(pages, urls[k]) && NextLink(pages[urls[k]]) == Some(urls[k + 1]))
      && (!Served(pages, urls[|urls| - 1]) || NextLink(pages[urls[|urls| - 1]]).None?)
    decreases n
  {
    if Served(pages, url) && NextLink(pages[url]).Some? {
      var next := NextLink(pages[url]).value;
      WalkChain(pages, next, n - 1);
      var rest := WalkWithin(pages, next, n - 1);
      assert WalkWithin(pages, url, n) == [url] + rest;
    }
  }

  /** The surviving tracks of the pages at `urls`, page after page. */
  function Gathered(pages: map<string, Page>, urls: seq<string>): seq<Track>
  {
    if urls == [] then []
    else
      var last := urls[|urls| - 1];
      Gathered(pages, urls[..|urls| - 1]) + (if last in pages then FilterMap(pages[last].items, Keep) else [])
  }

  lemma GatheredSnoc(pages: map<string, Page>, urls: seq<string>, url: string)
    requires url in pages
    ensures Gathered(pages, urls + [url]) == Gathered(pages, urls) + FilterMap(pages[url].items, Keep)
  {
    assert (urls + [url])[..|urls|] == urls;
  }

  /** All items of the pages at `urls`, page after page. */
  function ItemsOf(pages: map<string, Page>, urls: seq<string>): seq<Item>
  {
    if urls == [] then []
    else
      var last := urls[|urls| - 1];
      ItemsOf(pages, urls[..|urls| - 1]) + (if last in pages then pages[last].items else [])
  }

  /** Filtering page by page and concatenating is filtering the concatenation
      of all pages' items. */
  lemma {:induction false} GatheredFilters(pages: map<string, Page>, urls: seq<string>)
    ensures Gathered(pages, urls) == FilterMap(ItemsOf(pages, urls), Keep)
  {
    if urls != [] {
      var init, last := urls[..|urls| - 1], urls[|urls| - 1];
      GatheredFilters(pages, init);
      var items := if last in pages then pages[last].items else [];
      FilterMapAppend(ItemsOf(pages, init), items, Keep);
    }
  }

  /** When the page loop is reached, paging from its first page ends. */
  ghost predicate PagingEnds(link: string, market: string, env: SpotifyEnv)
  {
    LoopReached(link, env) ==>
      ChainEnds(env.pages, TracksUrl(ExtractPlaylistId(link).value, market))
  }

  /** The page loop is reached: the link parses, the credentials are set and the
      token request succeeds. */
  predicate LoopReached(link: string, env: SpotifyEnv)
  {
    ExtractPlaylistId(link).Ok? && CredentialsPresent(env) && env.token.Some? && env.token.value.status == 200
  }

  /** The page URLs `get_all_tracks` requests, in order. */
  ghost function PagesRequested(link: string, market: string, env: SpotifyEnv): seq<string>
    requires PagingEnds(link, market, env)
  {
    if LoopReached(link, env)
    then Walk(env.pages, TracksUrl(ExtractPlaylistId(link).value, market))
    else []
  }

  /** What the page loop returns or raises, from the first page's URL: the
      surviving tracks of every requested page when the last request succeeds,
      and that request's failure otherwise. */
  ghost function PagedTracks(pages: map<string, Page>, start: string): Result<seq<Track>>
    requires ChainEnds(pages, start)
  {
    var urls := Walk(pages, start);
    var last := urls[|urls| - 1];
    if Served(pages, last) then Ok(Gathered(pages, urls)) else Err(PageError(pages, last))
  }

  /** What `get_all_tracks` returns or raises. */
  ghost function AllTracks(link: string, market: string, env: SpotifyEnv): Result<seq<Track>>
    requires PagingEnds(link, market, env)
  {
    match ExtractPlaylistId(link)
    case Err(e) => Err(e)
    case Ok(id) =>
      if !CredentialsPresent(env) then Err(CredentialsMissing)
      else if env.token.None? then Err(NetworkError)
      else if env.token.value.status != 200 then Err(TokenRejected(env.token.value.status))
      else PagedTracks(env.pages, TracksUrl(id, market))
  }

  /** The loop over one page's items: each kept item is appended to `tracks`; a
      null track raises. */
  method AppendPageTracks(tracks: seq<Track>, items: seq<Item>) returns (r: Result<seq<Track>>)
    ensures HasNullTrack(items) ==> r == Err(AttributeError)
    ensures !HasNullTrack(items) ==> r == Ok(tracks + FilterMap(items, Keep))
  {
    var allTracks := tracks;
    var k := 0;
    while k < |items|
      invariant 0 <= k <= |items|
      invariant forall j :: 0 <= j < k ==> !items[j].track.NullTrack?
      invariant allTracks == tracks + FilterMap(items[..k], Keep)
    {
      var item := items[k];
      if item.track.NullTrack? {
        return Err(AttributeError);
      }
      assert items[..k + 1] == items[..k] + [item];
      FilterMapSnoc(items[..k], item, Keep);
      if !(item.track.EmptyTrack? || item.track.obj.isLocal || item.track.obj.restricted) {
        var t := item.track.obj;
        allTracks := allTracks + [Track(t.name, ArtistNames(t.artists), t.albumName)];
      }
      k := k + 1;
    }
    assert items[..k] == items;
    return Ok(allTracks);
  }

  /** `get_all_tracks`: also reports whether the token was requested and which
      page URLs were requested, in order. */
  method GetAllTracks(link: string, market: string, env: SpotifyEnv)
    returns (result: Result<seq<Track>>, tokenRequested: bool, fetched: seq<string>)
    requires PagingEnds(link, market, env)
    ensures result == AllTracks(link, market, env)
    ensures tokenRequested <==> ExtractPlaylistId(link).Ok? && CredentialsPresent(env)
    ensures fetched == PagesRequested(link, market, env)
  {
    tokenRequested, fetched := false, [];
    var extracted := ExtractPlaylistId(link);
    if extracted.Err? {
      result := Err(extracted.error);
      return;
    }
    if !CredentialsPresent(env) {
      result := Err(CredentialsMissing);
      return;
    }
    tokenRequested := true;
    if env.token.None? {
      result := Err(NetworkError);
      return;
    }
    if env.token.value.status != 200 {
      result := Err(TokenRejected(env.token.value.status));
      return;
    }
    result, fetched := FetchPages(env.pages, TracksUrl(extracted.value, market));
  }

  /** The `while url:` loop of `get_all_tracks`, from the first page's URL: it
      reports the URLs it requested, in order. */
  method FetchPages(pages: map<string, Page>, start: string)
    returns (result: Result<seq<Track>>, fetched: seq<string>)
    requires start != "" && ChainEnds(pages, start)
    ensures fetched == Walk(pages, start)
    ensures result == PagedTracks(pages, start)
  {
    fetched := [];
    var url: Option<string> := Some(start);
    var allTracks: seq<Track> := [];
    ghost var budget: nat :| ExitsWithin(pages, start, budget);
    WalkIs(pages, start, budget);
    ghost var walk := WalkWithin(pages, start, budget);
    while Truthy(url)
      invariant Truthy(url) ==>
        ExitsWithin(pages, url.value, budget) && walk == fetched + WalkWithin(pages, url.value, budget)
      invariant !Truthy(url) ==>
        walk == fetched && fetched != [] && Served(pages, fetched[|fetched| - 1])
      invariant allTracks == Gathered(pages, fetched)
      decreases budget
    {
      var pageUrl := url.value;
      ghost var before := fetched;
      fetched := fetched + [pageUrl];
      var shaped := RequestPage(pages, pageUrl, allTracks);
      if shaped.Err? {
        WalkStops(pages, pageUrl, budget);
        PagedTracksOf(pages, start, fetched);
        result := shaped;
        return;
      }
      GatheredSnoc(pages, before, pageUrl);
      allTracks := shaped.value;
      url := pages[pageUrl].next;
      if url == Some("null") {
        WalkLast(pages, pageUrl, budget);
        break;
      }
      if Truthy(url) {
        WalkNext(pages, pageUrl, budget);
      } else {
        WalkLast(pages, pageUrl, budget);
      }
      budget := budget - 1;
    }
    PagedTracksOf(pages, start, fetched);
    result := Ok(allTracks);
  }

  /** One request of the loop: the page's surviving tracks appended to `tracks`,
      or the failure the request raises. */
  method RequestPage(pages: map<string, Page>, url: string, tracks: seq<Track>)
    returns (r: Result<seq<Track>>)
    ensures Served(pages, url) ==> r == Ok(tracks + FilterMap(pages[url].items, Keep))
    ensures !Served(pages, url) ==> r == Err(PageError(pages, url))
  {
    if url !in pages {
      return Err(NetworkError);
    }
    var page := pages[url];
    if page.status != 200 {
      return Err(ApiError(page.status));
    }
    r := AppendPageTracks(tracks, page.items);
  }

  /** The loop's result once the requests it made are known. */
  lemma PagedTracksOf(pages: map<string, Page>, start: string, urls: seq<string>)
    requires ChainEnds(pages, start) && Walk(pages, start) == urls && urls != []
    ensures Served(pages, urls[|urls| - 1]) ==> PagedTracks(pages, start) == Ok(Gathered(pages, urls))
    ensures !Served(pages, urls[|urls| - 1]) ==>
      PagedTracks(pages, start) == Err(PageError(pages, urls[|urls| - 1]))
  {
  }

  /** The requests of the loop chain through the `next` links, and the result is
      every served page's surviving items, in page order and item order: a
      filter of the concatenated items, so no longer than they are. */
  lemma AllTracksShape(link: string, market: string, env: SpotifyEnv)
    requires PagingEnds(link, market, env)
    ensures var urls := PagesRequested(link, market, env);
      && (LoopReached(link, env) ==>
            urls != [] && urls[0] == TracksUrl(ExtractPlaylistId(link).value, market) &&
            forall k :: 0 <= k < |urls| - 1 ==>
              Served(env.pages, urls[k]) && NextLink(env.pages[urls[k]]) == Some(urls[k + 1]))
      && (AllTracks(link, market, env).Ok? ==>
            var tracks := AllTracks(link, market, env).value;
            tracks == FilterMap(ItemsOf(env.pages, urls), Keep) &&
            |tracks| <= |ItemsOf(env.pages, urls)| &&
            NextLink(env.pages[urls[|urls| - 1]]).None?)
  {
    if LoopReached(link, env) {
      var start := TracksUrl(ExtractPlaylistId(link).value, market);
      var n: nat :| ExitsWithin(env.pages, start, n);
      WalkIs(env.pages, start, n);
      WalkChain(env.pages, start, n);
      GatheredFilters(env.pages, PagesRequested(link, market, env));
    }
  }

  /** The failures: an unparsable link, missing credentials, a token request that
      raises or is rejected, or a request that is not served, which must then be
      the last one; a page with a status other than 200 always ends the run with
      ApiError. */
  lemma AllTracksErrors(link: string, market: string, env: SpotifyEnv)
    requires PagingEnds(link, market, env)
    ensures !Contains(link, PlaylistMarker) ==> AllTracks(link, market, env) == Err(IndexError)
    ensures Contains(link, PlaylistMarker) && !CredentialsPresent(env) ==>
      AllTracks(link, market, env) == Err(CredentialsMissing)
    ensures Contains(link, PlaylistMarker) && CredentialsPresent(env) && env.token.None? ==>
      AllTracks(link, market, env) == Err(NetworkError)
    ensures var reply := env.token;
      Contains(link, PlaylistMarker) && CredentialsPresent(env) && reply.Some? && reply.value.status != 200 ==>
        AllTracks(link, market, env) == Err(TokenRejected(reply.value.status))
    ensures var urls := PagesRequested(link, market, env);
      forall k :: 0 <= k < |urls| && urls[k] in env.pages && env.pages[urls[k]].status != 200 ==>
        k == |urls| - 1 && AllTracks(link, market, env) == Err(ApiError(env.pages[urls[k]].status))
  {
    ExtractPlaylistIdSpec(link);
    if LoopReached(link, env) {
      var start := TracksUrl(ExtractPlaylistId(link).value, market);
      var n: nat :| ExitsWithin(env.pages, start, n);
      WalkIs(env.pages, start, n);
      WalkChain(env.pages, start, n);
    }
  }

  /** `get_playlist_name` up to its request: the id is extracted first, so a
      link without "/playlist/" raises before `fetchName` (the token request
      and the metadata request) is consulted. */
  function GetPlaylistName(link: string, fetchName: string -> Result<string>): (r: Result<string>)
    ensures !Contains(link, PlaylistMarker) ==> r == Err(IndexError)
    ensures Contains(link, PlaylistMarker) ==> r == fetchName(ExtractPlaylistId(link).value)
  {
    ExtractPlaylistIdSpec(link);
    match ExtractPlaylistId(link)
    case Err(e) => Err(e)
    case Ok(id) => fetchName(id)
  }
}
