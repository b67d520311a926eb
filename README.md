# SpotTransfer playlist transfer, modelled in Dafny

SpotTransfer copies a playlist from Spotify to YouTube Music. This project
models the core of that transfer and proves properties of the model:

- **Source side** (`spotify.dfy`):
  - the playlist id is read from a link;
  - the credentials are checked;
  - the `while url:` page loop of `get_all_tracks` follows each page's `next`
    link, filters each page's items and maps them to tracks;
  - `get_playlist_name` extracts the id before it does anything else.
- **Destination side** (`ytm.dfy`):
  - `get_video_ids` searches for each track and keeps the first hit's video
    id, or records the track as missed;
  - it logs progress reports at the trigger indices;
  - it raises when nothing matched;
  - `create_ytm_playlist` flattens the request headers, then runs setup,
    track fetch, name fetch, search and playlist creation in that order.
- **Support modules:**
  - `pystrings.dfy` gives Python's `str.split` and `str.join` for a non-empty
    separator;
  - `sequences.dfy` gives a generic filter-and-map with the positions of the
    kept elements;
  - `outcomes.dfy` holds `Option`, the failures the pipeline can raise, and
    `Result`.

Everything outside the program becomes a parameter:

- **Spotify:**
  - the configured credentials;
  - the token endpoint's reply, or none when the token request raises;
  - the page served at each URL, as a `map` where a missing URL means the
    request raises;
  - the playlist-name request, as a function from id to result.
- **YouTube Music:** session setup, search and playlist creation are
  functions. Setup and creation report only whether they raised.

The loops of the source are `method`s with loop invariants:

- `GetVideoIds`
- `FlattenHeaders`
- `FetchPages`
- `AppendPageTracks`

Each method is proved equal to a specification function, for example:

- `SearchAll` with `ProgressLog`;
- `RawHeaders`;
- `PagedTracks` with `Walk`.

Separate lemmas then prove what the source promises about those functions.

Three behaviours of the code that a reader might not expect:

- **A track with an empty artist list aborts the whole search with
  IndexError.** The exception handler reads `artists[0]` again, which raises
  IndexError a second time, so the track is not recorded as missed.
- **An empty batch of tracks fails like a batch with no matches** ("No songs
  found on YouTube Music", `NoSongsFound`).
- **A null `track` item raises AttributeError.** The debug message for
  skipped items calls `.get` on it.

## Model

| member | source | states |
|---|---|---|
| Spotify.ExtractPlaylistIdSpec | backend/spotify.py:43-44 | The id exists exactly when the link contains "/playlist/". It is the text that follows the first "/playlist/", up to the first "?", the next "/playlist/" or the end of the link. |
| Spotify.ExtractedIdClean | backend/spotify.py:44 | An extracted id never contains "?" or "/playlist/". |
| Spotify.AppendPageTracks | backend/spotify.py:86-97 | A page holding a null track raises AttributeError. Otherwise the page's kept items are appended in item order, with empty, local and restricted tracks skipped and each other track mapped to its name, its artists' names in order and its album name. |
| Spotify.RequestPage | backend/spotify.py:76-97 | One request succeeds exactly when the URL is served with status 200 and holds no null track, and then appends the page's kept tracks. Otherwise it raises NetworkError, ApiError with the status, or AttributeError. |
| Spotify.FetchPages | backend/spotify.py:67-109 | The loop requests exactly the URLs of the walk along the `next` links and returns the result of that walk: all kept tracks when the last request succeeds, or that request's failure. |
| Spotify.GetAllTracks | backend/spotify.py:46-116 | The outcome equals `AllTracks`. The token is requested exactly when the id can be extracted and both credentials are set. The pages requested are exactly the walk from the first tracks URL, and there are none when an earlier step fails. |
| Spotify.WalkChain | backend/spotify.py:71-102 | Each request after the first uses the previous page's `next` link, and every page before the last was served. The last page either failed or has no link to follow, meaning `next` is absent, null, empty or "null". |
| Spotify.GatheredFilters | backend/spotify.py:67-100 | Filtering page by page and concatenating equals filtering the concatenation of all requested pages' items. |
| Spotify.AllTracksShape | backend/spotify.py:62-102 | When the loop is reached, the first request is the tracks URL for the id and the market, and the requests chain through `next` links. A successful result is the filter of all requested items in page and item order, is no longer than those items, and its last page has no link. |
| Spotify.AllTracksErrors | backend/spotify.py:50-81 | A link without "/playlist/" raises IndexError. With the id extracted, a missing client id or secret raises "credentials not configured". With credentials set, a token request that raises gives NetworkError and a token status other than 200 gives TokenRejected with that status. A page with a status other than 200 is always the last request and makes the call raise ApiError with that status, so no partial list is returned. |
| Spotify.GetPlaylistName | backend/spotify.py:118-127 | A link without "/playlist/" raises IndexError before any request. Otherwise the name request is made for the extracted id. No credential check is made. |
| PyStrings.SplitPiecesFree | backend/spotify.py:44 | No piece of `s.split(sep)` contains `sep`. |
| PyStrings.JoinSplit | backend/spotify.py:44 | `sep.join(s.split(sep)) == s`. |
| PyStrings.SplitJoin | backend/ytm.py:76 | For a one-character separator, splitting the joined pieces that do not contain it gives the pieces back. |
| Ytm.LogProgress | backend/ytm.py:23-26 | Before the i-th track is searched, a report (i, total, found so far, missed so far) is appended exactly when the trigger fires. |
| Ytm.GetVideoIds | backend/ytm.py:10-59 | The result equals `SearchAll` and the progress reports equal `ProgressLog`. |
| Ytm.TallyFilters | backend/ytm.py:12-48 | The loop's running state is the found ids in track order, plus the missed count and the missed labels in track order. |
| Ytm.CountMissesLength | backend/ytm.py:47-48 | The missed count equals the number of missed labels. |
| Ytm.SearchedCounts | backend/ytm.py:19-48 | When every track has artists, found plus missed equals the number of tracks, and the count equals the label count. |
| Ytm.NoneFound | backend/ytm.py:55-57 | When every track has artists, no id is found exactly when every track is missed. |
| Ytm.SearchAllOutcome | backend/ytm.py:19-57 | IndexError exactly when some track has no artists. "No songs found" exactly when every track is missed, which includes an empty batch. Otherwise at least one id is found, the count equals the label count, and ids plus misses equals the number of tracks. |
| Ytm.FoundOrder | backend/ytm.py:21-38 | The found ids are the first-hit ids of the found tracks' queries "<name> <first artist>", in track order. A search that raises, returns no hits, or returns a first hit without a video id gives no id. A track is among them exactly when its search gave an id. |
| Ytm.MissedOrder | backend/ytm.py:41-48 | The missed labels are the queries of the tracks whose search gave no id, in track order. A track is among them exactly when it was missed. |
| Ytm.SearchAllOrder | backend/ytm.py:19-59 | On success, the ids and the labels are order-preserving selections of the tracks, each labelled by its track's search outcome, and every track is on exactly one side. |
| Ytm.PrefixCounts | backend/ytm.py:19-48 | After i tracks, all with artists, the found and missed counts sum to i. |
| Ytm.PrefixTally | backend/ytm.py:19-48 | After i tracks, all with artists, the loop's running counts are the numbers of finds and misses among them. |
| Ytm.ProgressUpToFacts | backend/ytm.py:24-26 | Every report has a triggered index and the counts from before that index. Reports come in increasing index order, and every triggered index is reported. |
| Ytm.ProgressLogFacts | backend/ytm.py:19-26 | Every report is for a searched track at a triggered index, with the found and missed counts before it, which sum to the index less one. Reports come in increasing order, and every triggered index up to the first track without artists is reported. |
| Ytm.ProgressEnds | backend/ytm.py:24 | In a non-empty batch whose tracks all have artists, the first report is for track 1 and the last is for the last track. |
| Ytm.FlattenHeaders | backend/ytm.py:69-81 | A header mapping becomes its "key: value" lines joined by line breaks, and header text passes through unchanged. |
| Ytm.HeaderLinesKept | backend/ytm.py:72-75 | The lines are "key: value" for exactly the entries with a non-empty value, in insertion order. |
| Ytm.RawHeadersSplit | backend/ytm.py:72-76 | When no key or value holds a line break and some value is non-empty, splitting the raw text at line breaks gives back exactly the header lines. |
| Ytm.CreateYtmPlaylist | backend/ytm.py:62-107 | The outcome and the creation request sent equal `Transfer`: setup, track fetch, name fetch, search and creation, in that order, with the first failure propagated. |
| Ytm.TransferOutcome | backend/ytm.py:83-103 | A failed setup raises SetupFailed and sends no request, whatever the page chain. After a successful setup, a playlist is requested exactly when track fetch, name fetch and search all succeed. The request is (name, "", "PRIVATE", ids), with at least one id, and ids plus misses cover every fetched track. The call succeeds exactly when creation is accepted, and then returns the missed-tracks report unchanged. After a successful setup, a link without "/playlist/" raises IndexError. |

## Left out

- Logging, the wall-clock timing, the percentage in the progress message and
  the `page_count`/`page_tracks` counters, which only feed log lines. The
  progress reports keep the trigger, the index, the total and the two counts.
- HTTP: the token request, the page requests and the playlist-metadata
  request. They are oracle values or functions, and the access token's use in
  the `Authorization` header is not modelled.
- Environment variables and `.env` loading. The credentials are inputs.
- `ytmusicapi.setup` writing `header_auth.json` and the construction of the
  `YTMusic` client. Setup is one function of the raw header text that says
  whether it raised.
- JSON replies missing a field the code indexes (`access_token`, `items`,
  `name`, `artists`, `album`), which would raise KeyError. The modelled
  replies always carry those fields.
- Header values other than strings. A value is a string, and "truthy" means
  non-empty.
- The value returned by `create_playlist`, which is only logged.
- Ytm.GetVideoIds: a first hit whose `videoId` is present but JSON null is
  appended by the source as `None`. The model treats a hit without an id as
  a miss, the same as a missing key.
- Ytm.GetVideoIds: the search is a deterministic function of the query, so
  two tracks with the same query get the same reply.
- Spotify.GetAllTracks: when the page loop is reached (the link parses, the
  credentials are set and the token request succeeds), requires the chain of
  `next` links from the first page to end (`PagingEnds`). On a cycle of links
  the source loops forever.
- Spotify.FetchPages: requires the same (`ChainEnds`), for the same reason.
- Ytm.CreateYtmPlaylist: when setup succeeds, requires the same chain
  condition on the link (`PagingEnds`); a failed setup needs none.
- The Flask handler and the log-watching scripts. They are I/O around the
  core.
