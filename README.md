# Discovery plugins of MoviePilot-Plugins, modelled in Dafny

The repository holds plugins for the MoviePilot media server. The ones
modelled here add "discovery" sources: listings that the host's explore page
can browse. Each plugin:

- scrapes one site's HTML;
- turns every match of a record pattern into a media record (the keyword
  arguments of the host's `MediaInfo`);
- serves one page of those records to an API call guarded by the host's
  API token;
- on the host's `DiscoverSource` event, registers a source descriptor by
  appending it to the event's `extra_sources` list.

The model covers four plugins and one scraping client:

- **M-Team** (`plugins.v2/mteamdiscover`). It parses torrent rows into
  torrent dicts:
  - the title, size, upload time and seeder count are stripped;
  - a cover URL that does not begin with "http" goes under the site root;
  - the year is the leftmost match of `\b(19\d{2}|20\d{2})\b`.

  It converts every torrent into a media record, where one seeder count that
  `float` rejects loses the whole page. It then serves the Python slice
  `results[(page-1)*count : (page-1)*count+count]`.
- **TheTVDB** (`plugins.v2/tvdbdiscover`). It actually scrapes the JavDB
  view rankings.
- **JavDB** (`plugins.v2/javdbdiscover`). It scrapes the JavDB search or
  rankings.

  TheTVDB and JavDB run the same loop over the matches of one item pattern:
  - it breaks at index `count`;
  - every record `urljoin`s the link, and the cover unless it already
    begins with "http", against `https://javdb.com`;
  - the first record that raises ends the loop, and the handler around the
    loop keeps what was already built.
- **The first JavDB plugin** (`javdbdiscover/__init__.py`) and its client
  (`javdbdiscover/javdbdiscover.py`). The client builds a dict per
  `.grid-item`.

  The client module never imports `logger`, so every `except` handler in it
  raises `NameError` on its first line. One malformed item therefore loses
  the whole page. A failed request raises rather than returning None.

  The plugin module imports the client class as `JavdbDiscover` and then
  defines its own plugin class under the same name. So `init_plugin` tries
  to build another plugin instance, not a client. The plugin class defines
  neither an `__init__(base_url, headers)` nor a `get_page(page=…)`, so
  most likely the construction, or else the `get_page` call, raises. In that
  case `Discover` answers [] and the branch that maps results is never
  reached. This is not certain: the plugin base class is not part of this
  model. The model therefore keeps that object as the arguments it was
  built with (`ClientHandle`). What building it raises is an input of
  `InitPlugin`. What the `get_page` call ends with, a list of dicts or an
  exception, is an input of `Discover`.

### How the model is arranged

- **Pure record-building code** is functions and lemmas. This covers
  stripping, splitting, the year search, `urljoin`, the record dicts and
  the page window.
- **The loops** are methods proved against those functions:
  - `ParseTorrents`;
  - the shared `BuildRecords`, used by both `ParseHtml` methods;
  - the client's `ParsePageData`;
  - the first plugin's mapping loop in `Discover`.
- **Each plugin** is a class whose fields are its settings. `InitPlugin`
  and `StopService` update those fields.
- **The host's `extra_sources` list** is a `SourceList` object, so an
  append is seen by every holder of the list.

### What the model takes as inputs

These are parameters rather than computations:

- HTTP requests and the regular-expression / BeautifulSoup matching of
  their bodies. They are a `Fetch` value: either the request raised, or it
  returned the capture groups in document order.
- Python's `float` on a seeder count.
- The Unicode `\d` and `\w` classes.
- What `urljoin` does with references outside the two shapes resolved here
  (`other`).
- The host's `settings.API_TOKEN` (`apiToken`).

## Model

| member | source | states |
|---|---|---|
| Py.StripSpec | plugins.v2/mteamdiscover/__init__.py:274-277 | `str.strip()` gives the contiguous part of the string between leading and trailing whitespace; everything cut off is whitespace and the result neither begins nor ends with whitespace |
| Py.StripIdempotent | javdbdiscover/javdbdiscover.py:65 | stripping a stripped string changes nothing |
| Py.Split | plugins.v2/tvdbdiscover/__init__.py:242 | `str.split(sep)` gives at least one piece and no piece holds the separator |
| Py.JoinSplit | plugins.v2/tvdbdiscover/__init__.py:242 | joining the pieces of a split with the separator gives back the string |
| Py.SplitJoin | plugins.v2/javdbdiscover/__init__.py:227 | splitting a join of separator-free pieces gives back the pieces |
| Py.LastPieceSpec | plugins.v2/tvdbdiscover/__init__.py:242 | `s.split(sep)[-1]` is the text after the last separator (the whole string when there is none) and holds no separator |
| Py.NatToStrRoundTrip | plugins.v2/tvdbdiscover/__init__.py:207 | the decimal text of a page number reads back as the number and has no leading zero |
| Py.IntToStrSpec | javdbdiscover/javdbdiscover.py:37 | `str(i)` starts with '-' exactly when `i` is negative, and its digits read back as the magnitude |
| Py.SliceRules | plugins.v2/mteamdiscover/__init__.py:343-346 | a negative bound from -len to -1 slices as that bound plus len; a bound below -len slices as 0 and one past the end as len, for either bound, so `hi < -len` or `lo > len` gives []; in-range bounds give `s[lo..hi]`; a bound pair that does not advance gives []; a slice is never longer than the list |
| Py.PageWindow | plugins.v2/mteamdiscover/__init__.py:343-346 | for page >= 1 and count >= 0, `s[(page-1)*count:(page-1)*count+count]` is the ordered window of `s` from that start, of exactly min(count, what remains) elements, empty when nothing remains |
| Py.PrefixSlice | plugins.v2/tvdbdiscover/__init__.py:215 | `s[:count]` keeps the first `count` elements, and for a negative count drops `-count` elements from the end |
| Year.FirstYearFrom | plugins.v2/mteamdiscover/__init__.py:285 | the returned position is the leftmost at or after `from` where the year pattern matches, and None means no position matches |
| Year.SearchYearSpec | plugins.v2/mteamdiscover/__init__.py:285-286 | a year is found exactly when the pattern matches somewhere, and it is the four characters at the leftmost match, which occur in the title |
| UrlJoin.ResolvedIsAbsolute | plugins.v2/tvdbdiscover/__init__.py:238-239 | `urljoin` on the site root turns a path reference into an https URL that begins with the site root and whose host is exactly `javdb.com`, and returns an absolute http(s) URL unchanged |
| UrlJoin.ResolveIdempotent | plugins.v2/javdbdiscover/__init__.py:223-224 | joining an already joined URL against the site root changes nothing |
| UrlJoin.ResolveAbsolutePath | plugins.v2/javdbdiscover/__init__.py:223 | a path beginning with '/' is appended to the site root as it is |
| UrlJoin.ResolveRelativePath | plugins.v2/javdbdiscover/__init__.py:224 | a relative path with no empty inner segment is appended to the site root after one '/' |
| Host.SourceList.Append | plugins.v2/javdbdiscover/__init__.py:303 | `list.append` adds the source at the end of the shared list |
| Host.AppendOrCreate | plugins.v2/mteamdiscover/__init__.py:557-560 | a None or empty `extra_sources` is replaced by a fresh one-element list; otherwise the source is appended to the existing list in place |
| MTeamPlugin.ImageUrlSpec | plugins.v2/mteamdiscover/__init__.py:280-282 | the cover URL always begins with "http"; it equals the captured source exactly when that began with "http", and otherwise is the site root, '/', and the source |
| MTeamPlugin.TorrentSpec | plugins.v2/mteamdiscover/__init__.py:272-295 | a torrent dict has the row's id, the stripped title, a cover URL beginning with "http", and the title's leftmost year, or None when the title holds no year |
| MTeamPlugin.ParseTorrents | plugins.v2/mteamdiscover/__init__.py:260-301 | one torrent dict per row match, in match order |
| MTeamPlugin.MediaOfSpec | plugins.v2/mteamdiscover/__init__.py:309-323 | the media id is the torrent id and the title is the stripped title; title_year shows the found year, or "未知" when there is none |
| MTeamPlugin.MediaAll | plugins.v2/mteamdiscover/__init__.py:340 | the conversion of all torrents succeeds exactly when no seeder count fails `float`, and then gives each torrent's media record in order |
| MTeamPlugin.TorrentWindowSpec | plugins.v2/mteamdiscover/__init__.py:338-346 | at most `count` records; one failing seeder count empties the page; otherwise the page holds min(count, what remains after start) records and record k is the media record of torrent start+k (torrent i being the dict of row i, by `ParseTorrents`), and the page is empty exactly when count is 0 or start is past the last torrent |
| MTeamPlugin.ListingSpec | plugins.v2/mteamdiscover/__init__.py:328-350 | for page >= 1 and count >= 0 the answer has at most `count` records, and a request that raised gives [] |
| MTeamPlugin.MTeamDiscover.constructor | plugins.v2/mteamdiscover/__init__.py:39-43 | the class-level defaults |
| MTeamPlugin.MTeamDiscover.InitPlugin | plugins.v2/mteamdiscover/__init__.py:44-51 | a non-empty config sets all five settings, and a missing key becomes None; otherwise nothing changes |
| MTeamPlugin.MTeamDiscover.Discover | plugins.v2/mteamdiscover/__init__.py:303-350 | a wrong apikey gives [] with no request; otherwise the request carries the filter arguments and the answer is the page window of the converted torrents |
| MTeamPlugin.MTeamDiscover.DiscoverSource | plugins.v2/mteamdiscover/__init__.py:538-560 | without `enabled` and either a cookie or both username and password, the event is untouched; otherwise the M-Team source is appended, or becomes the only source; an old empty list that is replaced is left unchanged |
| JavdbItems.CoverUrlSpec | plugins.v2/tvdbdiscover/__init__.py:239 | a source beginning with "http" is kept; any other path becomes an absolute URL on the site that joins to itself again; only other shapes can make the join raise |
| JavdbItems.VideoIdSpec | plugins.v2/tvdbdiscover/__init__.py:242 | with a '/' in the link, the id is what follows the link's last '/' (empty for a trailing '/'); otherwise it is the raw title |
| JavdbItems.BuiltPrefixSpec | plugins.v2/tvdbdiscover/__init__.py:233-257 | the loop keeps the records of the first matches in order, at most `count` of them; it stops short of both the end and `count` only at a record that raises; with no raising record it keeps exactly min(len, count) |
| JavdbItems.BuiltPrefixStep | plugins.v2/javdbdiscover/__init__.py:218-220 | at index i the loop stops at `count` or at a raising record, and otherwise keeps that record |
| JavdbItems.Outcomes | plugins.v2/javdbdiscover/__init__.py:218 | the outcome of each match's record, in match order |
| JavdbItems.BuildRecords | plugins.v2/javdbdiscover/__init__.py:214-246 | the loop with its `break` at `count` and the surrounding handler builds exactly the records that `BuiltPrefix` describes |
| JavdbItems.TruncateBuilt | plugins.v2/javdbdiscover/__init__.py:197 | the final `[:count]` never removes a record the loop built |
| TvdbPlugin.PagePathSpec | plugins.v2/tvdbdiscover/__init__.py:199-207 | the path is always the rankings path, whatever the media type; "?page=N" follows exactly when page > 1, and N reads back as the page |
| TvdbPlugin.RecordSpec | plugins.v2/tvdbdiscover/__init__.py:238-256 | a record is built exactly when neither join raises; it is typed 电影 exactly when the link contains "movies" (otherwise 电视剧); it carries prefix "tvdb", the stripped title as title and title_year, the video id and the cover URL |
| TvdbPlugin.ParsedSpec | plugins.v2/tvdbdiscover/__init__.py:221-262 | the parsed listing holds the records of the first matches in order, at most `count`; with only resolvable links and covers it holds exactly min(len, count) |
| TvdbPlugin.TvdbDiscover.constructor | plugins.v2/tvdbdiscover/__init__.py:39-41 | the class-level defaults |
| TvdbPlugin.TvdbDiscover.InitPlugin | plugins.v2/tvdbdiscover/__init__.py:43-47 | a non-empty config sets enabled, proxy and api_key; otherwise nothing changes |
| TvdbPlugin.TvdbDiscover.ParseHtml | plugins.v2/tvdbdiscover/__init__.py:221-262 | the records the bounded loop builds |
| TvdbPlugin.TvdbDiscover.Discover | plugins.v2/tvdbdiscover/__init__.py:179-219 | a wrong apikey, a disabled plugin or a missing API key gives [] and no request; otherwise the rankings page is requested with the API key as cookie, and the answer is the parsed records, or [] when the request raised |
| TvdbPlugin.TvdbDiscover.DiscoverSource | plugins.v2/tvdbdiscover/__init__.py:319-350 | unless enabled with an API key the event is untouched; otherwise the TheTVDB source with its ten filter defaults is appended, or becomes the only source; an old empty list that is replaced is left unchanged |
| JavdbPlugin.PagePathSpec | plugins.v2/javdbdiscover/__init__.py:179-189 | a non-empty keyword gives the search path, otherwise the rankings path; "&page=N" follows exactly when page > 1, and N reads back as the page |
| JavdbPlugin.RankingsPageIsNotQuery | plugins.v2/javdbdiscover/__init__.py:183-189 | without a keyword the path has no '?', so "&page=N" is part of the path and never a query parameter |
| JavdbPlugin.RecordSpec | plugins.v2/javdbdiscover/__init__.py:223-240 | a record is built exactly when neither join raises; mediaid is "javdb:" and the video id; poster and backdrop are the same cover URL; the detail link is the joined link, on the site for a path link |
| JavdbPlugin.ParsedSpec | plugins.v2/javdbdiscover/__init__.py:203-246 | the parsed listing holds the records of the first matches in order, at most `count`; with only resolvable links and covers it holds exactly min(len, count) |
| JavdbPlugin.JavdbDiscover.constructor | plugins.v2/javdbdiscover/__init__.py:35-37 | the class-level defaults |
| JavdbPlugin.JavdbDiscover.InitPlugin | plugins.v2/javdbdiscover/__init__.py:39-43 | a non-empty config sets enabled, proxy and cookie; otherwise nothing changes |
| JavdbPlugin.JavdbDiscover.ParseHtml | plugins.v2/javdbdiscover/__init__.py:203-246 | the records the bounded loop builds |
| JavdbPlugin.JavdbDiscover.Discover | plugins.v2/javdbdiscover/__init__.py:168-201 | the apikey is not checked; a disabled plugin or a missing cookie gives [] and no request; otherwise the page is requested with the cookie, and the answer is the parsed records, or [] when the request raised |
| JavdbPlugin.JavdbDiscover.DiscoverSource | plugins.v2/javdbdiscover/__init__.py:279-303 | unless enabled with a cookie nothing happens; otherwise the source is appended even to an empty list, and a None list raises AttributeError and changes nothing |
| LegacyJavdbClient.JavdbDiscover.constructor | javdbdiscover/javdbdiscover.py:6-8 | the client keeps its base URL and headers |
| LegacyJavdbClient.JavdbDiscover.PageUrlSpec | javdbdiscover/javdbdiscover.py:37 | the page URL is the base URL, "/page/", and the decimal page number, which reads back as the page |
| LegacyJavdbClient.JavdbDiscover.RecordSpec | javdbdiscover/javdbdiscover.py:64-85 | a record has exactly the keys title, link, cover and info; title and info are stripped; link and cover keep a source beginning with "http" and otherwise follow the base URL with no separator |
| LegacyJavdbClient.JavdbDiscover.ParseOutcomeSpec | javdbdiscover/javdbdiscover.py:48-92 | the records come back exactly when every item is well formed, one per item in order; otherwise the parse raises NameError("logger") |
| LegacyJavdbClient.JavdbDiscover.ParsePageData | javdbdiscover/javdbdiscover.py:48-92 | the loop over the grid items ends in the outcome `ParseOutcome` describes |
| LegacyJavdbClient.JavdbDiscover.GetPageData | javdbdiscover/javdbdiscover.py:29-46 | the page URL is requested; a failed request raises NameError rather than returning None |
| LegacyJavdbClient.JavdbDiscover.GetPage | javdbdiscover/javdbdiscover.py:10-27 | an empty page gives []; otherwise the parse outcome, and every failure ends as NameError("logger") |
| LegacyJavdbClient.NoSeparator | javdbdiscover/javdbdiscover.py:73-75 | on the site root, "a.jpg" becomes "https://javdb.coma.jpg" |
| LegacyJavdbPlugin.MediaList | javdbdiscover/__init__.py:164-176 | the media records of `results[:count]`, in order, with `.get` defaults |
| LegacyJavdbPlugin.MediaListLength | javdbdiscover/__init__.py:164 | there are min(len, count) records for count >= 0, and a negative count drops that many results from the end |
| LegacyJavdbPlugin.ClientRecordMedia | javdbdiscover/__init__.py:165-176 | a client record has no "id", so its media id is always ""; title, poster and overview are the record's title, cover and info |
| LegacyJavdbPlugin.JavdbDiscover.constructor | javdbdiscover/__init__.py:35-38 | the class-level defaults |
| LegacyJavdbPlugin.JavdbDiscover.InitPlugin | javdbdiscover/__init__.py:40-55 | a non-empty config sets the settings; when it enables the plugin, the client field is the object built with the site root and a cookie header ("" for a falsy cookie), unless building it raises |
| LegacyJavdbPlugin.JavdbDiscover.StopService | javdbdiscover/__init__.py:211-215 | drops the client object and keeps the settings |
| LegacyJavdbPlugin.JavdbDiscover.Discover | javdbdiscover/__init__.py:146-180 | a wrong apikey, a disabled plugin or no client object gives [] without a page call; otherwise page `page` is asked for and the answer is the media records of the first `count` results, or [] when the call raised |
| LegacyJavdbPlugin.JavdbDiscover.DiscoverSource | javdbdiscover/__init__.py:183-209 | unless enabled with a cookie the event is untouched; otherwise the source is appended, or becomes the only source; an old empty list that is replaced is left unchanged |

## Left out

- HTTP is not modelled. This covers `RequestUtils`, `requests`, the proxy
  itself, the fixed User-Agent and Accept headers, status checks and
  timeouts. A request is a `Fetch` input, and a listing request is reduced
  to its URL, Cookie header and proxy flag.
- The M-Team `__request` arguments are kept as a `TorrentQuery`; the form
  and URL it builds are not modelled.
- The `@cached` TTL memoisation of M-Team's `__request` and `__get_cookie`
  and of TheTVDB's `__request` is not modelled. A repeat call within the
  TTL gets the cached page back, which is just another value of the `Fetch`
  input.
- M-Team's `__get_cookie` login flow is not modelled: it is network I/O.
- The regular-expression engine and BeautifulSoup are not modelled. The
  model starts from the capture groups or selected elements, in document
  order.
- MTeamPlugin.MediaOf: `vote_average=float(seeder_count or 0)` is left out
  of the record, because floats are not modelled. Whether `float` accepts
  the text is the `parsesAsFloat` input, and a rejection is modelled as
  the exception that empties the page.
- MTeamPlugin.ListingSpec: states the bound and the failed-request case at
  page level. The record-by-record content is stated over a general start
  index in MTeamPlugin.TorrentWindowSpec, which `Listing` uses with
  `start = (page-1)*count`.
- UrlJoin.JoinBase: computes `urljoin` only for:
  - plain paths without dot segments, queries, fragments or parameters;
  - http(s) URLs with an ordinary host.

  Any other reference is an input, including one with a query, a fragment,
  "." or "..", another scheme, or a network path.
- Year.SearchYear: Python's Unicode `\d` and `\w` classes are an input
  (`CharClasses`), not a character table.
- The default values of the API routes' parameters are not modelled:
  `page=1`, `count=30`, and the `keyword`/`query`, `mtype`, `category`,
  `search` and sort defaults. Each entry point takes every argument
  explicitly, as the host passes them.
- Logging is not modelled. Each plugin checks its guards in the same order
  as the source, but which guard rejected a call is visible only in the log.
- The host's `MediaInfo` and `DiscoverMediaSource` pydantic models are not
  modelled: their validation and defaults are not part of the plugins.
  `MediaInfo` is the keyword arguments passed to it, and a source
  descriptor's `filter_ui` schema is left out.
- Not modelled, because they are static UI or plugin metadata rather than
  behaviour:
  - `get_form`, `get_page`, `get_api`, `get_command`, `get_state`;
  - the `*_filter_ui` builders;
  - the class metadata attributes.
- LegacyJavdbPlugin.JavdbDiscover.Discover: the result of `get_page` is an
  input. Because of the name rebinding, the client field holds a plugin
  instance, whose `get_page` is a metadata method of the plugin base class
  that is not part of this model.
- LegacyJavdbPlugin.JavdbDiscover.InitPlugin: the outcome of building that
  object is an input (`construct`), for the same reason.
- `stop_service` of the three v2 plugins is not modelled: it does nothing.
