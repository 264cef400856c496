/**
 * The JavDB discovery plugin (plugins.v2/javdbdiscover/__init__.py): guards,
 * the search or ranking path with its page parameter, the bounded record
 * loop and source registration.
 */
module JavdbPlugin {
  import opened Py
  import opened UrlJoin
  import opened Host
  import opened JavdbItems

  const RankingsPath: string := "rankings/video_views"

  /** The path before paging: a search for a non-empty keyword (inserted
      as is, without URL quoting), otherwise the view rankings. */
  function KeywordPath(keyword: string): string {
    if keyword != "" then "search?q=" + keyword + "&f=all" else RankingsPath
  }

  /** The path after `path += f"&page={page}"` for pages above 1. */
  function PagePath(keyword: string, page: int): string {
    if page > 1 then KeywordPath(keyword) + "&page=" + IntToStr(page) else KeywordPath(keyword)
  }

  /** The path is the search for a non-empty keyword and the rankings
      otherwise; "&page=" and the page number follow exactly when the page
      is above 1, and that number reads back as the page. */
  lemma PagePathSpec(keyword: string, page: int)
    ensures keyword != "" ==> StartsWith(PagePath(keyword, page), "search?q=" + keyword + "&f=all")
    ensures keyword == "" ==> StartsWith(PagePath(keyword, page), RankingsPath)
    ensures page <= 1 <==> PagePath(keyword, page) == KeywordPath(keyword)
    ensures page > 1 ==>
      var q := PagePath(keyword, page)[|KeywordPath(keyword)|..];
      StartsWith(q, "&page=")
      && (forall k | 6 <= k < |q| :: '0' <= q[k] <= '9')
      && DecimalValue(q[6..]) == page
  {
    if page > 1 {
      AppendNumber(KeywordPath(keyword), "&page=", page);
    }
  }

  /** Without a keyword the page number is not sent as a query parameter:
      the path has no '?', so "&page=2" is part of the path itself. */
  lemma RankingsPageIsNotQuery(page: int)
    requires page > 1
    ensures '?' !in PagePath("", page)
    ensures PagePath("", page) == RankingsPath + "&page=" + IntToStr(page)
  {
    IntToStrSpec(page);
    var digits := IntToStr(page);
    assert forall k | 0 <= k < |digits| :: '0' <= digits[k] <= '9';
    var p := PagePath("", page);
    forall k | 0 <= k < |p|
      ensures p[k] != '?'
    {
      if k >= |RankingsPath| + 6 {
        assert p[k] == digits[k - |RankingsPath| - 6];
      }
    }
  }

  /** The record of one match, or None when a `urljoin` raises. */
  function RecordOf(m: ItemMatch, other: string -> Option<string>): Option<MediaInfo> {
    var detail := JoinBase(m.url, other);
    var cover := CoverUrl(m.image, other);
    if detail.None? || cover.None? then None
    else
      Some(map[
        Mediaid := PyStr("javdb:" + VideoId(m)),
        Title := PyStr(Strip(m.title)),
        Overview := PyStr(""),
        PosterPath := PyStr(cover.value),
        BackdropPath := PyStr(cover.value),
        VoteAverage := PyInt(0),
        ReleaseDate := PyStr(""),
        Year := PyStr(""),
        TypeName := PyStr("电影"),
        DetailLink := PyStr(detail.value)])
  }

  /** The record rule with the given `urljoin` behaviour. */
  function Record(other: string -> Option<string>): ItemMatch -> Option<MediaInfo> {
    m => RecordOf(m, other)
  }

  /** A record is built exactly when neither join raises; its media id is
      "javdb:" followed by the video id, poster and backdrop are the same
      cover URL, and the detail link is the joined link, an absolute URL on
      the site when the link is a path. */
  lemma RecordSpec(m: ItemMatch, other: string -> Option<string>)
    ensures RecordOf(m, other).Some? <==> JoinBase(m.url, other).Some? && CoverUrl(m.image, other).Some?
    ensures Resolvable(m.url) && (StartsWith(m.image, "http") || PathReference(m.image)) ==>
      RecordOf(m, other).Some?
    ensures RecordOf(m, other).Some? ==>
      var r := RecordOf(m, other).value;
      r[Mediaid].PyStr? && StartsWith(r[Mediaid].s, "javdb:") && r[Mediaid].s[6..] == VideoId(m)
      && r[PosterPath] == r[BackdropPath] == PyStr(CoverUrl(m.image, other).value)
      && r[DetailLink] == PyStr(JoinBase(m.url, other).value)
      && r[Title] == PyStr(Strip(m.title))
    ensures RecordOf(m, other).Some? && PathReference(m.url) ==>
      var link := RecordOf(m, other).value[DetailLink].s;
      StartsWith(link, Base) && AbsoluteReference(link)
  {
    CoverUrlSpec(m.image, other);
    if PathReference(m.url) {
      ResolvedIsAbsolute(m.url);
    }
    if RecordOf(m, other).Some? {
      var id := RecordOf(m, other).value[Mediaid].s;
      assert id == "javdb:" + VideoId(m);
      assert id[..6] == "javdb:";
    }
  }

  /** The listing built from the matches holds the records of the first
      matches in order, at most `count` of them; when every link and cover
      source has a shape whose resolution is stated here, there are exactly
      min(len(matches), count) of them. */
  lemma ParsedSpec(matches: seq<ItemMatch>, count: int, other: string -> Option<string>)
    ensures var built := BuiltPrefix(Outcomes(matches, Record(other)), count);
      |built| <= |matches| && (count > 0 ==> |built| <= count) && (count <= 0 ==> built == [])
      && forall k | 0 <= k < |built| :: Some(built[k]) == RecordOf(matches[k], other)
    ensures (forall k | 0 <= k < |matches| ::
               Resolvable(matches[k].url) && (StartsWith(matches[k].image, "http") || PathReference(matches[k].image))) ==>
      |BuiltPrefix(Outcomes(matches, Record(other)), count)|
      == (if count <= 0 then 0 else if |matches| < count then |matches| else count)
  {
    var outcomes := Outcomes(matches, Record(other));
    BuiltPrefixSpec(outcomes, count);
    if (forall k | 0 <= k < |matches| ::
          Resolvable(matches[k].url) && (StartsWith(matches[k].image, "http") || PathReference(matches[k].image))) {
      forall k | 0 <= k < |outcomes|
        ensures outcomes[k].Some?
      {
        RecordSpec(matches[k], other);
      }
    }
  }

  class JavdbDiscover {
    var enabled: Value
    var proxy: Value
    var cookie: Value

    /** The class-level defaults. */
    constructor ()
      ensures enabled == PyBool(false) && proxy == PyBool(false) && cookie == PyNone
    {
      enabled, proxy, cookie := PyBool(false), PyBool(false), PyNone;
    }

    /** `init_plugin`: a non-empty configuration replaces every setting;
        otherwise nothing changes. */
    method InitPlugin(config: Config)
      modifies this
      ensures ConfigGiven(config) ==>
        enabled == Setting(config.value, "enabled") && proxy == Setting(config.value, "proxy")
        && cookie == Setting(config.value, "cookie")
      ensures !ConfigGiven(config) ==> unchanged(this)
    {
      if ConfigGiven(config) {
        var c := config.value;
        enabled := Setting(c, "enabled");
        proxy := Setting(c, "proxy");
        cookie := Setting(c, "cookie");
      }
    }

    /** `__parse_html`: the records of the first matches, at most `count`,
        ending at the first match whose record raises. */
    method ParseHtml(matches: seq<ItemMatch>, count: int, other: string -> Option<string>)
      returns (medias: seq<MediaInfo>)
      ensures medias == BuiltPrefix(Outcomes(matches, Record(other)), count)
    {
      medias := BuildRecords(matches, count, Record(other));
    }

    /** The plugin may serve a listing: it is enabled and holds a cookie. */
    predicate Serving()
      reads this
    {
      Truthy(enabled) && Truthy(cookie)
    }

    /** `javdb_discover`: the apikey is not checked; a disabled plugin or a
        missing cookie gives [] before any request; otherwise the page is
        requested with the cookie, and the answer is the records built from
        its matches (at most `count`), or [] when the request raised. */
    method Discover(apikey: string, keyword: string, page: int, count: int,
                    response: Fetch<seq<ItemMatch>>, other: string -> Option<string>)
      returns (medias: seq<MediaInfo>, request: Option<PageRequest>)
      ensures !Serving() ==> medias == [] && request == None
      ensures Serving() ==>
        request == Some(PageRequest(Base + "/" + PagePath(keyword, page), cookie, Truthy(proxy)))
        && medias == (if response.Raised? then [] else BuiltPrefix(Outcomes(response.body, Record(other)), count))
    {
      if !Truthy(enabled) {
        return [], None;
      }
      if !Truthy(cookie) {
        return [], None;
      }
      var path: string;
      if keyword != "" {
        path := "search?q=" + keyword + "&f=all";
      } else {
        path := RankingsPath;
      }
      if page > 1 {
        path := path + "&page=" + IntToStr(page);
      }
      request := Some(PageRequest(Base + "/" + path, cookie, Truthy(proxy)));
      match response {
        case Raised =>
          medias := [];
        case Fetched(matches) =>
          var parsed := ParseHtml(matches, count, other);
          TruncateBuilt(Outcomes(matches, Record(other)), count);
          medias := Slice(parsed, 0, count);
      }
    }

    /** The source descriptor the plugin registers. */
    static function Source(): DiscoverMediaSource {
      DiscoverMediaSource("JavDB", "javdb", "/javdb_discover", map["keyword" := PyStr("搜索关键词")])
    }

    /** `discover_source`: unless enabled with a cookie the event is left
        alone; otherwise the descriptor is appended to `extra_sources` even
        when that list is empty, and a None list makes the append raise an
        AttributeError with nothing changed. */
    method DiscoverSource(event: DiscoverSourceEventData) returns (error: Option<PyError>)
      modifies event.extraSources
      ensures !Serving() || event.extraSources == null ==>
        event.extraSources == null || event.extraSources.items == old(event.extraSources.items)
      ensures error.Some? <==> Serving() && event.extraSources == null
      ensures error.Some? ==> error.value == AttributeError("append")
      ensures Serving() && event.extraSources != null ==>
        event.extraSources.items == old(event.extraSources.items) + [Source()]
    {
      if !Truthy(enabled) {
        return None;
      }
      if !Truthy(cookie) {
        return None;
      }
      if event.extraSources == null {
        return Some(AttributeError("append"));
      }
      event.extraSources.Append(Source());
      error := None;
    }
  }
}
