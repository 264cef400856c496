/**
 * The TheTVDB discovery plugin (plugins.v2/tvdbdiscover/__init__.py), which
 * in fact lists the JavDB view rankings and presents them as TheTVDB
 * records: guards, the ranking path, the bounded record loop and source
 * registration.
 */
module TvdbPlugin {
  import opened Py
  import opened UrlJoin
  import opened Host
  import opened JavdbItems

  const RankingsPath: string := "rankings/video_views"

  /** The path after `path = "rankings/video_views"` (whatever the media
      type) and `if page > 1: path += f"?page={page}"`. */
  function PagePath(page: int): string {
    if page > 1 then RankingsPath + "?page=" + IntToStr(page) else RankingsPath
  }

  /** The path is always the rankings path; it carries a `page` query
      parameter exactly when the page is above 1, and that parameter reads
      back as the page number. */
  lemma PagePathSpec(page: int)
    ensures StartsWith(PagePath(page), RankingsPath)
    ensures page <= 1 <==> PagePath(page) == RankingsPath
    ensures page > 1 ==>
      var q := PagePath(page)[|RankingsPath|..];
      StartsWith(q, "?page=")
      && (forall k | 6 <= k < |q| :: '0' <= q[k] <= '9')
      && DecimalValue(q[6..]) == page
  {
    if page > 1 {
      AppendNumber(RankingsPath, "?page=", page);
    }
  }

  /** The record of one match, or None when a `urljoin` raises: the detail
      URL is computed (and then unused) before the cover URL. */
  function RecordOf(m: ItemMatch, other: string -> Option<string>): Option<MediaInfo> {
    var detail := JoinBase(m.url, other);
    var cover := CoverUrl(m.image, other);
    if detail.None? || cover.None? then None
    else
      var title := Strip(m.title);
      Some(map[
        Type := PyStr(if Contains(m.url, "movies") then "电影" else "电视剧"),
        Title := PyStr(title),
        Year := PyStr(""),
        TitleYear := PyStr(title),
        MediaidPrefix := PyStr("tvdb"),
        MediaId := PyStr(VideoId(m)),
        PosterPath := PyStr(cover.value),
        Overview := PyStr(""),
        VoteAverage := PyInt(0),
        ReleaseDate := PyStr("")])
  }

  /** A record is built exactly when neither join raises; it is a movie
      exactly when its link contains "movies", carries the "tvdb" prefix,
      the stripped title twice, the video id and the cover URL. */
  lemma RecordSpec(m: ItemMatch, other: string -> Option<string>)
    ensures RecordOf(m, other).Some? <==> JoinBase(m.url, other).Some? && CoverUrl(m.image, other).Some?
    ensures Resolvable(m.url) && (StartsWith(m.image, "http") || PathReference(m.image)) ==>
      RecordOf(m, other).Some?
    ensures RecordOf(m, other).Some? ==>
      var r := RecordOf(m, other).value;
      (r[Type] == PyStr("电影") <==> Contains(m.url, "movies"))
      && (r[Type] == PyStr("电影") || r[Type] == PyStr("电视剧"))
      && r[MediaidPrefix] == PyStr("tvdb")
      && r[Title] == r[TitleYear] == PyStr(Strip(m.title))
      && r[MediaId] == PyStr(VideoId(m))
      && r[PosterPath] == PyStr(CoverUrl(m.image, other).value)
  {
    CoverUrlSpec(m.image, other);
  }

  /** The record rule with the given `urljoin` behaviour. */
  function Record(other: string -> Option<string>): ItemMatch -> Option<MediaInfo> {
    m => RecordOf(m, other)
  }

  /** The listing built from the matches holds the records of the first
      matches in order, at most `count` of them; when every link and cover
      source has a shape whose resolution is stated here, no record raises
      and there are exactly min(len(matches), count) of them. */
  lemma ParsedSpec(matches: seq<ItemMatch>, count: int, other: string -> Option<string>)
    ensures var built := BuiltPrefix(Outcomes(matches, Record(other)), count);
      |built| <= |matches| && (count > 0 ==> |built| <= count) && (count <= 0 ==> built == [])
      && forall k | 0 <= k < |built| :: Some(built[k]) == RecordOf(matches[k], other)
    ensures (forall k | 0 <= k < |matches| ::
               Resolvable(matches[k].url) && (StartsWith(matches[k].image, "http") || PathReference(matches[k].image))) ==>
      |BuiltPrefix(Outcomes(matches, Record(other)), count)|
      == (if count <= 0 then 0 else if |matches| < count then |matches| else count)
  {
    var outcomes := Outcomes(matches, Record(other));
    BuiltPrefixSpec(outcomes, count);
    if (forall k | 0 <= k < |matches| ::
          Resolvable(matches[k].url) && (StartsWith(matches[k].image, "http") || PathReference(matches[k].image))) {
      forall k | 0 <= k < |outcomes|
        ensures outcomes[k].Some?
      {
        RecordSpec(matches[k], other);
      }
    }
  }

  class TvdbDiscover {
    var enabled: Value
    var proxy: Value
    var apiKey: Value

    /** The class-level defaults. */
    constructor ()
      ensures enabled == PyBool(false) && proxy == PyBool(false) && apiKey == PyNone
    {
      enabled, proxy, apiKey := PyBool(false), PyBool(false), PyNone;
    }

    /** `init_plugin`: a non-empty configuration replaces every setting;
        otherwise nothing changes. */
    method InitPlugin(config: Config)
      modifies this
      ensures ConfigGiven(config) ==>
        enabled == Setting(config.value, "enabled") && proxy == Setting(config.value, "proxy")
        && apiKey == Setting(config.value, "api_key")
      ensures !ConfigGiven(config) ==> unchanged(this)
    {
      if ConfigGiven(config) {
        var c := config.value;
        enabled := Setting(c, "enabled");
        proxy := Setting(c, "proxy");
        apiKey := Setting(c, "api_key");
      }
    }

    /** `__parse_html`: the records of the first matches, at most `count`,
        ending at the first match whose record raises. */
    method ParseHtml(matches: seq<ItemMatch>, count: int, other: string -> Option<string>)
      returns (medias: seq<MediaInfo>)
      ensures medias == BuiltPrefix(Outcomes(matches, Record(other)), count)
    {
      medias := BuildRecords(matches, count, Record(other));
    }

    /** The plugin may serve a listing: it is enabled and holds an API key. */
    predicate Serving()
      reads this
    {
      Truthy(enabled) && Truthy(apiKey)
    }

    /** `tvdb_discover`: a wrong apikey, a disabled plugin or a missing API
        key each give [] before any request; otherwise the rankings page is
        requested with the API key as cookie, and the answer is the records
        built from its matches (at most `count`), or [] when the request
        raised. */
    method Discover(apikey: string, apiToken: string, mtype: string, page: int, count: int,
                    response: Fetch<seq<ItemMatch>>, other: string -> Option<string>)
      returns (medias: seq<MediaInfo>, request: Option<PageRequest>)
      ensures apikey != apiToken || !Serving() ==> medias == [] && request == None
      ensures apikey == apiToken && Serving() ==>
        request == Some(PageRequest(Base + "/" + PagePath(page), apiKey, Truthy(proxy)))
        && medias == (if response.Raised? then [] else BuiltPrefix(Outcomes(response.body, Record(other)), count))
    {
      if apikey != apiToken {
        return [], None;
      }
      if !Truthy(enabled) {
        return [], None;
      }
      if !Truthy(apiKey) {
        return [], None;
      }
      var path: string;
      if mtype == "movies" {
        path := RankingsPath;
      } else {
        path := RankingsPath;
      }
      if page > 1 {
        path := path + "?page=" + IntToStr(page);
      }
      request := Some(PageRequest(Base + "/" + path, apiKey, Truthy(proxy)));
      match response {
        case Raised =>
          medias := [];
        case Fetched(matches) =>
          var parsed := ParseHtml(matches, count, other);
          TruncateBuilt(Outcomes(matches, Record(other)), count);
          medias := Slice(parsed, 0, count);
      }
    }

    /** The source descriptor the plugin registers. */
    static function Source(apiToken: string): DiscoverMediaSource {
      DiscoverMediaSource(
        "TheTVDB", "tvdb", "plugin/TvdbDiscover/tvdb_discover?apikey=" + apiToken,
        map[
          "mtype" := PyStr("series"), "company" := PyNone, "contentRating" := PyNone,
          "country" := PyStr("usa"), "genre" := PyNone, "lang" := PyStr("eng"),
          "sort" := PyStr("score"), "sortType" := PyStr("desc"), "status" := PyNone,
          "year" := PyNone])
    }

    /** `discover_source`: unless enabled with an API key the event is left
        alone; otherwise the descriptor is appended to `extra_sources`, or
        becomes its only element when the list was None or empty. */
    method DiscoverSource(event: DiscoverSourceEventData, apiToken: string)
      modifies event, event.extraSources
      ensures !Serving() ==>
        event.extraSources == old(event.extraSources)
        && (event.extraSources != null ==> event.extraSources.items == old(event.extraSources.items))
      ensures Serving() && (old(event.extraSources) == null || old(event.extraSources.items) == []) ==>
        fresh(event.extraSources) && event.extraSources.items == [Source(apiToken)]
      ensures Serving() && old(event.extraSources) != null && old(event.extraSources.items) != [] ==>
        event.extraSources == old(event.extraSources)
        && event.extraSources.items == old(event.extraSources.items) + [Source(apiToken)]
      ensures old(event.extraSources) != null && old(event.extraSources.items) == [] ==>
        old(event.extraSources).items == []
    {
      if !Truthy(enabled) || !Truthy(apiKey) {
        return;
      }
      AppendOrCreate(event, Source(apiToken));
    }
  }
}
