/**
 * The first JavDB plugin (javdbdiscover/__init__.py): its settings and
 * scraping-client field, the listing built from the client's records, and
 * source registration. The module imports the client class under the name
 * `JavdbDiscover` and then defines the plugin class under the same name, so
 * the object `init_plugin` builds is another plugin instance, not a client:
 * the field holds the arguments it was built with, and what its `get_page`
 * call ends with is given to `Discover`.
 */
module LegacyJavdbPlugin {
  import opened Py
  import opened Host
  import LegacyJavdbClient

  const SiteRoot: string := "https://javdb.com"

  /** The object `JavdbDiscover(base_url=…, headers=…)` builds. */
  datatype ClientHandle = ClientHandle(baseUrl: string, headers: map<string, Value>)

  /** The media record of one result dict, with `.get` defaults. */
  function MediaOf(item: map<string, string>): MediaInfo {
    map[
      Type := PyStr("番号"),
      Title := PyStr(Get(item, "title", "")),
      Year := PyNone,
      TitleYear := PyStr(Get(item, "title", "")),
      MediaidPrefix := PyStr("javdb"),
      MediaId := PyStr(Get(item, "id", "")),
      PosterPath := PyStr(Get(item, "cover", "")),
      VoteAverage := PyNone,
      Runtime := PyNone,
      Overview := PyStr(Get(item, "info", ""))]
  }

  /** The media records of the first `count` results (Python's `[:count]`),
      in order. */
  function MediaList(results: seq<map<string, string>>, count: int): (r: seq<MediaInfo>)
    ensures |r| == |Slice(results, 0, count)|
    ensures forall k | 0 <= k < |r| :: r[k] == MediaOf(results[k])
  {
    var head := Slice(results, 0, count);
    PrefixSlice(results, count);
    seq(|head|, k requires 0 <= k < |head| => MediaOf(head[k]))
  }

  /** For a non-negative count there are min(len(results), count) records;
      a negative count drops that many results from the end. */
  lemma MediaListLength(results: seq<map<string, string>>, count: int)
    ensures count >= 0 ==> |MediaList(results, count)| == (if |results| < count then |results| else count)
    ensures count < 0 ==> |MediaList(results, count)| == (if |results| + count < 0 then 0 else |results| + count)
  {
    PrefixSlice(results, count);
  }

  /** Every record the client builds lacks an "id" key, so its media id is
      always empty; the title, poster and overview are the record's title,
      cover and info. */
  lemma ClientRecordMedia(c: LegacyJavdbClient.JavdbDiscover, item: LegacyJavdbClient.GridItem)
    requires LegacyJavdbClient.WellFormed(item)
    ensures var r := c.RecordOf(item);
      var m := MediaOf(r);
      m[MediaId] == PyStr("")
      && m[Title] == m[TitleYear] == PyStr(r["title"])
      && m[PosterPath] == PyStr(r["cover"])
      && m[Overview] == PyStr(r["info"])
  {
    c.RecordSpec(item);
    var r := c.RecordOf(item);
    assert "id" !in r.Keys by {
      assert "id" != "title" && "id" != "link" && "id" != "cover" && "id" != "info";
    }
  }

  class JavdbDiscover {
    var enabled: Value
    var proxy: Value
    var cookie: Value
    var javdb: Option<ClientHandle>

    /** The class-level defaults. */
    constructor ()
      ensures enabled == PyBool(false) && proxy == PyBool(false) && cookie == PyNone && javdb == None
    {
      enabled, proxy, cookie, javdb := PyBool(false), PyBool(false), PyNone, None;
    }

    /** The object the plugin builds for its settings. */
    function Handle(): ClientHandle
      reads this
    {
      ClientHandle(SiteRoot, map["User-Agent" := PyStr("Mozilla/5.0"), "Cookie" := Or(cookie, PyStr(""))])
    }

    /** `init_plugin`: a non-empty configuration replaces the settings and,
        when it enables the plugin, the client field is set to a new object
        built with the site root and a cookie header ("" for a falsy
        cookie); `construct` is what building it raises, if anything, and
        then the field keeps its value and the error escapes. The field is
        left as it was when the plugin is not enabled. */
    method InitPlugin(config: Config, construct: Option<PyError>) returns (error: Option<PyError>)
      modifies this
      ensures !ConfigGiven(config) ==> unchanged(this) && error == None
      ensures ConfigGiven(config) ==>
        enabled == Setting(config.value, "enabled") && proxy == Setting(config.value, "proxy")
        && cookie == Setting(config.value, "cookie")
      ensures ConfigGiven(config) && Truthy(enabled) && construct == None ==>
        javdb == Some(Handle()) && error == None
      ensures ConfigGiven(config) && Truthy(enabled) && construct.Some? ==>
        javdb == old(javdb) && error == construct
      ensures ConfigGiven(config) && !Truthy(enabled) ==> javdb == old(javdb) && error == None
    {
      error := None;
      if ConfigGiven(config) {
        var c := config.value;
        enabled := Setting(c, "enabled");
        proxy := Setting(c, "proxy");
        cookie := Setting(c, "cookie");
        if Truthy(enabled) {
          if construct.Some? {
            return construct;
          }
          var headers := map["User-Agent" := PyStr("Mozilla/5.0"), "Cookie" := Or(cookie, PyStr(""))];
          javdb := Some(ClientHandle(SiteRoot, headers));
        }
      }
    }

    /** `stop_service`: drops the client object and keeps the settings. */
    method StopService()
      modifies this
      ensures javdb == None
      ensures enabled == old(enabled) && proxy == old(proxy) && cookie == old(cookie)
    {
      javdb := None;
    }

    /** The plugin may serve a listing: it is enabled and holds a client
        object (an object is always true). */
    predicate Serving()
      reads this
    {
      Truthy(enabled) && javdb.Some?
    }

    /** `javdb_discover`: a wrong apikey, a disabled plugin or a missing
        client object gives [] without asking for a page; otherwise page
        `page` is asked for, and the answer is the media records of the
        first `count` results, or [] when the call raised or returned no
        results. The query is not used. */
    method Discover(apikey: string, apiToken: string, query: string, page: int, count: int,
                    results: Outcome<seq<map<string, string>>>)
      returns (medias: seq<MediaInfo>, request: Option<int>)
      ensures apikey != apiToken || !Serving() ==> medias == [] && request == None
      ensures apikey == apiToken && Serving() ==>
        request == Some(page)
        && medias == (if results.Threw? then [] else MediaList(results.value, count))
    {
      if apikey != apiToken {
        return [], None;
      }
      if !Truthy(enabled) || javdb.None? {
        return [], None;
      }
      request := Some(page);
      if results.Threw? || results.value == [] {
        return [], request;
      }
      var items := Slice(results.value, 0, count);
      PrefixSlice(results.value, count);
      medias := [];
      var i := 0;
      while i < |items|
        invariant 0 <= i <= |items|
        invariant |medias| == i
        invariant forall k | 0 <= k < i :: medias[k] == MediaOf(items[k])
      {
        medias := medias + [MediaOf(items[i])];
        i := i + 1;
      }
    }

    /** Registration is allowed when the plugin is enabled and holds a
        cookie. */
    predicate CanRegister()
      reads this
    {
      Truthy(enabled) && Truthy(cookie)
    }

    /** The source descriptor the plugin registers. */
    static function Source(apiToken: string): DiscoverMediaSource {
      DiscoverMediaSource(
        "JavDB", "javdb", "plugin/JavdbDiscover/javdb_discover?apikey=" + apiToken, map["query" := PyStr("")])
    }

    /** `discover_source`: unless enabled with a cookie the event is left
        alone; otherwise the descriptor is appended to `extra_sources`, or
        becomes its only element when the list was None or empty. */
    method DiscoverSource(event: DiscoverSourceEventData, apiToken: string)
      modifies event, event.extraSources
      ensures !CanRegister() ==>
        event.extraSources == old(event.extraSources)
        && (event.extraSources != null ==> event.extraSources.items == old(event.extraSources.items))
      ensures CanRegister() && (old(event.extraSources) == null || old(event.extraSources.items) == []) ==>
        fresh(event.extraSources) && event.extraSources.items == [Source(apiToken)]
      ensures CanRegister() && old(event.extraSources) != null && old(event.extraSources.items) != [] ==>
        event.extraSources == old(event.extraSources)
        && event.extraSources.items == old(event.extraSources.items) + [Source(apiToken)]
      ensures old(event.extraSources) != null && old(event.extraSources.items) == [] ==>
        old(event.extraSources).items == []
    {
      if !Truthy(enabled) || !Truthy(cookie) {
        return;
      }
      AppendOrCreate(event, Source(apiToken));
    }
  }
}
