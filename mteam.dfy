/**
 * The M-Team discovery plugin (plugins.v2/mteamdiscover/__init__.py): it
 * turns the matches of a torrent-row pattern into torrent records, maps them
 * to media records and serves one page window of them; it registers itself
 * as a discovery source when it holds credentials.
 */
module MTeamPlugin {
  import opened Py
  import opened Year
  import opened Host

  const BaseApi: string := "https://kp.m-team.cc"
  const Unknown: string := "未知"

  /** The capture groups of one match of the torrent-row pattern that the
      record uses: group 3 (torrent id), 4 (title), 7 (size), 8 (upload
      time), 9 (seeders) and 11 (cover image source). */
  datatype TorrentRow = TorrentRow(
    torrentId: string,
    title: string,
    size: string,
    uploadTime: string,
    seeders: string,
    image: string)

  /** The torrent dict built for one match. */
  datatype Torrent = Torrent(
    id: string,
    title: string,
    size: string,
    uploadTime: string,
    seederCount: string,
    image: string,
    year: Option<string>)

  /** The arguments of the request to the torrent list. */
  datatype TorrentQuery = TorrentQuery(category: int, search: string, sort: string, sortType: string, page: int)

  /** The cover URL: kept when it begins with "http", otherwise placed under
      the site root after a '/'. */
  function ImageUrl(img: string): string {
    if StartsWith(img, "http") then img else BaseApi + "/" + img
  }

  /** The cover URL always begins with "http"; it equals the captured source
      exactly when that already began with "http", and otherwise ends with
      the captured source after the site root and a '/'; resolving it again
      changes nothing. */
  lemma ImageUrlSpec(img: string)
    ensures StartsWith(ImageUrl(img), "http")
    ensures ImageUrl(img) == img <==> StartsWith(img, "http")
    ensures !StartsWith(img, "http") ==>
      StartsWith(ImageUrl(img), BaseApi + "/") && ImageUrl(img)[|BaseApi| + 1..] == img
    ensures ImageUrl(ImageUrl(img)) == ImageUrl(img)
  {
    var u := ImageUrl(img);
    if !StartsWith(img, "http") {
      assert u[..4] == BaseApi[..4];
      assert u[..|BaseApi| + 1] == BaseApi + "/";
    }
  }

  /** The record built for one match (the body of the loop). */
  function TorrentOf(row: TorrentRow, cc: CharClasses): Torrent {
    var title := Strip(row.title);
    Torrent(row.torrentId, title, Strip(row.size), Strip(row.uploadTime), Strip(row.seeders),
            ImageUrl(row.image), SearchYear(title, cc))
  }

  /** One record per match, in match order. */
  function TorrentsOf(rows: seq<TorrentRow>, cc: CharClasses): seq<Torrent> {
    seq(|rows|, i requires 0 <= i < |rows| => TorrentOf(rows[i], cc))
  }

  /** What a torrent record holds: the id is capture group 3, the title is
      group 4 without surrounding whitespace, the cover URL is absolute, and
      the year is absent exactly when the title holds no year, and otherwise
      is the leftmost year in the title. */
  lemma TorrentSpec(row: TorrentRow, cc: CharClasses)
    ensures var t := TorrentOf(row, cc);
      t.id == row.torrentId
      && t.title == Strip(row.title) && Strip(t.title) == t.title
      && StartsWith(t.image, "http")
      && (t.year.None? <==> forall j | 0 <= j <= |t.title| :: !YearAt(t.title, j, cc))
      && (t.year.Some? ==> exists i | 0 <= i <= |t.title| - 4 ::
            (YearAt(t.title, i, cc) && t.year.value == t.title[i..i + 4]
             && forall j | 0 <= j < i :: !YearAt(t.title, j, cc)))
  {
    var t := TorrentOf(row, cc);
    StripIdempotent(row.title);
    ImageUrlSpec(row.image);
    SearchYearSpec(t.title, cc);
  }

  /** `__parse_torrents`: one record per match, in match order (the handler
      for a failing match is never reached: every group of a match is a
      string). */
  method ParseTorrents(rows: seq<TorrentRow>, cc: CharClasses) returns (torrents: seq<Torrent>)
    ensures |torrents| == |rows|
    ensures forall i | 0 <= i < |rows| :: torrents[i] == TorrentOf(rows[i], cc)
  {
    torrents := [];
    var i := 0;
    while i < |rows|
      invariant 0 <= i <= |rows|
      invariant |torrents| == i
      invariant forall k | 0 <= k < i :: torrents[k] == TorrentOf(rows[k], cc)
    {
      var t := TorrentOf(rows[i], cc);
      torrents := torrents + [t];
      assert torrents[i] == t;
      i := i + 1;
    }
  }

  /** `f"{title} ({year or '未知'})"` */
  function TitleWithYear(title: string, year: Option<string>): string {
    title + " (" + (if year.Some? && year.value != "" then year.value else Unknown) + ")"
  }

  /** The year field: the found year, or None. */
  function YearValue(year: Option<string>): Value {
    if year.Some? then PyStr(year.value) else PyNone
  }

  /** `float(seeder_count or 0)` raises: the count is non-empty and not a
      float literal (`parsesAsFloat` stands for Python's `float`). */
  predicate SeedersFail(t: Torrent, parsesAsFloat: string -> bool) {
    t.seederCount != "" && !parsesAsFloat(t.seederCount)
  }

  /** `__torrent_to_media`: the media record of a torrent, or None when the
      conversion raises. */
  function MediaOf(t: Torrent, parsesAsFloat: string -> bool): Option<MediaInfo> {
    if SeedersFail(t, parsesAsFloat) then None
    else Some(map[
      Type := PyStr("种子"),
      Title := PyStr(t.title),
      Year := YearValue(t.year),
      TitleYear := PyStr(TitleWithYear(t.title, t.year)),
      MediaidPrefix := PyStr("mteam"),
      MediaId := PyStr(t.id),
      PosterPath := PyStr(t.image),
      Overview := PyStr("大小: " + t.size + "\n上传时间: " + t.uploadTime + "\n做种数: " + t.seederCount)])
  }

  /** The media record of a torrent carries its id, title and year, and a
      title_year that shows the year, or "未知" when the year is None or
      empty. */
  lemma MediaFields(t: Torrent, parsesAsFloat: string -> bool)
    requires MediaOf(t, parsesAsFloat).Some?
    ensures var m := MediaOf(t, parsesAsFloat).value;
      m[MediaId] == PyStr(t.id) && m[Title] == PyStr(t.title)
      && m[Year] == (if t.year.Some? then PyStr(t.year.value) else PyNone)
      && (t.year.None? || t.year.value == "" ==> m[TitleYear] == PyStr(t.title + " (" + Unknown + ")"))
      && (t.year.Some? && t.year.value != "" ==> m[TitleYear] == PyStr(t.title + " (" + t.year.value + ")"))
  {
  }

  /** The shown year part of a torrent's title_year is the leftmost year of
      its title, or "未知" when the title holds none; the media id is the
      torrent id. */
  lemma MediaOfSpec(row: TorrentRow, cc: CharClasses, parsesAsFloat: string -> bool)
    requires MediaOf(TorrentOf(row, cc), parsesAsFloat).Some?
    ensures var t := TorrentOf(row, cc);
      var m := MediaOf(t, parsesAsFloat).value;
      m[MediaId] == PyStr(row.torrentId)
      && m[Title] == PyStr(Strip(row.title))
      && (SearchYear(t.title, cc).None? ==>
            m[Year] == PyNone && m[TitleYear] == PyStr(t.title + " (" + Unknown + ")"))
      && (SearchYear(t.title, cc).Some? ==>
            m[Year] == PyStr(SearchYear(t.title, cc).value)
            && m[TitleYear] == PyStr(t.title + " (" + SearchYear(t.title, cc).value + ")"))
  {
    var t := TorrentOf(row, cc);
    MediaFields(t, parsesAsFloat);
    SearchYearSpec(t.title, cc);
    if t.year.Some? {
      assert |t.year.value| == 4;
    }
  }

  /** `[__torrent_to_media(t) for t in torrents]`: all records, or None as
      soon as one conversion raises. */
  function MediaAll(ts: seq<Torrent>, parsesAsFloat: string -> bool): (r: Option<seq<MediaInfo>>)
    ensures r.Some? <==> forall i | 0 <= i < |ts| :: !SeedersFail(ts[i], parsesAsFloat)
    ensures r.Some? ==>
      |r.value| == |ts| && forall i | 0 <= i < |ts| :: Some(r.value[i]) == MediaOf(ts[i], parsesAsFloat)
  {
    if |ts| == 0 then Some([])
    else
      match (MediaOf(ts[0], parsesAsFloat), MediaAll(ts[1..], parsesAsFloat))
      case (Some(m), Some(ms)) => Some([m] + ms)
      case _ => None
  }

  /** The converted torrents from position `start` on, at most `count` of
      them, when every seeder count converts; none when one does not. */
  function TorrentWindow(ts: seq<Torrent>, start: int, count: int, parsesAsFloat: string -> bool): seq<MediaInfo> {
    match MediaAll(ts, parsesAsFloat)
    case None => []
    case Some(results) => Slice(results, start, start + count)
  }

  /** The window holds at most `count` records; one seeder count that does
      not convert empties it; otherwise it holds min(count, what remains
      after `start`) records, its k-th record is the media record of torrent
      start + k, and it is empty exactly when the count is 0 or `start` is
      past the last torrent. */
  lemma TorrentWindowSpec(ts: seq<Torrent>, start: int, count: int, parsesAsFloat: string -> bool)
    requires start >= 0 && count >= 0
    ensures |TorrentWindow(ts, start, count, parsesAsFloat)| <= count
    ensures (exists i | 0 <= i < |ts| :: SeedersFail(ts[i], parsesAsFloat)) ==>
      TorrentWindow(ts, start, count, parsesAsFloat) == []
    ensures (forall i | 0 <= i < |ts| :: !SeedersFail(ts[i], parsesAsFloat)) ==>
      var ms := TorrentWindow(ts, start, count, parsesAsFloat);
      (ms == [] <==> count == 0 || |ts| <= start)
      && |ms| == (if |ts| <= start then 0 else if |ts| - start < count then |ts| - start else count)
      && forall k | 0 <= k < |ms| :: start + k < |ts| && Some(ms[k]) == MediaOf(ts[start + k], parsesAsFloat)
  {
    var all := MediaAll(ts, parsesAsFloat);
    if all.Some? {
      var ms := Slice(all.value, start, start + count);
      forall k | 0 <= k < |ms|
        ensures start + k < |ts| && Some(ms[k]) == MediaOf(ts[start + k], parsesAsFloat)
      {
        assert ms[k] == all.value[start + k];
      }
    }
  }

  /** The whole answer of a discovery call that passed the apikey check:
      empty when the request raised, otherwise the page window
      `results[(page-1)*count : (page-1)*count+count]`. */
  function Listing(response: Fetch<seq<TorrentRow>>, page: int, count: int,
                   cc: CharClasses, parsesAsFloat: string -> bool): seq<MediaInfo>
  {
    match response
    case Raised => []
    case Fetched(rows) => TorrentWindow(TorrentsOf(rows, cc), (page - 1) * count, count, parsesAsFloat)
  }

  /** For a page of at least 1 and a non-negative count, the answer is at
      most `count` records, and none when the request raised. */
  lemma ListingSpec(response: Fetch<seq<TorrentRow>>, page: int, count: int,
                    cc: CharClasses, parsesAsFloat: string -> bool)
    requires page >= 1 && count >= 0
    ensures |Listing(response, page, count, cc, parsesAsFloat)| <= count
    ensures response.Raised? ==> Listing(response, page, count, cc, parsesAsFloat) == []
  {
    var start := (page - 1) * count;
    assert start >= 0 by {
      assert page - 1 >= 0;
    }
    if response.Fetched? {
      TorrentWindowSpec(TorrentsOf(response.body, cc), start, count, parsesAsFloat);
    }
  }

  class MTeamDiscover {
    var enabled: Value
    var proxy: Value
    var username: Value
    var password: Value
    var cookie: Value

    /** The class-level defaults. */
    constructor ()
      ensures enabled == PyBool(false) && proxy == PyBool(false)
      ensures username == PyNone && password == PyNone && cookie == PyNone
    {
      enabled, proxy := PyBool(false), PyBool(false);
      username, password, cookie := PyNone, PyNone, PyNone;
    }

    /** `init_plugin`: a non-empty configuration replaces every setting
        (a missing key reads as None); otherwise nothing changes. */
    method InitPlugin(config: Config)
      modifies this
      ensures ConfigGiven(config) ==>
        enabled == Setting(config.value, "enabled") && proxy == Setting(config.value, "proxy")
        && username == Setting(config.value, "username") && password == Setting(config.value, "password")
        && cookie == Setting(config.value, "cookie")
      ensures !ConfigGiven(config) ==> unchanged(this)
    {
      if ConfigGiven(config) {
        var c := config.value;
        enabled := Setting(c, "enabled");
        proxy := Setting(c, "proxy");
        username := Setting(c, "username");
        password := Setting(c, "password");
        cookie := Setting(c, "cookie");
      }
    }

    /** `mteam_discover`: an apikey other than the host's token gives [] and
        no request; otherwise the request is made with the filter arguments
        and the answer is `Listing` of its outcome. */
    method Discover(apikey: string, apiToken: string, category: int, search: string,
                    sort: string, sortType: string, page: int, count: int,
                    response: Fetch<seq<TorrentRow>>, cc: CharClasses,
                    parsesAsFloat: string -> bool)
      returns (medias: seq<MediaInfo>, request: Option<TorrentQuery>)
      ensures apikey != apiToken ==> medias == [] && request == None
      ensures apikey == apiToken ==>
        request == Some(TorrentQuery(category, search, sort, sortType, page))
        && medias == Listing(response, page, count, cc, parsesAsFloat)
    {
      if apikey != apiToken {
        return [], None;
      }
      request := Some(TorrentQuery(category, search, sort, sortType, page));
      match response {
        case Raised =>
          medias := [];
        case Fetched(rows) =>
          var torrents := ParseTorrents(rows, cc);
          assert torrents == TorrentsOf(rows, cc);
          var converted := MediaAll(torrents, parsesAsFloat);
          if converted.None? {
            medias := [];
          } else {
            var results := converted.value;
            var start := (page - 1) * count;
            medias := Slice(results, start, start + count);
          }
      }
    }

    /** Registration is allowed when the plugin is enabled and holds a
        cookie, or else both a username and a password. */
    predicate CanRegister()
      reads this
    {
      Truthy(enabled) && (Truthy(cookie) || (Truthy(username) && Truthy(password)))
    }

    /** The source descriptor the plugin registers. */
    static function Source(apiToken: string): DiscoverMediaSource {
      DiscoverMediaSource(
        "馒头", "mteamdiscover", "plugin/MTeamDiscover/mteam_discover?apikey=" + apiToken,
        map["category" := PyInt(0), "search" := PyStr(""), "sort" := PyStr("id"), "sortType" := PyStr("desc")])
    }

    /** `discover_source`: without registration rights the event is left
        alone; otherwise the descriptor is appended to `extra_sources`, or
        becomes its only element when the list was None or empty. */
    method DiscoverSource(event: DiscoverSourceEventData, apiToken: string)
      modifies event, event.extraSources
      ensures !CanRegister() ==>
        event.extraSources == old(event.extraSources)
        && (event.extraSources != null ==> event.extraSources.items == old(event.extraSources.items))
      ensures CanRegister() && (old(event.extraSources) == null || old(event.extraSources.items) == []) ==>
        fresh(event.extraSources) && event.extraSources.items == [Source(apiToken)]
      ensures CanRegister() && old(event.extraSources) != null && old(event.extraSources.items) != [] ==>
        event.extraSources == old(event.extraSources)
        && event.extraSources.items == old(event.extraSources.items) + [Source(apiToken)]
      ensures old(event.extraSources) != null && old(event.extraSources.items) == [] ==>
        old(event.extraSources).items == []
    {
      if !Truthy(enabled) || (!Truthy(cookie) && !(Truthy(username) && Truthy(password))) {
        return;
      }
      AppendOrCreate(event, Source(apiToken));
    }
  }
}
