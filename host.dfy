/**
 * What the plugins exchange with the host application: the media record and
 * source descriptor they build, the discovery-source event whose list they
 * extend, their configuration, and the outcome of an HTTP request.
 */
module Host {
  import opened Py

  /** The keyword names the plugins pass to the host's media-record
      constructor. */
  datatype Field =
    | Type | Title | Year | TitleYear | MediaidPrefix | MediaId | Mediaid
    | PosterPath | BackdropPath | Overview | VoteAverage | ReleaseDate
    | Runtime | TypeName | DetailLink

  /** The keyword arguments handed to the host's media-record constructor;
      the record is taken to be exactly these arguments. */
  type MediaInfo = map<Field, Value>

  /** The arguments handed to the host's discovery-source constructor (its
      filter UI schema is not modelled). */
  datatype DiscoverMediaSource = DiscoverMediaSource(
    name: string,
    mediaidPrefix: string,
    apiPath: string,
    filterParams: map<string, Value>)

  /** The outcome of one HTTP request together with the pattern matching run
      over its body: either the request raised, or it returned and `body`
      is what the matching found. */
  datatype Fetch<T> = Raised | Fetched(body: T)

  /** The page request a listing plugin makes: the URL, the Cookie header
      and whether the host's proxy is used (the other headers are fixed). */
  datatype PageRequest = PageRequest(url: string, cookie: Value, proxied: bool)

  /** A plugin's configuration dict, or None. */
  type Config = Option<map<string, Value>>

  /** `if config:` holds for a non-empty dict. */
  predicate ConfigGiven(config: Config) {
    config.Some? && config.value != map[]
  }

  /** `config.get(key)` */
  function Setting(config: map<string, Value>, key: string): Value {
    Get(config, key, PyNone)
  }

  /** A Python list of sources: an object that other holders may share, so
      appending to it is seen through every reference to it. */
  class SourceList {
    var items: seq<DiscoverMediaSource>

    constructor (items: seq<DiscoverMediaSource>)
      ensures this.items == items
    {
      this.items := items;
    }

    /** `list.append(x)` */
    method Append(x: DiscoverMediaSource)
      modifies this
      ensures items == old(items) + [x]
    {
      items := items + [x];
    }
  }

  /** The payload of the discovery-source event: `extra_sources` is a list
      or None (null). */
  class DiscoverSourceEventData {
    var extraSources: SourceList?

    constructor (extraSources: SourceList?)
      ensures this.extraSources == extraSources
    {
      this.extraSources := extraSources;
    }
  }

  /** The registration step shared by the plugins that guard against a
      missing list: when `extra_sources` is None or empty, it is replaced by
      a fresh list holding only `src` (an empty list that others hold is
      left as it was); otherwise `src` is appended to the existing list in
      place, which every holder of that list sees. */
  method AppendOrCreate(event: DiscoverSourceEventData, src: DiscoverMediaSource)
    modifies event, event.extraSources
    ensures old(event.extraSources) == null || old(event.extraSources.items) == [] ==>
      fresh(event.extraSources) && event.extraSources.items == [src]
    ensures old(event.extraSources) != null && old(event.extraSources.items) != [] ==>
      event.extraSources == old(event.extraSources)
      && event.extraSources.items == old(event.extraSources.items) + [src]
    ensures old(event.extraSources) != null ==>
      (old(event.extraSources.items) == [] ==> old(event.extraSources).items == old(event.extraSources.items))
  {
    if event.extraSources == null || event.extraSources.items == [] {
      event.extraSources := new SourceList([src]);
    } else {
      event.extraSources.Append(src);
    }
  }
}
