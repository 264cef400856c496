/**
 * The scraping client of the first JavDB plugin
 * (javdbdiscover/javdbdiscover.py): the page URL, the extraction of one
 * record per grid item, and the error handling around both. The module
 * never imports `logger`, so every one of its `except` handlers raises a
 * NameError on its first line instead of logging and going on.
 */
module LegacyJavdbClient {
  import opened Py
  import opened Host

  /** The error every handler of the module raises. */
  const LoggerMissing: PyError := NameError("logger")

  /** What the selectors find in one `.grid-item`: the text of
      `.video-title`, the `href` of the first `a`, the `src` of the first
      `img` and the text of `.meta`; None where the element or attribute is
      missing (so reading it raises). */
  datatype GridItem = GridItem(title: Option<string>, href: Option<string>, src: Option<string>, meta: Option<string>)

  /** A record dict of the client. */
  type ClientRecord = map<string, string>

  /** Every part of the item is present, so nothing in the loop body raises. */
  predicate WellFormed(item: GridItem) {
    item.title.Some? && item.href.Some? && item.src.Some? && item.meta.Some?
  }

  class JavdbDiscover {
    const baseUrl: string
    const headers: map<string, Value>

    constructor (baseUrl: string, headers: map<string, Value>)
      ensures this.baseUrl == baseUrl && this.headers == headers
    {
      this.baseUrl := baseUrl;
      this.headers := headers;
    }

    /** `f"{self.base_url}/page/{page}"` */
    function PageUrl(page: int): string {
      baseUrl + "/page/" + IntToStr(page)
    }

    /** The page URL is the base URL and "/page/" followed by the decimal
        page number, which reads back as the page (after a '-' for a
        negative page). */
    lemma PageUrlSpec(page: int)
      ensures StartsWith(PageUrl(page), baseUrl + "/page/")
      ensures page >= 0 ==> DecimalValue(PageUrl(page)[|baseUrl| + 6..]) == page
      ensures page < 0 ==>
        PageUrl(page)[|baseUrl| + 6] == '-' && DecimalValue(PageUrl(page)[|baseUrl| + 7..]) == -page
    {
      IntToStrSpec(page);
      var u := PageUrl(page);
      assert u[|baseUrl| + 6..] == IntToStr(page);
      if page < 0 {
        assert u[|baseUrl| + 7..] == IntToStr(page)[1..];
      }
    }

    /** A link or cover source: kept when it begins with "http", otherwise
        appended to the base URL with no separator. */
    function Prefixed(s: string): string {
      if StartsWith(s, "http") then s else baseUrl + s
    }

    /** The record dict of a well-formed item. */
    function RecordOf(item: GridItem): ClientRecord
      requires WellFormed(item)
    {
      map[
        "title" := Strip(item.title.value),
        "link" := Prefixed(item.href.value),
        "cover" := Prefixed(item.src.value),
        "info" := Strip(item.meta.value)]
    }

    /** What `_parse_page_data` ends with: one record per item, in document
        order, when every item is well-formed; otherwise the first
        malformed item's handler raises the NameError, the outer handler
        catches it and raises another, and the whole page is lost. */
    function ParseOutcome(items: seq<GridItem>): Outcome<seq<ClientRecord>> {
      if forall k | 0 <= k < |items| :: WellFormed(items[k]) then
        Returned(seq(|items|, k requires 0 <= k < |items| && WellFormed(items[k]) => RecordOf(items[k])))
      else
        Threw(LoggerMissing)
    }

    /** A record has exactly the keys title, link, cover and info; title and
        info carry no surrounding whitespace; link and cover end with the
        captured source, which they equal when it begins with "http" and
        otherwise follow the base URL directly. */
    lemma RecordSpec(item: GridItem)
      requires WellFormed(item)
      ensures var r := RecordOf(item);
        r.Keys == {"title", "link", "cover", "info"}
        && Strip(r["title"]) == r["title"] && Strip(r["info"]) == r["info"]
        && (StartsWith(item.href.value, "http") ==> r["link"] == item.href.value)
        && (!StartsWith(item.href.value, "http") ==>
              StartsWith(r["link"], baseUrl) && r["link"][|baseUrl|..] == item.href.value)
        && (StartsWith(item.src.value, "http") ==> r["cover"] == item.src.value)
        && (!StartsWith(item.src.value, "http") ==>
              StartsWith(r["cover"], baseUrl) && r["cover"][|baseUrl|..] == item.src.value)
    {
      StripIdempotent(item.title.value);
      StripIdempotent(item.meta.value);
    }

    /** The page's records come back exactly when every item is
        well-formed, one per item and in item order; a single malformed
        item makes the parse raise the NameError. */
    lemma ParseOutcomeSpec(items: seq<GridItem>)
      ensures ParseOutcome(items).Returned? <==> forall k | 0 <= k < |items| :: WellFormed(items[k])
      ensures ParseOutcome(items).Threw? ==> ParseOutcome(items).error == NameError("logger")
      ensures ParseOutcome(items).Returned? ==>
        var rs := ParseOutcome(items).value;
        |rs| == |items|
        && forall k | 0 <= k < |items| :: WellFormed(items[k]) && rs[k] == RecordOf(items[k])
    {
      if forall k | 0 <= k < |items| :: WellFormed(items[k]) {
        var rs := ParseOutcome(items).value;
        forall k | 0 <= k < |items|
          ensures rs[k] == RecordOf(items[k])
        {
        }
      }
    }

    /** `_parse_page_data`: the loop over the grid items, appending one
        record per item, whose per-item handler raises instead of skipping
        the item. */
    method ParsePageData(items: seq<GridItem>) returns (outcome: Outcome<seq<ClientRecord>>)
      ensures outcome == ParseOutcome(items)
    {
      var result: seq<ClientRecord> := [];
      var i := 0;
      while i < |items|
        invariant 0 <= i <= |items|
        invariant |result| == i
        invariant forall k | 0 <= k < i :: WellFormed(items[k]) && result[k] == RecordOf(items[k])
      {
        var item := items[i];
        if !WellFormed(item) {
          return Threw(LoggerMissing);
        }
        var title := Strip(item.title.value);
        var link := item.href.value;
        if !StartsWith(link, "http") {
          link := baseUrl + link;
        }
        var cover := item.src.value;
        if !StartsWith(cover, "http") {
          cover := baseUrl + cover;
        }
        var info := Strip(item.meta.value);
        result := result + [map["title" := title, "link" := link, "cover" := cover, "info" := info]];
        i := i + 1;
      }
      assert result == seq(|items|, k requires 0 <= k < |items| && WellFormed(items[k]) => RecordOf(items[k]));
      outcome := Returned(result);
    }

    /** `_get_page_data`: requests the page URL; a failed request ends in
        the handler, which raises the NameError rather than returning None. */
    method GetPageData(page: int, response: Fetch<string>) returns (outcome: Outcome<string>, url: string)
      ensures url == PageUrl(page)
      ensures response.Raised? ==> outcome == Threw(LoggerMissing)
      ensures response.Fetched? ==> outcome == Returned(response.body)
    {
      url := baseUrl + "/page/" + IntToStr(page);
      match response {
        case Raised =>
          outcome := Threw(LoggerMissing);
        case Fetched(text) =>
          outcome := Returned(text);
      }
    }

    /** `get_page`: an empty page gives []; otherwise the parse outcome of
        its grid items, and any error raised below ends in the handler,
        which raises the NameError again. */
    method GetPage(page: int, response: Fetch<string>, items: seq<GridItem>)
      returns (outcome: Outcome<seq<ClientRecord>>, url: string)
      ensures url == PageUrl(page)
      ensures response.Raised? ==> outcome == Threw(LoggerMissing)
      ensures response == Fetched("") ==> outcome == Returned([])
      ensures response.Fetched? && response.body != "" ==> outcome == ParseOutcome(items)
      ensures outcome.Threw? ==> outcome.error == NameError("logger")
    {
      var data;
      data, url := GetPageData(page, response);
      if data.Threw? {
        return Threw(LoggerMissing), url;
      }
      if data.value == "" {
        return Returned([]), url;
      }
      outcome := ParsePageData(items);
      if outcome.Threw? {
        outcome := Threw(LoggerMissing);
      }
    }
  }

  /** On the site root, a relative source without a leading '/' is glued to
      the host name: "a.jpg" becomes "https://javdb.coma.jpg". */
  lemma NoSeparator()
    ensures forall c: JavdbDiscover | c.baseUrl == "https://javdb.com" ::
      c.Prefixed("a.jpg") == "https://javdb.coma.jpg"
  {
    assert !StartsWith("a.jpg", "http") by {
      assert "a.jpg"[0] != 'h';
    }
  }
}
